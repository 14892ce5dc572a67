# Storefront state stores, modelled in Dafny

This project models the two Pinia stores of a Vue storefront client:

- the **search store** (`src/stores/search.js`): a category directory, a
  query state (`selectedCategory`, `searchTerm`, `page`), one result
  collection with its pagination fields (`count`, `next`, `previous`), and a
  `loading` flag and `error` message shared by `fetchCategories` and
  `searchProducts`;
- the **product store** (`src/stores/products.js`): three listings
  (`discounted` with `discountedCount`, `newProducts` with `newCount`,
  `topOrdered`), fetched by `fetchDiscounted`, `fetchNewProducts` and
  `fetchTopOrdered`, which share one `loading` flag and one `error` message.

Files:

- `js.dfy` (module `Js`): the JavaScript values the stores handle
  (`undefined`, `null`, booleans, numbers, strings, arrays, objects),
  truthiness, `Array.isArray`, property reads (which throw on `null` and
  `undefined`), and `Outcome`, the settled result of one awaited GET.
- `search_store.dfy` (module `SearchStore`) and `product_store.dfy` (module
  `ProductStore`): for each store, a datatype for its state object, pure
  functions giving each transition, a class `Store` whose fields are the
  store's fields and whose methods assign them step by step in the order of
  the source's `try`/`catch`/`finally`, and lemmas about sequences of calls.

An `async` action is split at its `await`: `Begin` is the synchronous part
before the GET (`loading = true`, `error = null`), and `Complete…(response)`
is the rest, run with the settled GET. The whole action (`FetchCategories`,
`SearchProducts`, `FetchDiscounted`, …) calls both. Each method is proved to
produce exactly the state a specification function gives (`StartFetch`,
`AfterCategories`, `AfterSearch`, `AfterFetch`), and those functions state
field by field what changes and what does not. A trace semantics (`Step`,
`Run`) runs whole actions one after another; the `Run…` lemmas relate the
store after any sequence of calls to independent "last call of this kind"
definitions.

The model follows the store code as written:

- The product store stores the whole response body (`res.data`) in each
  listing and reads its `count`; it does not extract `results`, does not
  derive an `image` or `isNew` field, has no fallback for bare arrays, adds no
  default `page`/`page_size`, and keeps no `next`/`previous`.
- Both stores have one `loading`/`error` pair shared by all their actions,
  not one per listing.
- `searchProducts` stores result items as received; no `image` field is
  derived.
- A `null` or `undefined` search body is assigned to `results` before
  `data.length` throws; the `catch` then sets the error, so `results` ends
  `null` while `count`, `next` and `previous` keep their values. The product
  store behaves likewise for `res.data.count` in its first two actions.

## Model

| member | source | states |
|---|---|---|
| `SearchStore.ResolveQuery` | src/stores/search.js:50-59 | every key of `params` is kept, a key is added only from a truthy store field, keys other than `category`/`search`/`page` keep the caller's value, and each of those three takes the store value exactly when the caller's is falsy and the store's truthy |
| `SearchStore.ExplicitSearchWins` | src/stores/search.js:50-59 | with state `{selectedCategory: "c1", searchTerm: "", page: 2}` and params `{search: "shoe"}` the query is `{category: "c1", search: "shoe", page: 2}` |
| `SearchStore.NullCategoryAddsNoKey` | src/stores/search.js:52-53 | with `selectedCategory` null and params `{}` the query has no `category` key |
| `SearchStore.StartFetch` | src/stores/search.js:20-21 | a fetch starts with `loading` true and `error` null and changes nothing else |
| `SearchStore.AfterCategories` | src/stores/search.js:22-29 | on success only `categories` changes, to the body; on failure `error` is the categories message and `categories` is kept; `loading` ends false |
| `SearchStore.AfterSearch` | src/stores/search.js:65-84 | an envelope's `results`/`count`/`next`/`previous` are copied; any other readable body becomes `results` with `count` its `length` or 0 and null cursors; a null body becomes `results` and sets the error with the pagination fields kept; a failure sets the error and keeps the collection; categories and query state are untouched; `loading` ends false |
| `SearchStore.UnreadableExactlyWhenLengthThrows` | src/stores/search.js:68-76 | a body takes the `Unreadable` branch of `AfterSearch` exactly when `data.length` throws in the method's `else` branch, and for a `Bare` body `count` is the value that read yields, or 0 when it is falsy |
| `SearchStore.BareArrayCountsItsItems` | src/stores/search.js:73-78 | a bare array body is stored as the results with `count` its length and both cursors null |
| `SearchStore.SetterIsIdempotentAssignment` | src/stores/search.js:32-42 | each setter assigns exactly its own field, starts no fetch, and applying it twice equals applying it once |
| `SearchStore.RunEndsIdle` | src/stores/search.js:27-28 | after any sequence of completed calls from an idle store, `loading` is false |
| `SearchStore.RunErrorIsLastFetch` | src/stores/search.js:19-84 | after any sequence of calls, `error` is the message of the last completed fetch, or null if it succeeded; setters leave it alone |
| `SearchStore.RunResultsIsLastSearch` | src/stores/search.js:68-81 | after any sequence of calls, `results` is the collection of the last search whose body was received; failures keep the previous one |
| `SearchStore.RunCategoriesIsLastFetch` | src/stores/search.js:23-26 | after any sequence of calls, `categories` is the body of the last successful `fetchCategories` |
| `SearchStore.RunQueryIsLastSet` | src/stores/search.js:32-42 | after any sequence of calls, each query field holds the argument of the last call of its setter; fetches never change it |
| `SearchStore.Store.constructor` | src/stores/search.js:5-16 | empty `categories` and `results`, null `selectedCategory`/`next`/`previous`, `searchTerm` `''`, `count` 0, `page` 1, `loading` false, `error` null |
| `SearchStore.Store.Begin` | src/stores/search.js:45-46 | the new state is `StartFetch` of the old |
| `SearchStore.Store.CompleteFetchCategories` | src/stores/search.js:22-29 | the new state is `AfterCategories` of the old state and the response |
| `SearchStore.Store.FetchCategories` | src/stores/search.js:19-30 | the whole action moves the store as one `Step` |
| `SearchStore.Store.SetCategory` | src/stores/search.js:32-34 | only `selectedCategory` changes, to the argument |
| `SearchStore.Store.SetSearchTerm` | src/stores/search.js:36-38 | only `searchTerm` changes, to the argument |
| `SearchStore.Store.SetPage` | src/stores/search.js:40-42 | only `page` changes, to the argument |
| `SearchStore.Store.BuildQuery` | src/stores/search.js:50-59 | the query built by updating a copy of `params` in place is `ResolveQuery` of the params and the store's query state |
| `SearchStore.Store.CompleteSearchProducts` | src/stores/search.js:65-84 | the new state is `AfterSearch` of the old state and the response |
| `SearchStore.Store.SearchProducts` | src/stores/search.js:44-85 | the query sent is resolved from the query state before the call, and the whole action moves the store as one `Step` |
| `ProductStore.StartFetch` | src/stores/products.js:23-24 | an action starts with `loading` true and `error` null and changes nothing else |
| `ProductStore.AfterFetch` | src/stores/products.js:25-33 | other listings are untouched; a failure sets the action's message and keeps the listing's data and count; a received body is stored whole; its `count` is stored for the counted listings, or, for a null body, the error is set and the count kept; `loading` ends false |
| `ProductStore.RunEndsIdle` | src/stores/products.js:31-32 | after any completed action `loading` is false |
| `ProductStore.RunErrorIsLastAction` | src/stores/products.js:17-18 | with the shared `error`, after any sequence of actions it holds only the last action's message, or null if that action succeeded |
| `ProductStore.RunItemsIsLastPayload` | src/stores/products.js:26-30 | after any sequence of actions, each listing holds the whole body of its last successful fetch, or its earlier value if there was none |
| `ProductStore.RunCountIsLastCount` | src/stores/products.js:26-28 | after any sequence of actions, `discountedCount`/`newCount` is the `count` of the last readable body received for that listing |
| `ProductStore.Store.constructor` | src/stores/products.js:8-19 | the three listings are empty, both counts 0, `loading` false, `error` null |
| `ProductStore.Store.Begin` | src/stores/products.js:23-24 | the new state is `StartFetch` of the old |
| `ProductStore.Store.CompleteDiscounted` | src/stores/products.js:25-33 | the new state is `AfterFetch` for the discounted listing |
| `ProductStore.Store.CompleteNewProducts` | src/stores/products.js:39-47 | the new state is `AfterFetch` for the new-products listing |
| `ProductStore.Store.CompleteTopOrdered` | src/stores/products.js:53-60 | the new state is `AfterFetch` for the top-ordered listing |
| `ProductStore.Store.FetchDiscounted` | src/stores/products.js:22-34 | `params` are sent unchanged, with no defaults, and the action moves the store as one `Step` |
| `ProductStore.Store.FetchNewProducts` | src/stores/products.js:36-48 | `params` are sent unchanged, with no defaults, and the action moves the store as one `Step` |
| `ProductStore.Store.FetchTopOrdered` | src/stores/products.js:50-61 | the action sends no parameters and moves the store as one `Step` |

## Left out

- The HTTP transport (axios) and the endpoint URLs: each GET is an input
  `Outcome` (`Ok(body)` or `Fail`); the body does not depend on the query in
  the model. Network, status and parse failures are all `Fail`, as the
  source's `catch` does not tell them apart.
- Concurrency: calls run one after another, each completing before the next
  starts. Two overlapping calls that race on the shared `loading`, `error`
  and data fields (last write wins) are not modelled.
- Floating-point numbers and `NaN`: numbers are integers, so `NaN` as a falsy
  value is not represented.
- Property reads model own properties of objects and the `length` of arrays
  and strings only; array index keys and inherited members read as
  `undefined`. The stores read neither.
- A string's `length` counts its Unicode code points, not its UTF-16 code
  units as JavaScript does, so for a string search body containing
  characters outside the Basic Multilingual Plane the modelled `count`
  (`data.length || 0`) is smaller than the real one.
- `params` is a plain object held as a map from keys to values; a non-object
  argument to `searchProducts`, `fetchDiscounted` or `fetchNewProducts` is not
  modelled, and the default `params = {}` is the caller passing an empty map.
- `src/main.js` (application bootstrap) and `src/config/business.js` (brand
  and theme data) hold no store logic and are not part of this model.
