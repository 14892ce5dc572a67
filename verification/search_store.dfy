/** The search store: a category directory, a query (category, term, page)
    and one paginated result collection, with a `loading` flag and an
    `error` message shared by its two fetch actions. Each fetch is split
    into its synchronous start and its completion with the settled GET. */
module SearchStore {
  import opened Js

  const CategoriesFailure: string := "Failed to fetch categories."
  const ProductsFailure: string := "Failed to fetch products."

  /** The store's state object, one component per field of `state()`. */
  datatype SearchState = SearchState(
    categories: Value,
    selectedCategory: Value,
    searchTerm: Value,
    results: Value,
    count: Value,
    next: Value,
    previous: Value,
    page: Value,
    loading: bool,
    error: Value)

  /** What `state()` returns. */
  function Initial(): SearchState {
    SearchState(Arr([]), Null, Str(""), Arr([]), Num(0), Null, Null, Num(1), false, Null)
  }

  // ---------------------------------------------------------------------
  // Query resolution

  /** Whether the store's value for `key` takes the place of the caller's:
      the caller's value is falsy (absent included) and the store's is truthy. */
  predicate FillsIn(params: map<string, Value>, key: string, stored: Value) {
    !Truthy(Member(params, key)) && Truthy(stored)
  }

  /** One `if (!query.key && stored) query.key = stored`. */
  function FallBack(query: map<string, Value>, key: string, stored: Value): map<string, Value> {
    if FillsIn(query, key, stored) then query[key := stored] else query
  }

  /** The query `searchProducts` sends: a copy of `params` in which the store's
      `selectedCategory`, `searchTerm` and `page` fill in `category`, `search`
      and `page` where the caller's value is falsy and the store's is truthy. */
  function ResolveQuery(params: map<string, Value>, selectedCategory: Value, searchTerm: Value, page: Value)
    : (query: map<string, Value>)
    // no key of params is dropped, and a key is added only from a truthy store field
    ensures forall k :: k in query <==>
      k in params
      || (k == "category" && Truthy(selectedCategory))
      || (k == "search" && Truthy(searchTerm))
      || (k == "page" && Truthy(page))
    // every other key keeps the caller's value
    ensures forall k :: k in params && k != "category" && k != "search" && k != "page" ==> query[k] == params[k]
    // the three defaulted keys
    ensures Member(query, "category")
         == if FillsIn(params, "category", selectedCategory) then selectedCategory else Member(params, "category")
    ensures Member(query, "search")
         == if FillsIn(params, "search", searchTerm) then searchTerm else Member(params, "search")
    ensures Member(query, "page")
         == if FillsIn(params, "page", page) then page else Member(params, "page")
  {
    FallBack(FallBack(FallBack(params, "category", selectedCategory), "search", searchTerm), "page", page)
  }

  /** A caller's `search` wins over the stored term, while `category` and
      `page` come from the store. */
  lemma ExplicitSearchWins()
    ensures ResolveQuery(map["search" := Str("shoe")], Str("c1"), Str(""), Num(2))
         == map["category" := Str("c1"), "search" := Str("shoe"), "page" := Num(2)]
  {
  }

  /** A null `selectedCategory` adds no `category` key. */
  lemma NullCategoryAddsNoKey()
    ensures ResolveQuery(map[], Null, Str("red"), Num(1))
         == map["search" := Str("red"), "page" := Num(1)]
  {
  }

  // ---------------------------------------------------------------------
  // Response handling

  /** How `searchProducts` reads a response body. */
  datatype Shape =
    | Envelope    // truthy, with an array `results`: a paginated envelope
    | Bare        // anything else that has properties: stored as the results
    | Unreadable  // null or undefined: `data.length` throws

  function ShapeOf(data: Value): Shape {
    if Truthy(data) && IsArray(Prop(data, "results")) then Envelope
    else if Nullish(data) then Unreadable
    else Bare
  }

  /** `data.length || 0` for a body that is not null or undefined. */
  function LengthOrZero(data: Value): Value
    requires !Nullish(data)
  {
    var length := Prop(data, "length");
    if Truthy(length) then length else Num(0)
  }

  /** The start of either fetch: `loading` set and `error` cleared, nothing else. */
  function StartFetch(s: SearchState): (t: SearchState)
    ensures t.loading && t.error == Null
    ensures t.(loading := s.loading, error := s.error) == s
  {
    s.(loading := true, error := Null)
  }

  /** The completion of `fetchCategories`. */
  function AfterCategories(s: SearchState, response: Outcome): (t: SearchState)
    ensures !t.loading
    ensures response.Ok? ==> t.categories == response.payload && t.error == s.error
    ensures response.Fail? ==> t.categories == s.categories && t.error == Str(CategoriesFailure)
    // nothing but categories, error and loading changes
    ensures t.(categories := s.categories, error := s.error, loading := s.loading) == s
  {
    match response
    case Ok(data) => s.(categories := data, loading := false)
    case Fail => s.(error := Str(CategoriesFailure), loading := false)
  }

  /** The completion of `searchProducts`. */
  function AfterSearch(s: SearchState, response: Outcome): (t: SearchState)
    ensures !t.loading
    // the category directory and the query state are never touched
    ensures t.categories == s.categories && t.selectedCategory == s.selectedCategory
    ensures t.searchTerm == s.searchTerm && t.page == s.page
    // a failed request leaves the collection as it was
    ensures response.Fail? ==>
      && t.error == Str(ProductsFailure)
      && t.results == s.results && t.count == s.count
      && t.next == s.next && t.previous == s.previous
    // an envelope is copied field by field
    ensures response.Ok? && ShapeOf(response.payload) == Envelope ==>
      var data := response.payload;
      && t.results == Prop(data, "results") && t.count == Prop(data, "count")
      && t.next == Prop(data, "next") && t.previous == Prop(data, "previous")
      && t.error == s.error
    // any other readable body is itself the collection, without cursors
    ensures response.Ok? && ShapeOf(response.payload) == Bare ==>
      var data := response.payload;
      && t.results == data && t.count == LengthOrZero(data)
      && t.next == Null && t.previous == Null
      && t.error == s.error
    // a null or undefined body is stored before the read of its length throws
    ensures response.Ok? && ShapeOf(response.payload) == Unreadable ==>
      && t.results == response.payload && t.error == Str(ProductsFailure)
      && t.count == s.count && t.next == s.next && t.previous == s.previous
  {
    match response
    case Fail => s.(error := Str(ProductsFailure), loading := false)
    case Ok(data) =>
      match ShapeOf(data)
      case Envelope =>
        s.(results := Prop(data, "results"), count := Prop(data, "count"),
           next := Prop(data, "next"), previous := Prop(data, "previous"), loading := false)
      case Bare =>
        s.(results := data, count := LengthOrZero(data), next := Null, previous := Null, loading := false)
      case Unreadable =>
        s.(results := data, error := Str(ProductsFailure), loading := false)
  }

  /** The shape dispatch agrees with the code's control flow: a body is
      `Unreadable` exactly when it fails the envelope test and its `length`
      read throws, and a `Bare` body's count is what that read yields, or 0. */
  lemma UnreadableExactlyWhenLengthThrows(data: Value)
    ensures ShapeOf(data) == Unreadable
        <==> !(Truthy(data) && IsArray(Prop(data, "results"))) && Get(data, "length").TypeError?
    ensures ShapeOf(data) == Bare ==>
      var length := Get(data, "length").value;
      LengthOrZero(data) == if Truthy(length) then length else Num(0)
  {
  }

  /** A bare array body: the collection is the array, `count` its length,
      and both cursors null. */
  lemma BareArrayCountsItsItems(s: SearchState, items: seq<Value>)
    ensures var t := AfterSearch(s, Ok(Arr(items)));
      && t.results == Arr(items) && t.count == Num(|items|)
      && t.next == Null && t.previous == Null && t.error == s.error
  {
    assert ShapeOf(Arr(items)) == Bare;
  }

  // ---------------------------------------------------------------------
  // The store driven by a sequence of whole actions

  /** One call on the store, with the settled GET for the two fetches. */
  datatype Event =
    | SetCategory(categoryId: Value)
    | SetSearchTerm(term: Value)
    | SetPage(pageNumber: Value)
    | FetchCategories(response: Outcome)
    | SearchProducts(params: map<string, Value>, response: Outcome)

  predicate IsFetch(e: Event) {
    e.FetchCategories? || e.SearchProducts?
  }

  function Step(s: SearchState, e: Event): SearchState {
    match e
    case SetCategory(v) => s.(selectedCategory := v)
    case SetSearchTerm(v) => s.(searchTerm := v)
    case SetPage(v) => s.(page := v)
    case FetchCategories(r) => AfterCategories(StartFetch(s), r)
    case SearchProducts(_, r) => AfterSearch(StartFetch(s), r)
  }

  /** The state after the calls of `trace`, in order, each completing before the next. */
  function Run(s: SearchState, trace: seq<Event>): SearchState
    decreases |trace|
  {
    if trace == [] then s else Step(Run(s, trace[..|trace| - 1]), trace[|trace| - 1])
  }

  /** Each setter assigns its one field, starts no fetch, and is idempotent. */
  lemma SetterIsIdempotentAssignment(s: SearchState, e: Event)
    requires !IsFetch(e)
    ensures Step(Step(s, e), e) == Step(s, e)
    ensures e.SetCategory? ==> Step(s, e) == s.(selectedCategory := e.categoryId)
    ensures e.SetSearchTerm? ==> Step(s, e) == s.(searchTerm := e.term)
    ensures e.SetPage? ==> Step(s, e) == s.(page := e.pageNumber)
  {
  }

  /** The message the last completed fetch of `trace` left, or `init` when there was none. */
  function LastError(trace: seq<Event>, init: Value): Value
    decreases |trace|
  {
    if trace == [] then init
    else
      var e := trace[|trace| - 1];
      if e.FetchCategories? then
        (if e.response.Fail? then Str(CategoriesFailure) else Null)
      else if e.SearchProducts? then
        (if e.response.Fail? || Nullish(e.response.payload) then Str(ProductsFailure) else Null)
      else LastError(trace[..|trace| - 1], init)
  }

  /** The collection of the last search whose body was received, or `init`. */
  function LastResults(trace: seq<Event>, init: Value): Value
    decreases |trace|
  {
    if trace == [] then init
    else
      var e := trace[|trace| - 1];
      if e.SearchProducts? && e.response.Ok? then
        var data := e.response.payload;
        if ShapeOf(data) == Envelope then Prop(data, "results") else data
      else LastResults(trace[..|trace| - 1], init)
  }

  /** The directory of the last successful `fetchCategories`, or `init`. */
  function LastCategories(trace: seq<Event>, init: Value): Value
    decreases |trace|
  {
    if trace == [] then init
    else
      var e := trace[|trace| - 1];
      if e.FetchCategories? && e.response.Ok? then e.response.payload
      else LastCategories(trace[..|trace| - 1], init)
  }

  /** The query field each setter writes. */
  datatype QueryField = Category | Term | Page

  function Setting(s: SearchState, f: QueryField): Value {
    match f
    case Category => s.selectedCategory
    case Term => s.searchTerm
    case Page => s.page
  }

  /** The argument of the last setter call for `f`, or `init`. */
  function LastSet(trace: seq<Event>, f: QueryField, init: Value): Value
    decreases |trace|
  {
    if trace == [] then init
    else
      var e := trace[|trace| - 1];
      if e.SetCategory? && f == Category then e.categoryId
      else if e.SetSearchTerm? && f == Term then e.term
      else if e.SetPage? && f == Page then e.pageNumber
      else LastSet(trace[..|trace| - 1], f, init)
  }

  /** `loading` is never left set once every call has completed. */
  lemma {:induction false} RunEndsIdle(s: SearchState, trace: seq<Event>)
    requires !s.loading
    ensures !Run(s, trace).loading
  {
    if trace != [] {
      RunEndsIdle(s, trace[..|trace| - 1]);
    }
  }

  /** The shared `error` speaks only of the last completed fetch: each fetch
      clears the previous message, and the setters leave it alone. */
  lemma {:induction false} RunErrorIsLastFetch(s: SearchState, trace: seq<Event>)
    ensures Run(s, trace).error == LastError(trace, s.error)
  {
    if trace != [] {
      RunErrorIsLastFetch(s, trace[..|trace| - 1]);
    }
  }

  /** A failed search keeps the previous collection: `results` is that of the
      last search whose body was received. */
  lemma {:induction false} RunResultsIsLastSearch(s: SearchState, trace: seq<Event>)
    ensures Run(s, trace).results == LastResults(trace, s.results)
  {
    if trace != [] {
      RunResultsIsLastSearch(s, trace[..|trace| - 1]);
    }
  }

  /** `categories` is the directory of the last successful `fetchCategories`. */
  lemma {:induction false} RunCategoriesIsLastFetch(s: SearchState, trace: seq<Event>)
    ensures Run(s, trace).categories == LastCategories(trace, s.categories)
  {
    if trace != [] {
      RunCategoriesIsLastFetch(s, trace[..|trace| - 1]);
    }
  }

  /** The query state changes only through its setters: each field holds the
      argument of the last call of its setter. */
  lemma {:induction false} RunQueryIsLastSet(s: SearchState, trace: seq<Event>, f: QueryField)
    ensures Setting(Run(s, trace), f) == LastSet(trace, f, Setting(s, f))
  {
    if trace != [] {
      RunQueryIsLastSet(s, trace[..|trace| - 1], f);
    }
  }

  // ---------------------------------------------------------------------
  // The store object

  class Store {
    var categories: Value
    var selectedCategory: Value
    var searchTerm: Value
    var results: Value
    var count: Value
    var next: Value
    var previous: Value
    var page: Value
    var loading: bool
    var error: Value

    function State(): SearchState
      reads this
    {
      SearchState(categories, selectedCategory, searchTerm, results, count, next, previous, page, loading, error)
    }

    constructor ()
      ensures categories == Arr([]) && results == Arr([])
      ensures selectedCategory == Null && searchTerm == Str("")
      ensures count == Num(0) && next == Null && previous == Null && page == Num(1)
      ensures !loading && error == Null
      ensures State() == Initial()
    {
      categories := Arr([]);
      selectedCategory := Null;
      searchTerm := Str("");
      results := Arr([]);
      count := Num(0);
      next := Null;
      previous := Null;
      page := Num(1);
      loading := false;
      error := Null;
    }

    /** The synchronous start of either fetch. */
    method Begin()
      modifies this
      ensures State() == StartFetch(old(State()))
    {
      loading := true;
      error := Null;
    }

    /** The rest of `fetchCategories` once its GET has settled. */
    method CompleteFetchCategories(response: Outcome)
      modifies this
      ensures State() == AfterCategories(old(State()), response)
    {
      match response {
        case Ok(data) =>
          categories := data;
        case Fail =>
          error := Str(CategoriesFailure);
      }
      loading := false;
    }

    method FetchCategories(response: Outcome)
      modifies this
      ensures State() == Step(old(State()), Event.FetchCategories(response))
    {
      Begin();
      CompleteFetchCategories(response);
    }

    method SetCategory(categoryId: Value)
      modifies this
      ensures State() == old(State()).(selectedCategory := categoryId)
    {
      selectedCategory := categoryId;
    }

    method SetSearchTerm(term: Value)
      modifies this
      ensures State() == old(State()).(searchTerm := term)
    {
      searchTerm := term;
    }

    method SetPage(pageNumber: Value)
      modifies this
      ensures State() == old(State()).(page := pageNumber)
    {
      page := pageNumber;
    }

    /** The query `searchProducts` builds from `params` and the store's query state. */
    method BuildQuery(params: map<string, Value>) returns (query: map<string, Value>)
      ensures query == ResolveQuery(params, selectedCategory, searchTerm, page)
    {
      query := params;
      if !Truthy(Member(query, "category")) && Truthy(selectedCategory) {
        query := query["category" := selectedCategory];
      }
      if !Truthy(Member(query, "search")) && Truthy(searchTerm) {
        query := query["search" := searchTerm];
      }
      if !Truthy(Member(query, "page")) && Truthy(page) {
        query := query["page" := page];
      }
    }

    /** The rest of `searchProducts` once its GET has settled. */
    method CompleteSearchProducts(response: Outcome)
      modifies this
      ensures State() == AfterSearch(old(State()), response)
    {
      match response {
        case Fail =>
          error := Str(ProductsFailure);
        case Ok(data) =>
          if Truthy(data) && IsArray(Prop(data, "results")) {
            results := Prop(data, "results");
            count := Prop(data, "count");
            next := Prop(data, "next");
            previous := Prop(data, "previous");
          } else {
            results := data;
            match Get(data, "length") {
              case TypeError =>
                error := Str(ProductsFailure);
              case Got(length) =>
                count := if Truthy(length) then length else Num(0);
                next := Null;
                previous := Null;
            }
          }
      }
      loading := false;
    }

    /** `searchProducts(params)`: returns the query sent with the GET. */
    method SearchProducts(params: map<string, Value>, response: Outcome) returns (query: map<string, Value>)
      modifies this
      ensures query == ResolveQuery(params, old(selectedCategory), old(searchTerm), old(page))
      ensures State() == Step(old(State()), Event.SearchProducts(params, response))
    {
      Begin();
      query := BuildQuery(params);
      CompleteSearchProducts(response);
    }
  }
}
