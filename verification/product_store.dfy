/** The product store: three listings (discounted, new products, top
    ordered), each fetched by its own action, with one `loading` flag and one
    `error` message shared by all three. Each fetch is split into its
    synchronous start and its completion with the settled GET. */
module ProductStore {
  import opened Js

  /** The three listings, one per fetch action. */
  datatype Listing = Discounted | NewProducts | TopOrdered

  /** The fixed message each action leaves in `error` when it fails. */
  function FailureMessage(l: Listing): string {
    match l
    case Discounted => "Failed to load discounted products."
    case NewProducts => "Failed to load new products."
    case TopOrdered => "Failed to load top ordered products."
  }

  /** The store's state object, one component per field of `state()`. */
  datatype CatalogState = CatalogState(
    discounted: Value,
    discountedCount: Value,
    newProducts: Value,
    newCount: Value,
    topOrdered: Value,
    loading: bool,
    error: Value)

  /** What `state()` returns. */
  function Initial(): CatalogState {
    CatalogState(Arr([]), Num(0), Arr([]), Num(0), Arr([]), false, Null)
  }

  /** The field holding a listing's payload. */
  function Items(s: CatalogState, l: Listing): Value {
    match l
    case Discounted => s.discounted
    case NewProducts => s.newProducts
    case TopOrdered => s.topOrdered
  }

  /** The listings that keep a count; top ordered keeps none. */
  predicate Counted(l: Listing) {
    !l.TopOrdered?
  }

  function Count(s: CatalogState, l: Listing): Value
    requires Counted(l)
  {
    if l.Discounted? then s.discountedCount else s.newCount
  }

  /** The start of every action: `loading` set and `error` cleared, nothing else. */
  function StartFetch(s: CatalogState): (t: CatalogState)
    ensures t.loading && t.error == Null
    ensures t.(loading := s.loading, error := s.error) == s
  {
    s.(loading := true, error := Null)
  }

  /** The completion of the action for listing `l` with the settled GET `response`. */
  function AfterFetch(s: CatalogState, l: Listing, response: Outcome): (t: CatalogState)
    ensures !t.loading
    // the other listings are untouched
    ensures forall m :: m != l ==> Items(t, m) == Items(s, m) && (Counted(m) ==> Count(t, m) == Count(s, m))
    // a failure keeps the listing's previous data
    ensures response.Fail? ==>
      && t.error == Str(FailureMessage(l))
      && Items(t, l) == Items(s, l)
      && (Counted(l) ==> Count(t, l) == Count(s, l))
    // a received body is stored whole, whatever its shape
    ensures response.Ok? ==> Items(t, l) == response.payload
    ensures response.Ok? && Counted(l) && !Nullish(response.payload) ==>
      Count(t, l) == Prop(response.payload, "count") && t.error == s.error
    // reading `count` of a null or undefined body throws after the body is stored
    ensures response.Ok? && Counted(l) && Nullish(response.payload) ==>
      Count(t, l) == Count(s, l) && t.error == Str(FailureMessage(l))
    ensures response.Ok? && !Counted(l) ==> t.error == s.error
  {
    match response
    case Fail => s.(error := Str(FailureMessage(l)), loading := false)
    case Ok(data) =>
      match l
      case Discounted =>
        if Nullish(data) then s.(discounted := data, error := Str(FailureMessage(l)), loading := false)
        else s.(discounted := data, discountedCount := Prop(data, "count"), loading := false)
      case NewProducts =>
        if Nullish(data) then s.(newProducts := data, error := Str(FailureMessage(l)), loading := false)
        else s.(newProducts := data, newCount := Prop(data, "count"), loading := false)
      case TopOrdered =>
        s.(topOrdered := data, loading := false)
  }

  // ---------------------------------------------------------------------
  // The store driven by a sequence of whole actions

  /** One action on the store, with the settled GET. */
  datatype Event =
    | FetchDiscounted(params: map<string, Value>, response: Outcome)
    | FetchNewProducts(params: map<string, Value>, response: Outcome)
    | FetchTopOrdered(response: Outcome)

  function ListingOf(e: Event): Listing {
    match e
    case FetchDiscounted(_, _) => Discounted
    case FetchNewProducts(_, _) => NewProducts
    case FetchTopOrdered(_) => TopOrdered
  }

  function Step(s: CatalogState, e: Event): CatalogState {
    AfterFetch(StartFetch(s), ListingOf(e), e.response)
  }

  /** The state after the actions of `trace`, in order, each completing before the next. */
  function Run(s: CatalogState, trace: seq<Event>): CatalogState
    decreases |trace|
  {
    if trace == [] then s else Step(Run(s, trace[..|trace| - 1]), trace[|trace| - 1])
  }

  /** The message an action leaves in `error`: null when it completed without throwing. */
  function ErrorOf(e: Event): Value {
    var l := ListingOf(e);
    if e.response.Fail? || (Counted(l) && Nullish(e.response.payload)) then Str(FailureMessage(l)) else Null
  }

  /** The body of the last action on `l` whose GET succeeded, or `init`. */
  function LastPayload(trace: seq<Event>, l: Listing, init: Value): Value
    decreases |trace|
  {
    if trace == [] then init
    else
      var e := trace[|trace| - 1];
      if ListingOf(e) == l && e.response.Ok? then e.response.payload
      else LastPayload(trace[..|trace| - 1], l, init)
  }

  /** The `count` of the last body received for `l` that could be read, or `init`. */
  function LastCount(trace: seq<Event>, l: Listing, init: Value): Value
    decreases |trace|
  {
    if trace == [] then init
    else
      var e := trace[|trace| - 1];
      if ListingOf(e) == l && e.response.Ok? && !Nullish(e.response.payload) then Prop(e.response.payload, "count")
      else LastCount(trace[..|trace| - 1], l, init)
  }

  /** `loading` is never left set once every action has completed. */
  lemma RunEndsIdle(s: CatalogState, trace: seq<Event>)
    requires !s.loading || trace != []
    ensures !Run(s, trace).loading
  {
  }

  /** `loading` and `error` are shared: after any completed action, `error`
      reflects that action alone, an earlier failure's message included. */
  lemma RunErrorIsLastAction(s: CatalogState, trace: seq<Event>)
    requires trace != []
    ensures Run(s, trace).error == ErrorOf(trace[|trace| - 1])
  {
  }

  /** A listing holds the whole body of its last successful fetch, however
      many failures or other listings' fetches came after it. */
  lemma {:induction false} RunItemsIsLastPayload(s: CatalogState, trace: seq<Event>, l: Listing)
    ensures Items(Run(s, trace), l) == LastPayload(trace, l, Items(s, l))
  {
    if trace != [] {
      RunItemsIsLastPayload(s, trace[..|trace| - 1], l);
    }
  }

  /** A listing's count is the `count` of the last body received for it. */
  lemma {:induction false} RunCountIsLastCount(s: CatalogState, trace: seq<Event>, l: Listing)
    requires Counted(l)
    ensures Count(Run(s, trace), l) == LastCount(trace, l, Count(s, l))
  {
    if trace != [] {
      RunCountIsLastCount(s, trace[..|trace| - 1], l);
    }
  }

  // ---------------------------------------------------------------------
  // The store object

  class Store {
    var discounted: Value
    var discountedCount: Value
    var newProducts: Value
    var newCount: Value
    var topOrdered: Value
    var loading: bool
    var error: Value

    function State(): CatalogState
      reads this
    {
      CatalogState(discounted, discountedCount, newProducts, newCount, topOrdered, loading, error)
    }

    constructor ()
      ensures discounted == Arr([]) && newProducts == Arr([]) && topOrdered == Arr([])
      ensures discountedCount == Num(0) && newCount == Num(0)
      ensures !loading && error == Null
      ensures State() == Initial()
    {
      discounted := Arr([]);
      discountedCount := Num(0);
      newProducts := Arr([]);
      newCount := Num(0);
      topOrdered := Arr([]);
      loading := false;
      error := Null;
    }

    /** The synchronous start of every action. */
    method Begin()
      modifies this
      ensures State() == StartFetch(old(State()))
    {
      loading := true;
      error := Null;
    }

    /** The rest of `fetchDiscounted` once its GET has settled. */
    method CompleteDiscounted(response: Outcome)
      modifies this
      ensures State() == AfterFetch(old(State()), Discounted, response)
    {
      match response {
        case Ok(data) =>
          discounted := data;
          match Get(data, "count") {
            case Got(c) => discountedCount := c;
            case TypeError => error := Str(FailureMessage(Discounted));
          }
        case Fail =>
          error := Str(FailureMessage(Discounted));
      }
      loading := false;
    }

    /** The rest of `fetchNewProducts` once its GET has settled. */
    method CompleteNewProducts(response: Outcome)
      modifies this
      ensures State() == AfterFetch(old(State()), NewProducts, response)
    {
      match response {
        case Ok(data) =>
          newProducts := data;
          match Get(data, "count") {
            case Got(c) => newCount := c;
            case TypeError => error := Str(FailureMessage(NewProducts));
          }
        case Fail =>
          error := Str(FailureMessage(NewProducts));
      }
      loading := false;
    }

    /** The rest of `fetchTopOrdered` once its GET has settled. */
    method CompleteTopOrdered(response: Outcome)
      modifies this
      ensures State() == AfterFetch(old(State()), TopOrdered, response)
    {
      match response {
        case Ok(data) =>
          topOrdered := data;
        case Fail =>
          error := Str(FailureMessage(TopOrdered));
      }
      loading := false;
    }

    /** `fetchDiscounted(params)`: returns the parameters sent with the GET. */
    method FetchDiscounted(params: map<string, Value>, response: Outcome) returns (sent: map<string, Value>)
      modifies this
      ensures sent == params
      ensures State() == Step(old(State()), Event.FetchDiscounted(params, response))
    {
      Begin();
      sent := params;
      CompleteDiscounted(response);
    }

    /** `fetchNewProducts(params)`: returns the parameters sent with the GET. */
    method FetchNewProducts(params: map<string, Value>, response: Outcome) returns (sent: map<string, Value>)
      modifies this
      ensures sent == params
      ensures State() == Step(old(State()), Event.FetchNewProducts(params, response))
    {
      Begin();
      sent := params;
      CompleteNewProducts(response);
    }

    /** `fetchTopOrdered()`: its GET carries no parameters. */
    method FetchTopOrdered(response: Outcome)
      modifies this
      ensures State() == Step(old(State()), Event.FetchTopOrdered(response))
    {
      Begin();
      CompleteTopOrdered(response);
    }
  }
}
