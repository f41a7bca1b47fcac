/** The admin transactions report collection: it accumulates gateway filters,
    runs one search on the first read with a non-empty filter list, caches
    the result handle once a search succeeds, and materialises at most `MaxCount` rows from it. */
module TransactionsCollection {
  import opened Wrappers
  import opened Gateway
  import opened Rows

  /** The collection's own state: `filtersList` and the cached `collection`. */
  datatype Adapter = Adapter(filters: seq<Filter>, cached: Option<Collection>)

  /** What one call yields: the state after it, its return value or the
      gateway error it propagates, and whether it called `search`. */
  datatype Reply<+T> = Reply(next: Adapter, value: Result<T, GatewayError>, searched: bool)

  /** A freshly constructed collection: no filters, nothing fetched. */
  const Fresh := Adapter([], None)

  /** A cached result only ever exists for a non-empty filter list. */
  predicate Valid(a: Adapter)
  {
    a.cached.Some? ==> |a.filters| > 0
  }

  /** The lifecycle of one instance: Empty -> Filtered -> Fetched. */
  datatype Phase = Empty | Filtered | Fetched

  function PhaseOf(a: Adapter): Phase
  {
    if a.cached.Some? then Fetched
    else if |a.filters| == 0 then Empty
    else Filtered
  }

  function Rank(p: Phase): nat
  {
    match p
    case Empty => 0
    case Filtered => 1
    case Fetched => 2
  }

  /** A bare scalar condition means equality. */
  function NormalizeCondition(condition: Condition): (ops: Operators)
    ensures condition.Scalar? ==> ops == [(StrKey("eq"), Plain(condition.value))]
    ensures condition.Ops? ==> ops == condition.ops
  {
    match condition
    case Scalar(v) => [(StrKey("eq"), Plain(v))]
    case Ops(ops) => ops
  }

  /** `addFilterToList`: a missing filter is dropped, a present one goes to
      the end of the list and nothing before it moves. */
  function AddFilterToList(a: Adapter, filter: Option<Filter>): (a': Adapter)
    ensures a'.cached == a.cached
    ensures a.filters <= a'.filters
    ensures filter.None? ==> a' == a
    ensures filter.Some? ==> |a'.filters| == |a.filters| + 1 && a'.filters[|a.filters|] == filter.value
  {
    match filter
    case None => a
    case Some(f) => a.(filters := a.filters + [f])
  }

  /** `addFieldToFilter`: a compound field is ignored; otherwise the
      normalised condition goes to the mapper and its filter, if any, is
      appended. The collection itself is returned, so the reply is the new
      state. It never searches and never touches the cache. */
  function AddFieldToFilter(a: Adapter, env: Env, field: Field, condition: Condition): (a': Adapter)
    ensures field.Names? ==> a' == a
    ensures field.Name? ==>
              a' == AddFilterToList(a, env.getFilter(field.name, NormalizeCondition(condition)))
    ensures a'.cached == a.cached
    ensures a.filters <= a'.filters && |a'.filters| <= |a.filters| + 1
    ensures Valid(a) ==> Valid(a')
  {
    if field.Names? then a
    else AddFilterToList(a, env.getFilter(field.name, NormalizeCondition(condition)))
  }

  /** `getFilters`: the accumulated list, in the order it was built. */
  function GetFilters(a: Adapter): (fs: seq<Filter>)
    ensures |fs| == |a.filters|
    ensures forall i :: 0 <= i < |fs| ==> fs[i] == a.filters[i]
  {
    a.filters
  }

  /** `fetchCollection`: nothing without filters; the cached handle if there
      is one; otherwise exactly one search with the whole filter list, whose
      result is cached, or whose error is propagated with nothing cached. */
  function FetchCollection(a: Adapter, env: Env): (r: Reply<Option<Collection>>)
    ensures r.next.filters == a.filters
    ensures |a.filters| == 0 ==> r == Reply(a, Success(None), false)
    ensures |a.filters| > 0 && a.cached.Some? ==> r == Reply(a, Success(a.cached), false)
    ensures r.searched <==> |a.filters| > 0 && a.cached.None?
    ensures r.searched && env.search(a.filters).Success? ==>
              r.value == Success(Some(env.search(a.filters).value)) && r.next.cached == r.value.value
    ensures r.searched && env.search(a.filters).Failure? ==>
              r.value == Failure(env.search(a.filters).error) && r.next == a
    ensures r.value.Success? && |a.filters| > 0 ==> r.value.value.Some? && r.next.cached == r.value.value
    ensures !r.searched ==> r.next == a
  {
    if |a.filters| == 0 then Reply(a, Success(None), false)
    else if a.cached.Some? then Reply(a, Success(a.cached), false)
    else
      match env.search(GetFilters(a))
      case Success(c) => Reply(a.(cached := Some(c)), Success(Some(c)), true)
      case Failure(e) => Reply(a, Failure(e), true)
  }

  /** `getItems` as a value: the capped, wrapped rows of the fetched
      collection, `[]` without filters, or the gateway error. */
  function Items(a: Adapter, env: Env): (r: Reply<seq<Row>>)
    ensures r.next == FetchCollection(a, env).next
    ensures r.searched == FetchCollection(a, env).searched
    ensures |a.filters| == 0 ==> r == Reply(a, Success([]), false)
    ensures r.value.Failure? <==> FetchCollection(a, env).value.Failure?
    ensures r.value.Failure? ==> r.value.error == FetchCollection(a, env).value.error
    ensures r.value.Success? ==> |r.value.value| <= MaxCount
    ensures r.value.Success? && |a.filters| > 0 ==>
              r.next.cached.Some? &&
              r.value.value <= WrapAll(r.next.cached.value.records, env.create) &&
              |r.value.value| == Min(MaxCount, |WrapAll(r.next.cached.value.records, env.create)|)
  {
    var f := FetchCollection(a, env);
    match f.value
    case Failure(e) => Reply(f.next, Failure(e), f.searched)
    case Success(None) => Reply(f.next, Success([]), f.searched)
    case Success(Some(c)) => Reply(f.next, Success(Capped(c.records, env.create)), f.searched)
  }

  /** `getItems`, with its loop. */
  method GetItems(a: Adapter, env: Env) returns (r: Reply<seq<Row>>)
    ensures r == Items(a, env)
  {
    var f := FetchCollection(a, env);
    match f.value {
      case Failure(e) =>
        r := Reply(f.next, Failure(e), f.searched);
      case Success(None) =>
        r := Reply(f.next, Success([]), f.searched);
      case Success(Some(c)) =>
        var rows := CollectRows(c.records, env.create);
        PrefixUnique(rows, Capped(c.records, env.create), WrapAll(c.records, env.create));
        r := Reply(f.next, Success(rows), f.searched);
    }
  }

  /** `getTotalCount`: 0 without filters, otherwise the gateway's reported
      match count as is (which may exceed `MaxCount`), or the gateway error. */
  function GetTotalCount(a: Adapter, env: Env): (r: Reply<nat>)
    ensures r.next == FetchCollection(a, env).next
    ensures r.searched == FetchCollection(a, env).searched
    ensures |a.filters| == 0 ==> r == Reply(a, Success(0), false)
    ensures FetchCollection(a, env).value.Failure? ==>
              r.value == Failure(FetchCollection(a, env).value.error)
    ensures FetchCollection(a, env).value.Success? && |a.filters| > 0 ==>
              r.next.cached.Some? && r.value == Success(r.next.cached.value.maximumCount)
  {
    var f := FetchCollection(a, env);
    match f.value
    case Failure(e) => Reply(f.next, Failure(e), f.searched)
    case Success(None) => Reply(f.next, Success(0), f.searched)
    case Success(Some(c)) => Reply(f.next, Success(c.maximumCount), f.searched)
  }

  /** The search-result interface stubs: the setters return the collection
      unchanged, the getters return nothing. */
  function SetItems(a: Adapter, items: Option<seq<Row>>): (a': Adapter)
    ensures a' == a
  {
    a
  }

  function GetAggregations(a: Adapter): (r: Option<Aggregation>)
    ensures r.None?
  {
    None
  }

  function SetAggregations(a: Adapter, aggregations: Aggregation): (a': Adapter)
    ensures a' == a
  {
    a
  }

  function GetSearchCriteria(a: Adapter): (r: Option<SearchCriteria>)
    ensures r.None?
  {
    None
  }

  function SetSearchCriteria(a: Adapter, criteria: SearchCriteria): (a': Adapter)
    ensures a' == a
  {
    a
  }

  function SetTotalCount(a: Adapter, totalCount: int): (a': Adapter)
    ensures a' == a
  {
    a
  }

  /** A scalar condition and its explicit `eq` form are the same request. */
  lemma ScalarConditionIsEq(a: Adapter, env: Env, field: Field, v: Atom)
    ensures AddFieldToFilter(a, env, field, Scalar(v)) == AddFieldToFilter(a, env, field, Ops([(StrKey("eq"), Plain(v))]))
  {
  }

  /** Once a collection is cached, reads return it again and never search. */
  lemma FetchIsCached(a: Adapter, env: Env)
    requires |a.filters| > 0
    ensures var r := FetchCollection(a, env);
            r.value.Success? ==>
              var r2 := FetchCollection(r.next, env);
              r2 == Reply(r.next, r.value, false)
  {
  }

  /** Filters added after the fetch do not invalidate the cached result:
      the totals and rows still come from the collection fetched before. */
  lemma LateFilterIgnored(a: Adapter, env: Env, field: Field, condition: Condition)
    requires Valid(a) && a.cached.Some?
    ensures var a' := AddFieldToFilter(a, env, field, condition);
            && GetTotalCount(a', env) == Reply(a', Success(a.cached.value.maximumCount), false)
            && Items(a', env) == Reply(a', Success(Capped(a.cached.value.records, env.create)), false)
  {
  }

  /** Without filters, neither read contacts the gateway and both report an
      empty result. */
  lemma UnfilteredReadsNothing(a: Adapter, env: Env)
    requires |a.filters| == 0
    ensures Items(a, env) == Reply(a, Success([]), false)
    ensures GetTotalCount(a, env) == Reply(a, Success(0), false)
  {
  }

  /** Once fetched, the total count is the gateway's and the row count is the
      capped one; they differ whenever more than `MaxCount` rows match and
      the gateway reports them all. */
  lemma TotalNotCapped(a: Adapter, env: Env, c: Collection)
    requires |a.filters| > 0 && a.cached == Some(c)
    requires c.maximumCount > MaxCount
    ensures GetTotalCount(a, env).value == Success(c.maximumCount)
    ensures Items(a, env).value.Success? && |Items(a, env).value.value| < GetTotalCount(a, env).value.value
  {
  }
}
