/** One report request: a sequence of calls on one collection instance. The
    lemmas here relate a whole session to the filters it asks for and to the
    number of searches it makes. A call whose search throws is taken to be
    caught by the caller, and the session goes on. */
module Session {
  import opened Wrappers
  import opened Gateway
  import opened Rows
  import opened TransactionsCollection

  datatype Call =
    | AddFilter(field: Field, condition: Condition)
    | ReadItems
    | ReadTotalCount
    | WriteItems(items: Option<seq<Row>>)
    | ReadAggregations
    | WriteAggregations(aggregations: Aggregation)
    | ReadSearchCriteria
    | WriteSearchCriteria(criteria: SearchCriteria)
    | WriteTotalCount(totalCount: int)
  {
    /** The search-result interface stubs. */
    predicate IsStub()
    {
      !(AddFilter? || ReadItems? || ReadTotalCount?)
    }
  }

  /** The state after a call and whether it called `search`. */
  datatype Effect = Effect(next: Adapter, searched: bool)

  /** The state after a whole session and how many searches it made. */
  datatype Trace = Trace(final: Adapter, searches: nat)

  /** The filters a call contributes, straight from the mapper: this is the
      reference for what `addFieldToFilter` accumulates. */
  function Contribution(env: Env, call: Call): seq<Filter>
  {
    match call
    case AddFilter(Name(name), condition) =>
      (match env.getFilter(name, NormalizeCondition(condition))
       case None => []
       case Some(f) => [f])
    case _ => []
  }

  function Translate(env: Env, calls: seq<Call>): seq<Filter>
  {
    if |calls| == 0 then [] else Contribution(env, calls[0]) + Translate(env, calls[1..])
  }

  function Step(a: Adapter, env: Env, call: Call): (e: Effect)
    ensures e.next.filters == a.filters + Contribution(env, call)
    ensures e.searched ==> (call.ReadItems? || call.ReadTotalCount?) && |a.filters| > 0 && a.cached.None?
    ensures !e.searched ==> e.next.cached == a.cached
    ensures e.searched && env.search(a.filters).Success? ==> e.next.cached.Some?
    ensures a.cached.Some? ==> e.next.cached == a.cached
    ensures Valid(a) ==> Valid(e.next) && Rank(PhaseOf(a)) <= Rank(PhaseOf(e.next))
  {
    match call
    case AddFilter(field, condition) =>
      Effect(AddFieldToFilter(a, env, field, condition), false)
    case ReadItems =>
      var r := Items(a, env); Effect(r.next, r.searched)
    case ReadTotalCount =>
      var r := GetTotalCount(a, env); Effect(r.next, r.searched)
    case WriteItems(items) => Effect(SetItems(a, items), false)
    case ReadAggregations => var _ := GetAggregations(a); Effect(a, false)
    case WriteAggregations(x) => Effect(SetAggregations(a, x), false)
    case ReadSearchCriteria => var _ := GetSearchCriteria(a); Effect(a, false)
    case WriteSearchCriteria(x) => Effect(SetSearchCriteria(a, x), false)
    case WriteTotalCount(n) => Effect(SetTotalCount(a, n), false)
  }

  function Run(a: Adapter, env: Env, calls: seq<Call>): Trace
    decreases calls
  {
    if |calls| == 0 then Trace(a, 0)
    else
      var e := Step(a, env, calls[0]);
      var t := Run(e.next, env, calls[1..]);
      Trace(t.final, t.searches + if e.searched then 1 else 0)
  }

  /** The session's calls without the interface stubs. */
  function Strip(calls: seq<Call>): (rest: seq<Call>)
    ensures |rest| <= |calls|
    ensures forall i :: 0 <= i < |rest| ==> !rest[i].IsStub()
  {
    if |calls| == 0 then []
    else if calls[0].IsStub() then Strip(calls[1..])
    else [calls[0]] + Strip(calls[1..])
  }

  /** The filter list after a session is the one it started with followed by
      every filter the mapper produced, in call order. */
  lemma {:induction false} RunAccumulatesFilters(a: Adapter, env: Env, calls: seq<Call>)
    ensures Run(a, env, calls).final.filters == a.filters + Translate(env, calls)
    decreases calls
  {
    if |calls| > 0 {
      var e := Step(a, env, calls[0]);
      RunAccumulatesFilters(e.next, env, calls[1..]);
      assert a.filters + Contribution(env, calls[0]) + Translate(env, calls[1..])
          == a.filters + (Contribution(env, calls[0]) + Translate(env, calls[1..]));
    }
  }

  /** Once a collection is cached, no later call searches again and the
      cached handle is never replaced, whatever filters are added. */
  lemma {:induction false} RunKeepsCache(a: Adapter, env: Env, calls: seq<Call>)
    requires a.cached.Some?
    ensures Run(a, env, calls).searches == 0
    ensures Run(a, env, calls).final.cached == a.cached
    decreases calls
  {
    if |calls| > 0 {
      RunKeepsCache(Step(a, env, calls[0]).next, env, calls[1..]);
    }
  }

  /** With a search client that never throws, a session searches at most
      once, and not at all when the collection was already fetched. */
  lemma {:induction false} RunSearchesAtMostOnce(a: Adapter, env: Env, calls: seq<Call>)
    requires NeverFails(env)
    ensures Run(a, env, calls).searches <= if a.cached.None? then 1 else 0
    decreases calls
  {
    if |calls| > 0 {
      var e := Step(a, env, calls[0]);
      if e.searched {
        assert env.search(a.filters).Success?;
        RunKeepsCache(e.next, env, calls[1..]);
      } else if a.cached.Some? {
        RunKeepsCache(e.next, env, calls[1..]);
      } else {
        RunSearchesAtMostOnce(e.next, env, calls[1..]);
      }
    }
  }

  /** A session that never obtains a filter from the mapper never contacts
      the gateway: an unfiltered report performs no fetch at all. */
  lemma {:induction false} UnfilteredRunNeverSearches(a: Adapter, env: Env, calls: seq<Call>)
    requires |a.filters| == 0
    requires Translate(env, calls) == []
    ensures Run(a, env, calls) == Trace(a, 0)
    decreases calls
  {
    if |calls| > 0 {
      var e := Step(a, env, calls[0]);
      assert Contribution(env, calls[0]) == [] && Translate(env, calls[1..]) == [] by {
        assert |Contribution(env, calls[0]) + Translate(env, calls[1..])| == 0;
      }
      assert e.next == a;
      UnfilteredRunNeverSearches(a, env, calls[1..]);
    }
  }

  /** The stubs are inert: dropping every stub call from a session changes
      neither its final state nor its searches. */
  lemma {:induction false} StubsAreInert(a: Adapter, env: Env, calls: seq<Call>)
    ensures Run(a, env, calls) == Run(a, env, Strip(calls))
    decreases calls
  {
    if |calls| > 0 {
      StubsAreInert(Step(a, env, calls[0]).next, env, calls[1..]);
      if calls[0].IsStub() {
        assert Step(a, env, calls[0]) == Effect(a, false);
      } else {
        assert ([calls[0]] + Strip(calls[1..]))[1..] == Strip(calls[1..]);
      }
    }
  }

  /** A session keeps the collection consistent and its lifecycle only moves
      forward: Empty, then Filtered, then Fetched. */
  lemma {:induction false} RunMovesForward(a: Adapter, env: Env, calls: seq<Call>)
    requires Valid(a)
    ensures Valid(Run(a, env, calls).final)
    ensures Rank(PhaseOf(a)) <= Rank(PhaseOf(Run(a, env, calls).final))
    decreases calls
  {
    if |calls| > 0 {
      RunMovesForward(Step(a, env, calls[0]).next, env, calls[1..]);
    }
  }
}
