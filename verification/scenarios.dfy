/** Concrete report requests worked through the model. */
module Scenarios {
  import opened Wrappers
  import opened Gateway
  import opened Rows
  import opened TransactionsCollection

  /** A mapper that accepts every field. */
  function AcceptAll(name: string, ops: Operators): Option<Filter>
  {
    Some(Filter(name))
  }

  function Wrap(r: Record): Option<Row>
  {
    Some(TransactionMap(r))
  }

  /** A factory that declines the transaction with id 3. */
  function WrapAllButThree(r: Record): Option<Row>
  {
    if r.id == 3 then None else Some(TransactionMap(r))
  }

  const StatusSettled := Scalar(Str("settled"))

  /** Transactions 0 .. n-1 in gateway order. */
  function Transactions(n: nat): seq<Record>
  {
    seq(n, i requires 0 <= i => Record(i))
  }

  function Search250(fs: seq<Filter>): Result<Collection, GatewayError>
  {
    Success(Collection(Transactions(250), 250))
  }

  function SearchFive(fs: seq<Filter>): Result<Collection, GatewayError>
  {
    Success(Collection([Record(1), Record(2), Record(3), Record(4), Record(5)], 5))
  }

  function SearchTimesOut(fs: seq<Filter>): Result<Collection, GatewayError>
  {
    Failure(GatewayError("timeout"))
  }

  function SearchOne(fs: seq<Filter>): Result<Collection, GatewayError>
  {
    Success(Collection([Record(7)], 1))
  }

  /** 250 matches, every one wrappable: 100 rows in gateway order, yet a
      total count of 250. */
  lemma ManyMatches()
    ensures var env := Env(AcceptAll, Search250, Wrap);
            var a := AddFieldToFilter(Fresh, env, Name("status"), StatusSettled);
            var items := Items(a, env);
            && items.searched
            && items.value == Success(seq(100, i requires 0 <= i => TransactionMap(Record(i))))
            && GetTotalCount(items.next, env) == Reply(items.next, Success(250), false)
  {
    var env := Env(AcceptAll, Search250, Wrap);
    var a := AddFieldToFilter(Fresh, env, Name("status"), StatusSettled);
    assert a == Adapter([Filter("status")], None);
    assert Items(a, env).value == Success(Capped(Transactions(250), Wrap));
    FirstHundredRows();
  }

  /** The capped rows of 250 wrappable transactions are transactions 0 .. 99. */
  lemma FirstHundredRows()
    ensures Capped(Transactions(250), Wrap) == seq(100, i requires 0 <= i => TransactionMap(Record(i)))
  {
  }

  /** Five matches, the third declined by the factory: four rows, in order. */
  lemma RejectedRecordSkipped()
    ensures var env := Env(AcceptAll, SearchFive, WrapAllButThree);
            var a := AddFieldToFilter(Fresh, env, Name("type"), StatusSettled);
            Items(a, env).value == Success([TransactionMap(Record(1)), TransactionMap(Record(2)),
                                            TransactionMap(Record(4)), TransactionMap(Record(5))])
  {
    var env := Env(AcceptAll, SearchFive, WrapAllButThree);
    var a := AddFieldToFilter(Fresh, env, Name("type"), StatusSettled);
    assert a == Adapter([Filter("type")], None);
    var records := [Record(1), Record(2), Record(3), Record(4), Record(5)];
    assert Items(a, env).value == Success(Capped(records, WrapAllButThree));
    FiveWrapped();
  }

  lemma FiveWrapped()
    ensures WrapAll([Record(1), Record(2), Record(3), Record(4), Record(5)], WrapAllButThree)
         == [TransactionMap(Record(1)), TransactionMap(Record(2)),
             TransactionMap(Record(4)), TransactionMap(Record(5))]
  {
  }

  /** A search that throws: both reads propagate the error and nothing is
      cached, so a later read searches again. */
  lemma TransportErrorPropagates()
    ensures var err := GatewayError("timeout");
            var env := Env(AcceptAll, SearchTimesOut, Wrap);
            var a := AddFieldToFilter(Fresh, env, Name("status"), StatusSettled);
            && Items(a, env) == Reply(a, Failure(err), true)
            && GetTotalCount(a, env) == Reply(a, Failure(err), true)
            && a.cached.None?
  {
  }

  /** A compound field never reaches the mapper: the report stays unfiltered
      and reads nothing. */
  lemma CompoundFieldIgnored()
    ensures var env := Env(AcceptAll, SearchOne, Wrap);
            var a := AddFieldToFilter(Fresh, env, Names(["status", "type"]), StatusSettled);
            && a == Fresh
            && Items(a, env) == Reply(Fresh, Success([]), false)
            && GetTotalCount(a, env) == Reply(Fresh, Success(0), false)
  {
  }
}
