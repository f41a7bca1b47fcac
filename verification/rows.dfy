/** Turning the gateway's records into grid rows: every record goes through
    the entity factory, declined records are skipped, and no more than
    `MaxCount` rows are emitted. */
module Rows {
  import opened Wrappers
  import opened Gateway

  /** `TRANSACTION_MAXIMUM_COUNT`: the most rows one report ever shows. */
  const MaxCount: nat := 100

  function Min(x: nat, y: nat): nat
  {
    if x <= y then x else y
  }

  /** Every row the factory agrees to build, in gateway order, with no cap.
      This is the reference the capped collection is measured against. */
  function WrapAll(records: seq<Record>, create: Record -> Option<Row>): (rows: seq<Row>)
    ensures |rows| <= |records|
    ensures (forall i :: 0 <= i < |records| ==> create(records[i]).Some?) ==>
              |rows| == |records| &&
              forall i :: 0 <= i < |records| ==> Some(rows[i]) == create(records[i])
  {
    if |records| == 0 then []
    else
      var rest := WrapAll(records[1..], create);
      match create(records[0])
      case None => rest
      case Some(row) => [row] + rest
  }

  /** The rows `getItems` returns for a search result: the first
      min(MaxCount, k) of the k wrappable records. */
  function Capped(records: seq<Record>, create: Record -> Option<Row>): (rows: seq<Row>)
    ensures rows <= WrapAll(records, create)
    ensures |rows| == Min(MaxCount, |WrapAll(records, create)|)
  {
    var all := WrapAll(records, create);
    if |all| <= MaxCount then all else all[..MaxCount]
  }

  /** Wrapping distributes over concatenation: the order of the records is
      the order of the rows. */
  lemma {:induction false} WrapAllAppend(s: seq<Record>, t: seq<Record>, create: Record -> Option<Row>)
    ensures WrapAll(s + t, create) == WrapAll(s, create) + WrapAll(t, create)
  {
    if |s| == 0 {
      assert s + t == t;
    } else {
      assert (s + t)[1..] == s[1..] + t;
      WrapAllAppend(s[1..], t, create);
    }
  }

  /** A record the factory declines yields no row wherever it stands. */
  lemma {:induction false} WrapAllSkipsRejected(left: seq<Record>, x: Record, right: seq<Record>,
                                                create: Record -> Option<Row>)
    requires create(x).None?
    ensures WrapAll(left + [x] + right, create) == WrapAll(left + right, create)
  {
    assert WrapAll([x], create) == [];
    WrapAllAppend(left, [x], create);
    WrapAllAppend(left + [x], right, create);
    WrapAllAppend(left, right, create);
  }

  /** A record the factory declines does not count toward the cap: inserting
      it anywhere leaves the report unchanged. */
  lemma {:induction false} CappedSkipsRejected(s: seq<Record>, i: nat, x: Record, create: Record -> Option<Row>)
    requires i <= |s|
    requires create(x).None?
    ensures Capped(s[..i] + [x] + s[i..], create) == Capped(s, create)
  {
    WrapAllSkipsRejected(s[..i], x, s[i..], create);
    assert s[..i] + s[i..] == s;
  }

  /** Two prefixes of one sequence with the same length are equal. */
  lemma PrefixUnique(a: seq<Row>, b: seq<Row>, w: seq<Row>)
    requires a <= w && b <= w && |a| == |b|
    ensures a == b
  {
  }

  /** The `getItems` loop: walk the records in order, wrap each through the
      factory, keep the rows it builds and stop as soon as `MaxCount` rows
      have been emitted. */
  method CollectRows(records: seq<Record>, create: Record -> Option<Row>) returns (rows: seq<Row>)
    ensures rows <= WrapAll(records, create)
    ensures |rows| == Min(MaxCount, |WrapAll(records, create)|)
  {
    rows := [];
    var counter: nat := 0;
    var i := 0;
    while i < |records|
      invariant 0 <= i <= |records|
      invariant counter == |rows| < MaxCount
      invariant rows == WrapAll(records[..i], create)
    {
      var entity := create(records[i]);
      assert records[..i + 1] == records[..i] + [records[i]];
      WrapAllAppend(records[..i], [records[i]], create);
      if entity.Some? {
        rows := rows + [entity.value];
        counter := counter + 1;
        if counter >= MaxCount {
          assert records == records[..i + 1] + records[i + 1..];
          WrapAllAppend(records[..i + 1], records[i + 1..], create);
          break;
        }
      }
      i := i + 1;
    }
    if counter < MaxCount {
      assert records[..i] == records;
    }
  }
}
