/** The collaborators of the transactions report collection and the values
    that cross its boundary. Everything the collection does not own (the
    filter mapper, the Braintree search client, the entity factory) is a
    function-typed field of `Env`: each is a fixed, otherwise unconstrained
    function of its arguments. */
module Gateway {
  import opened Wrappers

  /** A scalar PHP value. */
  datatype Atom = Null | Str(s: string) | Num(n: int) | Flag(b: bool)

  /** A PHP array key. */
  datatype Key = StrKey(s: string) | IntKey(i: int)

  /** A value inside a condition array: a scalar or a nested array, such as
      the `['sale', 'credit']` of an `in` condition. */
  datatype Value = Plain(atom: Atom) | Arr(entries: seq<(Key, Value)>)

  /** A PHP condition array key => value, in insertion order,
      e.g. `[(StrKey("from"), v), (StrKey("to"), w)]`. */
  type Operators = seq<(Key, Value)>

  /** The `$condition` argument: a bare scalar, or an array. */
  datatype Condition = Scalar(value: Atom) | Ops(ops: Operators)

  /** The `$field` argument: one field name, or an array of names
      (a compound filter, which the collection refuses to handle). */
  datatype Field = Name(name: string) | Names(names: seq<string>)

  /** A gateway-specific search node built by the filter mapper; its content
      is the mapper's business. */
  datatype Filter = Filter(token: string)

  /** One raw transaction as the search result yields it. */
  datatype Record = Record(id: nat)

  /** A grid row: the `TransactionMap` entity wrapping one transaction. */
  datatype Row = TransactionMap(transaction: Record)

  /** The search result handle: the records in gateway order together with
      the number of matches the gateway reports. */
  datatype Collection = Collection(records: seq<Record>, maximumCount: nat)

  /** Whatever the search client throws. */
  datatype GatewayError = GatewayError(message: string)

  /** Opaque values handed to the interface stubs. */
  datatype Aggregation = Aggregation(buckets: seq<string>)
  datatype SearchCriteria = SearchCriteria(terms: seq<string>)

  /** The injected collaborators:
      - `getFilter` is `FilterMapper::getFilter`, returning `None` for a
        field/operator it does not support;
      - `search` is `BraintreeAdapter::search`, which either returns a
        collection or throws;
      - `create` is the entity factory building a `TransactionMap` row,
        which may decline a record. */
  datatype Env = Env(
    getFilter: (string, Operators) -> Option<Filter>,
    search: seq<Filter> -> Result<Collection, GatewayError>,
    create: Record -> Option<Row>)

  /** The search client never throws. */
  ghost predicate NeverFails(env: Env)
  {
    forall fs: seq<Filter> :: env.search(fs).Success?
  }
}
