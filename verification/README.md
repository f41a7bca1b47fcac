# Braintree transactions report collection, in Dafny

This project models `TransactionsCollection`, the collection behind the
Braintree transactions report grid in the Magento admin. The collection:

- turns grid filters (`addFieldToFilter`) into gateway filter objects through a
  filter mapper;
- on the first read (`getItems` or `getTotalCount`) with a non-empty filter
  list, runs one Braintree transaction search and caches the result handle;
- wraps each returned transaction in a `TransactionMap` row through the entity
  factory, skipping records the factory declines;
- stops after `TRANSACTION_MAXIMUM_COUNT` (100) rows;
- reports the gateway's own match count as the total.

The class's collaborators are the filter mapper, the Braintree search client
and the entity factory. They are function-typed fields of `Gateway.Env`. Each
is a fixed function of its arguments. The mapper and the factory always
return (a filter or `null`, a row or `null`). A search either returns a
collection or throws. A thrown error is a `Failure` that the reads pass on unchanged.

Modules:

- `Wrappers` (`wrappers.dfy`): `Option` for PHP `null` and `Result` for a call that may throw.
- `Gateway` (`gateway.dfy`): the values crossing the class boundary and the collaborators.
- `Rows` (`rows.dfy`): wrapping records into rows, the 100-row cap and the `getItems` loop.
- `TransactionsCollection` (`transactions_collection.dfy`): the class itself.
  - Its state is `Adapter(filters, cached)`.
  - Every read returns a `Reply(next, value, searched)`: the state after the call, the return value or the propagated error, and whether the call invoked `search`.
- `Session` (`session.dfy`): a whole report request, as a sequence of calls on one instance.
- `Scenarios` (`scenarios.dfy`): concrete requests worked through the model.

"At most one search per instance" holds only in part. The class caches a
collection only when `search` returns one. If `search` throws, nothing is
cached, and the next read searches again. In the model that search gets the
same filters, so it fails again. So "at most one search" is proved
only for a search client that never throws (`Session.RunSearchesAtMostOnce`).
Once a search has succeeded, no later call searches, whatever happens
(`Session.RunKeepsCache`).

## Model

| member | source | states |
|---|---|---|
| `Rows.WrapAll` | app/code/Magento/BraintreeTwo/Model/Report/TransactionsCollection.php:86-95 | The uncapped rows never outnumber the records. When the factory accepts every record, row i is exactly the factory's row for record i. |
| `Rows.Capped` | app/code/Magento/BraintreeTwo/Model/Report/TransactionsCollection.php:84-96 | The report's rows are a prefix of all wrappable rows in gateway order, and there are exactly min(100, k) of them for k wrappable records. |
| `Rows.WrapAllAppend` | app/code/Magento/BraintreeTwo/Model/Report/TransactionsCollection.php:86-95 | Wrapping distributes over concatenation of the record sequence, so gateway order is kept. |
| `Rows.WrapAllSkipsRejected` | app/code/Magento/BraintreeTwo/Model/Report/TransactionsCollection.php:87-95 | A record the factory declines yields no row wherever it stands: wrapping the records with it equals wrapping them without it. |
| `Rows.CappedSkipsRejected` | app/code/Magento/BraintreeTwo/Model/Report/TransactionsCollection.php:87-95 | A record the factory declines, inserted anywhere, leaves the capped report unchanged. Declined records do not count toward the cap. |
| `Rows.CollectRows` | app/code/Magento/BraintreeTwo/Model/Report/TransactionsCollection.php:83-98 | The loop that counts emitted rows and breaks at 100 returns a prefix of the wrappable rows of length min(100, k). |
| `TransactionsCollection.NormalizeCondition` | app/code/Magento/BraintreeTwo/Model/Report/TransactionsCollection.php:202-204 | A scalar condition becomes `['eq' => condition]`. An array condition is passed on unchanged. |
| `TransactionsCollection.AddFilterToList` | app/code/Magento/BraintreeTwo/Model/Report/TransactionsCollection.php:216-221 | A null filter leaves the state unchanged. A filter is appended at the end, and the earlier filters stay in place, in order. The cache is untouched. |
| `TransactionsCollection.AddFieldToFilter` | app/code/Magento/BraintreeTwo/Model/Report/TransactionsCollection.php:196-209 | An array field returns the collection unchanged. Otherwise the mapper's filter for the normalised condition is added. The list only grows, by at most one. The cache is never touched, and consistency is kept. |
| `TransactionsCollection.GetFilters` | app/code/Magento/BraintreeTwo/Model/Report/TransactionsCollection.php:226-229 | The search receives the accumulated filters element for element, in order. |
| `TransactionsCollection.FetchCollection` | app/code/Magento/BraintreeTwo/Model/Report/TransactionsCollection.php:105-116 | With no filters it returns null and does not search. A cached handle is returned without searching. Otherwise it makes exactly one search with the full list. On success the result is cached; on failure the error propagates and nothing is cached. The filters never change. |
| `TransactionsCollection.Items` | app/code/Magento/BraintreeTwo/Model/Report/TransactionsCollection.php:77-99 | Without filters it returns `[]` and does not search. A gateway error propagates. Otherwise it returns at most 100 rows: the min(100, k)-long prefix of the cached collection's wrappable rows. |
| `TransactionsCollection.GetItems` | app/code/Magento/BraintreeTwo/Model/Report/TransactionsCollection.php:77-99 | The looping implementation of `getItems` agrees with `Items` on the rows, the error, the next state and the search flag. |
| `TransactionsCollection.GetTotalCount` | app/code/Magento/BraintreeTwo/Model/Report/TransactionsCollection.php:175-179 | Without filters it returns 0 and does not search. A gateway error propagates. Otherwise it returns the cached collection's `maximumCount`, not capped. |
| `TransactionsCollection.SetItems` | app/code/Magento/BraintreeTwo/Model/Report/TransactionsCollection.php:125-128 | Returns the collection with no state change. |
| `TransactionsCollection.GetAggregations` | app/code/Magento/BraintreeTwo/Model/Report/TransactionsCollection.php:133-136 | Always null. |
| `TransactionsCollection.SetAggregations` | app/code/Magento/BraintreeTwo/Model/Report/TransactionsCollection.php:143-146 | Returns the collection with no state change. |
| `TransactionsCollection.GetSearchCriteria` | app/code/Magento/BraintreeTwo/Model/Report/TransactionsCollection.php:153-156 | Always null. |
| `TransactionsCollection.SetSearchCriteria` | app/code/Magento/BraintreeTwo/Model/Report/TransactionsCollection.php:165-168 | Returns the collection with no state change. |
| `TransactionsCollection.SetTotalCount` | app/code/Magento/BraintreeTwo/Model/Report/TransactionsCollection.php:188-191 | Returns the collection with no state change. |
| `TransactionsCollection.ScalarConditionIsEq` | app/code/Magento/BraintreeTwo/Model/Report/TransactionsCollection.php:202-206 | Filtering on a scalar value gives the same state as filtering on `['eq' => value]`. |
| `TransactionsCollection.FetchIsCached` | app/code/Magento/BraintreeTwo/Model/Report/TransactionsCollection.php:111-115 | After a successful fetch, the next fetch returns the same handle and state without searching. |
| `TransactionsCollection.LateFilterIgnored` | app/code/Magento/BraintreeTwo/Model/Report/TransactionsCollection.php:105-116 | A filter added after the fetch does not invalidate the cache. The total and the rows still come from the earlier collection, with no search. |
| `TransactionsCollection.UnfilteredReadsNothing` | app/code/Magento/BraintreeTwo/Model/Report/TransactionsCollection.php:77-81 | With an empty filter list, `getItems` is `[]` and `getTotalCount` is 0, neither searches, and the state is unchanged. |
| `TransactionsCollection.TotalNotCapped` | app/code/Magento/BraintreeTwo/Model/Report/TransactionsCollection.php:175-179 | When the gateway reports more than 100 matches, the total is that count and exceeds the number of rows `getItems` returns. |
| `Session.Step` | app/code/Magento/BraintreeTwo/Model/Report/TransactionsCollection.php:77-209 | One public call adds exactly the mapper's filter, if any, to the list. Only a read on a filtered, unfetched collection searches. A cached handle is never replaced. Consistency holds and the lifecycle only moves forward. |
| `Session.RunAccumulatesFilters` | app/code/Magento/BraintreeTwo/Model/Report/TransactionsCollection.php:196-221 | After any session, the filter list is the initial list followed by every filter the mapper produced, in call order. |
| `Session.RunKeepsCache` | app/code/Magento/BraintreeTwo/Model/Report/TransactionsCollection.php:111-115 | Once a collection is cached, no later call of any kind searches, and the cached handle is kept. |
| `Session.RunSearchesAtMostOnce` | app/code/Magento/BraintreeTwo/Model/Report/TransactionsCollection.php:105-116 | With a search client that never throws, a session searches at most once, and never if the collection was already fetched. |
| `Session.UnfilteredRunNeverSearches` | app/code/Magento/BraintreeTwo/Model/Report/TransactionsCollection.php:105-108 | Starting from a collection with no filters, a session whose filters the mapper all drops never contacts the gateway and leaves the collection as it was. |
| `Session.StubsAreInert` | app/code/Magento/BraintreeTwo/Model/Report/TransactionsCollection.php:125-191 | Removing every interface-stub call from a session changes neither its final state nor its number of searches. |
| `Session.RunMovesForward` | app/code/Magento/BraintreeTwo/Model/Report/TransactionsCollection.php:105-116 | Any session keeps "cached implies filtered" true. The lifecycle Empty, Filtered, Fetched never moves backwards. |
| `Scenarios.ManyMatches` | app/code/Magento/BraintreeTwo/Model/Report/TransactionsCollection.php:84-96 | 250 wrappable matches give exactly the first 100 rows in gateway order, and a total of 250 with no second search. |
| `Scenarios.RejectedRecordSkipped` | app/code/Magento/BraintreeTwo/Model/Report/TransactionsCollection.php:86-95 | Five matches where the factory declines the third give the other four rows, in order. |
| `Scenarios.TransportErrorPropagates` | app/code/Magento/BraintreeTwo/Model/Report/TransactionsCollection.php:111-113 | A throwing search makes both reads return the error, and nothing is cached. |
| `Scenarios.CompoundFieldIgnored` | app/code/Magento/BraintreeTwo/Model/Report/TransactionsCollection.php:198-200 | An array field leaves the collection fresh: no rows, a total of 0, no search. |

## Left out

- The Braintree search client and the lazy server-side paging of its result set (the comment at line 85). A result is a finite sequence of records plus the reported `maximumCount`. This is network I/O behind a foreign SDK.
- The `FilterMapper` mapping rules and the `TransactionMap` row construction. Neither class is part of this model, so both are uninterpreted collaborators in `Gateway.Env`.
- The injected `StoreManagerInterface`, which the class stores but never uses (lines 66-70), and everything inherited from the framework's base `Collection` class.
- Exceptions from the filter mapper or the entity factory. Both are total functions here. So an exception from `getFilter` (line 206), thrown before any filter is added, cannot be expressed. Nor can one from `create` inside the row loop (line 87), thrown after the collection is cached.
- Page fetches during the row loop. The loop walks the cached result, and the Braintree result set may fetch further pages from the server as it is walked (the comment at line 85). `Reply.searched` counts only calls to `search`, not those page fetches, so a read on a cached collection reports `false` even though iterating may contact Braintree.
- The exception types the gateway throws. Any failure is one `GatewayError`, passed on unchanged.
- PHP truthiness of `empty()` on the cached object. The cache is an `Option`, and a search is assumed never to return `null` without throwing.
- Retrying a failed search. `search` is a fixed function of the filter list, so a search that fails for some filters fails every time for those filters. A failure followed by a successful retry, for example after a timeout, cannot be expressed.
- Condition operands that are PHP floats or objects. A condition array holds string- or integer-keyed entries whose values are scalars (null, string, integer, boolean) or nested arrays of the same kind.
- PHP's loose integer type for `maximumCount`. It is a `nat` here.
- The call counter is not state of the class. Each read reports whether it invoked `search` (`Reply.searched`), and a session adds those up.
