# Firestore mock: query and transaction engines

This project models two in-memory engines of a Firestore mock written in TypeScript, and proves properties of the model.

The query engine is `MockQuery`:
- Rule builders (`where`, `orderBy`, `limit`, `startAt`, `startAfter`, `endBefore`, `endAt`) work on a rules object. Clones share that object.
- Evaluation (`getFilterDocumentReferences`) is a fixed pipeline over the document list: filter, sort, start-cursor trim, end-cursor trim, limit.
- Listener registration is `onSnapshot`.
- `handleCollectionSnapshotChange` re-scopes upstream document changes to the query's old and new results. It notifies the listeners when any change concerns the query.

The transaction engine is `MockTransaction`:
- Writes (`set`, `update`, `delete`) are buffered per document path.
- Reads (`get`) are refused after the first write.
- `update` has a nested field-path mutator.
- `commit` sends each buffered change to storage in key order and groups the changes by collection in an object literal. It then fires per-document events and one batch event per collection.

Modules:
- `Wrappers` (`wrappers.dfy`): `Option` (a value or `undefined`) and `Result` (a value or a thrown error).
- `Js` (`js.dfy`): the JavaScript built-ins the source relies on. These are `slice` with negative and out-of-range indices, `lastIndexOf`, `substr`, and `split`, with the join/split round trip.
- `Firestore` (`firestore.dfy`): JSON-like document values, JS truthiness, document references, change types, and the errors the engines throw.
- `QueryEvaluation` (`query_evaluation.dfy`): the evaluation pipeline and the change re-scoping, as functions.
  - The imported helpers `filterDocumentsByRules`, `sortDocumentsByRules` and `findIndexForDocument` are arrow-typed fields of a `Helpers` parameter.
- `MockQuery` (`mock_query.dfy`): the query object and its rules object as heap classes. This makes the sharing between a query and its clones visible.
- `FieldPaths` (`field_paths.dfy`): the field-path mutator of `update`. It has the effect of a write as functions (`SetPath`, `ApplyPairs`), and the in-place walk as methods proved equal to them.
- `MockTransaction` (`mock_transaction.dfy`):
  - The buffered state as a value (`TxState`) with one function per operation.
  - The `Transaction` class, whose methods are proved to produce exactly those states.
  - The commit, with its grouping by collection.

Where the source's own documentation and its code disagree, the model follows the code:
- The doc comments of `where`, `orderBy` and `limit` (`src/firestore/MockQuery.ts:127-135`, `149-156`, `169-174`) each promise to create and return a new query with the additional rule.
- The code (`src/firestore/MockQuery.ts:136-182`, `407-409`) returns a clone that shares the original's rules object. Pushing into it and assigning on it changes the original query too.
- `MockQuery.MockQuery.Where`, `OrderBy` and `Limit` model that sharing. See "## Findings".

JavaScript object keys iterate in first-insertion order:
- `Transaction.order` records the order in which paths first became keys of `transactionOperation`.
- The commit's `collections` sequence records the key order of `collectionChanges`.

## Model

| member | source | states |
|---|---|---|
| `QueryEvaluation.Filter` | src/firestore/MockQuery.ts:419 | A document is in the filtered list iff it is in the input and passes the where rules; the list is no longer than the input |
| `QueryEvaluation.TrimStart` | src/firestore/MockQuery.ts:422-432 | A start cursor without order rules throws the start validation error. Found at index i: `at` keeps `docs[i..]`, `after` keeps `docs[i+1..]`. Not found (negative index): the list is unchanged. Index past the end: empty |
| `QueryEvaluation.TrimEnd` | src/firestore/MockQuery.ts:434-444 | An end cursor without order rules throws the end validation error. Found at index i: `at` keeps `docs[..i+1]`, `before` keeps `docs[..i]`. Not found: the list is unchanged |
| `QueryEvaluation.ApplyLimit` | src/firestore/MockQuery.ts:446-448 | A positive limit keeps the prefix of length `min(len, limit)`; no limit (or the falsy limit 0) keeps everything |
| `QueryEvaluation.FilterDocumentReferences` | src/firestore/MockQuery.ts:415-450 | The evaluation pipeline: filter, sort, trim at the start cursor, trim at the end cursor, then limit, stopping at the first cursor error. `EvaluationErrors`, `LimitTakesPrefix`, `ResultIsWindow` and `ResultComesFromInput` state what it means |
| `QueryEvaluation.EvaluationErrors` | src/firestore/MockQuery.ts:415-450 | Evaluation throws iff a cursor is present and there are no order rules. The start check comes first, so its error wins when both cursors are present |
| `QueryEvaluation.LimitTakesPrefix` | src/firestore/MockQuery.ts:446-448 | With a positive limit, the result has length `min(len, limit)` and is a prefix of the trimmed, sorted, filtered list. Without a limit it is that whole list |
| `QueryEvaluation.ResultIsWindow` | src/firestore/MockQuery.ts:415-450 | A successful evaluation is the contiguous slice `Window` of `sort(filter(docRefs))`. `Window` computes the bounds independently, by index arithmetic on the cursor positions and the limit |
| `QueryEvaluation.ResultComesFromInput` | src/firestore/MockQuery.ts:415-450 | When sorting only permutes, every document in a result is an input document that passes the where rules |
| `QueryEvaluation.IndexOfId` | src/firestore/MockQuery.ts:366-367 | `findIndex` by id: -1 iff no document has the id; otherwise the first position holding it |
| `QueryEvaluation.Classify` | src/firestore/MockQuery.ts:369-394 | One change: an unexpected type throws. Otherwise the change is kept, with its old/new positions, iff it concerns the query: a modification or removal present in the old result, or an addition present in the new one |
| `QueryEvaluation.Rescope` | src/firestore/MockQuery.ts:364-395 | The `forEach` over the upstream changes: each change classified in turn, the kept ones appended, stopping at the first unexpected type. `RescopeCorrect` and `KeptIndices` state what it means |
| `QueryEvaluation.RescopeCorrect` | src/firestore/MockQuery.ts:364-395 | The loop succeeds iff every change type is known, and then yields exactly the reference list `Kept` of relevant, re-scoped changes in upstream order. Otherwise it throws for the first change with an unexpected type |
| `QueryEvaluation.KeptIndices` | src/firestore/MockQuery.ts:372-388 | Every kept change carries its positions in the old and new results (-1 when absent). A kept addition is present in the new result; a kept modification or removal is present in the old one |
| `QueryEvaluation.KeptNonEmpty` | src/firestore/MockQuery.ts:396 | Some change is kept iff some upstream change concerns the query |
| `MockQuery.MockQuery.CreateClone` | src/firestore/MockQuery.ts:407-409 | A fresh query over the same documents that holds the very same rules object |
| `MockQuery.MockQuery.Where` | src/firestore/MockQuery.ts:136-146 | Returns a fresh query sharing this query's rules object. That object's where list (created when absent) gains the rule at its end; the rest of the rules are unchanged |
| `MockQuery.MockQuery.OrderBy` | src/firestore/MockQuery.ts:157-166 | As `where`, for the order list; the direction defaults to ascending |
| `MockQuery.MockQuery.Limit` | src/firestore/MockQuery.ts:175-182 | Throws the limit validation error iff `limit <= 0`, leaving the rules untouched. Otherwise the shared rules object's limit becomes `limit`, with the other rules unchanged |
| `MockQuery.MockQuery.CreateStartRule` | src/firestore/MockQuery.ts:452-460 | A fresh rules object with this query's rules (same where and order lists) and the new start cursor |
| `MockQuery.MockQuery.CreateEndRule` | src/firestore/MockQuery.ts:462-470 | A fresh rules object with this query's rules (same lists) and the new end cursor |
| `MockQuery.MockQuery.StartAt` | src/firestore/MockQuery.ts:198-202 | Replaces this query's rules object by one with an inclusive start cursor; returns this same query; nothing else changes |
| `MockQuery.MockQuery.StartAfter` | src/firestore/MockQuery.ts:225-228 | As `startAt` with an exclusive start cursor |
| `MockQuery.MockQuery.EndBefore` | src/firestore/MockQuery.ts:251-254 | Replaces the rules object by one with an exclusive end cursor; returns this query |
| `MockQuery.MockQuery.EndAt` | src/firestore/MockQuery.ts:277-280 | Replaces the rules object by one with an inclusive end cursor; returns this query |
| `MockQuery.MockQuery.OnSnapshot` | src/firestore/MockQuery.ts:341-351 | A callback is appended to the registered callbacks. Any other first argument throws `NotImplementedYet("MockQuery.onSnapshot")` and registers nothing |
| `MockQuery.MockQuery.RescopeChanges` | src/firestore/MockQuery.ts:362-395 | The `forEach` loop produces exactly `Rescope` (whose meaning `RescopeCorrect` states) |
| `MockQuery.MockQuery.HandleCollectionSnapshotChange` | src/firestore/MockQuery.ts:357-401 | Evaluates before and after taking the current documents; an evaluation error is rethrown. The callbacks fire exactly once, with the new result and the re-scoped changes, iff the re-scoping kept something; otherwise nothing fires |
| `MockQuery.WhereAltersParentQuery` | src/firestore/MockQuery.ts:136-146 | After `where` on a new, unfiltered query, the original query's own rules carry the filter |
| `MockQuery.MockQuery.WhereCopied` | src/firestore/MockQuery.ts:126-135 | A fresh query whose fresh rules are this query's rules plus the filter; this query's rules object and lists are left alone |
| `MockQuery.CorrectedWhereKeepsParent` | src/firestore/MockQuery.ts:126-135 | With the copying `where`, the original query stays unfiltered and the new query has the filter |
| `Js.Slice` | src/firestore/MockQuery.ts:430 | `Array.prototype.slice`: within bounds it is `s[begin..end]`; `slice(0, n)` with `n >= len` is the whole list |
| `Js.LastIndexOfFinds` | src/firestore/MockTransaction.ts:166 | -1 iff the character is absent; otherwise the last position holding it |
| `Js.SplitJoin` | src/firestore/MockTransaction.ts:203-204 | Joining the pieces of `split` with the separator gives back the string, and no piece contains the separator |
| `Firestore.Truthy` | src/firestore/MockTransaction.ts:82 | JavaScript truthiness of a field value: `null`, `false`, `0` and `""` are falsy, lists and maps never are. It decides when a buffered value falls back to the stored data and when a field on a path is replaced by `{}`. `DeleteKeepsStoredVisible` and `FalsyIntermediateBecomesMap` state its consequences |
| `MockTransaction.Read` | src/firestore/MockTransaction.ts:58-65 | The result of `get` on a buffered state: the read-after-write error once anything was written, otherwise a snapshot of the stored data. `ReadSeesBestKnown` and `WritesBlockReads` state its properties |
| `MockTransaction.Transaction.Get` | src/firestore/MockTransaction.ts:58-65 | Returns exactly `Read` of the current state: the read-after-write error iff a write happened, otherwise a snapshot of the stored document data |
| `MockTransaction.ReadSeesBestKnown` | src/firestore/MockTransaction.ts:58-65 | A read is allowed iff nothing was written. An allowed read sees exactly the data a write would build on |
| `MockTransaction.SetEffect` | src/firestore/MockTransaction.ts:77-94 | The state after `set` and whether it threw: marks the transaction, picks `modified` or `added` from the best known data, and buffers what storage returned. `SetRecordsKind`, `FailedWriteBuffersNothing`, `WritesTouchOnlyTheirPath` and `WritesKeepWellFormed` state its properties |
| `MockTransaction.UpdateEffect` | src/firestore/MockTransaction.ts:110-138 | The state after `update`: field/value pairs go through `ApplyPairs` on the best known data, an object goes to `updateInTransaction`, anything else throws not-implemented. `UpdatePathReadsBack`, `FailedWriteBuffersNothing` and `WritesTouchOnlyTheirPath` state its properties |
| `MockTransaction.DeleteEffect` | src/firestore/MockTransaction.ts:146-153 | The state after `delete`: `undefined` and `removed` buffered for the path. `WritesTouchOnlyTheirPath` and `DeleteKeepsStoredVisible` state its properties |
| `MockTransaction.Transaction.Write` | src/firestore/MockTransaction.ts:86-92 | Buffers data and operation for one path: the new state is exactly `Record` of the old one, and the buffer stays well formed (a new path joins the key order once, at the end) |
| `MockTransaction.Transaction.Set` | src/firestore/MockTransaction.ts:77-94 | The new state and result are exactly `SetEffect` of the old state; the buffer stays well formed |
| `MockTransaction.SetRecordsKind` | src/firestore/MockTransaction.ts:82-92 | A successful `set` records `modified` when buffered or stored data exists and `added` otherwise. It buffers what `setInTransaction` returned, or what `updateInTransaction` returned for the stored data merged with the new data |
| `MockTransaction.Transaction.Update` | src/firestore/MockTransaction.ts:110-138 | The new state and result are exactly `UpdateEffect` of the old state; the buffer stays well formed |
| `MockTransaction.UpdatePathReadsBack` | src/firestore/MockTransaction.ts:117-130 | A successful update with one plain field-path pair records `modified`, and the buffered data holds the value at that path |
| `MockTransaction.Transaction.Delete` | src/firestore/MockTransaction.ts:146-153 | The new state is exactly `DeleteEffect` of the old one: `undefined` and `removed` for the path |
| `MockTransaction.WritesTouchOnlyTheirPath` | src/firestore/MockTransaction.ts:146-152 | A delete buffers `undefined` and `removed` for its path; a successful update records `modified`. No write changes what is buffered for any other path |
| `MockTransaction.WritesBlockReads` | src/firestore/MockTransaction.ts:78 | After a `set`, `update` or `delete`, even one that threw, every read is refused |
| `MockTransaction.WritesKeepWellFormed` | src/firestore/MockTransaction.ts:33-48 | Every write keeps the buffer well formed: both dictionaries have the same keys, each listed once in key order, and nothing is buffered before the first write |
| `MockTransaction.FailedWriteBuffersNothing` | src/firestore/MockTransaction.ts:115-130 | A `set` or `update` that throws leaves the buffered data and operations as they were, having only set `modified` |
| `MockTransaction.DeleteKeepsStoredVisible` | src/firestore/MockTransaction.ts:82 | After a delete, `set` and `update` build on the stored document again, because the buffered `undefined` is falsy. A later `set` of a stored document records `modified` |
| `FieldPaths.Descend` | src/firestore/MockTransaction.ts:230 | One step of the walk always yields a truthy value. It is a map, so the walk goes on, exactly when the field is missing, falsy or a map. An existing map is kept, so the walk writes into it; a missing or falsy field becomes a fresh empty map; any other result is the existing truthy non-object that the mutator rejects |
| `FieldPaths.SetPath` | src/firestore/MockTransaction.ts:227-240 | The effect of the walk down a field path and the final write. With a plain value it can only throw the illegal-path error (or the array case left out of the model); with a sentinel, the processor may throw too. `SetPathSucceedsIff`, `SetPathReadsBack`, `SetPathAssignsLast` and `SetPathKeepsOthers` state what it means |
| `FieldPaths.SetPathSucceedsIff` | src/firestore/MockTransaction.ts:229-240 | Writing a nested path succeeds iff every proper prefix of the path is missing, falsy or a map, and the final write into the object the walk reaches succeeds (always for a plain value; for a sentinel, when the processor does not throw) |
| `FieldPaths.SetPathReadsBack` | src/firestore/MockTransaction.ts:235-240 | After a plain write, reading the path gives the value written |
| `FieldPaths.SetPathAssignsLast` | src/firestore/MockTransaction.ts:235-240 | After a successful write, the final write into the object the walk reached succeeded, and the parent object of the final segment is its result (the segment assigned, or resolved by the sentinel processor) |
| `FieldPaths.SetPathKeepsOthers` | src/firestore/MockTransaction.ts:227-240 | Every field path that is neither an ancestor nor a descendant of the written path reads the same before and after |
| `FieldPaths.FalsyIntermediateBecomesMap` | src/firestore/MockTransaction.ts:229-240 | A missing or falsy intermediate (0, "", false, null) is replaced by a map holding only the new branch. The write then throws iff the final write into an empty object throws |
| `FieldPaths.SingleSegmentIsAssignment` | src/firestore/MockTransaction.ts:235-240 | A one-segment path is just the final write: a key assignment, or the sentinel processor |
| `FieldPaths.SetPathIntoEmpty` | src/firestore/MockTransaction.ts:229-240 | Writing into an empty object throws iff the final write into an empty object throws, so a plain value never throws |
| `FieldPaths.UpdateSingleFieldPathValue` | src/firestore/MockTransaction.ts:221-241 | The in-place walk, with its write-back, produces exactly `SetPath` |
| `FieldPaths.StringFieldIsPath` | src/firestore/MockTransaction.ts:202-212 | A string field acts exactly as the field path of its dot-separated segments |
| `FieldPaths.UnsupportedFieldThrows` | src/firestore/MockTransaction.ts:215-217 | A field that is neither a string nor a field path makes the whole update throw |
| `FieldPaths.ApplyPair` | src/firestore/MockTransaction.ts:200-217 | One field/value pair: a dotted string splits into a field path, a plain string is one assignment, a field path walks with `SetPath`, anything else throws the unsupported-field error. `StringFieldIsPath` and `UnsupportedFieldThrows` state its properties |
| `FieldPaths.ApplyPairs` | src/firestore/MockTransaction.ts:197-219 | The pairs applied in order, stopping at the first throw. `ApplyPairsErrorPersists` and `UnsupportedFieldThrows` state its properties |
| `FieldPaths.UpdateFromPair` | src/firestore/MockTransaction.ts:200-217 | One iteration of the loop, updating in place, produces exactly `ApplyPair` |
| `FieldPaths.UpdateFieldsFromArgs` | src/firestore/MockTransaction.ts:197-219 | The loop over the pairs produces exactly `ApplyPairs`: each pair applied in order, stopping at the first throw |
| `MockTransaction.CollectionPathSplits` | src/firestore/MockTransaction.ts:166 | A path without '/' has collection "". Otherwise the path is the collection, a '/', and a last segment without '/' |
| `MockTransaction.CommitAll` | src/firestore/MockTransaction.ts:156-171 | The first commit loop over the key order: each buffered change goes to storage and is then grouped by collection, until storage or the grouping throws. A change whose grouping threw has reached storage and counts as committed. `CommitAllPrefix` states what it means |
| `MockTransaction.CommitAllCommits` | src/firestore/MockTransaction.ts:160-165 | The loop commits a prefix of the key order, one change per path, in order, each as storage reported it, and all of them when nothing threw |
| `MockTransaction.CommitAllGroups` | src/firestore/MockTransaction.ts:166-169 | Every committed change lies in a collection the object literal can group, except possibly the last change of a loop that threw |
| `MockTransaction.CommitAllStops` | src/firestore/MockTransaction.ts:156-171 | A loop that threw stopped because the last change committed lies in a collection named like an inherited `Object.prototype` member, which throws the `TypeError` at `push`, or else because storage threw at the next path |
| `MockTransaction.CommitAllPrefix` | src/firestore/MockTransaction.ts:156-171 | The three above together: a prefix committed in order, each change grouped but possibly the last, and a throw either from the grouping of the last change or from storage at the next path |
| `MockTransaction.CommitLoopSucceedsIff` | src/firestore/MockTransaction.ts:156-171 | The first loop gets through every buffered path iff storage accepts every change and no buffered path lies in a collection named like an inherited `Object.prototype` member. Then it committed one change per path, in key order |
| `MockTransaction.FireAll` | src/firestore/MockTransaction.ts:173-185 | The second commit loop over the planned events: each event fires until one throws. `FireAllPrefix` states what it means |
| `MockTransaction.FireAllPrefix` | src/firestore/MockTransaction.ts:173-185 | The event loop fires a prefix of the planned events, in order. It fires all of them unless one throws, and then it stops at the first event that threw |
| `MockTransaction.FireLoopSucceedsIff` | src/firestore/MockTransaction.ts:173-185 | The event loop fires every planned event iff none of them throws |
| `MockTransaction.CommitEffect` | src/firestore/MockTransaction.ts:155-190 | The commit's changes, events and outcome: a throw from storage or from the grouping stops before any event, an event throw stops the events, and every throw rolls back and is rethrown. It rolls back exactly when it throws |
| `MockTransaction.CommitSucceedsIff` | src/firestore/MockTransaction.ts:155-190 | The commit returns iff storage accepts every buffered change, every change can be grouped, and every planned event fires. Then each buffered path produced exactly one change, in key order, and every planned event fired |
| `MockTransaction.StorageFailureFiresNothing` | src/firestore/MockTransaction.ts:156-189 | When the first loop throws (storage rejects a change, or a change cannot be grouped), no event fires and the commit rolls back and rethrows. The error is the `TypeError` when the last change committed could not be grouped, and otherwise the error storage gave for the next buffered path |
| `MockTransaction.GroupingFailureKeepsChange` | src/firestore/MockTransaction.ts:156-189 | For a buffered path in a top-level collection named like an inherited `Object.prototype` member (`constructor/d1`), storage accepts the change and then the grouping throws. That change and those before it stay committed, no event fires, and the commit rolls back and rethrows the `TypeError` |
| `MockTransaction.NotificationFailureKeepsCommitted` | src/firestore/MockTransaction.ts:172-189 | When storage accepts and the loop groups every change but an event throws, every change stays committed, the events fired are a strict prefix of those planned, and the commit rolls back and rethrows the event's error |
| `MockTransaction.GroupsCoverCommitted` | src/firestore/MockTransaction.ts:166-169 | The per-collection groups partition the committed changes: their sizes add up to the number committed |
| `MockTransaction.CollectionsDistinct` | src/firestore/MockTransaction.ts:167-169 | Each collection appears once in the key order of the grouping, and every committed change's collection appears there |
| `MockTransaction.Notifications` | src/firestore/MockTransaction.ts:173-185 | The events the second loop plans: for each collection in key order, its documents' events, then its batch event. `NotificationsLength`, `GroupsCoverCommitted` and `CommitNotifiesEachChangeOnce` state their count and coverage |
| `MockTransaction.CommitNotifiesEachChangeOnce` | src/firestore/MockTransaction.ts:173-185 | A successful commit fires one document event per buffered path plus one batch event per collection touched, each collection once |
| `MockTransaction.FireDocumentEvents` | src/firestore/MockTransaction.ts:176-181 | The inner event loop over one collection's changes fires exactly what `FireAll` fires of their document events: all of them, or up to the first that throws, which ends the whole loop |
| `MockTransaction.FireNotifications` | src/firestore/MockTransaction.ts:173-185 | The event loops fire exactly what `FireAll` fires of `Notifications`: for each collection in key order, its documents' events, then its batch with exactly its changes, stopping at the first throw |
| `MockTransaction.Transaction.CommitChanges` | src/firestore/MockTransaction.ts:156-171 | The first commit loop produces exactly `CommitAll`. Its dictionary maps each collection, in first-appearance order, to that collection's grouped changes: all committed changes, except a last one whose grouping threw |
| `MockTransaction.Transaction.Commit` | src/firestore/MockTransaction.ts:155-190 | The commit's changes, events and outcome are exactly `CommitEffect` of the buffered state, whichever loop throws |
| `MockTransaction.Transaction.Rollback` | src/firestore/MockTransaction.ts:192-195 | Changes nothing |

## Left out

- Collection subscription in the `MockQuery` constructor, `reset` and unsubscribing: event plumbing to the collection, which is not part of this model.
- `filterDocumentsByRules`, `sortDocumentsByRules` and `findIndexForDocument` are not part of this model.
  - Filtering is taken as an order-preserving filter by a per-document predicate.
  - Sorting is arbitrary. Its being a permutation (`SortPermutes`) is assumed only where a property needs it, and its stability is not modelled.
  - Cursor lookup is an arbitrary index function. An unsupported where operator's error inside the filter is not modelled.
- `MockCallbackHandler` is not part of this model. A firing is recorded as a `Notification` with the callbacks registered at the time. Exceptions thrown by listeners are not modelled.
- `MockQuery.get`, `getDocumentSnapshots` and `MockQuerySnapshot`: the snapshot wrappers are not modelled. An evaluation error is the `Err` result of `FilterDocumentReferences`.
- `limitToLast`, `withConverter`, the observer form of `onSnapshot` and `isEqual` (reference identity): not implemented in the source, or trivial.
- `parseFieldValuePairsFromArgs` is not part of this model. `update` receives the list of field/value pairs it would produce.
- The `MockFieldPath` constructor's validation is not modelled. A field path is its sequence of segment names.
- `processFieldValue` and the `MockFieldValue` sentinels are not part of this model. They are the `Processor` parameter: called with the original data, the parent object, the final segment and the sentinel, it returns the updated parent object or throws.
- The document-reference collaborators `setInTransaction`, `updateInTransaction`, `commitChange`, `fireDocumentChangeEvent`, `fireBatchDocumentChange` and `firestore.doc`/`collection` are not part of this model.
  - The first three are parameters that return a result or throw. A throw from `firestore.doc` counts as a throw from `commitChange`.
  - Each firing is an `Event` handed to the `notify` parameter, which returns or throws. A throw from `firestore.collection` counts as a throw from `notify` on the batch event.
  - The rest arguments passed to `updateInTransaction` by `update` and the `SetOptions` other than `merge` are not passed on.
- Promises and `async`: every operation is a synchronous result or thrown error.
- `FieldPaths.SetPath`: an array intermediate is not modelled. The source would write a property onto the JS array; the model returns the distinct error `ArrayPathUnmodelled`.
- `FieldPaths.SetPath`: field values are immutable trees. In the source a written object is stored by reference, so a later write through one alias shows through another (`update(ref, 'a', o, 'c', o, 'a.x', 1)` also changes `c.x`); the model copies.
- `FieldPaths.SetPath`: names inherited from `Object.prototype` (`constructor`, `toString`, `valueOf`, ...) are treated as missing. In the source they are truthy functions, so descending through one throws the illegal-path error, and a final `__proto__` segment sets the prototype instead of a field.
- `FieldPaths.SetPathSucceedsIff`: stated for fields as plain data. It does not cover an intermediate segment naming an inherited `Object.prototype` member, which throws in the source.
- `FieldPaths.SetPathIntoEmpty`: stated for fields as plain data. In the source a path through an inherited name such as `constructor` throws even on an empty object.
- `FieldPaths.FalsyIntermediateBecomesMap`: a missing intermediate is one absent from the map. An inherited `Object.prototype` name is truthy in the source and is not replaced.
- `FieldPaths.SetPathKeepsOthers`: stated for values. Aliasing between stored objects, through which the source can change other paths too, is not modelled.
- `FieldPaths.ApplyPair`: an update of a document with no data (neither buffered nor stored) throws the JavaScript `TypeError` in the source. The model gives `TypeError` for every pair, without modelling which sentinel processing might run first.
- `update` with an object argument that is `null` is not modelled (`typeof null` is `'object'`).
- `MockTransaction.Transaction.Get`: the snapshot holds the document's data as a value, so the shallow copy (`{ ...doc.data }`) and the snapshot class are not modelled.
- Deep copies (`deepCopy`, spreads) are value copies: document data are immutable values, so the source data is never mutated by an update.
- JavaScript puts integer-like object keys before other keys when iterating. The key orders here are plain insertion orders, which differ from the source only for paths or collection ids that look like array indices.
- Floating-point numbers, NaN and `undefined` as a field value are not modelled: numbers are integers.

## Findings

| source | as written | input that shows it | evidently intended | confidence | as-written member | corrected member |
|---|---|---|---|---|---|---|
| src/firestore/MockQuery.ts:136-146, 407-409 | `where` clones the query with `createClone`, which passes `this.rules` itself. It then pushes the new rule into that shared object's `where` array (creating and assigning the array when absent), so the original query is filtered too. `orderBy` and `limit` do the same | `q2 = q.where('a', '==', 1)` on an unfiltered query `q`: afterwards `q`'s own rules carry the `a == 1` filter | "Creates and returns a new Query with the additional filter": a new query with a copy of the rules, leaving `q` unfiltered | high, not executed | `MockQuery.WhereAltersParentQuery` | `MockQuery.CorrectedWhereKeepsParent` |
