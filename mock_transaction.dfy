/**
 * The transaction engine (class MockTransaction): writes are buffered per document path,
 * reads are refused once anything was written, and the commit pushes each buffered change
 * to storage in turn and then notifies listeners collection by collection.
 */
module MockTransaction {
  import opened Wrappers
  import opened Firestore
  import Js
  import FieldPaths

  /** The second argument of `update`: field/value pairs, an update object, or anything else. */
  datatype UpdateArg = FieldPairs(pairs: seq<FieldPaths.FieldPair>) | Data(fields: Fields) | Unsupported

  /** What `commitChange` reports for one document: its change type, reference and old index. */
  datatype CommittedChange = CommittedChange(kind: ChangeType, docPath: string, oldIndex: int, newIndex: int)

  /** A change together with the buffered path it was committed for. */
  datatype Committed = Committed(path: string, change: CommittedChange)

  /** `fireDocumentChangeEvent` on one document, or `fireBatchDocumentChange` on a collection. */
  datatype Event =
    | DocumentEvent(docPath: string, kind: ChangeType, oldIndex: int)
    | BatchEvent(collection: string, changes: seq<CommittedChange>)

  /**
   * The document-reference, collection and store operations a transaction calls, which are
   * not part of this model: each returns its result or throws. `notify` fires one event
   * (`fireDocumentChangeEvent` or `fireBatchDocumentChange`, after looking up the reference).
   */
  datatype Storage = Storage(
    setInTransaction: (DocRef, Fields) -> Result<Option<Fields>, Error>,
    updateInTransaction: (DocRef, Option<Fields>, Fields) -> Result<Option<Fields>, Error>,
    commitChange: (string, ChangeType, Option<Fields>) -> Result<CommittedChange, Error>,
    notify: Event -> Result<(), Error>,
    process: FieldPaths.Processor)

  datatype DocumentSnapshot = DocumentSnapshot(ref: DocRef, data: Option<Fields>)

  /**
   * The buffered state: `data` is `transactionData`, `operations` is `transactionOperation`,
   * `order` is the order in which paths first became keys of `transactionOperation`.
   */
  datatype TxState = TxState(
    data: map<string, Option<Fields>>,
    operations: map<string, ChangeType>,
    order: seq<string>,
    modified: bool)

  const Fresh := TxState(map[], map[], [], false)

  predicate Distinct<T(==)>(s: seq<T>) {
    forall i, j :: 0 <= i < j < |s| ==> s[i] != s[j]
  }

  /** Both maps have the same keys, listed once each by `order`; nothing is buffered before a write. */
  ghost predicate WellFormed(st: TxState) {
    && st.data.Keys == st.operations.Keys
    && (forall p :: p in st.operations <==> p in st.order)
    && Distinct(st.order)
    && (!st.modified ==> st.order == [])
  }

  /** `transactionData[path]`: the buffered data, `undefined` when deleted or never written. */
  function Pending(st: TxState, path: string): Option<Fields> {
    if path in st.data then st.data[path] else None
  }

  /** `transactionData[path] || doc.data`: what `set` and `update` build on. */
  function BestKnown(st: TxState, doc: DocRef): Option<Fields> {
    if Pending(st, doc.path).Some? then Pending(st, doc.path) else doc.data
  }

  /** `get`: refused once anything was written, otherwise a snapshot of the stored data. */
  function Read(st: TxState, doc: DocRef): Result<DocumentSnapshot, Error> {
    if st.modified then Err(Validation(ReadAfterWrite)) else Ok(DocumentSnapshot(doc, doc.data))
  }

  /** Buffers `pending` and `kind` for `path`; a path already buffered keeps its position. */
  function Record(st: TxState, path: string, pending: Option<Fields>, kind: ChangeType): TxState {
    st.(data := st.data[path := pending],
        operations := st.operations[path := kind],
        order := if path in st.order then st.order else st.order + [path])
  }

  /** The state after a write operation, and whether it returned or threw. */
  datatype Step = Step(state: TxState, result: Result<(), Error>)

  /** A write that marked the transaction and then returned `written` or threw. */
  function Buffer(st: TxState, path: string, written: Result<Option<Fields>, Error>, kind: ChangeType): Step {
    var marked := st.(modified := true);
    match written
    case Ok(pending) => Step(Record(marked, path, pending, kind), Ok(()))
    case Err(e) => Step(marked, Err(e))
  }

  /** `set`: added when nothing is known of the document, modified otherwise. */
  function SetEffect(st: TxState, doc: DocRef, data: Fields, merge: bool, storage: Storage): Step {
    var best := BestKnown(st, doc);
    var kind := if best.Some? then Modified else Added;
    var written :=
      if merge then storage.updateInTransaction(doc, Some(best.GetOr(map[]) + data), data)
      else storage.setInTransaction(doc, data);
    Buffer(st, doc.path, written, kind)
  }

  /** `update`: pairs are applied to a copy of the best known data; anything else is not implemented. */
  function UpdateEffect(st: TxState, doc: DocRef, arg: UpdateArg, storage: Storage): Step {
    var best := BestKnown(st, doc);
    var written := match arg
      case FieldPairs(pairs) => FieldPaths.ApplyPairs(pairs, best, best, storage.process)
      case Data(fields) => storage.updateInTransaction(doc, best, fields)
      case Unsupported => Err(NotImplementedYet("MockTransaction.get"));
    Buffer(st, doc.path, written, Modified)
  }

  /** `delete`: buffers `undefined` with a removal. */
  function DeleteEffect(st: TxState, doc: DocRef): TxState {
    Record(st.(modified := true), doc.path, None, Removed)
  }

  // ---- Properties of the buffered writes ----------------------------------------------------

  lemma RecordWellFormed(st: TxState, path: string, pending: Option<Fields>, kind: ChangeType)
    requires WellFormed(st) && st.modified
    ensures WellFormed(Record(st, path, pending, kind))
  {
    var r := Record(st, path, pending, kind);
    if path !in st.order {
      forall i, j | 0 <= i < j < |r.order| ensures r.order[i] != r.order[j] {
        if j == |st.order| {
          assert r.order[i] == st.order[i];
        }
      }
    }
  }

  /** Marking the transaction and buffering what a write returned keeps the buffer well formed. */
  lemma BufferWellFormed(st: TxState, path: string, written: Result<Option<Fields>, Error>, kind: ChangeType)
    requires WellFormed(st)
    ensures WellFormed(Buffer(st, path, written, kind).state)
  {
    if written.Ok? {
      RecordWellFormed(st.(modified := true), path, written.value, kind);
    }
  }

  /** Every write keeps the buffer well formed, whether it returned or threw. */
  lemma WritesKeepWellFormed(st: TxState, doc: DocRef, data: Fields, merge: bool, arg: UpdateArg, storage: Storage)
    requires WellFormed(st)
    ensures WellFormed(SetEffect(st, doc, data, merge, storage).state)
    ensures WellFormed(UpdateEffect(st, doc, arg, storage).state)
    ensures WellFormed(DeleteEffect(st, doc))
  {
    RecordWellFormed(st.(modified := true), doc.path, None, Removed);
    var best := BestKnown(st, doc);
    BufferWellFormed(st, doc.path,
      if merge then storage.updateInTransaction(doc, Some(best.GetOr(map[]) + data), data)
      else storage.setInTransaction(doc, data),
      if best.Some? then Modified else Added);
    BufferWellFormed(st, doc.path,
      match arg
      case FieldPairs(pairs) => FieldPaths.ApplyPairs(pairs, best, best, storage.process)
      case Data(fields) => storage.updateInTransaction(doc, best, fields)
      case Unsupported => Err(NotImplementedYet("MockTransaction.get")),
      Modified);
  }

  /** After any write, even one that threw, every read is refused. */
  lemma WritesBlockReads(st: TxState, doc: DocRef, data: Fields, merge: bool, arg: UpdateArg, storage: Storage, other: DocRef)
    ensures Read(SetEffect(st, doc, data, merge, storage).state, other) == Err(Validation(ReadAfterWrite))
    ensures Read(UpdateEffect(st, doc, arg, storage).state, other) == Err(Validation(ReadAfterWrite))
    ensures Read(DeleteEffect(st, doc), other) == Err(Validation(ReadAfterWrite))
  {
  }

  /**
   * A write buffers only its own path: a successful one leaves the new data and kind there
   * (the last write to a path wins), and no write changes what is buffered for other paths.
   */
  lemma WritesTouchOnlyTheirPath(st: TxState, doc: DocRef, data: Fields, merge: bool, arg: UpdateArg, storage: Storage, q: string)
    requires q != doc.path
    ensures var d := DeleteEffect(st, doc);
      && Pending(d, doc.path) == None && d.operations[doc.path] == Removed
      && Pending(d, q) == Pending(st, q) && (q in d.operations <==> q in st.operations)
      && (q in st.operations ==> d.operations[q] == st.operations[q])
    ensures var s := SetEffect(st, doc, data, merge, storage).state;
      && Pending(s, q) == Pending(st, q) && (q in s.operations <==> q in st.operations)
      && (q in st.operations ==> s.operations[q] == st.operations[q])
    ensures var u := UpdateEffect(st, doc, arg, storage).state;
      && Pending(u, q) == Pending(st, q) && (q in u.operations <==> q in st.operations)
      && (q in st.operations ==> u.operations[q] == st.operations[q])
    ensures UpdateEffect(st, doc, arg, storage).result.Ok? ==>
      UpdateEffect(st, doc, arg, storage).state.operations[doc.path] == Modified
  {
  }

  /** A read that is allowed sees exactly what a write would build on: nothing is buffered yet. */
  lemma ReadSeesBestKnown(st: TxState, doc: DocRef)
    requires WellFormed(st)
    ensures Read(st, doc).Ok? <==> !st.modified
    ensures Read(st, doc).Ok? ==> Read(st, doc).value.data == BestKnown(st, doc)
  {
    if !st.modified {
      assert doc.path !in st.operations;
    }
  }

  /** A write that throws buffers nothing; it only marks the transaction modified. */
  lemma FailedWriteBuffersNothing(st: TxState, doc: DocRef, data: Fields, merge: bool, arg: UpdateArg, storage: Storage)
    ensures SetEffect(st, doc, data, merge, storage).result.Err? ==>
      SetEffect(st, doc, data, merge, storage).state == st.(modified := true)
    ensures UpdateEffect(st, doc, arg, storage).result.Err? ==>
      UpdateEffect(st, doc, arg, storage).state == st.(modified := true)
  {
  }

  /**
   * A successful `set` buffers what the document reference returned, as a modification when
   * a buffered or stored version exists and as an addition otherwise.
   */
  lemma SetRecordsKind(st: TxState, doc: DocRef, data: Fields, merge: bool, storage: Storage)
    requires SetEffect(st, doc, data, merge, storage).result.Ok?
    ensures var s := SetEffect(st, doc, data, merge, storage).state;
      && s.operations[doc.path] == (if Pending(st, doc.path).Some? || doc.data.Some? then Modified else Added)
      && (!merge ==> s.data[doc.path] == storage.setInTransaction(doc, data).value)
      && (merge && Pending(st, doc.path).None? ==>
            s.data[doc.path] == storage.updateInTransaction(doc, Some(doc.data.GetOr(map[]) + data), data).value)
  {
  }

  /**
   * Updating with a single plain field path on a document whose data is known writes the
   * value where that path reads it back.
   */
  lemma UpdatePathReadsBack(st: TxState, doc: DocRef, names: seq<string>, v: Value, storage: Storage)
    requires |names| >= 1 && BestKnown(st, doc).Some?
    requires UpdateEffect(st, doc, FieldPairs([FieldPaths.FieldPair(FieldPaths.PathField(names), FieldPaths.Plain(v))]), storage).result.Ok?
    ensures var s := UpdateEffect(st, doc, FieldPairs([FieldPaths.FieldPair(FieldPaths.PathField(names), FieldPaths.Plain(v))]), storage).state;
      && s.operations[doc.path] == Modified
      && s.data[doc.path].Some?
      && FieldPaths.GetPath(s.data[doc.path].value, names) == Some(v)
  {
    var best := BestKnown(st, doc);
    var pair := FieldPaths.FieldPair(FieldPaths.PathField(names), FieldPaths.Plain(v));
    assert [pair][..0] == [];
    assert FieldPaths.ApplyPairs([pair], best, best, storage.process) ==
      FieldPaths.ApplyPair(pair, best, best, storage.process);
    FieldPaths.SetPathReadsBack(best.value, names, v, best, storage.process);
  }

  /**
   * A delete does not hide the stored document from a later write in the same transaction:
   * the buffered `undefined` is falsy, so `set` and `update` fall back to the stored data.
   */
  lemma DeleteKeepsStoredVisible(st: TxState, doc: DocRef)
    ensures BestKnown(DeleteEffect(st, doc), doc) == doc.data
    ensures doc.data.Some? ==> forall data: Fields, merge: bool, storage: Storage ::
      SetEffect(DeleteEffect(st, doc), doc, data, merge, storage).result.Ok? ==>
        SetEffect(DeleteEffect(st, doc), doc, data, merge, storage).state.operations[doc.path] == Modified
  {
  }

  // ---- Commit -------------------------------------------------------------------------------

  /** `path.substr(0, path.lastIndexOf('/'))`: the collection of a document path. */
  function CollectionPath(path: string): string {
    Js.Substr(path, 0, Js.LastIndexOf(path, '/'))
  }

  /** The collection is everything before the last '/', and "" when there is none. */
  lemma CollectionPathSplits(path: string)
    ensures '/' !in path ==> CollectionPath(path) == ""
    ensures var r := CollectionPath(path);
      '/' in path ==> |r| < |path| && path == r + "/" + path[|r| + 1..] && '/' !in path[|r| + 1..]
  {
    var slash := Js.LastIndexOf(path, '/');
    Js.LastIndexOfFinds(path, '/');
    var r := CollectionPath(path);
    if slash >= 0 {
      assert r == path[..slash];
      assert path == path[..slash] + "/" + path[slash + 1..];
    }
  }

  /**
   * Grouping a change under its collection id throws: `collectionChanges` is an object
   * literal, so for an id it inherits from `Object.prototype` (a top-level collection named
   * `constructor`, say) `collectionChanges[id] || []` is that inherited member, which has no
   * `push`, and the JavaScript `TypeError` follows.
   */
  predicate GroupingThrows(path: string) {
    CollectionPath(path) in Js.ObjectPrototypeNames
  }

  /** How far the commit loop got: the changes committed so far, and the error if one threw. */
  datatype CommitRun = CommitRun(committed: seq<Committed>, failure: Option<Error>)

  /**
   * The first commit loop over `paths`: each buffered change goes to storage and is then
   * grouped by collection, until storage or the grouping throws. A change whose grouping
   * throws has already reached storage, so it counts as committed.
   */
  function CommitAll(st: TxState, paths: seq<string>, storage: Storage): CommitRun
    requires forall p :: p in paths ==> p in st.operations
  {
    if paths == [] then CommitRun([], None)
    else
      var prev := CommitAll(st, paths[..|paths| - 1], storage);
      var path := paths[|paths| - 1];
      if prev.failure.Some? then prev
      else match storage.commitChange(path, st.operations[path], Pending(st, path))
        case Ok(c) => CommitRun(prev.committed + [Committed(path, c)], if GroupingThrows(path) then Some(TypeError) else None)
        case Err(e) => CommitRun(prev.committed, Some(e))
  }

  /** The last change of `committed` lies in a collection whose grouping throws. */
  predicate LastGroupingThrows(committed: seq<Committed>) {
    |committed| > 0 && GroupingThrows(committed[|committed| - 1].path)
  }

  /** The committed changes that were grouped: all of them, except a last one whose grouping threw. */
  function Grouped(run: CommitRun): seq<Committed> {
    if LastGroupingThrows(run.committed) then run.committed[..|run.committed| - 1] else run.committed
  }

  /** The collections of `cs` in order of first appearance: the key order of `collectionChanges`. */
  function Collections(cs: seq<Committed>): seq<string> {
    if cs == [] then []
    else
      var prev := Collections(cs[..|cs| - 1]);
      var c := CollectionPath(cs[|cs| - 1].path);
      if c in prev then prev else prev + [c]
  }

  /** `collectionChanges[k]`: the changes committed for documents of collection `k`, in commit order. */
  function GroupOf(cs: seq<Committed>, k: string): seq<CommittedChange> {
    if cs == [] then []
    else
      var last := cs[|cs| - 1];
      GroupOf(cs[..|cs| - 1], k) + if CollectionPath(last.path) == k then [last.change] else []
  }

  /** The document events fired for `changes`, one each, in order. */
  function DocumentEvents(changes: seq<CommittedChange>): (r: seq<Event>)
    ensures |r| == |changes|
    ensures forall i :: 0 <= i < |r| ==>
      r[i] == DocumentEvent(changes[i].docPath, changes[i].kind, changes[i].oldIndex)
  {
    if changes == [] then []
    else
      var c := changes[|changes| - 1];
      DocumentEvents(changes[..|changes| - 1]) + [DocumentEvent(c.docPath, c.kind, c.oldIndex)]
  }

  /** For each collection of `ks` in turn: its document events, then its batch event. */
  function Notifications(cs: seq<Committed>, ks: seq<string>): seq<Event> {
    if ks == [] then []
    else
      var k := ks[|ks| - 1];
      Notifications(cs, ks[..|ks| - 1]) + DocumentEvents(GroupOf(cs, k)) + [BatchEvent(k, GroupOf(cs, k))]
  }

  /** How far the event loop got: the events fired so far, and the error if one threw. */
  datatype FireRun = FireRun(fired: seq<Event>, failure: Option<Error>)

  /** The second loop of `commit` over the planned `events`: each is fired until one throws. */
  function FireAll(events: seq<Event>, notify: Event -> Result<(), Error>): FireRun {
    if events == [] then FireRun([], None)
    else
      var prev := FireAll(events[..|events| - 1], notify);
      var e := events[|events| - 1];
      if prev.failure.Some? then prev
      else match notify(e)
        case Ok(_) => FireRun(prev.fired + [e], None)
        case Err(err) => FireRun(prev.fired, Some(err))
  }

  /** What a commit did: the changes that reached storage, the events fired, and the outcome. */
  datatype CommitOutcome = CommitOutcome(
    committed: seq<Committed>, events: seq<Event>, result: Result<(), Error>, rolledBack: bool)

  /**
   * `commit`: a throw from storage or from the grouping rolls back and is rethrown before any
   * event fires; a throw from an event rolls back and is rethrown after the changes have all
   * reached storage.
   */
  function CommitEffect(st: TxState, storage: Storage): (out: CommitOutcome)
    requires WellFormed(st)
    ensures out.result.Err? <==> out.rolledBack
  {
    var run := CommitAll(st, st.order, storage);
    if run.failure.Some? then CommitOutcome(run.committed, [], Err(run.failure.value), true)
    else
      var fire := FireAll(Notifications(run.committed, Collections(run.committed)), storage.notify);
      if fire.failure.Some? then CommitOutcome(run.committed, fire.fired, Err(fire.failure.value), true)
      else CommitOutcome(run.committed, fire.fired, Ok(()), false)
  }

  // ---- Properties of the commit -------------------------------------------------------------

  /** The commit loop commits a prefix of `paths`, one change per path, in order, as storage reported it. */
  lemma {:induction false} CommitAllCommits(st: TxState, paths: seq<string>, storage: Storage)
    requires forall p :: p in paths ==> p in st.operations
    ensures var run := CommitAll(st, paths, storage);
      && |run.committed| <= |paths|
      && (run.failure.None? ==> |run.committed| == |paths|)
      && (forall i :: 0 <= i < |run.committed| ==>
            run.committed[i].path == paths[i] &&
            storage.commitChange(paths[i], st.operations[paths[i]], Pending(st, paths[i])) == Ok(run.committed[i].change))
  {
    if paths != [] {
      var init := paths[..|paths| - 1];
      CommitAllCommits(st, init, storage);
      forall i | 0 <= i < |init| ensures paths[i] == init[i] {}
    }
  }

  /** Every committed change was grouped, except possibly the last one of a loop that threw. */
  lemma {:induction false} CommitAllGroups(st: TxState, paths: seq<string>, storage: Storage)
    requires forall p :: p in paths ==> p in st.operations
    ensures var run := CommitAll(st, paths, storage);
      forall i :: 0 <= i < |run.committed| && (i + 1 < |run.committed| || run.failure.None?) ==>
        !GroupingThrows(run.committed[i].path)
  {
    if paths != [] {
      var init := paths[..|paths| - 1];
      CommitAllGroups(st, init, storage);
      var prev := CommitAll(st, init, storage);
      var run := CommitAll(st, paths, storage);
      var path := paths[|paths| - 1];
      var next := storage.commitChange(path, st.operations[path], Pending(st, path));
      if prev.failure.None? && next.Ok? {
        assert run.committed == prev.committed + [Committed(path, next.value)];
      } else {
        assert run.committed == prev.committed;
      }
      forall i | 0 <= i < |run.committed| && (i + 1 < |run.committed| || run.failure.None?)
        ensures !GroupingThrows(run.committed[i].path)
      {
        if i < |prev.committed| {
          assert run.committed[i] == prev.committed[i];
          assert i + 1 < |prev.committed| || prev.failure.None?;
          assert !GroupingThrows(CommitAll(st, init, storage).committed[i].path);
        }
      }
    }
  }

  /**
   * Why the commit loop stopped: the grouping of the last change committed threw the
   * `TypeError`, or else storage threw at the next path.
   */
  lemma {:induction false} CommitAllStops(st: TxState, paths: seq<string>, storage: Storage)
    requires forall p :: p in paths ==> p in st.operations
    ensures var run := CommitAll(st, paths, storage);
      run.failure.Some? ==>
        if LastGroupingThrows(run.committed) then run.failure == Some(TypeError)
        else
          && |run.committed| < |paths|
          && storage.commitChange(paths[|run.committed|], st.operations[paths[|run.committed|]],
               Pending(st, paths[|run.committed|])) == Err(run.failure.value)
  {
    if paths != [] {
      var init := paths[..|paths| - 1];
      var path := paths[|paths| - 1];
      var prev := CommitAll(st, init, storage);
      var run := CommitAll(st, paths, storage);
      if prev.failure.Some? {
        assert run == prev;
        CommitAllStops(st, init, storage);
        if !LastGroupingThrows(prev.committed) {
          assert paths[|prev.committed|] == init[|prev.committed|];
        }
      } else {
        var next := storage.commitChange(path, st.operations[path], Pending(st, path));
        if next.Ok? {
          assert run.committed == prev.committed + [Committed(path, next.value)];
        } else {
          assert run == CommitRun(prev.committed, Some(next.error));
          CommitAllCommits(st, init, storage);
          CommitAllGroups(st, init, storage);
          if |prev.committed| > 0 {
            assert !GroupingThrows(CommitAll(st, init, storage).committed[|prev.committed| - 1].path);
          }
          assert paths[|prev.committed|] == path;
        }
      }
    }
  }

  /**
   * The commit loop commits a prefix of `paths`, one change per path and in order, each of
   * them grouped but possibly the last. It gets through all of them unless a throw stops it:
   * either the grouping of the last change committed threw the `TypeError`, or storage threw
   * at the next path.
   */
  lemma CommitAllPrefix(st: TxState, paths: seq<string>, storage: Storage)
    requires forall p :: p in paths ==> p in st.operations
    ensures var run := CommitAll(st, paths, storage);
      && |run.committed| <= |paths|
      && (forall i :: 0 <= i < |run.committed| ==>
            run.committed[i].path == paths[i] &&
            storage.commitChange(paths[i], st.operations[paths[i]], Pending(st, paths[i])) == Ok(run.committed[i].change))
      && (forall i :: 0 <= i < |run.committed| && (i + 1 < |run.committed| || run.failure.None?) ==>
            !GroupingThrows(run.committed[i].path))
      && (run.failure.None? ==> |run.committed| == |paths|)
      && (run.failure.Some? ==>
            if LastGroupingThrows(run.committed) then run.failure == Some(TypeError)
            else
              && |run.committed| < |paths|
              && storage.commitChange(paths[|run.committed|], st.operations[paths[|run.committed|]],
                   Pending(st, paths[|run.committed|])) == Err(run.failure.value))
  {
    CommitAllCommits(st, paths, storage);
    CommitAllGroups(st, paths, storage);
    CommitAllStops(st, paths, storage);
  }

  /**
   * The event loop fires a prefix of `events`, in order; it gets through all of them unless
   * one throws, and then it stops at the first event that threw.
   */
  lemma {:induction false} FireAllPrefix(events: seq<Event>, notify: Event -> Result<(), Error>)
    ensures var run := FireAll(events, notify);
      && run.fired <= events
      && (forall i :: 0 <= i < |run.fired| ==> notify(events[i]).Ok?)
      && (run.failure.None? ==> run.fired == events)
      && (run.failure.Some? ==> |run.fired| < |events| && notify(events[|run.fired|]) == Err(run.failure.value))
  {
    if events != [] {
      var init := events[..|events| - 1];
      FireAllPrefix(init, notify);
      var prev := FireAll(init, notify);
      assert init + [events[|events| - 1]] == events;
    }
  }

  /** Once an event throws, the events planned after it change nothing. */
  lemma {:induction false} FireAllFailurePersists(pre: seq<Event>, events: seq<Event>, notify: Event -> Result<(), Error>)
    requires pre <= events && FireAll(pre, notify).failure.Some?
    ensures FireAll(events, notify) == FireAll(pre, notify)
  {
    if |pre| < |events| {
      var init := events[..|events| - 1];
      assert pre <= init;
      FireAllFailurePersists(pre, init, notify);
    } else {
      assert pre == events;
    }
  }

  lemma FireStep(pre: seq<Event>, e: Event, notify: Event -> Result<(), Error>)
    requires FireAll(pre, notify).failure.None?
    ensures FireAll(pre + [e], notify) ==
      if notify(e).Ok? then FireRun(FireAll(pre, notify).fired + [e], None)
      else FireRun(FireAll(pre, notify).fired, Some(notify(e).error))
  {
    assert (pre + [e])[..|pre|] == pre;
  }

  /** Storage accepts the change of every buffered path. */
  predicate StorageAcceptsAll(st: TxState, storage: Storage)
    requires WellFormed(st)
  {
    forall i :: 0 <= i < |st.order| ==>
      storage.commitChange(st.order[i], st.operations[st.order[i]], Pending(st, st.order[i])).Ok?
  }

  /** No buffered path lies in a collection whose grouping throws. */
  predicate GroupsAll(st: TxState)
    requires WellFormed(st)
  {
    forall i :: 0 <= i < |st.order| ==> !GroupingThrows(st.order[i])
  }

  /** Every one of `events` fires without throwing. */
  predicate FiresAll(events: seq<Event>, notify: Event -> Result<(), Error>) {
    forall j :: 0 <= j < |events| ==> notify(events[j]).Ok?
  }

  /**
   * The first loop gets through every buffered path, in order, exactly when storage accepts
   * them all and each of them can be grouped.
   */
  lemma CommitLoopSucceedsIff(st: TxState, storage: Storage)
    requires WellFormed(st)
    ensures var run := CommitAll(st, st.order, storage);
      && (run.failure.None? <==> StorageAcceptsAll(st, storage) && GroupsAll(st))
      && (run.failure.None? ==>
            |run.committed| == |st.order| && forall i :: 0 <= i < |st.order| ==> run.committed[i].path == st.order[i])
  {
    CommitAllPrefix(st, st.order, storage);
  }

  /** The second loop fires every planned event exactly when none of them throws. */
  lemma FireLoopSucceedsIff(events: seq<Event>, notify: Event -> Result<(), Error>)
    ensures FireAll(events, notify).failure.None? <==> FiresAll(events, notify)
    ensures FireAll(events, notify).failure.None? ==> FireAll(events, notify).fired == events
  {
    FireAllPrefix(events, notify);
  }

  /**
   * A commit returns exactly when every buffered change reaches storage and is grouped, and
   * every planned event fires; it then has committed every buffered path, in order, and fired
   * every event.
   */
  lemma CommitSucceedsIff(st: TxState, storage: Storage)
    requires WellFormed(st)
    ensures var out := CommitEffect(st, storage);
      out.result.Ok? <==>
        && StorageAcceptsAll(st, storage)
        && GroupsAll(st)
        && FiresAll(Notifications(out.committed, Collections(out.committed)), storage.notify)
    ensures var out := CommitEffect(st, storage);
      out.result.Ok? ==>
        && |out.committed| == |st.order|
        && (forall i :: 0 <= i < |st.order| ==> out.committed[i].path == st.order[i])
        && out.events == Notifications(out.committed, Collections(out.committed))
  {
    CommitLoopSucceedsIff(st, storage);
    var run := CommitAll(st, st.order, storage);
    if run.failure.None? {
      FireLoopSucceedsIff(Notifications(run.committed, Collections(run.committed)), storage.notify);
    }
  }

  /**
   * A throw in the first loop fires no event; the commit rolls back and rethrows. The error
   * is the grouping's `TypeError` when the last change committed lies in a collection whose
   * grouping throws, and otherwise what storage threw for the next buffered path.
   */
  lemma StorageFailureFiresNothing(st: TxState, storage: Storage)
    requires WellFormed(st) && !(StorageAcceptsAll(st, storage) && GroupsAll(st))
    ensures var out := CommitEffect(st, storage);
      && out.events == []
      && out.rolledBack
      && out.result.Err?
      && |out.committed| <= |st.order|
      && (if LastGroupingThrows(out.committed) then
            out.result == Err(TypeError)
          else
            && |out.committed| < |st.order|
            && storage.commitChange(st.order[|out.committed|], st.operations[st.order[|out.committed|]],
                 Pending(st, st.order[|out.committed|])) == Err(out.result.error))
  {
    CommitAllPrefix(st, st.order, storage);
    CommitLoopSucceedsIff(st, storage);
  }

  /**
   * A change in a collection named like an inherited `Object.prototype` member (the document
   * `constructor/d1`, say) reaches storage, and then its grouping throws: no event fires, the
   * commit rolls back and rethrows the `TypeError`, and that change and the ones before it
   * stay committed.
   */
  lemma GroupingFailureKeepsChange(st: TxState, storage: Storage, j: nat)
    requires WellFormed(st) && StorageAcceptsAll(st, storage)
    requires j < |st.order| && GroupingThrows(st.order[j])
    requires forall i :: 0 <= i < j ==> !GroupingThrows(st.order[i])
    ensures var out := CommitEffect(st, storage);
      && |out.committed| == j + 1
      && out.committed[j].path == st.order[j]
      && out.result == Err(TypeError)
      && out.events == []
      && out.rolledBack
  {
    CommitAllPrefix(st, st.order, storage);
    CommitLoopSucceedsIff(st, storage);
  }

  /**
   * An event that throws after storage accepted and the loop grouped every change leaves all
   * of them committed: the commit fires a strict prefix of the planned events, rolls back and
   * rethrows.
   */
  lemma NotificationFailureKeepsCommitted(st: TxState, storage: Storage)
    requires WellFormed(st) && StorageAcceptsAll(st, storage) && GroupsAll(st)
    requires CommitEffect(st, storage).result.Err?
    ensures var out := CommitEffect(st, storage);
      && |out.committed| == |st.order|
      && out.rolledBack
      && out.events < Notifications(out.committed, Collections(out.committed))
      && storage.notify(Notifications(out.committed, Collections(out.committed))[|out.events|]) == out.result
  {
    CommitAllPrefix(st, st.order, storage);
    var run := CommitAll(st, st.order, storage);
    FireAllPrefix(Notifications(run.committed, Collections(run.committed)), storage.notify);
  }

  lemma {:induction false} CollectionsDistinct(cs: seq<Committed>)
    ensures Distinct(Collections(cs))
    ensures forall i :: 0 <= i < |cs| ==> CollectionPath(cs[i].path) in Collections(cs)
  {
    if cs != [] {
      var init := cs[..|cs| - 1];
      CollectionsDistinct(init);
      var prev := Collections(init);
      var c := CollectionPath(cs[|cs| - 1].path);
      if c !in prev {
        forall i, j | 0 <= i < j < |prev + [c]| ensures (prev + [c])[i] != (prev + [c])[j] {
          if j == |prev| {
            assert (prev + [c])[i] == prev[i] && prev[i] in prev;
          }
        }
      }
      forall i | 0 <= i < |cs| - 1 ensures CollectionPath(cs[i].path) in Collections(cs) {
        assert cs[i] == init[i];
      }
    }
  }

  lemma {:induction false} GroupOfAbsent(cs: seq<Committed>, k: string)
    requires k !in Collections(cs)
    ensures GroupOf(cs, k) == []
  {
    if cs != [] {
      GroupOfAbsent(cs[..|cs| - 1], k);
    }
  }

  /** The total size of the groups of `ks`. */
  function GroupSizes(cs: seq<Committed>, ks: seq<string>): nat {
    if ks == [] then 0 else GroupSizes(cs, ks[..|ks| - 1]) + |GroupOf(cs, ks[|ks| - 1])|
  }

  lemma {:induction false} GroupSizesSnoc(cs: seq<Committed>, x: Committed, ks: seq<string>)
    requires Distinct(ks)
    ensures GroupSizes(cs + [x], ks) == GroupSizes(cs, ks) + if CollectionPath(x.path) in ks then 1 else 0
  {
    assert (cs + [x])[..|cs|] == cs;
    if ks != [] {
      var init := ks[..|ks| - 1];
      assert Distinct(init);
      GroupSizesSnoc(cs, x, init);
      assert ks == init + [ks[|ks| - 1]];
    }
  }

  /** The groups partition the committed changes: their sizes add up to the number committed. */
  lemma {:induction false} GroupsCoverCommitted(cs: seq<Committed>)
    ensures GroupSizes(cs, Collections(cs)) == |cs|
  {
    if cs != [] {
      var init := cs[..|cs| - 1];
      var x := cs[|cs| - 1];
      var ks := Collections(init);
      var c := CollectionPath(x.path);
      assert init + [x] == cs;
      GroupsCoverCommitted(init);
      CollectionsDistinct(init);
      GroupSizesSnoc(init, x, ks);
      if c !in ks {
        GroupOfAbsent(init, c);
        assert (ks + [c])[..|ks|] == ks;
      }
    }
  }

  lemma {:induction false} NotificationsLength(cs: seq<Committed>, ks: seq<string>)
    ensures |Notifications(cs, ks)| == GroupSizes(cs, ks) + |ks|
  {
    if ks != [] {
      NotificationsLength(cs, ks[..|ks| - 1]);
    }
  }

  /**
   * A successful commit fires one document event per committed change and one batch event
   * per collection touched, each collection once, each batch carrying exactly its changes.
   */
  lemma CommitNotifiesEachChangeOnce(st: TxState, storage: Storage)
    requires WellFormed(st)
    requires CommitEffect(st, storage).result.Ok?
    ensures var out := CommitEffect(st, storage);
      && |out.events| == |st.order| + |Collections(out.committed)|
      && Distinct(Collections(out.committed))
      && forall i :: 0 <= i < |out.committed| ==> CollectionPath(out.committed[i].path) in Collections(out.committed)
  {
    var out := CommitEffect(st, storage);
    CommitSucceedsIff(st, storage);
    NotificationsLength(out.committed, Collections(out.committed));
    GroupsCoverCommitted(out.committed);
    CollectionsDistinct(out.committed);
  }

  /** None of `committed` lies in a collection whose grouping throws. */
  predicate AllGroupable(committed: seq<Committed>) {
    forall j :: 0 <= j < |committed| ==> !GroupingThrows(committed[j].path)
  }

  lemma AllGroupableSnoc(committed: seq<Committed>, x: Committed)
    requires AllGroupable(committed) && !GroupingThrows(x.path)
    ensures AllGroupable(committed + [x])
  {
  }

  /** With every committed change groupable, all of them are grouped. */
  lemma GroupedAll(committed: seq<Committed>, failure: Option<Error>)
    requires AllGroupable(committed)
    ensures Grouped(CommitRun(committed, failure)) == committed
  {
    if |committed| > 0 {
      assert !GroupingThrows(committed[|committed| - 1].path);
    }
  }

  /** A last change whose grouping threw is the one left out of the grouping. */
  lemma GroupedDropsLast(committed: seq<Committed>, x: Committed, failure: Option<Error>)
    requires GroupingThrows(x.path)
    ensures Grouped(CommitRun(committed + [x], failure)) == committed
  {
    assert (committed + [x])[..|committed|] == committed;
  }

  lemma GroupOfSnoc(cs: seq<Committed>, x: Committed, k: string)
    ensures GroupOf(cs + [x], k) == GroupOf(cs, k) + if CollectionPath(x.path) == k then [x.change] else []
  {
    assert (cs + [x])[..|cs|] == cs;
  }

  /**
   * One turn of the commit loop: the next path is committed and grouped, or committed and
   * stopped by the grouping's `TypeError`, or the loop stops with storage's error.
   */
  lemma CommitStep(st: TxState, paths: seq<string>, i: nat, committed: seq<Committed>, storage: Storage)
    requires i < |paths| && forall p :: p in paths ==> p in st.operations
    requires CommitAll(st, paths[..i], storage) == CommitRun(committed, None)
    ensures var p := paths[i];
      CommitAll(st, paths[..i + 1], storage) ==
        match storage.commitChange(p, st.operations[p], Pending(st, p))
        case Ok(c) => CommitRun(committed + [Committed(p, c)], if GroupingThrows(p) then Some(TypeError) else None)
        case Err(e) => CommitRun(committed, Some(e))
  {
    assert paths[..i + 1][..i] == paths[..i];
  }

  /**
   * One turn of the grouping in the commit loop: appending `x` to its collection's changes,
   * and the collection to the key order when it is new, keeps both in step with the committed
   * changes.
   */
  lemma GroupStep(committed: seq<Committed>, x: Committed, collections: seq<string>,
                  collectionChanges: map<string, seq<CommittedChange>>)
    requires collections == Collections(committed)
    requires forall k :: k in collectionChanges <==> k in collections
    requires forall k :: k in collectionChanges ==> collectionChanges[k] == GroupOf(committed, k)
    ensures var c := CollectionPath(x.path);
      var changes := (if c in collectionChanges then collectionChanges[c] else []) + [x.change];
      var ks := if c in collections then collections else collections + [c];
      && ks == Collections(committed + [x])
      && (forall k :: k in collectionChanges[c := changes] <==> k in ks)
      && (forall k :: k in collectionChanges[c := changes] ==>
            collectionChanges[c := changes][k] == GroupOf(committed + [x], k))
  {
    var c := CollectionPath(x.path);
    assert (committed + [x])[..|committed|] == committed;
    if c !in collections {
      GroupOfAbsent(committed, c);
    }
    forall k ensures GroupOf(committed + [x], k) == GroupOf(committed, k) + if c == k then [x.change] else [] {
      GroupOfSnoc(committed, x, k);
    }
  }

  lemma {:induction false} CommitAllFailurePersists(st: TxState, paths: seq<string>, n: nat, storage: Storage)
    requires n <= |paths| && forall p :: p in paths ==> p in st.operations
    requires CommitAll(st, paths[..n], storage).failure.Some?
    ensures CommitAll(st, paths, storage) == CommitAll(st, paths[..n], storage)
    decreases |paths| - n
  {
    if n < |paths| {
      assert paths[..n + 1][..n] == paths[..n];
      CommitAllFailurePersists(st, paths, n + 1, storage);
    } else {
      assert paths[..n] == paths;
    }
  }

  /**
   * One turn of the second loop, firing `e` after `planned` on the way to `all`: it either
   * fires and the loop goes on, or throws and that is how the whole loop ends.
   */
  lemma FireTurn(planned: seq<Event>, e: Event, all: seq<Event>, fired: seq<Event>, notify: Event -> Result<(), Error>)
    requires planned + [e] <= all
    requires FireAll(planned, notify) == FireRun(fired, None)
    ensures notify(e).Ok? ==> FireAll(planned + [e], notify) == FireRun(fired + [e], None)
    ensures notify(e).Err? ==> FireAll(all, notify) == FireRun(fired, Some(notify(e).error))
  {
    FireStep(planned, e, notify);
    if notify(e).Err? {
      FireAllFailurePersists(planned + [e], all, notify);
    }
  }

  /** The events planned before a point of the second loop are a prefix of all planned events. */
  lemma {:induction false} NotificationsPrefix(cs: seq<Committed>, ks: seq<string>, n: nat)
    requires n <= |ks|
    ensures Notifications(cs, ks[..n]) <= Notifications(cs, ks)
    decreases |ks|
  {
    if n < |ks| {
      var init := ks[..|ks| - 1];
      assert ks[..n] == init[..n];
      NotificationsPrefix(cs, init, n);
    } else {
      assert ks[..n] == ks;
    }
  }

  /**
   * Inside the second loop, at collection `n` and document `d`: the events planned so far,
   * and those with the collection's batch event, are prefixes of all planned events.
   */
  lemma PlannedPrefix(cs: seq<Committed>, ks: seq<string>, n: nat, d: nat)
    requires n < |ks| && d <= |GroupOf(cs, ks[n])|
    ensures Notifications(cs, ks[..n]) + DocumentEvents(GroupOf(cs, ks[n])[..d]) <= Notifications(cs, ks)
    ensures Notifications(cs, ks[..n + 1]) ==
      Notifications(cs, ks[..n]) + DocumentEvents(GroupOf(cs, ks[n])) + [BatchEvent(ks[n], GroupOf(cs, ks[n]))]
  {
    var g := GroupOf(cs, ks[n]);
    assert ks[..n + 1][..n] == ks[..n];
    NotificationsPrefix(cs, ks, n + 1);
    assert DocumentEvents(g[..d]) <= DocumentEvents(g);
  }

  /** The events of the first `d + 1` changes: those of the first `d`, then the event of change `d`. */
  lemma DocumentEventsSnoc(changes: seq<CommittedChange>, d: nat)
    requires d < |changes|
    ensures DocumentEvents(changes[..d + 1]) ==
      DocumentEvents(changes[..d]) + [DocumentEvent(changes[d].docPath, changes[d].kind, changes[d].oldIndex)]
    ensures DocumentEvents(changes[..d + 1]) <= DocumentEvents(changes)
  {
    assert changes[..d + 1][..d] == changes[..d];
  }

  lemma PrefixAfter(planned: seq<Event>, part: seq<Event>, whole: seq<Event>, all: seq<Event>)
    requires part <= whole && planned + whole <= all
    ensures planned + part <= all
  {
    assert (planned + whole)[..|planned + part|] == planned + part;
  }

  /**
   * One turn of the inner event loop, firing the event of change `d` on the way to `all`:
   * it either fires and the loop goes on, or throws and that ends the whole second loop.
   */
  lemma DocumentTurn(planned: seq<Event>, changes: seq<CommittedChange>, d: nat, all: seq<Event>,
                     fired: seq<Event>, notify: Event -> Result<(), Error>)
    requires d < |changes| && planned + DocumentEvents(changes) <= all
    requires FireAll(planned + DocumentEvents(changes[..d]), notify) == FireRun(fired, None)
    ensures var e := DocumentEvent(changes[d].docPath, changes[d].kind, changes[d].oldIndex);
      && (notify(e).Ok? ==> FireAll(planned + DocumentEvents(changes[..d + 1]), notify) == FireRun(fired + [e], None))
      && (notify(e).Err? ==> FireAll(all, notify) == FireRun(fired, Some(notify(e).error)))
  {
    var e := DocumentEvent(changes[d].docPath, changes[d].kind, changes[d].oldIndex);
    DocumentEventsSnoc(changes, d);
    PrefixAfter(planned, DocumentEvents(changes[..d + 1]), DocumentEvents(changes), all);
    assert planned + DocumentEvents(changes[..d + 1]) == planned + DocumentEvents(changes[..d]) + [e];
    FireTurn(planned + DocumentEvents(changes[..d]), e, all, fired, notify);
  }

  /**
   * The inner loop of the second loop: fires the event of each of one collection's changes,
   * after the events `planned` that have fired as `fired`, until one throws.
   */
  method FireDocumentEvents(documentChanges: seq<CommittedChange>, ghost planned: seq<Event>, ghost all: seq<Event>,
                            fired: seq<Event>, notify: Event -> Result<(), Error>)
    returns (run: FireRun)
    requires planned + DocumentEvents(documentChanges) <= all
    requires FireAll(planned, notify) == FireRun(fired, None)
    ensures run.failure.None? ==> run == FireAll(planned + DocumentEvents(documentChanges), notify)
    ensures run.failure.Some? ==> run == FireAll(all, notify)
  {
    run := FireRun(fired, None);
    var d := 0;
    assert documentChanges[..0] == [];
    assert planned + [] == planned;
    while d < |documentChanges|
      invariant 0 <= d <= |documentChanges|
      invariant run.failure.None? && FireAll(planned + DocumentEvents(documentChanges[..d]), notify) == run
    {
      var document := documentChanges[d];
      var event := DocumentEvent(document.docPath, document.kind, document.oldIndex);
      DocumentTurn(planned, documentChanges, d, all, run.fired, notify);
      var r := notify(event);
      if r.Err? {
        return FireRun(run.fired, Some(r.error));
      }
      run := FireRun(run.fired + [event], None);
      d := d + 1;
    }
    assert documentChanges[..d] == documentChanges;
  }

  /**
   * The end of one turn of the outer event loop, once collection `n`'s document events have
   * fired: its batch event either fires and the loop goes on, or throws and ends the loop.
   */
  lemma BatchTurn(cs: seq<Committed>, ks: seq<string>, n: nat, fired: seq<Event>, notify: Event -> Result<(), Error>)
    requires n < |ks|
    requires FireAll(Notifications(cs, ks[..n]) + DocumentEvents(GroupOf(cs, ks[n])), notify) == FireRun(fired, None)
    ensures var batch := BatchEvent(ks[n], GroupOf(cs, ks[n]));
      && (notify(batch).Ok? ==> FireAll(Notifications(cs, ks[..n + 1]), notify) == FireRun(fired + [batch], None))
      && (notify(batch).Err? ==> FireAll(Notifications(cs, ks), notify) == FireRun(fired, Some(notify(batch).error)))
  {
    var g := GroupOf(cs, ks[n]);
    PlannedPrefix(cs, ks, n, |g|);
    NotificationsPrefix(cs, ks, n + 1);
    FireTurn(Notifications(cs, ks[..n]) + DocumentEvents(g), BatchEvent(ks[n], g), Notifications(cs, ks), fired, notify);
  }

  /**
   * The second loop of `commit`: per collection, each document's event, then the batch
   * event, until one throws.
   */
  method FireNotifications(cs: seq<Committed>, collections: seq<string>,
                           collectionChanges: map<string, seq<CommittedChange>>, notify: Event -> Result<(), Error>)
    returns (run: FireRun)
    requires forall k :: k in collections ==> k in collectionChanges && collectionChanges[k] == GroupOf(cs, k)
    ensures run == FireAll(Notifications(cs, collections), notify)
  {
    ghost var all := Notifications(cs, collections);
    var fired: seq<Event> := [];
    var n := 0;
    while n < |collections|
      invariant 0 <= n <= |collections|
      invariant FireAll(Notifications(cs, collections[..n]), notify) == FireRun(fired, None)
    {
      var collectionId := collections[n];
      var documentChanges := collectionChanges[collectionId];
      assert documentChanges[..|documentChanges|] == documentChanges;
      PlannedPrefix(cs, collections, n, |documentChanges|);
      var inner := FireDocumentEvents(documentChanges, Notifications(cs, collections[..n]), all, fired, notify);
      if inner.failure.Some? {
        return inner;
      }
      var batch := BatchEvent(collectionId, documentChanges);
      BatchTurn(cs, collections, n, inner.fired, notify);
      var r := notify(batch);
      if r.Err? {
        return FireRun(inner.fired, Some(r.error));
      }
      fired := inner.fired + [batch];
      n := n + 1;
    }
    assert collections[..n] == collections;
    run := FireRun(fired, None);
  }

  // ---- The transaction object ---------------------------------------------------------------

  class Transaction {
    var transactionData: map<string, Option<Fields>>
    var transactionOperation: map<string, ChangeType>
    var order: seq<string>
    var modified: bool

    function State(): TxState
      reads this
    {
      TxState(transactionData, transactionOperation, order, modified)
    }

    ghost predicate Valid()
      reads this
    {
      WellFormed(State())
    }

    constructor ()
      ensures State() == Fresh && Valid()
    {
      transactionData := map[];
      transactionOperation := map[];
      order := [];
      modified := false;
    }

    /** `get`: refused after a write, otherwise a snapshot of the stored data. */
    method Get(doc: DocRef) returns (r: Result<DocumentSnapshot, Error>)
      ensures r == Read(State(), doc)
    {
      if modified {
        return Err(Validation(ReadAfterWrite));
      }
      return Ok(DocumentSnapshot(doc, doc.data));
    }

    /** Buffers a write of `path`, keeping the position of a path already buffered. */
    method Write(path: string, pending: Option<Fields>, kind: ChangeType)
      requires Valid() && modified
      modifies this
      ensures State() == Record(old(State()), path, pending, kind) && Valid()
    {
      RecordWellFormed(State(), path, pending, kind);
      transactionData := transactionData[path := pending];
      if path !in order {
        order := order + [path];
      }
      transactionOperation := transactionOperation[path := kind];
    }

    method Set(doc: DocRef, data: Fields, merge: bool, storage: Storage) returns (r: Result<(), Error>)
      requires Valid()
      modifies this
      ensures Step(State(), r) == SetEffect(old(State()), doc, data, merge, storage) && Valid()
    {
      modified := true;
      var path := doc.path;
      var docData := if path in transactionData && transactionData[path].Some? then transactionData[path] else doc.data;
      var changeType := if docData.Some? then Modified else Added;
      var written: Result<Option<Fields>, Error>;
      if merge {
        written := storage.updateInTransaction(doc, Some(docData.GetOr(map[]) + data), data);
      } else {
        written := storage.setInTransaction(doc, data);
      }
      if written.Err? {
        return Err(written.error);
      }
      Write(path, written.value, changeType);
      return Ok(());
    }

    method Update(doc: DocRef, arg: UpdateArg, storage: Storage) returns (r: Result<(), Error>)
      requires Valid()
      modifies this
      ensures Step(State(), r) == UpdateEffect(old(State()), doc, arg, storage) && Valid()
    {
      modified := true;
      var path := doc.path;
      var data := if path in transactionData && transactionData[path].Some? then transactionData[path] else doc.data;
      var written: Result<Option<Fields>, Error>;
      match arg {
        case FieldPairs(pairs) =>
          var newData := data;
          written := FieldPaths.UpdateFieldsFromArgs(pairs, data, newData, storage.process);
        case Data(fields) =>
          written := storage.updateInTransaction(doc, data, fields);
        case Unsupported =>
          return Err(NotImplementedYet("MockTransaction.get"));
      }
      if written.Err? {
        return Err(written.error);
      }
      Write(path, written.value, Modified);
      return Ok(());
    }

    method Delete(doc: DocRef)
      requires Valid()
      modifies this
      ensures State() == DeleteEffect(old(State()), doc) && Valid()
    {
      modified := true;
      Write(doc.path, None, Removed);
    }

    /**
     * The first loop of `commit`: commits the buffered changes in key order until one throws,
     * grouping the reported changes by collection as `collectionChanges` does.
     */
    method CommitChanges(storage: Storage)
      returns (run: CommitRun, collections: seq<string>, collectionChanges: map<string, seq<CommittedChange>>)
      requires Valid()
      ensures run == CommitAll(State(), order, storage)
      ensures collections == Collections(Grouped(run))
      ensures forall k :: k in collectionChanges <==> k in collections
      ensures forall k :: k in collectionChanges ==> collectionChanges[k] == GroupOf(Grouped(run), k)
    {
      collectionChanges := map[];
      collections := [];
      var committed: seq<Committed> := [];
      var i := 0;
      while i < |order|
        invariant 0 <= i <= |order|
        invariant forall p :: p in order[..i] ==> p in transactionOperation
        invariant CommitAll(State(), order[..i], storage) == CommitRun(committed, None)
        invariant AllGroupable(committed)
        invariant collections == Collections(committed)
        invariant forall k :: k in collectionChanges <==> k in collections
        invariant forall k :: k in collectionChanges ==> collectionChanges[k] == GroupOf(committed, k)
      {
        var path := order[i];
        CommitStep(State(), order, i, committed, storage);
        var pending := if path in transactionData then transactionData[path] else None;
        var documentChange := storage.commitChange(path, transactionOperation[path], pending);
        assert documentChange == storage.commitChange(path, State().operations[path], Pending(State(), path));
        if documentChange.Err? {
          CommitAllFailurePersists(State(), order, i + 1, storage);
          assert order[..|order|] == order;
          GroupedAll(committed, Some(documentChange.error));
          return CommitRun(committed, Some(documentChange.error)), collections, collectionChanges;
        }
        var collectionPath := CollectionPath(path);
        var x := Committed(path, documentChange.value);
        if GroupingThrows(path) {
          CommitAllFailurePersists(State(), order, i + 1, storage);
          assert order[..|order|] == order;
          GroupedDropsLast(committed, x, Some(TypeError));
          return CommitRun(committed + [x], Some(TypeError)), collections, collectionChanges;
        }
        GroupStep(committed, x, collections, collectionChanges);
        var changes := if collectionPath in collectionChanges then collectionChanges[collectionPath] else [];
        changes := changes + [documentChange.value];
        collectionChanges := collectionChanges[collectionPath := changes];
        if collectionPath !in collections {
          collections := collections + [collectionPath];
        }
        AllGroupableSnoc(committed, x);
        committed := committed + [x];
        i := i + 1;
      }
      assert order[..i] == order;
      GroupedAll(committed, None);
      run := CommitRun(committed, None);
    }

    /**
     * `commit`: commits the buffered changes, then, collection by collection, fires each
     * document's event and the collection's batch event. A throw from either loop rolls back
     * and is rethrown.
     */
    method Commit(storage: Storage) returns (outcome: CommitOutcome)
      requires Valid()
      ensures outcome == CommitEffect(State(), storage)
    {
      var run, collections, collectionChanges := CommitChanges(storage);
      if run.failure.Some? {
        Rollback();
        return CommitOutcome(run.committed, [], Err(run.failure.value), true);
      }
      CommitAllPrefix(State(), order, storage);
      var fire := FireNotifications(run.committed, collections, collectionChanges, storage.notify);
      if fire.failure.Some? {
        Rollback();
        return CommitOutcome(run.committed, fire.fired, Err(fire.failure.value), true);
      }
      return CommitOutcome(run.committed, fire.fired, Ok(()), false);
    }

    /** `rollback`: does nothing; the changes already committed stay in storage. */
    method Rollback()
      ensures State() == old(State())
    {
    }
  }
}
