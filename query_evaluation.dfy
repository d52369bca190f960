/**
 * Evaluation of a query's rules over a list of document references, and the
 * re-scoping of upstream collection changes to one query's results
 * (`getFilterDocumentReferences`, `handleCollectionSnapshotChange` of MockQuery).
 */
module QueryEvaluation {
  import opened Wrappers
  import opened Firestore
  import Js

  datatype WhereOp = Lt | Le | Eq | Ne | Ge | Gt | ArrayContains | In | ArrayContainsAny | NotIn

  datatype WhereRule = WhereRule(fieldPath: FieldRef, op: WhereOp, value: Value)

  datatype Direction = Asc | Desc

  datatype OrderRule = OrderRule(fieldPath: FieldRef, direction: Direction)

  datatype StartMode = StartAt | StartAfter

  datatype StartRule = StartRule(fieldValues: seq<Value>, mode: StartMode)

  datatype EndMode = EndBefore | EndAt

  datatype EndRule = EndRule(fieldValues: seq<Value>, mode: EndMode)

  /** A snapshot of a query's rules object; `None` is an absent (undefined) property. */
  datatype Rules = Rules(
    order: Option<seq<OrderRule>>,
    where: Option<seq<WhereRule>>,
    start: Option<StartRule>,
    end: Option<EndRule>,
    limit: Option<int>)

  const NoRules := Rules(None, None, None, None, None)

  /**
   * The matching, sorting and cursor-lookup helpers the query imports and this model does
   * not define: whether a document passes the where rules, the ordering by the order rules,
   * and the index of the first document whose order fields equal the cursor values
   * (negative when none does).
   */
  datatype Helpers = Helpers(
    matches: (DocRef, Option<seq<WhereRule>>) -> bool,
    sort: (seq<DocRef>, Option<seq<OrderRule>>) -> seq<DocRef>,
    findIndex: (seq<DocRef>, seq<FieldRef>, seq<Value>) -> int)

  /** The sorting helper only reorders its input. */
  ghost predicate SortPermutes(h: Helpers) {
    forall docs, order :: multiset(h.sort(docs, order)) == multiset(docs)
  }

  /** `filterDocumentsByRules`: the documents that pass the where rules, in their order. */
  function Filter(docs: seq<DocRef>, where: Option<seq<WhereRule>>, h: Helpers): (r: seq<DocRef>)
    ensures |r| <= |docs|
    ensures forall d :: d in r <==> d in docs && h.matches(d, where)
  {
    if docs == [] then []
    else (if h.matches(docs[0], where) then [docs[0]] else []) + Filter(docs[1..], where, h)
  }

  function OrderFields(order: seq<OrderRule>): (paths: seq<FieldRef>)
    ensures |paths| == |order|
    ensures forall k :: 0 <= k < |order| ==> paths[k] == order[k].fieldPath
  {
    if order == [] then [] else [order[0].fieldPath] + OrderFields(order[1..])
  }

  /** The start-cursor step: validates that an order exists, then trims the front. */
  function TrimStart(docs: seq<DocRef>, start: Option<StartRule>, order: Option<seq<OrderRule>>, h: Helpers)
    : (r: Result<seq<DocRef>, Error>)
    ensures start.None? ==> r == Ok(docs)
    ensures start.Some? && order.None? ==> r == Err(Validation(StartWithoutOrder))
    ensures start.Some? && order.Some? ==>
      var i := h.findIndex(docs, OrderFields(order.value), start.value.fieldValues);
      && (i < 0 ==> r == Ok(docs))
      && (0 <= i < |docs| && start.value.mode == StartAt ==> r == Ok(docs[i..]))
      && (0 <= i < |docs| && start.value.mode == StartAfter ==> r == Ok(docs[i + 1..]))
      && (i >= |docs| ==> r == Ok([]))
  {
    match start
    case None => Ok(docs)
    case Some(s) =>
      if order.None? then Err(Validation(StartWithoutOrder))
      else
        var index := h.findIndex(docs, OrderFields(order.value), s.fieldValues);
        if index >= 0 then Ok(Js.SliceFrom(docs, if s.mode == StartAt then index else index + 1))
        else Ok(docs)
  }

  /** The end-cursor step: validates that an order exists, then trims the back. */
  function TrimEnd(docs: seq<DocRef>, end: Option<EndRule>, order: Option<seq<OrderRule>>, h: Helpers)
    : (r: Result<seq<DocRef>, Error>)
    ensures end.None? ==> r == Ok(docs)
    ensures end.Some? && order.None? ==> r == Err(Validation(EndWithoutOrder))
    ensures end.Some? && order.Some? ==>
      var i := h.findIndex(docs, OrderFields(order.value), end.value.fieldValues);
      && (i < 0 ==> r == Ok(docs))
      && (0 <= i < |docs| && end.value.mode == EndAt ==> r == Ok(docs[..i + 1]))
      && (0 <= i < |docs| && end.value.mode == EndBefore ==> r == Ok(docs[..i]))
      && (i >= |docs| ==> r == Ok(docs))
  {
    match end
    case None => Ok(docs)
    case Some(e) =>
      if order.None? then Err(Validation(EndWithoutOrder))
      else
        var index := h.findIndex(docs, OrderFields(order.value), e.fieldValues);
        if index >= 0 then Ok(Js.Slice(docs, 0, if e.mode == EndAt then index + 1 else index))
        else Ok(docs)
  }

  /** The limit step, `if (limit) docs = docs.slice(0, Math.min(docs.length, limit))`. */
  function ApplyLimit(docs: seq<DocRef>, limit: Option<int>): (r: seq<DocRef>)
    ensures limit.None? || limit == Some(0) ==> r == docs
    ensures limit.Some? && limit.value > 0 ==>
      |r| == Js.Min(|docs|, limit.value) && r == docs[..|r|]
  {
    if limit.Some? && limit.value != 0 then Js.Slice(docs, 0, Js.Min(|docs|, limit.value))
    else docs
  }

  /** The filtered and sorted documents, before any cursor or limit is applied. */
  function Sorted(docRefs: seq<DocRef>, rules: Rules, h: Helpers): seq<DocRef> {
    h.sort(Filter(docRefs, rules.where, h), rules.order)
  }

  /** Filter, sort and both cursor trims, in that order. */
  function Trimmed(docRefs: seq<DocRef>, rules: Rules, h: Helpers): Result<seq<DocRef>, Error> {
    var afterStart :- TrimStart(Sorted(docRefs, rules, h), rules.start, rules.order, h);
    TrimEnd(afterStart, rules.end, rules.order, h)
  }

  /** `getFilterDocumentReferences`: the whole pipeline, ending with the limit. */
  function FilterDocumentReferences(docRefs: seq<DocRef>, rules: Rules, h: Helpers)
    : Result<seq<DocRef>, Error>
  {
    var trimmed :- Trimmed(docRefs, rules, h);
    Ok(ApplyLimit(trimmed, rules.limit))
  }

  /** Evaluation fails exactly when a cursor is present without order rules, start checked first. */
  lemma EvaluationErrors(docRefs: seq<DocRef>, rules: Rules, h: Helpers)
    ensures FilterDocumentReferences(docRefs, rules, h).Err? <==>
      (rules.start.Some? || rules.end.Some?) && rules.order.None?
    ensures rules.start.Some? && rules.order.None? ==>
      FilterDocumentReferences(docRefs, rules, h) == Err(Validation(StartWithoutOrder))
    ensures rules.start.None? && rules.end.Some? && rules.order.None? ==>
      FilterDocumentReferences(docRefs, rules, h) == Err(Validation(EndWithoutOrder))
  {
    var s := Sorted(docRefs, rules, h);
    var a := TrimStart(s, rules.start, rules.order, h);
    if a.Ok? {
      var b := TrimEnd(a.value, rules.end, rules.order, h);
    }
  }

  /** With a positive limit the result is the first `min(len, limit)` trimmed documents. */
  lemma LimitTakesPrefix(docRefs: seq<DocRef>, rules: Rules, h: Helpers)
    requires Trimmed(docRefs, rules, h).Ok?
    ensures var t := Trimmed(docRefs, rules, h).value;
      var r := FilterDocumentReferences(docRefs, rules, h);
      && r.Ok?
      && (rules.limit.Some? && rules.limit.value > 0 ==>
            |r.value| == Js.Min(|t|, rules.limit.value) && r.value == t[..|r.value|])
      && (rules.limit.None? ==> r.value == t)
  {
  }

  /** Where the start cursor leaves the sorted documents `s` to begin. */
  function StartIndex(s: seq<DocRef>, rules: Rules, h: Helpers): (lo: nat)
    requires rules.order.Some? || rules.start.None?
    ensures lo <= |s|
  {
    if rules.start.None? then 0
    else
      var i := h.findIndex(s, OrderFields(rules.order.value), rules.start.value.fieldValues);
      if i < 0 then 0
      else Js.Min(if rules.start.value.mode == StartAt then i else i + 1, |s|)
  }

  /** How many of the documents `t` the end cursor keeps. */
  function EndCount(t: seq<DocRef>, rules: Rules, h: Helpers): (kept: nat)
    requires rules.order.Some? || rules.end.None?
    ensures kept <= |t|
  {
    if rules.end.None? then |t|
    else
      var j := h.findIndex(t, OrderFields(rules.order.value), rules.end.value.fieldValues);
      if j < 0 || j >= |t| then |t|
      else if rules.end.value.mode == EndAt then j + 1 else j
  }

  /**
   * Where the pipeline's window of the sorted documents starts and ends, computed by index
   * arithmetic from the cursor positions and the limit instead of by successive slicing.
   */
  function Window(docRefs: seq<DocRef>, rules: Rules, h: Helpers): (w: (nat, nat))
    requires rules.order.Some? || (rules.start.None? && rules.end.None?)
    ensures w.0 <= w.1 <= |Sorted(docRefs, rules, h)|
  {
    var s := Sorted(docRefs, rules, h);
    var lo := StartIndex(s, rules, h);
    var kept := EndCount(s[lo..], rules, h);
    var n: nat :=
      if rules.limit.None? || rules.limit.value == 0 then kept
      else Js.RelativeIndex(Js.Min(kept, rules.limit.value), kept);
    (lo, lo + n)
  }

  /** The start-cursor step drops exactly the documents before `StartIndex`. */
  lemma TrimStartAtIndex(s: seq<DocRef>, rules: Rules, h: Helpers)
    requires rules.order.Some? || rules.start.None?
    ensures TrimStart(s, rules.start, rules.order, h) == Ok(s[StartIndex(s, rules, h)..])
  {
    if StartIndex(s, rules, h) == 0 {
      assert s[0..] == s;
    } else if StartIndex(s, rules, h) == |s| {
      assert s[|s|..] == [];
    }
  }

  /** The end-cursor step keeps exactly the first `EndCount` documents. */
  lemma TrimEndAtCount(t: seq<DocRef>, rules: Rules, h: Helpers)
    requires rules.order.Some? || rules.end.None?
    ensures TrimEnd(t, rules.end, rules.order, h) == Ok(t[..EndCount(t, rules, h)])
  {
    if EndCount(t, rules, h) == |t| {
      assert t[..|t|] == t;
    }
  }

  /**
   * Whenever evaluation succeeds, its result is the contiguous slice `Window` of the
   * filtered and sorted documents.
   */
  lemma ResultIsWindow(docRefs: seq<DocRef>, rules: Rules, h: Helpers)
    requires rules.order.Some? || (rules.start.None? && rules.end.None?)
    ensures var s := Sorted(docRefs, rules, h);
      var w := Window(docRefs, rules, h);
      FilterDocumentReferences(docRefs, rules, h) == Ok(s[w.0..w.1])
  {
    var s := Sorted(docRefs, rules, h);
    var w := Window(docRefs, rules, h);
    var lo := StartIndex(s, rules, h);
    var t := s[lo..];
    TrimStartAtIndex(s, rules, h);
    TrimEndAtCount(t, rules, h);
    var u := t[..EndCount(t, rules, h)];
    assert Trimmed(docRefs, rules, h) == Ok(u);
    assert ApplyLimit(u, rules.limit) == u[..w.1 - lo];
    assert u[..w.1 - lo] == s[lo..w.1];
  }

  /** Every document in a result comes from the input and passes the where rules. */
  lemma ResultComesFromInput(docRefs: seq<DocRef>, rules: Rules, h: Helpers, d: DocRef)
    requires SortPermutes(h)
    requires FilterDocumentReferences(docRefs, rules, h).Ok?
    requires d in FilterDocumentReferences(docRefs, rules, h).value
    ensures d in docRefs && h.matches(d, rules.where)
  {
    var f := Filter(docRefs, rules.where, h);
    var s := Sorted(docRefs, rules, h);
    assert multiset(s) == multiset(f);
    var start := TrimStart(s, rules.start, rules.order, h).value;
    assert forall x :: x in start ==> x in s;
    var t := Trimmed(docRefs, rules, h).value;
    assert forall x :: x in t ==> x in start;
    assert d in t;
    assert d in multiset(s);
  }

  // ---- Re-scoping upstream changes -------------------------------------------------------

  /** An upstream change's `type`: one of the three kinds or anything else. */
  datatype UpstreamKind = Known(t: ChangeType) | Unexpected(name: string)

  /** A document change as delivered upstream or re-scoped to a query. */
  datatype DocChange = DocChange(kind: UpstreamKind, doc: DocRef, oldIndex: int, newIndex: int)

  ghost predicate HasId(docs: seq<DocRef>, id: string) {
    exists k :: 0 <= k < |docs| && docs[k].id == id
  }

  /** `docs.findIndex(d => d.id === id)`. */
  function IndexOfId(docs: seq<DocRef>, id: string): (r: int)
    ensures -1 <= r < |docs|
    ensures r == -1 <==> !HasId(docs, id)
    ensures r >= 0 ==> docs[r].id == id && forall k :: 0 <= k < r ==> docs[k].id != id
  {
    if docs == [] then -1
    else if docs[0].id == id then 0
    else
      var r := IndexOfId(docs[1..], id);
      assert forall k :: 1 <= k < |docs| ==> docs[1..][k - 1] == docs[k];
      if r < 0 then -1 else r + 1
  }

  /**
   * Whether an upstream change concerns this query: a modification or removal of a document
   * that was in the old result, or an addition of a document that is in the new result.
   */
  ghost predicate Relevant(c: DocChange, oldDocs: seq<DocRef>, newDocs: seq<DocRef>) {
    match c.kind
    case Known(Added) => HasId(newDocs, c.doc.id)
    case Known(_) => HasId(oldDocs, c.doc.id)
    case Unexpected(_) => false
  }

  /** The change with its indices re-computed against the old and new results. */
  function Rescoped(c: DocChange, oldDocs: seq<DocRef>, newDocs: seq<DocRef>): DocChange {
    c.(oldIndex := IndexOfId(oldDocs, c.doc.id), newIndex := IndexOfId(newDocs, c.doc.id))
  }

  /** What one iteration of the `forEach` does with one upstream change. */
  function Classify(c: DocChange, oldDocs: seq<DocRef>, newDocs: seq<DocRef>)
    : (r: Result<seq<DocChange>, Error>)
    ensures c.kind.Unexpected? <==> r.Err?
    ensures r.Ok? ==> r.value == if Relevant(c, oldDocs, newDocs) then [Rescoped(c, oldDocs, newDocs)] else []
  {
    var oldIndex := IndexOfId(oldDocs, c.doc.id);
    var newIndex := IndexOfId(newDocs, c.doc.id);
    match c.kind
    case Known(Modified) | Known(Removed) =>
      Ok(if oldIndex >= 0 then [c.(oldIndex := oldIndex, newIndex := newIndex)] else [])
    case Known(Added) =>
      Ok(if newIndex >= 0 then [c.(oldIndex := oldIndex, newIndex := newIndex)] else [])
    case Unexpected(name) => Err(UnexpectedChangeType(name))
  }

  /** The change list the loop accumulates over `changes`, stopping at the first throw. */
  function Rescope(changes: seq<DocChange>, oldDocs: seq<DocRef>, newDocs: seq<DocRef>)
    : Result<seq<DocChange>, Error>
  {
    if changes == [] then Ok([])
    else
      var before :- Rescope(changes[..|changes| - 1], oldDocs, newDocs);
      var last :- Classify(changes[|changes| - 1], oldDocs, newDocs);
      Ok(before + last)
  }

  /** Once a prefix of the changes throws, the whole loop throws the same error. */
  lemma {:induction false} RescopeErrorPersists(changes: seq<DocChange>, n: nat, oldDocs: seq<DocRef>, newDocs: seq<DocRef>)
    requires n <= |changes|
    requires Rescope(changes[..n], oldDocs, newDocs).Err?
    ensures Rescope(changes, oldDocs, newDocs) == Rescope(changes[..n], oldDocs, newDocs)
    decreases |changes| - n
  {
    if n < |changes| {
      assert changes[..n + 1][..n] == changes[..n];
      RescopeErrorPersists(changes, n + 1, oldDocs, newDocs);
    } else {
      assert changes[..n] == changes;
    }
  }

  /** Reference definition: the relevant changes, each re-scoped, in upstream order. */
  ghost function Kept(changes: seq<DocChange>, oldDocs: seq<DocRef>, newDocs: seq<DocRef>): seq<DocChange> {
    if changes == [] then []
    else
      (if Relevant(changes[0], oldDocs, newDocs) then [Rescoped(changes[0], oldDocs, newDocs)] else [])
      + Kept(changes[1..], oldDocs, newDocs)
  }

  lemma {:induction false} KeptAppend(changes: seq<DocChange>, c: DocChange, oldDocs: seq<DocRef>, newDocs: seq<DocRef>)
    ensures Kept(changes + [c], oldDocs, newDocs) ==
      Kept(changes, oldDocs, newDocs) + Kept([c], oldDocs, newDocs)
  {
    if changes != [] {
      assert (changes + [c])[1..] == changes[1..] + [c];
      KeptAppend(changes[1..], c, oldDocs, newDocs);
    }
  }

  ghost predicate AllKnown(changes: seq<DocChange>) {
    forall k :: 0 <= k < |changes| ==> changes[k].kind.Known?
  }

  /**
   * Re-scoping throws exactly when some upstream change has an unexpected type (the first
   * such one is reported); otherwise it yields the relevant changes, re-scoped, in order.
   */
  lemma {:induction false} RescopeCorrect(changes: seq<DocChange>, oldDocs: seq<DocRef>, newDocs: seq<DocRef>)
    ensures Rescope(changes, oldDocs, newDocs).Ok? <==> AllKnown(changes)
    ensures AllKnown(changes) ==> Rescope(changes, oldDocs, newDocs) == Ok(Kept(changes, oldDocs, newDocs))
    ensures !AllKnown(changes) ==> exists k ::
      && 0 <= k < |changes| && AllKnown(changes[..k]) && changes[k].kind.Unexpected?
      && Rescope(changes, oldDocs, newDocs) == Err(UnexpectedChangeType(changes[k].kind.name))
  {
    if changes != [] {
      var init := changes[..|changes| - 1];
      var c := changes[|changes| - 1];
      assert changes == init + [c];
      RescopeCorrect(init, oldDocs, newDocs);
      KeptAppend(init, c, oldDocs, newDocs);
      assert [c][1..] == [];
      assert Kept([c], oldDocs, newDocs) ==
        (if Relevant(c, oldDocs, newDocs) then [Rescoped(c, oldDocs, newDocs)] else []) + Kept([], oldDocs, newDocs);
      if AllKnown(changes) {
        assert forall k :: 0 <= k < |init| ==> init[k] == changes[k];
        assert AllKnown(init);
        assert Classify(c, oldDocs, newDocs).Ok?;
        assert Rescope(init, oldDocs, newDocs) == Ok(Kept(init, oldDocs, newDocs));
        assert Classify(c, oldDocs, newDocs).value == Kept([c], oldDocs, newDocs);
        assert Rescope(changes, oldDocs, newDocs) ==
          Ok(Kept(init, oldDocs, newDocs) + Kept([c], oldDocs, newDocs));
      }
      if AllKnown(init) {
        if c.kind.Unexpected? {
          assert changes[..|init|] == init;
        }
      } else {
        var k :| 0 <= k < |init| && AllKnown(init[..k]) && init[k].kind.Unexpected?
          && Rescope(init, oldDocs, newDocs) == Err(UnexpectedChangeType(init[k].kind.name));
        assert changes[..k] == init[..k];
      }
    }
  }

  /** Every re-scoped change carries its positions in the old and new results. */
  lemma {:induction false} KeptIndices(changes: seq<DocChange>, oldDocs: seq<DocRef>, newDocs: seq<DocRef>)
    ensures var kept := Kept(changes, oldDocs, newDocs);
      forall k :: 0 <= k < |kept| ==>
        && kept[k].oldIndex == IndexOfId(oldDocs, kept[k].doc.id)
        && kept[k].newIndex == IndexOfId(newDocs, kept[k].doc.id)
        && (kept[k].kind == Known(Added) ==> 0 <= kept[k].newIndex < |newDocs|)
        && (kept[k].kind != Known(Added) ==> 0 <= kept[k].oldIndex < |oldDocs|)
  {
    if changes != [] {
      KeptIndices(changes[1..], oldDocs, newDocs);
      var head := if Relevant(changes[0], oldDocs, newDocs) then [Rescoped(changes[0], oldDocs, newDocs)] else [];
      var kept := Kept(changes, oldDocs, newDocs);
      assert kept == head + Kept(changes[1..], oldDocs, newDocs);
      forall k | 0 <= k < |kept| ensures kept[k] in head || kept[k] in Kept(changes[1..], oldDocs, newDocs) {
        if k >= |head| {
          assert kept[k] == Kept(changes[1..], oldDocs, newDocs)[k - |head|];
        }
      }
    }
  }

  /** Listeners are notified iff at least one upstream change is relevant. */
  lemma {:induction false} KeptNonEmpty(changes: seq<DocChange>, oldDocs: seq<DocRef>, newDocs: seq<DocRef>)
    ensures |Kept(changes, oldDocs, newDocs)| > 0 <==>
      exists k :: 0 <= k < |changes| && Relevant(changes[k], oldDocs, newDocs)
  {
    if changes != [] {
      KeptNonEmpty(changes[1..], oldDocs, newDocs);
      if exists k :: 0 <= k < |changes| && Relevant(changes[k], oldDocs, newDocs) {
        var k :| 0 <= k < |changes| && Relevant(changes[k], oldDocs, newDocs);
        if k > 0 {
          assert changes[1..][k - 1] == changes[k];
        }
      }
    }
  }
}
