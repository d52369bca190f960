/**
 * The query object: a rules object on the heap that clones share, the builders that
 * extend or replace it, listener registration, and the reaction to upstream collection
 * changes (class MockQuery).
 */
module MockQuery {
  import opened Wrappers
  import opened Firestore
  import opened QueryEvaluation

  /** The `where` array of a rules object; pushing into it is visible to every holder. */
  class WhereList {
    var items: seq<WhereRule>

    constructor (items: seq<WhereRule>)
      ensures this.items == items
    {
      this.items := items;
    }
  }

  /** The `order` array of a rules object. */
  class OrderList {
    var items: seq<OrderRule>

    constructor (items: seq<OrderRule>)
      ensures this.items == items
    {
      this.items := items;
    }
  }

  /** A `MockQueryRules` object; `null` lists are absent properties. */
  class QueryRules {
    var order: OrderList?
    var where: WhereList?
    var start: Option<StartRule>
    var end: Option<EndRule>
    var limit: Option<int>

    constructor (order: OrderList?, where: WhereList?, start: Option<StartRule>, end: Option<EndRule>, limit: Option<int>)
      ensures this.order == order && this.where == where
      ensures this.start == start && this.end == end && this.limit == limit
    {
      this.order := order;
      this.where := where;
      this.start := start;
      this.end := end;
      this.limit := limit;
    }

    /** The rules this object currently denotes. */
    function Value(): Rules
      reads this, order, where
    {
      Rules(
        if order == null then None else Some(order.items),
        if where == null then None else Some(where.items),
        start, end, limit)
    }
  }

  /** The identity of a registered snapshot callback. */
  type CallbackId = nat

  /** The identity of the query an upstream snapshot belongs to. */
  type QueryId = nat

  /** The first argument of `onSnapshot`: a callback, or an options or observer object. */
  datatype ListenArg = Callback(id: CallbackId) | OptionsOrObserver

  /** An upstream collection snapshot: its query and its raw changes. */
  datatype UpstreamSnapshot = UpstreamSnapshot(query: QueryId, changes: seq<DocChange>)

  /** One firing of the callback handler: the snapshot delivered and who was registered. */
  datatype Notification = Notification(
    query: QueryId, docs: seq<DocRef>, changes: seq<DocChange>, callbacks: seq<CallbackId>)

  class MockQuery {
    var docRefs: seq<DocRef>
    var rules: QueryRules
    var callbacks: seq<CallbackId>
    var fired: seq<Notification>

    constructor (docRefs: seq<DocRef>, rules: QueryRules)
      ensures this.docRefs == docRefs && this.rules == rules
      ensures callbacks == [] && fired == []
    {
      this.docRefs := docRefs;
      this.rules := rules;
      callbacks := [];
      fired := [];
    }

    function RulesValue(): Rules
      reads this, rules, rules.order, rules.where
    {
      rules.Value()
    }

    /** `createClone`: a new query over the same documents sharing this query's rules object. */
    method CreateClone() returns (result: MockQuery)
      ensures fresh(result)
      ensures result.rules == rules && result.docRefs == docRefs
      ensures result.callbacks == [] && result.fired == []
    {
      result := new MockQuery(docRefs, rules);
    }

    /** `where`: pushes a where rule into the rules object the clone shares with this query. */
    method Where(fieldPath: FieldRef, op: WhereOp, value: Value) returns (result: MockQuery)
      modifies rules, rules.where
      ensures fresh(result)
      ensures result.rules == rules && result.docRefs == docRefs
      ensures result.callbacks == [] && result.fired == []
      ensures old(rules.where) != null ==> rules.where == old(rules.where)
      ensures old(rules.where) == null ==> fresh(rules.where)
      ensures rules.Value() == old(rules.Value()).(where :=
        Some(old(rules.Value()).where.GetOr([]) + [WhereRule(fieldPath, op, value)]))
    {
      result := CreateClone();
      var where := result.rules.where;
      if where == null {
        where := new WhereList([]);
      }
      where.items := where.items + [WhereRule(fieldPath, op, value)];
      result.rules.where := where;
    }

    /**
     * `where` as its documentation describes it: a new query whose rules are a copy of this
     * query's rules plus the filter, leaving this query's rules object and lists untouched.
     */
    method WhereCopied(fieldPath: FieldRef, op: WhereOp, value: Value) returns (result: MockQuery)
      ensures fresh(result) && fresh(result.rules) && result.docRefs == docRefs
      ensures fresh(result.rules.where) && (result.rules.order == null || fresh(result.rules.order))
      ensures result.RulesValue() == RulesValue().(where :=
        Some(RulesValue().where.GetOr([]) + [WhereRule(fieldPath, op, value)]))
    {
      var whereItems := if rules.where == null then [] else rules.where.items;
      var where := new WhereList(whereItems + [WhereRule(fieldPath, op, value)]);
      var order: OrderList? := null;
      if rules.order != null {
        order := new OrderList(rules.order.items);
      }
      var copy := new QueryRules(order, where, rules.start, rules.end, rules.limit);
      result := new MockQuery(docRefs, copy);
    }

    /** `orderBy`: pushes an order rule (ascending unless given) into the shared rules object. */
    method OrderBy(fieldPath: FieldRef, direction: Option<Direction>) returns (result: MockQuery)
      modifies rules, rules.order
      ensures fresh(result)
      ensures result.rules == rules && result.docRefs == docRefs
      ensures result.callbacks == [] && result.fired == []
      ensures old(rules.order) != null ==> rules.order == old(rules.order)
      ensures old(rules.order) == null ==> fresh(rules.order)
      ensures rules.Value() == old(rules.Value()).(order :=
        Some(old(rules.Value()).order.GetOr([]) + [OrderRule(fieldPath, direction.GetOr(Asc))]))
    {
      result := CreateClone();
      var order := result.rules.order;
      if order == null {
        order := new OrderList([]);
      }
      order.items := order.items + [OrderRule(fieldPath, direction.GetOr(Asc))];
      result.rules.order := order;
    }

    /** `limit`: rejects a non-positive limit, else sets it on the shared rules object. */
    method Limit(limit: int) returns (r: Result<MockQuery, Error>)
      modifies rules
      ensures limit <= 0 <==> r.Err?
      ensures limit <= 0 ==> r == Err(Validation(NonPositiveLimit)) && unchanged(rules)
      ensures r.Ok? ==> fresh(r.value) && r.value.rules == rules && r.value.docRefs == docRefs
      ensures r.Ok? ==> rules.Value() == old(rules.Value()).(limit := Some(limit))
      ensures r.Ok? ==> rules.order == old(rules.order) && rules.where == old(rules.where)
    {
      if limit <= 0 {
        return Err(Validation(NonPositiveLimit));
      }
      var result := CreateClone();
      result.rules.limit := Some(limit);
      r := Ok(result);
    }

    /** `createStartRule`: a spread copy of the rules object with a new start cursor. */
    method CreateStartRule(fieldValues: seq<Value>, mode: StartMode) returns (r: QueryRules)
      ensures fresh(r)
      ensures r.order == rules.order && r.where == rules.where
      ensures r.Value() == RulesValue().(start := Some(StartRule(fieldValues, mode)))
    {
      r := new QueryRules(rules.order, rules.where, Some(StartRule(fieldValues, mode)), rules.end, rules.limit);
    }

    /** `createEndRule`: a spread copy of the rules object with a new end cursor. */
    method CreateEndRule(fieldValues: seq<Value>, mode: EndMode) returns (r: QueryRules)
      ensures fresh(r)
      ensures r.order == rules.order && r.where == rules.where
      ensures r.Value() == RulesValue().(end := Some(EndRule(fieldValues, mode)))
    {
      r := new QueryRules(rules.order, rules.where, rules.start, Some(EndRule(fieldValues, mode)), rules.limit);
    }

    /** `startAt`: replaces this query's rules object and returns this same query. */
    method StartAt(fieldValues: seq<Value>) returns (result: MockQuery)
      modifies this
      ensures result == this && fresh(rules)
      ensures RulesValue() == old(RulesValue()).(start := Some(StartRule(fieldValues, QueryEvaluation.StartAt)))
      ensures rules.order == old(rules.order) && rules.where == old(rules.where)
      ensures docRefs == old(docRefs) && callbacks == old(callbacks) && fired == old(fired)
    {
      rules := CreateStartRule(fieldValues, QueryEvaluation.StartAt);
      result := this;
    }

    /** `startAfter`: like `startAt`, with the cursor document itself excluded. */
    method StartAfter(fieldValues: seq<Value>) returns (result: MockQuery)
      modifies this
      ensures result == this && fresh(rules)
      ensures RulesValue() == old(RulesValue()).(start := Some(StartRule(fieldValues, QueryEvaluation.StartAfter)))
      ensures rules.order == old(rules.order) && rules.where == old(rules.where)
      ensures docRefs == old(docRefs) && callbacks == old(callbacks) && fired == old(fired)
    {
      rules := CreateStartRule(fieldValues, QueryEvaluation.StartAfter);
      result := this;
    }

    /** `endBefore`: replaces this query's rules object with one ending before the cursor. */
    method EndBefore(fieldValues: seq<Value>) returns (result: MockQuery)
      modifies this
      ensures result == this && fresh(rules)
      ensures RulesValue() == old(RulesValue()).(end := Some(EndRule(fieldValues, QueryEvaluation.EndBefore)))
      ensures rules.order == old(rules.order) && rules.where == old(rules.where)
      ensures docRefs == old(docRefs) && callbacks == old(callbacks) && fired == old(fired)
    {
      rules := CreateEndRule(fieldValues, QueryEvaluation.EndBefore);
      result := this;
    }

    /** `endAt`: replaces this query's rules object with one ending at the cursor. */
    method EndAt(fieldValues: seq<Value>) returns (result: MockQuery)
      modifies this
      ensures result == this && fresh(rules)
      ensures RulesValue() == old(RulesValue()).(end := Some(EndRule(fieldValues, QueryEvaluation.EndAt)))
      ensures rules.order == old(rules.order) && rules.where == old(rules.where)
      ensures docRefs == old(docRefs) && callbacks == old(callbacks) && fired == old(fired)
    {
      rules := CreateEndRule(fieldValues, QueryEvaluation.EndAt);
      result := this;
    }

    /** `onSnapshot`: registers a callback; the options and observer forms are not implemented. */
    method OnSnapshot(arg: ListenArg) returns (r: Result<CallbackId, Error>)
      modifies this
      ensures arg.Callback? ==> r == Ok(arg.id) && callbacks == old(callbacks) + [arg.id]
      ensures arg.OptionsOrObserver? ==>
        r == Err(NotImplementedYet("MockQuery.onSnapshot")) && callbacks == old(callbacks)
      ensures docRefs == old(docRefs) && rules == old(rules) && fired == old(fired)
    {
      match arg
      case Callback(id) =>
        callbacks := callbacks + [id];
        r := Ok(id);
      case OptionsOrObserver =>
        r := Err(NotImplementedYet("MockQuery.onSnapshot"));
    }

    /**
     * The `forEach` of `handleCollectionSnapshotChange`: keeps each upstream change that
     * concerns this query, with its indices re-computed, and throws on an unexpected type.
     */
    method RescopeChanges(changes: seq<DocChange>, oldDocs: seq<DocRef>, newDocs: seq<DocRef>)
      returns (r: Result<seq<DocChange>, Error>)
      ensures r == Rescope(changes, oldDocs, newDocs)
    {
      var docChanges: seq<DocChange> := [];
      var i := 0;
      while i < |changes|
        invariant 0 <= i <= |changes|
        invariant Rescope(changes[..i], oldDocs, newDocs) == Ok(docChanges)
      {
        var change := changes[i];
        var oldIndex := IndexOfId(oldDocs, change.doc.id);
        var newIndex := IndexOfId(newDocs, change.doc.id);
        assert changes[..i + 1][..i] == changes[..i];
        assert changes[..i + 1][i] == change;
        ghost var prev := docChanges;
        match change.kind {
          case Known(Modified) | Known(Removed) =>
            if oldIndex >= 0 {
              docChanges := docChanges + [change.(oldIndex := oldIndex, newIndex := newIndex)];
            }
          case Known(Added) =>
            if newIndex >= 0 {
              docChanges := docChanges + [change.(oldIndex := oldIndex, newIndex := newIndex)];
            }
          case Unexpected(name) =>
            RescopeErrorPersists(changes, i + 1, oldDocs, newDocs);
            return Err(UnexpectedChangeType(name));
        }
        assert docChanges == prev + Classify(change, oldDocs, newDocs).value;
        assert Rescope(changes[..i + 1], oldDocs, newDocs) ==
          Ok(prev + Classify(change, oldDocs, newDocs).value);
        i := i + 1;
      }
      assert changes[..i] == changes;
      r := Ok(docChanges);
    }

    /**
     * `handleCollectionSnapshotChange`: evaluates the query before and after taking the
     * collection's current documents, re-scopes the upstream changes to the two results and
     * fires the callbacks once if any change concerns this query.
     */
    method HandleCollectionSnapshotChange(snapshot: UpstreamSnapshot, current: seq<DocRef>, h: Helpers)
      returns (r: Result<(), Error>)
      modifies this
      ensures rules == old(rules) && callbacks == old(callbacks)
      ensures var before := FilterDocumentReferences(old(docRefs), RulesValue(), h);
        before.Err? ==> r == Err(before.error) && docRefs == old(docRefs) && fired == old(fired)
      ensures var before := FilterDocumentReferences(old(docRefs), RulesValue(), h);
        var after := FilterDocumentReferences(current, RulesValue(), h);
        before.Ok? ==> docRefs == current && (after.Err? ==> r == Err(after.error) && fired == old(fired))
      ensures var before := FilterDocumentReferences(old(docRefs), RulesValue(), h);
        var after := FilterDocumentReferences(current, RulesValue(), h);
        before.Ok? && after.Ok? ==>
          var changes := Rescope(snapshot.changes, before.value, after.value);
          && (changes.Err? ==> r == Err(changes.error) && fired == old(fired))
          && (changes.Ok? ==> r == Ok(()))
          && (changes.Ok? && |changes.value| == 0 ==> fired == old(fired))
          && (changes.Ok? && |changes.value| > 0 ==>
                fired == old(fired) + [Notification(snapshot.query, after.value, changes.value, callbacks)])
    {
      var before := FilterDocumentReferences(docRefs, RulesValue(), h);
      if before.Err? {
        return Err(before.error);
      }
      docRefs := current;
      var after := FilterDocumentReferences(docRefs, RulesValue(), h);
      if after.Err? {
        return Err(after.error);
      }
      var newDocs := after.value;
      var docChanges := RescopeChanges(snapshot.changes, before.value, newDocs);
      if docChanges.Err? {
        return Err(docChanges.error);
      }
      if |docChanges.value| > 0 {
        fired := fired + [Notification(snapshot.query, newDocs, docChanges.value, callbacks)];
      }
      r := Ok(());
    }
  }

  /**
   * Filtering a fresh, unfiltered query with `where` as written also filters the original
   * query: afterwards the original's own rules carry the new filter.
   */
  method WhereAltersParentQuery() returns (parentWhere: Option<seq<WhereRule>>)
    ensures parentWhere == Some([WhereRule(Dotted("a"), Eq, Num(1))])
  {
    var rules := new QueryRules(null, null, None, None, None);
    var parent := new MockQuery([], rules);
    assert parent.RulesValue() == NoRules;
    assert [] + [WhereRule(Dotted("a"), Eq, Num(1))] == [WhereRule(Dotted("a"), Eq, Num(1))];
    var child := parent.Where(Dotted("a"), Eq, Num(1));
    assert parent.rules == rules;
    parentWhere := parent.RulesValue().where;
  }

  /** With the copying `where`, the original query stays unfiltered and the new one is filtered. */
  method CorrectedWhereKeepsParent() returns (parentWhere: Option<seq<WhereRule>>, childWhere: Option<seq<WhereRule>>)
    ensures parentWhere == None
    ensures childWhere == Some([WhereRule(Dotted("a"), Eq, Num(1))])
  {
    var rules := new QueryRules(null, null, None, None, None);
    var parent := new MockQuery([], rules);
    assert parent.RulesValue() == NoRules;
    assert [] + [WhereRule(Dotted("a"), Eq, Num(1))] == [WhereRule(Dotted("a"), Eq, Num(1))];
    var child := parent.WhereCopied(Dotted("a"), Eq, Num(1));
    parentWhere := parent.RulesValue().where;
    childWhere := child.RulesValue().where;
  }
}
