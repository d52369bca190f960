/**
 * Writing one value at a nested field path of a document copy
 * (`updateSingleFieldPathValue`) and applying a list of field/value pairs in order
 * (`updateFieldsFromArgs`) of MockTransaction.
 */
module FieldPaths {
  import opened Wrappers
  import opened Firestore
  import Js

  /** A `MockFieldValue` sentinel (increment, server timestamp, ...), resolved elsewhere. */
  datatype Sentinel = Sentinel(kind: string, operands: seq<Value>)

  /** The value written at a field: a plain value or a sentinel. */
  datatype UpdateValue = Plain(v: Value) | FieldValue(sentinel: Sentinel)

  /**
   * `processFieldValue(firestore, data, parent, key, sentinel)`: given the original data,
   * the object that holds the final segment, the segment and the sentinel, the holder after
   * the sentinel is resolved into it, or the error it throws.
   */
  type Processor = (Option<Fields>, Fields, string, Sentinel) -> Result<Fields, Error>

  /** A field argument of `update`: a string, a `MockFieldPath`, or anything else. */
  datatype FieldArg = StringField(s: string) | PathField(names: seq<string>) | OtherField

  datatype FieldPair = FieldPair(field: FieldArg, value: UpdateValue)

  /** `fieldNames[fieldNames.length - 1]`; `undefined` (the key "undefined") for no names. */
  function LastSegment(names: seq<string>): string {
    if |names| == 0 then "undefined" else names[|names| - 1]
  }

  /** The final write: a plain assignment, or dispatch to the sentinel processor. */
  function Assign(parent: Fields, key: string, value: UpdateValue, data: Option<Fields>, process: Processor)
    : Result<Fields, Error>
  {
    match value
    case Plain(v) => Ok(parent[key := v])
    case FieldValue(s) => process(data, parent, key, s)
  }

  /** The segments above the last one. */
  function ParentPath(names: seq<string>): seq<string> {
    if |names| == 0 then [] else names[..|names| - 1]
  }

  /**
   * `parent[key] || {}`: one step down. The walk goes on into a map exactly when the field
   * is missing, falsy or a map; an existing map is kept (so the walk writes into it), a
   * missing or falsy field is replaced by a fresh empty map, and anything else is the
   * truthy non-object the mutator rejects.
   */
  function Descend(parent: Fields, key: string): (child: Value)
    ensures Truthy(child)
    ensures child.Map? <==> Descendable(if key in parent then Some(parent[key]) else None)
    ensures key in parent && parent[key].Map? ==> child == parent[key]
    ensures child.Map? && !(key in parent && parent[key].Map?) ==> child.fields == map[]
    ensures !child.Map? ==> key in parent && child == parent[key]
  {
    if key in parent && Truthy(parent[key]) then parent[key] else Map(map[])
  }

  /** The effect of writing `value` at path `names` into `m`, or the error it throws. */
  function SetPath(m: Fields, names: seq<string>, value: UpdateValue, data: Option<Fields>, process: Processor)
    : (r: Result<Fields, Error>)
    ensures r.Err? && value.Plain? ==> r.error == Validation(IllegalPath) || r.error == ArrayPathUnmodelled
    decreases |names|
  {
    if |names| <= 1 then Assign(m, LastSegment(names), value, data, process)
    else
      match Descend(m, names[0])
      case Map(child) =>
        (match SetPath(child, names[1..], value, data, process)
         case Ok(updated) => Ok(m[names[0] := Map(updated)])
         case Err(e) => Err(e))
      case List(_) => Err(ArrayPathUnmodelled)
      case _ => Err(Validation(IllegalPath))
  }

  /** Plain lookup of a nested field; a non-map intermediate has no fields. */
  function GetPath(m: Fields, names: seq<string>): Option<Value>
    decreases |names|
  {
    if |names| == 0 then Some(Map(m))
    else if names[0] !in m then None
    else if |names| == 1 then Some(m[names[0]])
    else match m[names[0]]
      case Map(child) => GetPath(child, names[1..])
      case _ => None
  }

  /** The object the write lands in: the map reached by descending as the mutator does. */
  function Reached(m: Fields, names: seq<string>): Fields
    decreases |names|
  {
    if |names| == 0 then m
    else match Descend(m, names[0])
      case Map(child) => Reached(child, names[1..])
      case _ => map[]
  }

  /** A field the mutator can descend through: missing, falsy, or a map. */
  predicate Descendable(v: Option<Value>) {
    v.None? || !Truthy(v.value) || v.value.Map?
  }

  predicate IsPrefix(p: seq<string>, q: seq<string>) {
    |p| <= |q| && q[..|p|] == p
  }

  /**
   * Writing into an empty map throws only what the final write into an empty object
   * throws; a plain value never throws.
   */
  lemma {:induction false} SetPathIntoEmpty(names: seq<string>, value: UpdateValue, data: Option<Fields>, process: Processor)
    ensures SetPath(map[], names, value, data, process).Ok? <==>
      Assign(map[], LastSegment(names), value, data, process).Ok?
    ensures value.Plain? ==> SetPath(map[], names, value, data, process).Ok?
    decreases |names|
  {
    if |names| > 1 {
      SetPathIntoEmpty(names[1..], value, data, process);
      assert LastSegment(names[1..]) == LastSegment(names);
    }
  }

  /**
   * Below a step down into `child`, the proper prefixes of the path are descendable in `m`
   * exactly when those of the rest of the path are descendable in `child`.
   */
  lemma PrefixesThroughChild(m: Fields, names: seq<string>, child: Fields)
    requires |names| > 1 && Descend(m, names[0]) == Map(child)
    ensures (forall k :: 1 <= k < |names| ==> Descendable(GetPath(m, names[..k]))) <==>
      (forall k :: 1 <= k < |names| - 1 ==> Descendable(GetPath(child, names[1..][..k])))
  {
    var key := names[0];
    var rest := names[1..];
    assert names[..1] == [key];
    assert Descendable(GetPath(m, names[..1]));
    forall k | 2 <= k < |names| ensures names[..k][1..] == rest[..k - 1] && names[..k][0] == key {}
    if key in m && Truthy(m[key]) {
      assert m[key] == Map(child);
      forall k | 2 <= k < |names| ensures GetPath(m, names[..k]) == GetPath(child, rest[..k - 1]) {}
      if forall k :: 1 <= k < |rest| ==> Descendable(GetPath(child, rest[..k])) {
        forall k | 1 <= k < |names| ensures Descendable(GetPath(m, names[..k])) {
          if k >= 2 {
            assert GetPath(m, names[..k]) == GetPath(child, rest[..k - 1]);
          }
        }
      } else {
        var k :| 1 <= k < |rest| && !Descendable(GetPath(child, rest[..k]));
        assert GetPath(m, names[..k + 1]) == GetPath(child, rest[..k]);
      }
    } else {
      assert child == map[];
      forall k | 1 <= k < |rest| ensures GetPath(child, rest[..k]) == None {}
      forall k | 1 <= k < |names| ensures Descendable(GetPath(m, names[..k])) {
        if k >= 2 {
          assert GetPath(m, names[..k]) == None;
        }
      }
    }
  }

  /**
   * The write succeeds exactly when every proper prefix of the path is descendable and the
   * final write into the object the walk reaches succeeds.
   */
  lemma {:induction false} SetPathSucceedsIff(m: Fields, names: seq<string>, value: UpdateValue, data: Option<Fields>, process: Processor)
    ensures SetPath(m, names, value, data, process).Ok? <==>
      (forall k :: 1 <= k < |names| ==> Descendable(GetPath(m, names[..k]))) &&
      Assign(Reached(m, ParentPath(names)), LastSegment(names), value, data, process).Ok?
    decreases |names|
  {
    if |names| <= 1 {
      assert ParentPath(names) == [];
    } else {
      var key := names[0];
      var rest := names[1..];
      assert ParentPath(names)[0] == key && ParentPath(names)[1..] == ParentPath(rest);
      assert LastSegment(rest) == LastSegment(names);
      if Descend(m, key).Map? {
        var child := Descend(m, key).fields;
        assert Reached(m, ParentPath(names)) == Reached(child, ParentPath(rest));
        SetPathSucceedsIff(child, rest, value, data, process);
        PrefixesThroughChild(m, names, child);
      } else {
        assert names[..1] == [key];
        assert GetPath(m, names[..1]) == if key in m then Some(m[key]) else None;
        assert !Descendable(GetPath(m, names[..1]));
      }
    }
  }

  /** The final segment is assigned (or resolved by the processor) in the reached object. */
  lemma {:induction false} SetPathAssignsLast(m: Fields, names: seq<string>, value: UpdateValue, data: Option<Fields>, process: Processor)
    requires |names| >= 1
    requires SetPath(m, names, value, data, process).Ok?
    ensures Assign(Reached(m, names[..|names| - 1]), names[|names| - 1], value, data, process).Ok?
    ensures var parentPath := names[..|names| - 1];
      GetPath(SetPath(m, names, value, data, process).value, parentPath) ==
        Some(Map(Assign(Reached(m, parentPath), names[|names| - 1], value, data, process).value))
    decreases |names|
  {
    if |names| > 1 {
      var child := Descend(m, names[0]).fields;
      var rest := names[1..];
      SetPathAssignsLast(child, rest, value, data, process);
      assert names[..|names| - 1][1..] == rest[..|rest| - 1];
      assert rest[|rest| - 1] == names[|names| - 1];
    }
  }

  /** A plain value can be read back at the path it was written to. */
  lemma SetPathReadsBack(m: Fields, names: seq<string>, v: Value, data: Option<Fields>, process: Processor)
    requires |names| >= 1
    requires SetPath(m, names, Plain(v), data, process).Ok?
    ensures GetPath(SetPath(m, names, Plain(v), data, process).value, names) == Some(v)
  {
    var r := SetPath(m, names, Plain(v), data, process).value;
    SetPathAssignsLast(m, names, Plain(v), data, process);
    GetPathExtend(r, names[..|names| - 1], names[|names| - 1]);
    assert names[..|names| - 1] + [names[|names| - 1]] == names;
  }

  /** Looking one segment further below a map. */
  lemma {:induction false} GetPathExtend(m: Fields, p: seq<string>, key: string)
    requires GetPath(m, p).Some? && GetPath(m, p).value.Map?
    ensures GetPath(m, p + [key]) ==
      var f := GetPath(m, p).value.fields; if key in f then Some(f[key]) else None
    decreases |p|
  {
    if |p| > 0 {
      assert (p + [key])[0] == p[0];
      assert (p + [key])[1..] == p[1..] + [key];
      if |p| > 1 {
        GetPathExtend(m[p[0]].fields, p[1..], key);
      }
    }
  }

  lemma PrefixTail(p: seq<string>, q: seq<string>)
    requires |p| > 0 && |q| > 0 && p[0] == q[0]
    ensures IsPrefix(p, q) <==> IsPrefix(p[1..], q[1..])
  {
    if |p| <= |q| {
      assert q[..|p|] == [q[0]] + q[1..][..|p| - 1];
      assert p == [p[0]] + p[1..];
    }
  }

  /**
   * A plain write changes nothing outside the written path: every field path that is
   * neither an ancestor nor a descendant of it reads the same before and after.
   */
  lemma {:induction false} SetPathKeepsOthers(m: Fields, names: seq<string>, v: Value, data: Option<Fields>, process: Processor, p: seq<string>)
    requires |names| >= 1
    requires SetPath(m, names, Plain(v), data, process).Ok?
    requires !IsPrefix(p, names) && !IsPrefix(names, p)
    ensures GetPath(SetPath(m, names, Plain(v), data, process).value, p) == GetPath(m, p)
    decreases |names|
  {
    var r := SetPath(m, names, Plain(v), data, process).value;
    if |names| == 1 {
      assert r == m[names[0] := v];
      if p[0] != names[0] {
        assert (p[0] in r) == (p[0] in m);
        if p[0] in m { assert r[p[0]] == m[p[0]]; }
      }
    } else {
      var child := Descend(m, names[0]).fields;
      var updated := SetPath(child, names[1..], Plain(v), data, process).value;
      assert r == m[names[0] := Map(updated)];
      if p[0] != names[0] {
        assert (p[0] in r) == (p[0] in m);
        if p[0] in m { assert r[p[0]] == m[p[0]]; }
      } else if |p| > 1 {
        PrefixTail(p, names);
        PrefixTail(names, p);
        SetPathKeepsOthers(child, names[1..], v, data, process, p[1..]);
        if names[0] in m && Truthy(m[names[0]]) {
          assert m[names[0]] == Map(child);
        } else {
          assert GetPath(map[], p[1..]) == None;
          assert GetPath(m, p) == None;
        }
      }
    }
  }

  /**
   * A falsy or missing intermediate is replaced by a map holding just the new branch; the
   * write throws only if the final write into an empty object does.
   */
  lemma FalsyIntermediateBecomesMap(m: Fields, names: seq<string>, value: UpdateValue, data: Option<Fields>, process: Processor)
    requires |names| >= 2
    requires !(names[0] in m && Truthy(m[names[0]]))
    ensures SetPath(m, names, value, data, process).Ok? <==>
      Assign(map[], LastSegment(names), value, data, process).Ok?
    ensures SetPath(map[], names[1..], value, data, process).Ok? ==>
      SetPath(m, names, value, data, process) ==
        Ok(m[names[0] := Map(SetPath(map[], names[1..], value, data, process).value)])
  {
    SetPathIntoEmpty(names[1..], value, data, process);
    assert LastSegment(names[1..]) == LastSegment(names);
  }

  /** A one-segment path is a plain key assignment. */
  lemma SingleSegmentIsAssignment(m: Fields, key: string, value: UpdateValue, data: Option<Fields>, process: Processor)
    ensures SetPath(m, [key], value, data, process) == Assign(m, key, value, data, process)
  {
  }

  // ---- The in-place walk ------------------------------------------------------------------

  /** An object passed on the way down, and the key under which the walk continued. */
  datatype Frame = Frame(holder: Fields, key: string)

  /** Writes `inner` back into the objects passed on the way down, innermost first. */
  function Plug(frames: seq<Frame>, inner: Fields): Fields
    decreases |frames|
  {
    if frames == [] then inner
    else
      var f := frames[|frames| - 1];
      Plug(frames[..|frames| - 1], f.holder[f.key := Map(inner)])
  }

  lemma PlugSnoc(frames: seq<Frame>, f: Frame, inner: Fields)
    ensures Plug(frames + [f], inner) == Plug(frames, f.holder[f.key := Map(inner)])
  {
    assert (frames + [f])[..|frames|] == frames;
  }

  function PlugResult(frames: seq<Frame>, r: Result<Fields, Error>): Result<Fields, Error> {
    match r
    case Ok(inner) => Ok(Plug(frames, inner))
    case Err(e) => Err(e)
  }

  /** One step down the path: descending through a map moves the pending write into a new frame. */
  lemma DescendStep(frames: seq<Frame>, parent: Fields, names: seq<string>, value: UpdateValue, data: Option<Fields>, process: Processor)
    requires |names| >= 2 && Descend(parent, names[0]).Map?
    ensures PlugResult(frames, SetPath(parent, names, value, data, process)) ==
      PlugResult(frames + [Frame(parent, names[0])], SetPath(Descend(parent, names[0]).fields, names[1..], value, data, process))
  {
    var sub := SetPath(Descend(parent, names[0]).fields, names[1..], value, data, process);
    if sub.Ok? {
      PlugSnoc(frames, Frame(parent, names[0]), sub.value);
    }
  }

  /** Writes each object back into its holder, innermost first. */
  method PlugBack(frames: seq<Frame>, inner: Fields) returns (written: Fields)
    ensures written == Plug(frames, inner)
  {
    written := inner;
    var k := |frames|;
    assert frames[..k] == frames;
    while k > 0
      invariant 0 <= k <= |frames|
      invariant Plug(frames, inner) == Plug(frames[..k], written)
    {
      k := k - 1;
      assert frames[..k + 1][..k] == frames[..k];
      written := frames[k].holder[frames[k].key := Map(written)];
    }
    assert frames[..0] == [];
  }

  /**
   * `updateSingleFieldPathValue`: walks down `names` replacing falsy intermediates with empty
   * maps and throwing at a truthy non-object, then writes the last segment. The source
   * mutates the nested objects of the copy in place; here the objects passed on the way
   * down are kept as frames and the written object is plugged back into them.
   */
  method UpdateSingleFieldPathValue(names: seq<string>, newData: Fields, value: UpdateValue, data: Option<Fields>, process: Processor)
    returns (r: Result<Fields, Error>)
    ensures r == SetPath(newData, names, value, data, process)
  {
    var frames: seq<Frame> := [];
    var parent := newData;
    var j := 1;
    while j < |names|
      invariant 1 <= j && (j <= |names| || j == 1)
      invariant j == 1 ==> parent == newData && frames == []
      invariant |names| >= 1 ==>
        SetPath(newData, names, value, data, process) == PlugResult(frames, SetPath(parent, names[j - 1..], value, data, process))
    {
      var key := names[j - 1];
      var child := Descend(parent, key);
      ghost var rest := names[j - 1..];
      assert rest[0] == key && rest[1..] == names[j..];
      if child.Map? {
        DescendStep(frames, parent, rest, value, data, process);
        frames := frames + [Frame(parent, key)];
        parent := child.fields;
      } else if child.List? {
        assert SetPath(parent, rest, value, data, process) == Err(ArrayPathUnmodelled);
        return Err(ArrayPathUnmodelled);
      } else {
        assert SetPath(parent, rest, value, data, process) == Err(Validation(IllegalPath));
        return Err(Validation(IllegalPath));
      }
      j := j + 1;
    }
    var last := Assign(parent, LastSegment(names), value, data, process);
    if |names| >= 1 {
      assert names[j - 1..] == [names[|names| - 1]];
      assert SetPath(parent, names[j - 1..], value, data, process) == last;
    }
    if last.Err? {
      return Err(last.error);
    }
    var written := PlugBack(frames, last.value);
    r := Ok(written);
  }

  // ---- Applying the field/value pairs -----------------------------------------------------

  /** One iteration of `updateFieldsFromArgs`; `None` data is `undefined`. */
  function ApplyPair(pair: FieldPair, data: Option<Fields>, newData: Option<Fields>, process: Processor)
    : Result<Option<Fields>, Error>
  {
    match pair.field
    case StringField(s) =>
      if newData.None? then Err(TypeError)
      else if '.' in s then
        var r :- SetPath(newData.value, Js.Split(s, '.'), pair.value, data, process);
        Ok(Some(r))
      else
        var r :- Assign(newData.value, s, pair.value, data, process);
        Ok(Some(r))
    case PathField(names) =>
      if newData.None? then Err(TypeError)
      else
        var r :- SetPath(newData.value, names, pair.value, data, process);
        Ok(Some(r))
    case OtherField => Err(Validation(UnsupportedFieldPath))
  }

  /** All pairs applied in order to `newData`, stopping at the first error. */
  function ApplyPairs(pairs: seq<FieldPair>, data: Option<Fields>, newData: Option<Fields>, process: Processor)
    : Result<Option<Fields>, Error>
  {
    if pairs == [] then Ok(newData)
    else
      var before :- ApplyPairs(pairs[..|pairs| - 1], data, newData, process);
      ApplyPair(pairs[|pairs| - 1], data, before, process)
  }

  lemma {:induction false} SplitWithoutSeparator(s: string, sep: char)
    requires sep !in s
    ensures Js.Split(s, sep) == [s]
  {
    if |s| > 0 {
      SplitWithoutSeparator(s[1..], sep);
      assert [s[0]] + s[1..] == s;
    }
  }

  /** A string field is the field path of its dot-separated segments. */
  lemma StringFieldIsPath(s: string, value: UpdateValue, data: Option<Fields>, newData: Option<Fields>, process: Processor)
    ensures ApplyPair(FieldPair(StringField(s), value), data, newData, process) ==
      ApplyPair(FieldPair(PathField(Js.Split(s, '.')), value), data, newData, process)
  {
    if '.' !in s {
      SplitWithoutSeparator(s, '.');
    }
  }

  /** Once a prefix of the pairs throws, applying all of them throws the same error. */
  lemma {:induction false} ApplyPairsErrorPersists(pairs: seq<FieldPair>, n: nat, data: Option<Fields>, newData: Option<Fields>, process: Processor)
    requires n <= |pairs|
    requires ApplyPairs(pairs[..n], data, newData, process).Err?
    ensures ApplyPairs(pairs, data, newData, process) == ApplyPairs(pairs[..n], data, newData, process)
    decreases |pairs| - n
  {
    if n < |pairs| {
      assert pairs[..n + 1][..n] == pairs[..n];
      ApplyPairsErrorPersists(pairs, n + 1, data, newData, process);
    } else {
      assert pairs[..n] == pairs;
    }
  }

  /** A pair whose field is neither a string nor a field path makes the whole update throw. */
  lemma UnsupportedFieldThrows(pairs: seq<FieldPair>, k: nat, data: Option<Fields>, newData: Option<Fields>, process: Processor)
    requires k < |pairs| && pairs[k].field.OtherField?
    ensures ApplyPairs(pairs, data, newData, process).Err?
  {
    assert pairs[..k + 1][..k] == pairs[..k];
    assert pairs[..k + 1][k] == pairs[k];
    ApplyPairsErrorPersists(pairs, k + 1, data, newData, process);
  }

  /** The body of the loop of `updateFieldsFromArgs`: one field/value pair applied to `newData`. */
  method UpdateFromPair(pair: FieldPair, data: Option<Fields>, newData: Option<Fields>, process: Processor)
    returns (step: Result<Option<Fields>, Error>)
    ensures step == ApplyPair(pair, data, newData, process)
  {
    match pair.field {
      case StringField(s) =>
        if newData.None? {
          step := Err(TypeError);
        } else if '.' in s {
          var nested := UpdateSingleFieldPathValue(Js.Split(s, '.'), newData.value, pair.value, data, process);
          step := if nested.Ok? then Ok(Some(nested.value)) else Err(nested.error);
        } else {
          var holder := Assign(newData.value, s, pair.value, data, process);
          step := if holder.Ok? then Ok(Some(holder.value)) else Err(holder.error);
        }
      case PathField(names) =>
        if newData.None? {
          step := Err(TypeError);
        } else {
          var nested := UpdateSingleFieldPathValue(names, newData.value, pair.value, data, process);
          step := if nested.Ok? then Ok(Some(nested.value)) else Err(nested.error);
        }
      case OtherField =>
        step := Err(Validation(UnsupportedFieldPath));
    }
  }

  /**
   * `updateFieldsFromArgs`: applies each field/value pair in turn to the copy `newData`;
   * a dotted string or a field path goes through the nested walk, a plain key is assigned.
   */
  method UpdateFieldsFromArgs(pairs: seq<FieldPair>, data: Option<Fields>, newData: Option<Fields>, process: Processor)
    returns (r: Result<Option<Fields>, Error>)
    ensures r == ApplyPairs(pairs, data, newData, process)
  {
    var current := newData;
    var i := 0;
    while i < |pairs|
      invariant 0 <= i <= |pairs|
      invariant ApplyPairs(pairs[..i], data, newData, process) == Ok(current)
    {
      var pair := pairs[i];
      assert pairs[..i + 1][..i] == pairs[..i] && pairs[..i + 1][i] == pair;
      var step := UpdateFromPair(pair, data, current, process);
      if step.Err? {
        ApplyPairsErrorPersists(pairs, i + 1, data, newData, process);
        return Err(step.error);
      }
      current := step.value;
      i := i + 1;
    }
    assert pairs[..i] == pairs;
    r := Ok(current);
  }
}
