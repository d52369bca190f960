/**
 * The few JavaScript built-ins whose exact edge-case behaviour the mock relies on:
 * `Array.prototype.slice`, `String.prototype.split` with a one-character separator,
 * `String.prototype.lastIndexOf` and `String.prototype.substr`, and the names an object
 * literal inherits.
 */
module Js {

  /**
   * The properties every object literal inherits from `Object.prototype`: looking one of
   * them up on `{}` gives a function (or, for `__proto__`, the prototype itself), which is
   * truthy and has no array methods.
   */
  const ObjectPrototypeNames: set<string> := {
    "constructor", "__proto__", "__defineGetter__", "__defineSetter__", "__lookupGetter__",
    "__lookupSetter__", "hasOwnProperty", "isPrototypeOf", "propertyIsEnumerable",
    "toLocaleString", "toString", "valueOf"}

  function Max(a: int, b: int): int { if a < b then b else a }
  function Min(a: int, b: int): int { if a < b then a else b }

  /** How `slice` resolves one argument: negative counts from the end, both ends clamp. */
  function RelativeIndex(i: int, len: nat): (r: nat)
    ensures r <= len
    ensures 0 <= i <= len ==> r == i
    ensures i > len ==> r == len
    ensures i < 0 ==> r == Max(len + i, 0)
  {
    if i < 0 then Max(len + i, 0) else Min(i, len)
  }

  /** `s.slice(begin, end)`. */
  function Slice<T>(s: seq<T>, begin: int, end: int): (r: seq<T>)
    ensures |r| <= |s|
    ensures 0 <= begin <= end <= |s| ==> r == s[begin..end]
    ensures begin == 0 && end >= |s| ==> r == s
  {
    var lo := RelativeIndex(begin, |s|);
    var hi := RelativeIndex(end, |s|);
    if lo < hi then s[lo..hi] else []
  }

  /** `s.slice(begin)`. */
  function SliceFrom<T>(s: seq<T>, begin: int): (r: seq<T>)
    ensures 0 <= begin <= |s| ==> r == s[begin..]
    ensures begin >= |s| ==> r == []
  {
    Slice(s, begin, |s|)
  }

  /** `s.lastIndexOf(c)`: the last position holding `c`, or -1. */
  function LastIndexOf(s: string, c: char): int {
    if |s| == 0 then -1
    else if s[|s| - 1] == c then |s| - 1
    else LastIndexOf(s[..|s| - 1], c)
  }

  /** `lastIndexOf` is -1 exactly when `c` is absent, and otherwise the last position holding it. */
  lemma {:induction false} LastIndexOfFinds(s: string, c: char)
    ensures -1 <= LastIndexOf(s, c) < |s|
    ensures LastIndexOf(s, c) == -1 <==> c !in s
    ensures var r := LastIndexOf(s, c); r >= 0 ==> s[r] == c && c !in s[r + 1..]
  {
    if |s| > 0 && s[|s| - 1] != c {
      var init := s[..|s| - 1];
      LastIndexOfFinds(init, c);
      assert init + [s[|s| - 1]] == s;
      var r := LastIndexOf(init, c);
      if r >= 0 {
        assert s[r + 1..] == init[r + 1..] + [s[|s| - 1]];
      }
    }
  }

  /** `s.substr(start, length)`: a negative length gives the empty string. */
  function Substr(s: string, start: int, length: int): (r: string)
    ensures |r| <= |s|
  {
    var from := RelativeIndex(start, |s|);
    var count := Min(Max(length, 0), |s| - from);
    s[from..from + count]
  }

  /** `s.split(sep)` for a one-character separator (empty pieces kept). */
  function Split(s: string, sep: char): (parts: seq<string>)
    ensures |parts| >= 1
  {
    if |s| == 0 then [""]
    else
      var rest := Split(s[1..], sep);
      if s[0] == sep then [""] + rest
      else [[s[0]] + rest[0]] + rest[1..]
  }

  /** `parts.join(sep)`: the inverse of `Split`. */
  function Join(parts: seq<string>, sep: char): string
  {
    if |parts| == 0 then ""
    else if |parts| == 1 then parts[0]
    else parts[0] + [sep] + Join(parts[1..], sep)
  }

  /** Splitting and joining back gives the original string, and no piece holds the separator. */
  lemma {:induction false} SplitJoin(s: string, sep: char)
    ensures Join(Split(s, sep), sep) == s
    ensures forall k :: 0 <= k < |Split(s, sep)| ==> sep !in Split(s, sep)[k]
  {
    if |s| > 0 {
      var rest := Split(s[1..], sep);
      SplitJoin(s[1..], sep);
      if s[0] == sep {
        assert Split(s, sep) == [""] + rest;
        assert Join([""] + rest, sep) == "" + [sep] + Join(rest, sep);
        assert [s[0]] + s[1..] == s;
      } else {
        var parts := Split(s, sep);
        assert parts == [[s[0]] + rest[0]] + rest[1..];
        if |rest| == 1 {
          assert Join(parts, sep) == [s[0]] + rest[0];
        } else {
          assert Join(rest, sep) == rest[0] + [sep] + Join(rest[1..], sep);
          assert Join(parts, sep) == [s[0]] + rest[0] + [sep] + Join(rest[1..], sep);
        }
        assert [s[0]] + s[1..] == s;
        forall k | 0 <= k < |parts| ensures sep !in parts[k] {
          if k > 0 {
            assert parts[k] == rest[k];
          } else {
            assert sep !in rest[0];
          }
        }
      }
    }
  }
}
