/** JavaScript runtime semantics the plugin relies on: `undefined`, truthiness of
    strings, `startsWith`, `indexOf`, `includes`, and the way an array of strings
    is rendered inside a template literal. */
module Js {

  /** A value that may be `undefined`. */
  datatype Option<+T> = None | Some(value: T) {
    function GetOr(default: T): T {
      match this
      case Some(v) => v
      case None => default
    }
  }

  /** `if (s)` on a string-or-undefined: both `undefined` and `''` are falsy. */
  predicate Truthy(s: Option<string>) {
    s.Some? && s.value != ""
  }

  /** Element `i` of an array, `undefined` past its end. */
  function At<T>(xs: seq<T>, i: nat): (r: Option<T>)
    ensures r.Some? <==> i < |xs|
    ensures i < |xs| ==> r.value == xs[i]
  {
    if i < |xs| then Some(xs[i]) else None
  }

  /** `String.prototype.startsWith`. */
  predicate StartsWith(s: string, prefix: string) {
    |prefix| <= |s| && s[..|prefix|] == prefix
  }

  /** `s.indexOf(c, from)`: the first position at or after `from` holding `c`,
      or -1 when there is none. */
  function IndexOf(s: string, c: char, from: nat): (r: int)
    ensures r == -1 || (from <= r < |s| && s[r] == c)
    ensures r == -1 ==> forall k :: from <= k < |s| ==> s[k] != c
    ensures r != -1 ==> forall k :: from <= k < r ==> s[k] != c
    decreases |s| - from
  {
    if from >= |s| then -1
    else if s[from] == c then from
    else IndexOf(s, c, from + 1)
  }

  /** `x` occurs in `t` starting at position `i`. */
  predicate OccursAt(t: string, x: string, i: nat) {
    i + |x| <= |t| && t[i..i + |x|] == x
  }

  /** `t.includes(x)` on strings: `x` occurs somewhere in `t`. */
  predicate Contains(t: string, x: string) {
    exists i: nat | i <= |t| :: OccursAt(t, x, i)
  }

  /** Whatever surrounds it, a string contains each of its own pieces. */
  lemma ContainsInfix(a: string, x: string, b: string)
    ensures Contains(a + x + b, x)
  {
    assert OccursAt(a + x + b, x, |a|);
  }

  /** A template literal assembled from its literal and interpolated pieces. */
  function Concat(parts: seq<string>): string {
    if |parts| == 0 then "" else Concat(parts[..|parts| - 1]) + parts[|parts| - 1]
  }

  /** Text that occurs in a string still occurs once more is appended. */
  lemma ContainsExtended(t: string, x: string, more: string)
    requires Contains(t, x)
    ensures Contains(t + more, x)
  {
    var i: nat :| i <= |t| && OccursAt(t, x, i);
    assert (t + more)[i..i + |x|] == t[i..i + |x|];
    assert OccursAt(t + more, x, i);
  }

  /** Every piece of a template literal occurs in the resulting string. */
  lemma {:induction false} ContainsPart(parts: seq<string>, j: nat)
    requires j < |parts|
    ensures Contains(Concat(parts), parts[j])
    decreases |parts|
  {
    var init := parts[..|parts| - 1];
    if j == |parts| - 1 {
      ContainsInfix(Concat(init), parts[j], "");
      assert Concat(init) + parts[j] + "" == Concat(parts);
    } else {
      assert init[j] == parts[j];
      ContainsPart(init, j);
      ContainsExtended(Concat(init), parts[j], parts[|parts| - 1]);
    }
  }

  /** A string interpolated into a template literal: `undefined` prints as its name. */
  function Render(s: Option<string>): string {
    match s
    case Some(v) => v
    case None => "undefined"
  }

  /** `${arr}` for an array of strings: elements joined by `,`, an `undefined`
      element printing as the empty string. */
  function JoinArray(parts: seq<Option<string>>): string
  {
    if |parts| == 0 then ""
    else if |parts| == 1 then parts[0].GetOr("")
    else JoinArray(parts[..|parts| - 1]) + "," + parts[|parts| - 1].GetOr("")
  }
}
