/** JavaScript value semantics the client code relies on: optional values,
    string truthiness and the `a || b` fallback, lower-casing, substring search
    and `split`. */
module Js {

  /** A value that may be missing (`null` / `undefined`). */
  datatype Option<+T> = None | Some(value: T)

  /** A string is truthy in JavaScript iff it is present and non-empty. */
  predicate Truthy(s: Option<string>)
  {
    s.Some? && s.value != ""
  }

  /** `a || fallback` for an optional string and a string fallback. */
  function Or(a: Option<string>, fallback: string): (r: string)
    ensures Truthy(a) ==> r == a.value
    ensures !Truthy(a) ==> r == fallback
  {
    if Truthy(a) then a.value else fallback
  }

  /** `a || b` for two optional strings: the first if it is truthy, else the second. */
  function OrElse(a: Option<string>, b: Option<string>): (r: Option<string>)
    ensures Truthy(a) ==> r == a
    ensures !Truthy(a) ==> r == b
  {
    if Truthy(a) then a else b
  }

  /** Lower-casing of one character (the ASCII letters A-Z). */
  function LowerChar(c: char): (r: char)
    ensures 'A' <= c <= 'Z' ==> r as int == c as int + 32
    ensures !('A' <= c <= 'Z') ==> r == c
  {
    if 'A' <= c <= 'Z' then (c as int + 32) as char else c
  }

  /** `s.toLowerCase()`. */
  function Lower(s: string): (r: string)
    ensures |r| == |s|
    ensures forall i :: 0 <= i < |s| ==> r[i] == LowerChar(s[i])
  {
    seq(|s|, i requires 0 <= i < |s| => LowerChar(s[i]))
  }

  /** Lower-casing is idempotent. */
  lemma LowerIdempotent(s: string)
    ensures Lower(Lower(s)) == Lower(s)
  {
    var l := Lower(s);
    forall i | 0 <= i < |s| ensures Lower(l)[i] == l[i] {
      assert 'A' <= s[i] <= 'Z' ==> 'a' <= l[i] <= 'z';
    }
  }

  /** `t` occurs in `s` at position `k`. */
  predicate OccursAt(s: string, t: string, k: int)
  {
    0 <= k && k + |t| <= |s| && s[k..k + |t|] == t
  }

  /** `s.includes(t)`. */
  predicate Includes(s: string, t: string)
  {
    exists k | 0 <= k <= |s| :: OccursAt(s, t, k)
  }

  /** Every string includes the empty string. */
  lemma IncludesEmpty(s: string)
    ensures Includes(s, "")
  {
    assert OccursAt(s, "", 0);
  }

  /** `s.split(sep)`: the pieces between occurrences of `sep`, in order. */
  function Split(s: string, sep: char): (parts: seq<string>)
    ensures |parts| >= 1
    ensures forall p :: p in parts ==> sep !in p
    ensures |parts| == 1 <==> sep !in s
    decreases |s|
  {
    if |s| == 0 then [""]
    else
      var rest := Split(s[1..], sep);
      if s[0] == sep then [""] + rest
      else [[s[0]] + rest[0]] + rest[1..]
  }

  /** Joining the pieces of `Split` with the separator gives back the string. */
  function Join(parts: seq<string>, sep: char): string
    requires |parts| >= 1
    decreases |parts|
  {
    if |parts| == 1 then parts[0] else parts[0] + [sep] + Join(parts[1..], sep)
  }

  lemma {:induction false} SplitJoin(s: string, sep: char)
    ensures Join(Split(s, sep), sep) == s
    decreases |s|
  {
    if |s| > 0 {
      SplitJoin(s[1..], sep);
      var rest := Split(s[1..], sep);
      if s[0] == sep {
        assert [""] + rest == [""] + rest;
        assert ([""] + rest)[1..] == rest;
      } else {
        var parts := [[s[0]] + rest[0]] + rest[1..];
        assert parts[1..] == rest[1..];
        if |rest| == 1 {
          assert Join(parts, sep) == [s[0]] + rest[0];
        } else {
          assert Join(rest, sep) == rest[0] + [sep] + Join(rest[1..], sep);
          assert Join(parts, sep) == [s[0]] + rest[0] + [sep] + Join(rest[1..], sep);
        }
        assert s == [s[0]] + s[1..];
      }
    }
  }
}
