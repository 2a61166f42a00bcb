/** Small value wrappers shared by every module of the model. */
module Wrappers {

  /** A value that may be absent: JSON `null`, a missing storage item, an unset module variable. */
  datatype Option<T> = None | Some(value: T)

  /**
   * A JSON key that may be missing altogether (`undefined` in JavaScript),
   * as opposed to a key that is present with a `null` value.
   */
  datatype Maybe<T> = Missing | Has(value: T)
}

/**
 * String helpers for the JavaScript built-ins the program uses. Positions count
 * string elements, where JavaScript counts UTF-16 code units; the two agree on
 * text without characters outside the Basic Multilingual Plane.
 */
module Text {

  /** `s.slice(n)` for n >= 0: everything from index n on, or "" when s is shorter. */
  function Drop(s: string, n: nat): (r: string)
    ensures |r| == if |s| <= n then 0 else |s| - n
  {
    if |s| <= n then [] else s[n..]
  }

  /** `s.substring(0, n)` for n >= 0: the first n characters, or all of s when shorter. */
  function Take(s: string, n: nat): (r: string)
    ensures |r| == if |s| <= n then |s| else n
    ensures r <= s
  {
    if |s| <= n then s else s[..n]
  }

  /** The concatenation of a sequence of strings, in order. */
  function Concat(parts: seq<string>): string
  {
    if parts == [] then [] else Concat(parts[..|parts| - 1]) + parts[|parts| - 1]
  }

  lemma {:induction false} ConcatAppend(a: seq<string>, b: seq<string>)
    ensures Concat(a + b) == Concat(a) + Concat(b)
    decreases |b|
  {
    if b == [] {
      assert a + b == a;
    } else {
      var b' := b[..|b| - 1];
      assert (a + b)[..|a + b| - 1] == a + b';
      ConcatAppend(a, b');
    }
  }

  lemma AppendAssociative(a: string, b: string, c: string)
    ensures (a + b) + c == a + (b + c)
  {
  }

  /** How many of the parts are exactly `x`. */
  function Occurrences(parts: seq<string>, x: string): nat
  {
    if parts == [] then 0
    else Occurrences(parts[..|parts| - 1], x) + (if parts[|parts| - 1] == x then 1 else 0)
  }

  lemma {:induction false} OccurrencesAppend(a: seq<string>, b: seq<string>, x: string)
    ensures Occurrences(a + b, x) == Occurrences(a, x) + Occurrences(b, x)
    decreases |b|
  {
    if b == [] {
      assert a + b == a;
    } else {
      var b' := b[..|b| - 1];
      assert (a + b)[..|a + b| - 1] == a + b';
      OccurrencesAppend(a, b', x);
    }
  }

  /** ASCII `toLowerCase` of one character. */
  function LowerChar(c: char): (r: char)
    ensures 'A' <= c <= 'Z' ==> 'a' <= r <= 'z'
    ensures !('A' <= c <= 'Z') ==> r == c
  {
    if 'A' <= c <= 'Z' then (c as int + 32) as char else c
  }

  /** ASCII `toLowerCase` of a string: same length, letters A-Z mapped to a-z. */
  function Lower(s: string): (r: string)
    ensures |r| == |s|
    ensures forall i :: 0 <= i < |s| ==> r[i] == LowerChar(s[i])
  {
    seq(|s|, i requires 0 <= i < |s| => LowerChar(s[i]))
  }
}
