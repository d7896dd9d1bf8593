/**
 * The parts of .NET's System.String and LINQ ordering the dump tool relies on.
 */
module Text {
  import opened Wrappers

  /** String.Replace(char, char): every occurrence of oldChar becomes newChar. */
  function Replace(s: string, oldChar: char, newChar: char): (r: string)
    ensures |r| == |s|
    ensures forall i :: 0 <= i < |s| ==> r[i] == if s[i] == oldChar then newChar else s[i]
  {
    if s == [] then []
    else [if s[0] == oldChar then newChar else s[0]] + Replace(s[1..], oldChar, newChar)
  }

  /** After replacing a character by a different one, it no longer occurs. */
  lemma ReplaceRemoves(s: string, oldChar: char, newChar: char)
    requires oldChar != newChar
    ensures oldChar !in Replace(s, oldChar, newChar)
  {
  }

  /** Replacing a second time changes nothing. */
  lemma ReplaceIdempotent(s: string, oldChar: char, newChar: char)
    ensures Replace(Replace(s, oldChar, newChar), oldChar, newChar) == Replace(s, oldChar, newChar)
  {
  }

  /** Replacing characters in a concatenation replaces them in each part. */
  lemma ReplaceAppend(a: string, b: string, oldChar: char, newChar: char)
    ensures Replace(a + b, oldChar, newChar) == Replace(a, oldChar, newChar) + Replace(b, oldChar, newChar)
  {
    var r := Replace(a + b, oldChar, newChar);
    var t := Replace(a, oldChar, newChar) + Replace(b, oldChar, newChar);
    assert forall i :: 0 <= i < |r| ==> r[i] == t[i];
  }

  /** Char.IsWhiteSpace: the Unicode white-space characters. */
  predicate IsWhiteSpace(c: char) {
    || '\t' <= c <= '\r'
    || c == ' ' || c == '\U{85}' || c == '\U{A0}' || c == '\U{1680}'
    || '\U{2000}' <= c <= '\U{200A}'
    || c == '\U{2028}' || c == '\U{2029}' || c == '\U{202F}' || c == '\U{205F}' || c == '\U{3000}'
  }

  /** String.IsNullOrWhiteSpace. */
  predicate IsNullOrWhiteSpace(s: Option<string>) {
    s.None? || forall i :: 0 <= i < |s.value| ==> IsWhiteSpace(s.value[i])
  }

  /** String.EndsWith(char). */
  predicate EndsWith(s: string, c: char) {
    s != [] && s[|s| - 1] == c
  }

  // ---------------------------------------------------------------------
  // Ordering of names: lexicographic by character code.

  /** a sorts before or equal to b, comparing character by character. */
  predicate LessOrEqual(a: string, b: string) {
    a == [] || (b != [] && (a[0] < b[0] || (a[0] == b[0] && LessOrEqual(a[1..], b[1..]))))
  }

  lemma {:induction false} LessOrEqualTotal(a: string, b: string)
    ensures LessOrEqual(a, b) || LessOrEqual(b, a)
  {
    if a != [] && b != [] && a[0] == b[0] {
      LessOrEqualTotal(a[1..], b[1..]);
    }
  }

  lemma {:induction false} LessOrEqualTransitive(a: string, b: string, c: string)
    requires LessOrEqual(a, b) && LessOrEqual(b, c)
    ensures LessOrEqual(a, c)
  {
    if a != [] && a[0] == b[0] && b[0] == c[0] {
      LessOrEqualTransitive(a[1..], b[1..], c[1..]);
    }
  }

  lemma {:induction false} LessOrEqualAntisymmetric(a: string, b: string)
    requires LessOrEqual(a, b) && LessOrEqual(b, a)
    ensures a == b
  {
    if a != [] {
      LessOrEqualAntisymmetric(a[1..], b[1..]);
      assert a == [a[0]] + a[1..] && b == [b[0]] + b[1..];
    }
  }

  predicate Ascending(s: seq<string>) {
    forall i, j :: 0 <= i < j < |s| ==> LessOrEqual(s[i], s[j])
  }

  /** x inserted into an ascending sequence at the first place that keeps it ascending. */
  function Insert(x: string, s: seq<string>): (r: seq<string>)
    requires Ascending(s)
    ensures Ascending(r)
    ensures multiset(r) == multiset(s) + multiset{x}
  {
    if s == [] then [x]
    else if LessOrEqual(x, s[0]) then
      assert forall j :: 0 < j < |s| ==> LessOrEqual(x, s[j]) by {
        forall j | 0 < j < |s| { LessOrEqualTransitive(x, s[0], s[j]); }
      }
      [x] + s
    else
      LessOrEqualTotal(x, s[0]);
      var rest := Insert(x, s[1..]);
      assert s == [s[0]] + s[1..];
      assert forall k :: 0 <= k < |rest| ==> LessOrEqual(s[0], rest[k]) by {
        forall k | 0 <= k < |rest|
          ensures LessOrEqual(s[0], rest[k])
        {
          assert rest[k] in multiset(rest);
          assert rest[k] == x || rest[k] in s[1..];
        }
      }
      [s[0]] + rest
  }

  /** Enumerable.Order() over names: the same names, ascending. */
  function Sort(s: seq<string>): (r: seq<string>)
    ensures Ascending(r)
    ensures multiset(r) == multiset(s)
  {
    if s == [] then []
    else
      assert s == [s[0]] + s[1..];
      Insert(s[0], Sort(s[1..]))
  }
}
