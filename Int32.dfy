/**
 * The parts of .NET's System.Int32 the dump tool relies on: two's-complement
 * wrap-around (what Interlocked.Increment/Decrement/Add do on overflow) and
 * Int32.TryParse with the default NumberStyles.Integer.
 */
module Int32 {
  import opened Wrappers

  const MinValue: int := -0x8000_0000
  const MaxValue: int := 0x7FFF_FFFF
  const Modulus: int := 0x1_0000_0000

  predicate InRange(x: int) {
    MinValue <= x <= MaxValue
  }

  /** The 32-bit two's-complement value congruent to x. */
  function Wrap(x: int): (r: int)
    ensures InRange(r)
    ensures InRange(x) ==> r == x
    ensures (x - r) % Modulus == 0
  {
    (x - MinValue) % Modulus + MinValue
  }

  lemma ModUnique(a: int, q: int, r: int)
    requires 0 <= r < Modulus && a == q * Modulus + r
    ensures a % Modulus == r
  {
  }

  /** Wrapping an intermediate result does not change the wrapped total. */
  lemma WrapAdd(x: int, k: int)
    ensures Wrap(Wrap(x) + k) == Wrap(x + k)
  {
    var q := (x - MinValue) / Modulus;
    var y := x + k - MinValue;
    assert Wrap(x) + k - MinValue == y - q * Modulus;
    ModUnique(y - q * Modulus, y / Modulus - q, y % Modulus);
  }

  /** An increment followed by a decrement restores any 32-bit value, overflow included. */
  lemma IncrementDecrementRestores(x: int)
    requires InRange(x)
    ensures Wrap(Wrap(x + 1) - 1) == x
  {
    WrapAdd(x + 1, -1);
  }

  // ---------------------------------------------------------------------
  // Int32.TryParse(string?, out int) with NumberStyles.Integer:
  // optional leading and trailing white space (U+0009..U+000D, U+0020),
  // an optional leading sign, one or more ASCII digits, and a value that
  // fits in 32 bits. A null string fails.

  predicate IsNumberWhiteSpace(c: char) {
    c == ' ' || '\t' <= c <= '\r'
  }

  predicate IsDigit(c: char) {
    '0' <= c <= '9'
  }

  function TrimStart(s: string): (r: string)
    ensures |r| <= |s| && r == s[|s| - |r|..]
    ensures r == [] || !IsNumberWhiteSpace(r[0])
  {
    if s != [] && IsNumberWhiteSpace(s[0]) then TrimStart(s[1..]) else s
  }

  function TrimEnd(s: string): (r: string)
    ensures |r| <= |s| && r == s[..|r|]
    ensures r == [] || !IsNumberWhiteSpace(r[|r| - 1])
  {
    if s != [] && IsNumberWhiteSpace(s[|s| - 1]) then TrimEnd(s[..|s| - 1]) else s
  }

  predicate AllDigits(d: string) {
    forall i :: 0 <= i < |d| ==> IsDigit(d[i])
  }

  /** The value of a string of decimal digits, most significant first. */
  function DigitsValue(d: string): (v: nat)
    requires AllDigits(d)
  {
    if d == [] then 0 else DigitsValue(d[..|d| - 1]) * 10 + (d[|d| - 1] as int - '0' as int)
  }

  function TryParse(s: Option<string>): (r: Option<int>)
    ensures r.Some? ==> InRange(r.value)
  {
    if s.None? then None else ParseTrimmed(TrimEnd(TrimStart(s.value)))
  }

  /** The parse of the trimmed text: an optional sign, then one or more digits whose value fits. */
  function ParseTrimmed(t: string): (r: Option<int>)
    ensures r.Some? ==> InRange(r.value)
  {
    var negative := t != [] && t[0] == '-';
    var digits := if t != [] && (t[0] == '-' || t[0] == '+') then t[1..] else t;
    if digits == [] || !AllDigits(digits) then None
    else
      var magnitude: int := DigitsValue(digits);
      var v := if negative then -magnitude else magnitude;
      if InRange(v) then Some(v) else None
  }

  // ---------------------------------------------------------------------
  // Int32.ToString() in the invariant culture: the partner of TryParse.

  function NatDigits(n: nat): (d: string)
    ensures d != [] && AllDigits(d)
    ensures DigitsValue(d) == n
  {
    var last := ['0' + (n % 10) as char];
    if n < 10 then last
    else
      var init := NatDigits(n / 10);
      assert (init + last)[..|init + last| - 1] == init;
      init + last
  }

  function ToDecimal(n: int): (s: string)
    ensures s != []
  {
    if n < 0 then "-" + NatDigits(-n) else NatDigits(n)
  }

  /** TryParse reads back every 32-bit value that ToString writes. */
  lemma TryParseToDecimal(n: int)
    requires InRange(n)
    ensures TryParse(Some(ToDecimal(n))) == Some(n)
  {
    var s := ToDecimal(n);
    var d := NatDigits(if n < 0 then -n else n);
    assert s == if n < 0 then "-" + d else d;
    assert s[|s| - 1] == d[|d| - 1];
    Untrimmed(s);
    if n < 0 {
      assert s[1..] == d;
    }
  }

  lemma Untrimmed(s: string)
    requires s != [] && !IsNumberWhiteSpace(s[0]) && !IsNumberWhiteSpace(s[|s| - 1])
    ensures TrimEnd(TrimStart(s)) == s
  {
  }

  /** An empty string, a lone sign and a single character that is not a digit are all rejected. */
  lemma TryParseRejects(c: char)
    requires !IsDigit(c) && !IsNumberWhiteSpace(c)
    ensures TryParse(Some("")) == None
    ensures TryParse(Some([c])) == None
  {
    assert TrimEnd(TrimStart("")) == [];
    Untrimmed([c]);
    ParseTrimmedRejects(c);
  }

  /** With no digits left after the sign, the trimmed text is rejected. */
  lemma ParseTrimmedRejects(c: char)
    requires !IsDigit(c)
    ensures ParseTrimmed([]) == None
    ensures ParseTrimmed([c]) == None
  {
    if c == '-' || c == '+' {
      assert [c][1..] == [];
    } else {
      assert !AllDigits([c]);
    }
  }

  /** Surrounding white space and a leading plus sign are accepted. */
  lemma TryParseAcceptsPaddedPlus(n: nat)
    requires n <= MaxValue
    ensures TryParse(Some(" +" + ToDecimal(n) + "\t")) == Some(n)
  {
    var d := NatDigits(n);
    assert ToDecimal(n) == d;
    var u := "+" + d;
    assert " +" + d + "\t" == [' '] + u + ['\t'];
    assert u[|u| - 1] == d[|d| - 1];
    Padded(u);
    PlusSign(d);
    TryParseToDecimal(n);
    Untrimmed(d);
  }

  /** One space before and one tab after are trimmed away. */
  lemma Padded(u: string)
    requires u != [] && !IsNumberWhiteSpace(u[0]) && !IsNumberWhiteSpace(u[|u| - 1])
    ensures TrimEnd(TrimStart([' '] + u + ['\t'])) == u
  {
    assert [' '] + u + ['\t'] == [' '] + (u + ['\t']);
    TrimStartSkips(' ', u + ['\t']);
    assert TrimStart(u + ['\t']) == u + ['\t'];
    TrimEndSkips(u, '\t');
    Untrimmed(u);
  }

  /** A leading plus sign does not change the value of a string of digits. */
  lemma PlusSign(d: string)
    requires d != [] && AllDigits(d)
    ensures ParseTrimmed("+" + d) == ParseTrimmed(d)
  {
    assert ("+" + d)[1..] == d;
  }

  /** A leading white-space character is trimmed away. */
  lemma TrimStartSkips(c: char, t: string)
    requires IsNumberWhiteSpace(c)
    ensures TrimStart([c] + t) == TrimStart(t)
  {
    assert ([c] + t)[1..] == t;
  }

  /** A trailing white-space character is trimmed away. */
  lemma TrimEndSkips(t: string, c: char)
    requires IsNumberWhiteSpace(c)
    ensures TrimEnd(t + [c]) == TrimEnd(t)
  {
    assert (t + [c])[..|t|] == t;
  }
}
