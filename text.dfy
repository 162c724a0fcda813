/** String helpers the pipeline's text building relies on: Python's
    `sep.join(parts)`, `str(n)` for a natural number and the slice `s[:n]`. */
module Text {

  /** `sep.join(parts)`: the parts in order with `sep` between neighbours. */
  function Join(sep: string, parts: seq<string>): string
    decreases |parts|
  {
    if |parts| == 0 then ""
    else if |parts| == 1 then parts[0]
    else parts[0] + sep + Join(sep, parts[1..])
  }

  /** Where the `i`-th part starts inside `Join(sep, parts)`. */
  function JoinOffset(sep: string, parts: seq<string>, i: nat): nat
    requires i <= |parts|
    decreases i
  {
    if i == 0 then 0 else |parts[0]| + |sep| + JoinOffset(sep, parts[1..], i - 1)
  }

  /** Each offset is reached from the previous one by skipping one part and one separator. */
  lemma {:induction false} JoinOffsetStep(sep: string, parts: seq<string>, i: nat)
    requires i < |parts|
    ensures JoinOffset(sep, parts, i + 1) == JoinOffset(sep, parts, i) + |parts[i]| + |sep|
    decreases i
  {
    if i > 0 {
      JoinOffsetStep(sep, parts[1..], i - 1);
    }
  }

  /** Offsets of later parts are larger when the separator is not empty. */
  lemma {:induction false} JoinOffsetIncreasing(sep: string, parts: seq<string>, i: nat, j: nat)
    requires |sep| > 0 && i < j <= |parts|
    ensures JoinOffset(sep, parts, i) < JoinOffset(sep, parts, j)
    decreases j - i
  {
    JoinOffsetStep(sep, parts, j - 1);
    if i < j - 1 {
      JoinOffsetIncreasing(sep, parts, i, j - 1);
    }
  }

  /** A slice of the right operand of a concatenation, read through the whole. */
  lemma SliceOfRight(x: string, y: string, a: nat, b: nat)
    requires a <= b <= |y|
    ensures (x + y)[|x| + a..|x| + b] == y[a..b]
  {
    assert forall t :: 0 <= t < b - a ==> (x + y)[|x| + a..|x| + b][t] == y[a..b][t];
  }

  /** A slice of the left operand of a concatenation, read through the whole. */
  lemma SliceOfLeft(x: string, y: string, a: nat, b: nat)
    requires a <= b <= |x|
    ensures (x + y)[a..b] == x[a..b]
  {
  }

  /** A slice of a slice is a slice of the original. */
  lemma SliceOfSlice(s: string, a: nat, b: nat, c: nat, d: nat)
    requires a <= b <= |s| && c <= d <= b - a
    ensures s[a..b][c..d] == s[a + c..a + d]
  {
    assert forall t :: 0 <= t < d - c ==> s[a..b][c..d][t] == s[a + c..a + d][t];
  }

  /** A slice of the middle operand of a concatenation, read through the whole. */
  lemma SliceOfMiddle(x: string, y: string, z: string, a: nat, b: nat)
    requires a <= b <= |y|
    ensures (x + y + z)[|x| + a..|x| + b] == y[a..b]
  {
    assert x + y + z == x + (y + z);
    SliceOfRight(x, y + z, a, b);
    assert (y + z)[a..b] == y[a..b];
  }

  /** The parts after the first sit one part and one separator further on. */
  lemma JoinTail(sep: string, parts: seq<string>, a: nat, b: nat)
    requires |parts| >= 2 && a <= b <= |Join(sep, parts[1..])|
    ensures Join(sep, parts)[|parts[0]| + |sep| + a..|parts[0]| + |sep| + b] == Join(sep, parts[1..])[a..b]
  {
    assert Join(sep, parts) == (parts[0] + sep) + Join(sep, parts[1..]);
    SliceOfRight(parts[0] + sep, Join(sep, parts[1..]), a, b);
  }

  /** The joined string holds part `i` at its offset. */
  lemma {:induction false} JoinPartAt(sep: string, parts: seq<string>, i: nat)
    requires i < |parts|
    ensures JoinOffset(sep, parts, i) + |parts[i]| <= |Join(sep, parts)|
    ensures Join(sep, parts)[JoinOffset(sep, parts, i)..JoinOffset(sep, parts, i) + |parts[i]|] == parts[i]
    decreases i
  {
    if |parts| == 1 {
    } else if i == 0 {
      assert Join(sep, parts) == parts[0] + (sep + Join(sep, parts[1..]));
    } else {
      JoinPartAt(sep, parts[1..], i - 1);
      var a := JoinOffset(sep, parts[1..], i - 1);
      JoinTail(sep, parts, a, a + |parts[i]|);
    }
  }

  /** Between part `i` and part `i + 1` stands the separator. */
  lemma {:induction false} JoinSeparatorAt(sep: string, parts: seq<string>, i: nat)
    requires i + 1 < |parts|
    ensures JoinOffset(sep, parts, i) + |parts[i]| + |sep| <= |Join(sep, parts)|
    ensures Join(sep, parts)[JoinOffset(sep, parts, i) + |parts[i]|..JoinOffset(sep, parts, i) + |parts[i]| + |sep|] == sep
    decreases i
  {
    if i == 0 {
      assert Join(sep, parts) == parts[0] + sep + Join(sep, parts[1..]);
      SliceOfRight(parts[0], sep + Join(sep, parts[1..]), 0, |sep|);
    } else {
      JoinSeparatorAt(sep, parts[1..], i - 1);
      var b := JoinOffset(sep, parts[1..], i - 1) + |parts[i]|;
      JoinTail(sep, parts, b, b + |sep|);
    }
  }

  predicate IsDigit(c: char) {
    '0' <= c <= '9'
  }

  predicate AllDigits(s: string) {
    forall i :: 0 <= i < |s| ==> IsDigit(s[i])
  }

  function DigitChar(d: nat): (c: char)
    requires d < 10
    ensures IsDigit(c) && c as int - '0' as int == d
  {
    ('0' as int + d) as char
  }

  /** `str(n)`: the decimal numeral of `n`, digits only, no leading zero. */
  function Decimal(n: nat): (r: string)
    ensures |r| >= 1 && AllDigits(r)
    ensures n > 0 ==> r[0] != '0'
    decreases n
  {
    if n < 10 then [DigitChar(n)] else Decimal(n / 10) + [DigitChar(n % 10)]
  }

  /** The number a string of decimal digits denotes. */
  function DigitsValue(s: string): nat
    requires AllDigits(s)
    decreases |s|
  {
    if |s| == 0 then 0 else DigitsValue(s[..|s| - 1]) * 10 + (s[|s| - 1] as int - '0' as int)
  }

  /** Reading the numeral back gives the number: `int(str(n)) == n`. */
  lemma {:induction false} DecimalRoundTrip(n: nat)
    ensures DigitsValue(Decimal(n)) == n
    decreases n
  {
    var r := Decimal(n);
    if n >= 10 {
      DecimalRoundTrip(n / 10);
      assert r[..|r| - 1] == Decimal(n / 10);
    }
  }

  /** `s[:n]`: the first `n` characters, or all of `s` when it is shorter. */
  function Prefix(s: string, n: nat): (r: string)
    ensures |r| == (if |s| <= n then |s| else n)
    ensures r == s[..|r|]
  {
    if |s| <= n then s else s[..n]
  }
}
