/** Decimal text and numbers: Python's `str(n)` on integers, and the part of
    `int(text)` and `float(text)` that the wiki's tables use. */
module Numbers {
  import opened Wrappers
  import opened Text

  predicate IsDigit(c: char) {
    '0' <= c <= '9'
  }

  predicate IsDigits(s: string) {
    forall i :: 0 <= i < |s| ==> IsDigit(s[i])
  }

  /** The value of a string of decimal digits (0 for the empty string). */
  function DigitsValue(s: string): nat
    requires IsDigits(s)
  {
    if |s| == 0 then 0 else DigitsValue(s[..|s| - 1]) * 10 + (s[|s| - 1] as int - '0' as int)
  }

  function DigitChar(d: nat): (c: char)
    requires d < 10
    ensures IsDigit(c) && c as int - '0' as int == d
  {
    ('0' as int + d) as char
  }

  /** Python's `str(n)` for a natural number. */
  function Decimal(n: nat): (s: string)
    ensures |s| >= 1 && IsDigits(s)
  {
    if n < 10 then [DigitChar(n)] else Decimal(n / 10) + [DigitChar(n % 10)]
  }

  /** Reading back the decimal text of `n` gives `n`. */
  lemma {:induction false} DecimalValue(n: nat)
    ensures DigitsValue(Decimal(n)) == n
  {
    var s := Decimal(n);
    if n < 10 {
      assert s[..|s| - 1] == [];
    } else {
      assert s[..|s| - 1] == Decimal(n / 10);
      DecimalValue(n / 10);
    }
  }

  /** Python's `str(i)` for an integer. */
  function IntString(i: int): (s: string)
    ensures |s| >= 1
  {
    if i < 0 then "-" + Decimal(-i) else Decimal(i)
  }

  /** Python's `int(text)`: surrounding white space is dropped, then an
      optional sign and at least one ASCII digit. */
  function ParseInt(s: string): Option<int> {
    var t := Trim(s);
    if |t| > 0 && (t[0] == '-' || t[0] == '+') then
      if |t| > 1 && IsDigits(t[1..]) then
        var v: int := DigitsValue(t[1..]);
        Some(if t[0] == '-' then -v else v)
      else None
    else if |t| > 0 && IsDigits(t) then Some(DigitsValue(t))
    else None
  }

  /** A plain run of digits reads as its decimal value. */
  lemma ParseDigits(s: string)
    requires |s| > 0 && IsDigits(s)
    ensures ParseInt(s) == Some(DigitsValue(s))
  {
    assert IsDigit(s[0]) && IsDigit(s[|s| - 1]);
    assert !IsSpace(s[0]) && !IsSpace(s[|s| - 1]);
    TrimUnpadded(s);
  }

  /** `int(str(n))` gives `n` back. */
  lemma ParseDecimal(n: nat)
    ensures ParseInt(Decimal(n)) == Some(n)
  {
    var s := Decimal(n);
    assert !IsSpace(s[0]) && !IsSpace(s[|s| - 1]);
    TrimUnpadded(s);
    DecimalValue(n);
  }

  /** A minus sign before a plain run of digits negates its value. */
  lemma ParseNegative(d: string)
    requires |d| > 0 && IsDigits(d)
    ensures var v: int := DigitsValue(d); ParseInt("-" + d) == Some(-v)
  {
    var s := "-" + d;
    assert s[1..] == d && s[|s| - 1] == d[|d| - 1] && IsDigit(d[|d| - 1]);
    assert !IsSpace(s[0]) && !IsSpace(s[|s| - 1]);
    TrimUnpadded(s);
  }

  /** `int(str(-n))` gives `-n` back. */
  lemma ParseNegativeDecimal(n: nat)
    ensures var v: int := n; ParseInt("-" + Decimal(n)) == Some(-v)
  {
    ParseNegative(Decimal(n));
    DecimalValue(n);
  }

  /** `int(str(i))` for a negative `i`. */
  lemma ParseIntStringNeg(i: int)
    requires i < 0
    ensures ParseInt(IntString(i)) == Some(i)
  {
    var n: nat := -i;
    ParseNegativeDecimal(n);
    assert ParseInt("-" + Decimal(n)) == Some(i);
    assert IntString(i) == "-" + Decimal(n);
  }

  /** `int(str(i))` for a natural `i`. */
  lemma ParseIntStringPos(i: int)
    requires i >= 0
    ensures ParseInt(IntString(i)) == Some(i)
  {
    assert IntString(i) == Decimal(i);
    ParseDecimal(i);
  }

  /** `int(str(i))` gives `i` back, for negative numbers too. */
  lemma ParseIntString(i: int)
    ensures ParseInt(IntString(i)) == Some(i)
  {
    if i < 0 {
      ParseIntStringNeg(i);
    } else {
      ParseIntStringPos(i);
    }
  }

  function Pow10(k: nat): (p: nat)
    ensures p >= 1
  {
    if k == 0 then 1 else 10 * Pow10(k - 1)
  }

  /** Python's `float(text)` on plain decimal notation: after dropping white
      space, an optional sign, then digits with at most one decimal point and
      at least one digit. */
  function ParseReal(s: string): Option<real> {
    var t := Trim(s);
    var negative := |t| > 0 && t[0] == '-';
    var body := if |t| > 0 && (t[0] == '-' || t[0] == '+') then t[1..] else t;
    var magnitude :=
      match FindFrom(body, ".", 0)
      case None =>
        if |body| > 0 && IsDigits(body) then Some(DigitsValue(body) as real) else None
      case Some(p) =>
        var whole, frac := body[..p], body[p + 1..];
        if |whole| + |frac| > 0 && IsDigits(whole) && IsDigits(frac) then
          Some(DigitsValue(whole) as real + DigitsValue(frac) as real / Pow10(|frac|) as real)
        else None;
    match magnitude
    case None => None
    case Some(m) => Some(if negative then -m else m)
  }

  /** Every cell holds an integer. */
  predicate AllInts(cells: seq<string>) {
    forall i :: 0 <= i < |cells| ==> ParseInt(cells[i]).Some?
  }

  /** `[int(x) for x in cells]`: every cell must convert. */
  function ParseInts(cells: seq<string>): Option<seq<int>> {
    if AllInts(cells) then
      Some(seq(|cells|, i requires 0 <= i < |cells| && AllInts(cells) => ParseInt(cells[i]).value))
    else None
  }

  /** A successful conversion converts cell `k` to integer `k`. */
  lemma ParseIntsAt(cells: seq<string>, k: nat)
    requires ParseInts(cells).Some? && k < |cells|
    ensures |ParseInts(cells).value| == |cells|
    ensures Some(ParseInts(cells).value[k]) == ParseInt(cells[k])
  {
  }

  /** Two integer cells convert to the two integers. */
  lemma ParseIntsPair(x: string, y: string)
    requires ParseInt(x).Some? && ParseInt(y).Some?
    ensures ParseInts([x, y]) == Some([ParseInt(x).value, ParseInt(y).value])
  {
    var cells := [x, y];
    assert AllInts(cells) by {
      assert cells[0] == x && cells[1] == y;
    }
    ParseIntsAt(cells, 0);
    ParseIntsAt(cells, 1);
    PairOf(ParseInts(cells).value, ParseInt(x).value, ParseInt(y).value);
  }

  lemma PairOf<T>(v: seq<T>, a: T, b: T)
    requires |v| == 2 && v[0] == a && v[1] == b
    ensures v == [a, b]
  {
  }

  /** Every cell holds a number. */
  predicate AllReals(cells: seq<string>) {
    forall i :: 0 <= i < |cells| ==> ParseReal(cells[i]).Some?
  }

  /** `[float(x) for x in cells]`: every cell must convert. */
  function ParseReals(cells: seq<string>): Option<seq<real>> {
    if AllReals(cells) then
      Some(seq(|cells|, i requires 0 <= i < |cells| && AllReals(cells) => ParseReal(cells[i]).value))
    else None
  }
}
