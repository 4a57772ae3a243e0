/** The text handling the denomination rows rely on: stripping every
    character that is not a decimal digit (`replace(/[^0-9]/g, '')`),
    JavaScript's `parseInt` on the texts the rows hold, `x || d` on its
    result, and the decimal rendering of an integer (`toString`). */
module Text {
  import opened CashTypes

  predicate IsDigit(c: char) {
    '0' <= c <= '9'
  }

  predicate AllDigits(s: string) {
    forall i :: 0 <= i < |s| ==> IsDigit(s[i])
  }

  function DigitValue(c: char): nat
    requires IsDigit(c)
  {
    c as int - '0' as int
  }

  function DigitChar(d: nat): (c: char)
    requires d < 10
    ensures IsDigit(c) && DigitValue(c) == d
  {
    ('0' as int + d) as char
  }

  /** The decimal value of a digits-only text; the empty text is 0. */
  function DigitsValue(s: string): nat
    requires AllDigits(s)
  {
    if s == [] then 0 else DigitsValue(s[..|s| - 1]) * 10 + DigitValue(s[|s| - 1])
  }

  /** `s.replace(/[^0-9]/g, '')`: the digits of `s`, in order. */
  function StripNonDigits(s: string): (r: string)
    ensures AllDigits(r)
    ensures |r| <= |s|
    ensures forall c :: c in r <==> c in s && IsDigit(c)
    ensures AllDigits(s) ==> r == s
  {
    if s == [] then []
    else if IsDigit(s[0]) then [s[0]] + StripNonDigits(s[1..])
    else StripNonDigits(s[1..])
  }

  /** Stripping one character keeps it exactly when it is a digit. */
  lemma StripNonDigitsChar(c: char)
    ensures StripNonDigits([c]) == if IsDigit(c) then [c] else []
  {
    assert [c][1..] == [];
  }

  /** Stripping works piecewise over a concatenation, so the digits that
      remain keep their order and their number: with the one-character
      case, the result is the input's digits, in order, each once. */
  lemma {:induction false} StripNonDigitsConcat(a: string, b: string)
    ensures StripNonDigits(a + b) == StripNonDigits(a) + StripNonDigits(b)
  {
    if a == [] {
      assert a + b == b;
    } else {
      assert (a + b)[0] == a[0];
      assert (a + b)[1..] == a[1..] + b;
      StripNonDigitsConcat(a[1..], b);
    }
  }

  /** The longest prefix of `s` made of digits: what `parseInt` reads. */
  function DigitPrefix(s: string): (r: string)
    ensures AllDigits(r)
    ensures r <= s
    ensures AllDigits(s) ==> r == s
    ensures r == [] <==> s == [] || !IsDigit(s[0])
  {
    if s == [] || !IsDigit(s[0]) then [] else [s[0]] + DigitPrefix(s[1..])
  }

  /** `parseInt(s)` with no radix, for texts made of an optional minus sign
      and decimal digits followed by anything, where the text does not start
      with a `0x`/`0X` hex prefix: the value of the leading digits, or None
      (NaN) when there are none. The texts parsed here are digits only or
      an integer's `toString`, so neither form arises. */
  function ParseInt(s: string): Option<int> {
    if |s| > 0 && s[0] == '-' then
      var d := DigitPrefix(s[1..]);
      if d == [] then None else Some(-(DigitsValue(d) as int))
    else
      var d := DigitPrefix(s);
      if d == [] then None else Some(DigitsValue(d))
  }

  /** `parseInt(s) || d`: NaN and 0 are both falsy and give `d`. */
  function OrIfFalsy(p: Option<int>, d: int): (r: int)
    ensures r == d || (p.Some? && r == p.value)
    ensures p.Some? && p.value != 0 ==> r == p.value
    ensures p.None? || p.value == 0 ==> r == d
  {
    if p.Some? && p.value != 0 then p.value else d
  }

  /** `n.toString()` for a natural number. */
  function NatToString(n: nat): (r: string)
    ensures AllDigits(r) && r != []
    ensures DigitsValue(r) == n
  {
    if n < 10 then [DigitChar(n)]
    else
      var r := NatToString(n / 10) + [DigitChar(n % 10)];
      assert r[..|r| - 1] == NatToString(n / 10);
      r
  }

  /** `i.toString()` for an integer. */
  function IntToString(i: int): string {
    if i < 0 then "-" + NatToString(-i) else NatToString(i)
  }

  /** A non-empty digits-only text parses to its decimal value. */
  lemma ParseIntOfDigits(s: string)
    requires AllDigits(s) && s != []
    ensures ParseInt(s) == Some(DigitsValue(s) as int)
  {
    assert IsDigit(s[0]);
  }

  /** Rendering an integer and parsing it back gives the integer. */
  lemma ParseIntOfIntToString(i: int)
    ensures ParseInt(IntToString(i)) == Some(i)
  {
    if i < 0 {
      var s := IntToString(i);
      assert s[1..] == NatToString(-i);
    } else {
      ParseIntOfDigits(NatToString(i));
    }
  }
}
