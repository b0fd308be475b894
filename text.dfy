/**
 * Character and string helpers shared by the queue's suffix filter and the
 * configuration validator. Only ASCII is modelled: `str.lower` and `str.isdigit`
 * are restricted to the ASCII range.
 */
module Text {

  import opened Wrappers

  /** ASCII lower-casing of one character, as `str.lower` does on ASCII. */
  function LowerChar(c: char): char
  {
    if 'A' <= c <= 'Z' then (c as int - 'A' as int + 'a' as int) as char else c
  }

  function Lower(s: string): (r: string)
    ensures |r| == |s|
    ensures forall i :: 0 <= i < |s| ==> r[i] == LowerChar(s[i])
  {
    seq(|s|, i requires 0 <= i < |s| => LowerChar(s[i]))
  }

  predicate IsDigitChar(c: char)
  {
    '0' <= c <= '9'
  }

  /** `s.isdigit()`: nonempty and every character a decimal digit. */
  predicate IsDigits(s: string)
  {
    |s| > 0 && forall i :: 0 <= i < |s| ==> IsDigitChar(s[i])
  }

  /** Index of the first occurrence of `c` in `s`, or |s| when absent. */
  function IndexOf(s: string, c: char): (k: nat)
    ensures k <= |s|
    ensures k < |s| ==> s[k] == c
    ensures forall i :: 0 <= i < k ==> s[i] != c
  {
    if s == [] then 0
    else if s[0] == c then 0
    else 1 + IndexOf(s[1..], c)
  }

  /** Index of the last occurrence of `c` in `s`, or -1 when absent (`str.rfind`). */
  function LastIndexOf(s: string, c: char): (k: int)
    ensures -1 <= k < |s|
    ensures k >= 0 ==> s[k] == c
    ensures forall i :: k < i < |s| ==> s[i] != c
  {
    if s == [] then -1
    else if s[|s| - 1] == c then |s| - 1
    else LastIndexOf(s[..|s| - 1], c)
  }

  /** `s.replace(c, '', 1)`: drop the first occurrence of `c`, if any. */
  function RemoveFirst(s: string, c: char): (r: string)
    ensures IndexOf(s, c) == |s| ==> r == s
    ensures IndexOf(s, c) < |s| ==> r == s[..IndexOf(s, c)] + s[IndexOf(s, c) + 1..]
  {
    var k := IndexOf(s, c);
    if k == |s| then s else s[..k] + s[k + 1..]
  }

  /**
   * `PurePath.suffix` of a file name: from the last '.' on, provided that dot
   * is neither the first nor the last character; the empty string otherwise.
   */
  function Suffix(name: string): (r: string)
    ensures r == [] || (2 <= |r| < |name| && r == name[|name| - |r|..] && r[0] == '.')
    ensures forall i :: 0 < i < |r| ==> r[i] != '.'
    ensures r != [] <==> 0 < LastIndexOf(name, '.') < |name| - 1
    ensures r != [] ==> r == name[LastIndexOf(name, '.')..]
  {
    var k := LastIndexOf(name, '.');
    if 0 < k < |name| - 1 then name[k..] else []
  }

  function DigitValue(c: char): nat
    requires IsDigitChar(c)
  {
    c as int - '0' as int
  }

  /** Decimal value of a string of digits, most significant first. */
  function DigitsValue(s: string): nat
    requires forall i :: 0 <= i < |s| ==> IsDigitChar(s[i])
  {
    if s == [] then 0 else 10 * DigitsValue(s[..|s| - 1]) + DigitValue(s[|s| - 1])
  }

  function Pow10(n: nat): (r: nat)
    ensures r > 0
  {
    if n == 0 then 1 else 10 * Pow10(n - 1)
  }

  /** `str(n)` for a natural number: digits, most significant first, no leading zero. */
  function NatToString(n: nat): (s: string)
    ensures IsDigits(s)
    ensures |s| > 1 ==> s[0] != '0'
    decreases n
  {
    if n < 10 then ['0' + n as char] else NatToString(n / 10) + ['0' + (n % 10) as char]
  }

  /** `str(i)` for an integer: an optional '-' then the digits of |i|. */
  function IntToString(i: int): string
  {
    if i < 0 then "-" + NatToString(-i) else NatToString(i)
  }

  /**
   * `int(s)` on the forms the model admits: an optional sign followed by
   * ASCII digits. Anything else is the ValueError, here `None`.
   */
  function ParseInt(s: string): (r: Option<int>)
    ensures r.Some? <==> IsDigits(s) || (|s| > 0 && (s[0] == '-' || s[0] == '+') && IsDigits(s[1..]))
    ensures IsDigits(s) ==> r.Some? && r.value >= 0
    ensures r.Some? && r.value < 0 ==> s[0] == '-'
    ensures r.Some? && s[0] == '-' ==> r.value <= 0
  {
    if |s| > 0 && (s[0] == '-' || s[0] == '+') && IsDigits(s[1..]) then
      Some(if s[0] == '-' then -(DigitsValue(s[1..]) as int) else DigitsValue(s[1..]) as int)
    else if IsDigits(s) then Some(DigitsValue(s))
    else None
  }

  lemma {:induction false} NatToStringValue(n: nat)
    ensures DigitsValue(NatToString(n)) == n
  {
    if n >= 10 {
      var s := NatToString(n);
      NatToStringValue(n / 10);
      assert s[..|s| - 1] == NatToString(n / 10);
    }
  }

  /** `int(str(i)) == i`: what `Config.set` writes for an integer reads back as it. */
  lemma IntRoundTrip(i: int)
    ensures ParseInt(IntToString(i)) == Some(i)
  {
    if i < 0 {
      var s := IntToString(i);
      assert s[1..] == NatToString(-i);
      NatToStringValue(-i);
    } else {
      NatToStringValue(i);
    }
  }

  /**
   * The digits-with-at-most-one-dot numerals: removing the first '.' leaves a
   * nonempty string of digits (the `replace('.', '', 1).isdigit()` test).
   */
  predicate IsDecimal(s: string)
    ensures IsDecimal(s) <==>
      && (exists i :: 0 <= i < |s| && IsDigitChar(s[i]))
      && (forall i :: 0 <= i < |s| && i != IndexOf(s, '.') ==> IsDigitChar(s[i]))
  {
    DecimalChars(s);
    IsDigits(RemoveFirst(s, '.'))
  }

  /** Removing the first '.' leaves digits only when every other character is a digit and one exists. */
  lemma DecimalChars(s: string)
    ensures IsDigits(RemoveFirst(s, '.')) <==>
      && (exists i :: 0 <= i < |s| && IsDigitChar(s[i]))
      && (forall i :: 0 <= i < |s| && i != IndexOf(s, '.') ==> IsDigitChar(s[i]))
  {
    var k := IndexOf(s, '.');
    if k < |s| {
      var r := RemoveFirst(s, '.');
      if IsDigits(r) {
        DigitsAroundGap(s, k);
      } else if (exists i :: 0 <= i < |s| && IsDigitChar(s[i])) && forall i :: 0 <= i < |s| && i != k ==> IsDigitChar(s[i]) {
        GapDigits(s, k);
      }
    }
  }

  /** Digits on both sides of a removed position were digits in place. */
  lemma DigitsAroundGap(s: string, k: nat)
    requires k < |s| && IsDigits(s[..k] + s[k + 1..])
    ensures exists i :: 0 <= i < |s| && IsDigitChar(s[i])
    ensures forall i :: 0 <= i < |s| && i != k ==> IsDigitChar(s[i])
  {
    var r := s[..k] + s[k + 1..];
    assert IsDigitChar(r[0]);
    assert IsDigitChar(s[if k == 0 then 1 else 0]);
    forall i | 0 <= i < |s| && i != k ensures IsDigitChar(s[i]) {
      if i < k {
        assert s[i] == r[i];
      } else {
        assert s[i] == r[i - 1];
      }
    }
  }

  /** Removing the one non-digit from a string that holds a digit leaves digits. */
  lemma GapDigits(s: string, k: nat)
    requires k < |s| && forall i :: 0 <= i < |s| && i != k ==> IsDigitChar(s[i])
    requires !IsDigitChar(s[k]) && exists i :: 0 <= i < |s| && IsDigitChar(s[i])
    ensures IsDigits(s[..k] + s[k + 1..])
  {
    var r := s[..k] + s[k + 1..];
    forall i | 0 <= i < |r| ensures IsDigitChar(r[i]) {
      if i < k {
        assert r[i] == s[i];
      } else {
        assert r[i] == s[i + 1];
      }
    }
  }

  /** `float(s)` on a decimal numeral `digits[.digits]`; anything else is `None`. */
  function ParseDecimal(s: string): (r: Option<real>)
    ensures r.Some? <==> IsDecimal(s)
  {
    if !IsDecimal(s) then None
    else
      var k := IndexOf(s, '.');
      var whole := s[..k];
      var frac := if k < |s| then s[k + 1..] else [];
      assert whole + frac == RemoveFirst(s, '.');
      assert forall i :: 0 <= i < |whole| ==> whole[i] == RemoveFirst(s, '.')[i];
      assert forall i :: 0 <= i < |frac| ==> frac[i] == RemoveFirst(s, '.')[|whole| + i];
      Some(DecimalValue(whole, frac))
  }

  /** The value of the numeral `whole.frac`. */
  function DecimalValue(whole: string, frac: string): real
    requires forall i :: 0 <= i < |whole| ==> IsDigitChar(whole[i])
    requires forall i :: 0 <= i < |frac| ==> IsDigitChar(frac[i])
  {
    DigitsValue(whole) as real + (DigitsValue(frac) as real) / (Pow10(|frac|) as real)
  }

  lemma {:induction false} IndexOfConcat(a: string, c: char, b: string)
    requires forall i :: 0 <= i < |a| ==> a[i] != c
    ensures IndexOf(a + [c] + b, c) == |a|
  {
    if a != [] {
      assert (a + [c] + b)[1..] == a[1..] + [c] + b;
      IndexOfConcat(a[1..], c, b);
    }
  }

  /** Digits, one dot, digits: a decimal numeral, whose dot `RemoveFirst` removes. */
  lemma DecimalParts(whole: string, frac: string)
    requires IsDigits(whole) && IsDigits(frac)
    ensures RemoveFirst(whole + ['.'] + frac, '.') == whole + frac
    ensures IsDecimal(whole + ['.'] + frac)
  {
    var n := whole + ['.'] + frac;
    forall i | 0 <= i < |whole| ensures whole[i] != '.' { }
    IndexOfConcat(whole, '.', frac);
    assert n[..|whole|] == whole;
    assert n[|whole| + 1..] == frac;
    assert IsDigits(whole + frac) by {
      forall i | 0 <= i < |whole + frac| ensures IsDigitChar((whole + frac)[i]) {
        if i >= |whole| { assert (whole + frac)[i] == frac[i - |whole|]; }
      }
    }
  }

  /** A numeral `whole.frac` reads as whole + frac / 10^|frac|. */
  lemma ParseDecimalParts(whole: string, frac: string)
    requires IsDigits(whole) && IsDigits(frac)
    ensures ParseDecimal(whole + ['.'] + frac) == Some(DecimalValue(whole, frac))
  {
    DecimalParts(whole, frac);
    var n := whole + ['.'] + frac;
    IndexOfConcat(whole, '.', frac);
    assert n[..|whole|] == whole;
    assert n[|whole| + 1..] == frac;
  }
}
