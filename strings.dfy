/**
 * String operations the core uses: substring search (JavaScript
 * `String.prototype.includes`, Python `in`), ASCII case mapping
 * (`toLowerCase`, `toUpperCase`, `str.lower`), decimal printing of integers
 * (template literals) and decimal parsing (`parseInt(s, 10)`).
 */
module Strings {
  import opened Wrappers

  /** `pre` is a prefix of `s`. */
  predicate StartsWith(s: string, pre: string) {
    |pre| <= |s| && s[..|pre|] == pre
  }

  /** `sub` occurs in `s` at some position: `s.includes(sub)`. */
  predicate Contains(s: string, sub: string)
    decreases |s|
  {
    StartsWith(s, sub) || (s != [] && Contains(s[1..], sub))
  }

  /** `sub` occurs in `s` starting at index `i`. */
  predicate OccursAt(s: string, sub: string, i: int) {
    0 <= i <= |s| - |sub| && s[i..i + |sub|] == sub
  }

  /** The search agrees with the positional definition of "occurs in". */
  lemma {:induction false} ContainsIff(s: string, sub: string)
    ensures Contains(s, sub) <==> exists i :: OccursAt(s, sub, i)
  {
    if s == [] {
      if Contains(s, sub) {
        assert OccursAt(s, sub, 0);
      }
      if exists i :: OccursAt(s, sub, i) {
        var i :| OccursAt(s, sub, i);
        assert StartsWith(s, sub);
      }
    } else {
      ContainsIff(s[1..], sub);
      if StartsWith(s, sub) {
        assert OccursAt(s, sub, 0);
      } else if Contains(s, sub) {
        var i :| OccursAt(s[1..], sub, i);
        assert s[i + 1..i + 1 + |sub|] == s[1..][i..i + |sub|];
        assert OccursAt(s, sub, i + 1);
      }
      if exists i :: OccursAt(s, sub, i) {
        var i :| OccursAt(s, sub, i);
        if i > 0 {
          assert s[1..][i - 1..i - 1 + |sub|] == s[i..i + |sub|];
          assert OccursAt(s[1..], sub, i - 1);
        } else {
          assert StartsWith(s, sub);
        }
      }
    }
  }

  /** The empty string occurs in every string. */
  lemma ContainsEmpty(s: string)
    ensures Contains(s, "")
  {
    assert StartsWith(s, "");
  }

  /** ASCII lower-casing of one character. */
  function LowerChar(c: char): char {
    if 'A' <= c <= 'Z' then (c as int + 32) as char else c
  }

  /** ASCII upper-casing of one character. */
  function UpperChar(c: char): char {
    if 'a' <= c <= 'z' then (c as int - 32) as char else c
  }

  function ToLower(s: string): (r: string)
    ensures |r| == |s| && forall i :: 0 <= i < |s| ==> r[i] == LowerChar(s[i])
  {
    seq(|s|, i requires 0 <= i < |s| => LowerChar(s[i]))
  }

  function ToUpper(s: string): (r: string)
    ensures |r| == |s| && forall i :: 0 <= i < |s| ==> r[i] == UpperChar(s[i])
  {
    seq(|s|, i requires 0 <= i < |s| => UpperChar(s[i]))
  }

  /** Lower-casing is idempotent and leaves no upper-case ASCII letter. */
  lemma ToLowerIdempotent(s: string)
    ensures ToLower(ToLower(s)) == ToLower(s)
    ensures forall i :: 0 <= i < |s| ==> !('A' <= ToLower(s)[i] <= 'Z')
  {
  }

  /** Lower-casing forgets an earlier upper-casing. */
  lemma ToLowerOfToUpper(s: string)
    ensures ToLower(ToUpper(s)) == ToLower(s)
  {
  }

  predicate IsDigit(c: char) { '0' <= c <= '9' }

  function DigitChar(d: nat): (c: char)
    requires d < 10
    ensures IsDigit(c) && DigitValue(c) == d
  {
    ('0' as int + d) as char
  }

  function DigitValue(c: char): nat
    requires IsDigit(c)
  {
    c as int - '0' as int
  }

  /** Decimal notation of a natural number, most significant digit first, without leading zeros. */
  function NatToString(n: nat): (r: string)
    ensures |r| > 0 && forall i :: 0 <= i < |r| ==> IsDigit(r[i])
    ensures r[0] == '0' ==> n == 0
  {
    if n < 10 then [DigitChar(n)] else NatToString(n / 10) + [DigitChar(n % 10)]
  }

  /** Decimal notation of an integer, as JavaScript prints it in a template literal. */
  function IntToString(i: int): (r: string)
    ensures |r| > 0
  {
    if i < 0 then "-" + NatToString(-i) else NatToString(i)
  }

  /** Value of a sequence of decimal digits, most significant first. */
  function DigitsValue(ds: string): nat
    requires forall i :: 0 <= i < |ds| ==> IsDigit(ds[i])
  {
    if ds == [] then 0 else DigitsValue(ds[..|ds| - 1]) * 10 + DigitValue(ds[|ds| - 1])
  }

  /**
   * The white space `parseInt` skips before the number: the white space and
   * line terminators of section 12.2 and 12.3 of ECMA-262, the space
   * separators of Unicode category Zs included.
   */
  predicate IsSpace(c: char) {
    || c == '\t' || c == '\U{B}' || c == '\U{C}' || c == ' ' || c == '\U{A0}' || c == '\U{FEFF}'
    || c == '\n' || c == '\r' || c == '\U{2028}' || c == '\U{2029}'
    || c == '\U{1680}' || ('\U{2000}' <= c <= '\U{200A}') || c == '\U{202F}' || c == '\U{205F}' || c == '\U{3000}'
  }

  function SkipSpaces(s: string): (r: string)
    ensures |r| <= |s| && r == s[|s| - |r|..]
    ensures r != [] ==> !IsSpace(r[0])
  {
    if s != [] && IsSpace(s[0]) then SkipSpaces(s[1..]) else s
  }

  /** The longest prefix of `s` that consists of digits. */
  function DigitPrefix(s: string): (r: string)
    ensures |r| <= |s| && r == s[..|r|]
    ensures forall i :: 0 <= i < |r| ==> IsDigit(r[i])
    ensures |r| < |s| ==> !IsDigit(s[|r|])
  {
    if s != [] && IsDigit(s[0]) then [s[0]] + DigitPrefix(s[1..]) else []
  }

  /**
   * `parseInt(s, 10)`: skip leading white space, read an optional sign and the
   * longest run of digits after it; `None` stands for `NaN` (no digit at all).
   */
  function ParseInt(s: string): (r: Option<int>)
    ensures r.None? <==> DigitPrefix(SignStripped(SkipSpaces(s))) == []
  {
    var t := SkipSpaces(s);
    var u := SignStripped(t);
    var ds := DigitPrefix(u);
    if ds == [] then None
    else if t != [] && t[0] == '-' then Some(0 - DigitsValue(ds))
    else Some(DigitsValue(ds))
  }

  function SignStripped(t: string): string {
    if t != [] && (t[0] == '-' || t[0] == '+') then t[1..] else t
  }

  lemma {:induction false} DigitsValueOfNatToString(n: nat)
    ensures DigitsValue(NatToString(n)) == n
  {
    var r := NatToString(n);
    if n >= 10 {
      DigitsValueOfNatToString(n / 10);
      assert r[..|r| - 1] == NatToString(n / 10);
    }
  }

  lemma {:induction false} DigitPrefixOfDigits(s: string)
    requires forall i :: 0 <= i < |s| ==> IsDigit(s[i])
    ensures DigitPrefix(s) == s
  {
    if s != [] {
      DigitPrefixOfDigits(s[1..]);
    }
  }

  lemma {:induction false} ParseNatDigits(n: nat)
    ensures ParseInt(NatToString(n)) == Some(n)
  {
    var digits := NatToString(n);
    DigitsValueOfNatToString(n);
    DigitPrefixOfDigits(digits);
    assert !IsSpace(digits[0]) && digits[0] != '-' && digits[0] != '+';
    assert SkipSpaces(digits) == digits;
    assert SignStripped(digits) == digits;
  }

  lemma {:induction false} ParseNegativeDigits(n: nat)
    ensures ParseInt("-" + NatToString(n)) == Some(0 - n)
  {
    var digits := NatToString(n);
    var s := "-" + digits;
    DigitsValueOfNatToString(n);
    DigitPrefixOfDigits(digits);
    assert s[0] == '-';
    assert SkipSpaces(s) == s;
    assert s[1..] == digits;
    assert SignStripped(s) == digits;
  }

  /** White space in front of a string that does not start with white space is skipped entirely. */
  lemma {:induction false} SkipSpacesOfPrefix(spaces: string, t: string)
    requires forall i :: 0 <= i < |spaces| ==> IsSpace(spaces[i])
    requires t == [] || !IsSpace(t[0])
    ensures SkipSpaces(spaces + t) == t
  {
    if spaces == [] {
      assert spaces + t == t;
    } else {
      assert (spaces + t)[0] == spaces[0] && (spaces + t)[1..] == spaces[1..] + t;
      SkipSpacesOfPrefix(spaces[1..], t);
    }
  }

  /** The digit run of `digits + rest` is `digits` when `rest` does not go on with a digit. */
  lemma {:induction false} DigitPrefixOfDigitsThen(digits: string, rest: string)
    requires forall i :: 0 <= i < |digits| ==> IsDigit(digits[i])
    requires rest == [] || !IsDigit(rest[0])
    ensures DigitPrefix(digits + rest) == digits
  {
    if digits == [] {
      assert digits + rest == rest;
    } else {
      assert (digits + rest)[0] == digits[0] && (digits + rest)[1..] == digits[1..] + rest;
      DigitPrefixOfDigitsThen(digits[1..], rest);
    }
  }

  lemma Concat4(a: string, b: string, c: string, d: string)
    ensures a + b + c + d == a + (b + (c + d))
  {
    assert a + b + c == a + (b + c);
  }

  /**
   * What `parseInt` reads from any spelling: leading white space, an optional
   * sign, a run of digits (leading zeros allowed) and anything after it that
   * does not start with a digit give the signed value of the digits.
   */
  lemma ParseIntOfSpelling(spaces: string, sign: string, digits: string, rest: string)
    requires forall i :: 0 <= i < |spaces| ==> IsSpace(spaces[i])
    requires sign == "" || sign == "+" || sign == "-"
    requires digits != [] && forall i :: 0 <= i < |digits| ==> IsDigit(digits[i])
    requires rest == [] || !IsDigit(rest[0])
    ensures ParseInt(spaces + sign + digits + rest) == Some(if sign == "-" then 0 - DigitsValue(digits) else DigitsValue(digits))
  {
    var t := sign + (digits + rest);
    Concat4(spaces, sign, digits, rest);
    SignThenDigits(sign, digits, rest);
    SkipSpacesOfPrefix(spaces, t);
    DigitPrefixOfDigitsThen(digits, rest);
    ParseIntOfParts(spaces + t, t, digits);
  }

  lemma SignThenDigits(sign: string, digits: string, rest: string)
    requires sign == "" || sign == "+" || sign == "-"
    requires digits != [] && IsDigit(digits[0])
    ensures var t := sign + (digits + rest);
            t != [] && !IsSpace(t[0]) && SignStripped(t) == digits + rest && (t[0] == '-' <==> sign == "-")
  {
    var t := sign + (digits + rest);
    if sign != "" {
      assert t[0] == sign[0] && t[1..] == digits + rest;
    } else {
      assert t == digits + rest && t[0] == digits[0];
    }
  }

  lemma ParseIntOfParts(s: string, t: string, digits: string)
    requires SkipSpaces(s) == t && DigitPrefix(SignStripped(t)) == digits && digits != []
    ensures ParseInt(s) == Some(if t[0] == '-' then 0 - DigitsValue(digits) else DigitsValue(digits))
  {
  }

  /** Printing an integer in decimal and parsing it back with `parseInt` gives the integer. */
  lemma ParseIntOfIntToString(i: int)
    ensures ParseInt(IntToString(i)) == Some(i)
  {
    if i < 0 {
      var n: nat := -i;
      ParseNegativeDigits(n);
      assert IntToString(i) == "-" + NatToString(n);
      assert 0 - n == i;
    } else {
      ParseNatDigits(i);
      assert IntToString(i) == NatToString(i);
    }
  }
}
