/** Numbers in text, by their grammar, and that trimming and parsing read exactly those. */
module Numerals {
  import opened Options
  import opened Text

  predicate SignedValue(sign: string, digits: string, n: int) {
    && (sign == "" || sign == "+" || sign == "-") && digits != [] && AllDigits(digits)
    && (var v: int := DigitsValue(digits); n == if sign == "-" then -v else v)
    && INT64_MIN <= n <= INT64_MAX
  }

  predicate Reads(s: string, pre: string, sign: string, digits: string, post: string, n: int) {
    s == pre + (sign + digits) + post && AllSpace(pre) && AllSpace(post) && SignedValue(sign, digits, n)
  }

  /** `s` reads as `n`: spaces, an optional sign, digits, spaces. */
  ghost predicate Numeral(s: string, n: int) {
    exists pre, sign, digits, post :: Reads(s, pre, sign, digits, post, n)
  }

  lemma NumeralIsTight(sign: string, digits: string, n: int)
    requires SignedValue(sign, digits, n)
    ensures Tight(sign + digits) && ParseInt(sign + digits) == Some(n)
  {
    var s := sign + digits;
    assert IsDigit(digits[0]) && s[|s| - 1] == digits[|digits| - 1] && IsDigit(digits[|digits| - 1]);
    if sign == "" {
      assert s == digits;
    } else {
      assert s[0] == sign[0] && s[1..] == digits;
    }
  }

  lemma NumeralParses(s: string, n: int)
    requires Numeral(s, n)
    ensures ParseInt(TrimSpace(s)) == Some(n)
  {
    var pre, sign, digits, post :| Reads(s, pre, sign, digits, post, n);
    NumeralIsTight(sign, digits, n);
    TrimOf(pre, sign + digits, post);
  }

  lemma ParsedIsSigned(t: string, n: int) returns (sign: string, digits: string)
    requires ParseInt(t) == Some(n)
    ensures t == sign + digits && SignedValue(sign, digits, n)
  {
    var k := if t[0] == '+' || t[0] == '-' then 1 else 0;
    sign, digits := t[..k], t[k..];
  }

  /** Trimming and ParseInt accept exactly the numerals. */
  lemma ParseIntReadsNumerals(s: string, n: int)
    ensures ParseInt(TrimSpace(s)) == Some(n) <==> Numeral(s, n)
  {
    if Numeral(s, n) {
      NumeralParses(s, n);
    } else if ParseInt(TrimSpace(s)) == Some(n) {
      var pre, post := TrimSplits(s);
      var sign, digits := ParsedIsSigned(TrimSpace(s), n);
      assert Reads(s, pre, sign, digits, post, n);
    }
  }
}
