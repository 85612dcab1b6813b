/** Fixed-point text with two decimals: printing a count of hundredths the
    way `format(q, "f")` followed by `.rstrip("0").rstrip(".")` does, and
    reading it back. */
module Fixed {
  import opened Wrappers
  import opened Numbers
  import opened Seqs

  /** `format(q, "f")` of a magnitude of `q` hundredths, then
      `.rstrip("0").rstrip(".")`. */
  function TwoPlaces(q: nat): string
  {
    NatToString(q / 100) + CentsSuffix(q % 100)
  }

  /** `"." + two digits` with trailing zeros and a bare point stripped. */
  function CentsSuffix(cents: nat): string
    requires cents < 100
  {
    if cents == 0 then ""
    else if cents % 10 == 0 then [ '.', DigitChar(cents / 10)]
    else [ '.', DigitChar(cents / 10), DigitChar(cents % 10)]
  }

  /** `(a * b) as real` is the product of the casts. */
  lemma MulToReal(a: int, b: int)
    ensures (a * b) as real == a as real * b as real
  {
  }

  /** From `2pq <= 200c + p < 2p(q + 1)` to `q / 100` lying within half a
      hundredth of `c / p`. */
  lemma HalfCentBounds(c: real, p: real, q: real)
    requires p >= 1.0
    requires 2.0 * p * q <= 200.0 * c + p < 2.0 * p * (q + 1.0)
    ensures c / p - 0.005 < q / 100.0 <= c / p + 0.005
  {
    var x := c / p;
    var lo := 200.0 * x - 1.0;
    var hi := 200.0 * x + 1.0;
    var mid := 2.0 * q;
    assert x * p == c;
    assert p * hi == 200.0 * c + p;
    assert p * lo == 200.0 * c - p;
    assert p * mid == 2.0 * p * q;
    assert 2.0 * p * (q + 1.0) == 2.0 * p * q + 2.0 * p;
    CancelPositive(mid, hi, p);
    CancelPositiveStrict(lo, mid, p);
  }

  lemma CancelPositive(a: real, b: real, p: real)
    requires p > 0.0 && p * a <= p * b
    ensures a <= b
  {
    assert p * (b - a) >= 0.0;
  }

  lemma CancelPositiveStrict(a: real, b: real, p: real)
    requires p > 0.0 && p * a < p * b
    ensures a < b
  {
    assert p * (b - a) > 0.0;
  }

  lemma {:induction false} CentsSuffixParses(ip: string, cents: nat)
    requires |ip| > 0 && AllDigits(ip) && cents < 100
    ensures ParseUnsigned(ip + CentsSuffix(cents)) == Some(DigitsValue(ip) as real + cents as real / 100.0)
  {
    if cents == 0 {
      assert ip + CentsSuffix(cents) == ip;
      NoFractionDigits(ip);
    } else if cents % 10 == 0 {
      assert CentsSuffix(cents) == ['.', DigitChar(cents / 10)];
      assert 10 * (cents / 10) == cents;
      OneFractionDigit(ip, cents / 10);
    } else {
      assert CentsSuffix(cents) == ['.', DigitChar(cents / 10), DigitChar(cents % 10)];
      assert 10 * (cents / 10) + cents % 10 == cents;
      TwoFractionDigits(ip, cents / 10, cents % 10);
    }
  }

  lemma {:induction false} NoFractionDigits(ip: string)
    requires |ip| > 0 && AllDigits(ip)
    ensures ParseUnsigned(ip) == Some(DigitsValue(ip) as real + 0 as real / 100.0)
  {
    DigitsHaveNoDot(ip);
    assert ip[..|ip|] == ip;
  }

  lemma {:induction false} OneFractionDigit(ip: string, t: nat)
    requires |ip| > 0 && AllDigits(ip) && t < 10
    ensures ParseUnsigned(ip + ['.', DigitChar(t)]) == Some(DigitsValue(ip) as real + (10 * t) as real / 100.0)
  {
    var fp := [DigitChar(t)];
    var s := ip + "." + fp;
    assert s == ip + ['.', DigitChar(t)];
    OneDigitFraction(t);
    ParseFixedPoint(ip, fp);
    assert ParseUnsigned(s) == Some(DigitsValue(ip) as real + (10 * t) as real / 100.0);
  }

  lemma OneDigitFraction(t: nat)
    requires t < 10
    ensures DigitsValue([DigitChar(t)]) as real / Pow10(|[DigitChar(t)]|) as real == (10 * t) as real / 100.0
  {
    var fp := [DigitChar(t)];
    assert DigitsValue(fp) == t by { assert fp[..0] == []; }
    assert Pow10(|fp|) == 10 by { assert Pow10(0) == 1; }
  }

  lemma {:induction false} TwoFractionDigits(ip: string, t: nat, u: nat)
    requires |ip| > 0 && AllDigits(ip) && t < 10 && u < 10
    ensures ParseUnsigned(ip + ['.', DigitChar(t), DigitChar(u)])
         == Some(DigitsValue(ip) as real + (10 * t + u) as real / 100.0)
  {
    var fp := [DigitChar(t), DigitChar(u)];
    var s := ip + "." + fp;
    assert s == ip + ['.', DigitChar(t), DigitChar(u)];
    TwoDigitFraction(t, u);
    ParseFixedPoint(ip, fp);
    assert ParseUnsigned(s) == Some(DigitsValue(ip) as real + (10 * t + u) as real / 100.0);
  }

  lemma TwoDigitFraction(t: nat, u: nat)
    requires t < 10 && u < 10
    ensures DigitsValue([DigitChar(t), DigitChar(u)]) as real / Pow10(|[DigitChar(t), DigitChar(u)]|) as real
         == (10 * t + u) as real / 100.0
  {
    var fp := [DigitChar(t), DigitChar(u)];
    assert DigitsValue(fp) == 10 * t + u by {
      assert fp[..1] == [DigitChar(t)];
      assert fp[..1][..0] == [];
      assert DigitsValue(fp[..1]) == t;
    }
    assert Pow10(|fp|) == 100 by { assert Pow10(1) == 10; }
  }

  lemma {:induction false} TwoPlacesParses(q: nat)
    ensures ParseUnsigned(TwoPlaces(q)) == Some(q as real / 100.0)
  {
    DigitsRoundTrip(q / 100);
    CentsSuffixParses(NatToString(q / 100), q % 100);
  }

  /** `s` is `ip` followed by nothing, or by a point and one or two
      digits of which the last is not `0`; it does not end in `.`. */
  predicate FixedShape(s: string, ip: string)
  {
    var i := IndexOfChar(s, '.');
    && |s| > 0
    && s[..i] == ip
    && s[|s| - 1] != '.'
    && (i < |s| ==> 1 <= |s| - i - 1 <= 2 && s[|s| - 1] != '0')
  }

  lemma {:induction false} CentsSuffixShape(ip: string, cents: nat)
    requires |ip| > 0 && IndexOfChar(ip, '.') == |ip| && ip[|ip| - 1] != '.' && cents < 100
    ensures FixedShape(ip + CentsSuffix(cents), ip)
  {
    var suffix := CentsSuffix(cents);
    var s := ip + suffix;
    IndexOfCharAbsent(ip, suffix, '.');
    assert s[..|ip|] == ip;
    if cents == 0 {
      assert s == ip;
    } else {
      assert IndexOfChar(suffix, '.') == 0;
      assert s[|s| - 1] == suffix[|suffix| - 1];
    }
  }

  /** An optional minus sign followed by `TwoPlaces(q)` reads back as
      `q / 100` with that sign. */
  lemma {:induction false} SignedTwoPlacesParses(negative: bool, q: nat)
    ensures ParseDecimal((if negative then "-" else "") + TwoPlaces(q))
         == Some(if negative then -(q as real / 100.0) else q as real / 100.0)
  {
    var t := TwoPlaces(q);
    TwoPlacesParses(q);
    assert t[0] == NatToString(q / 100)[0];
    SignedParse(negative, t);
  }

  /** A text starting with a digit reads back, after an optional minus
      sign, as its unsigned value with that sign. */
  lemma {:induction false} SignedParse(negative: bool, t: string)
    requires |t| > 0 && IsDigit(t[0]) && ParseUnsigned(t).Some?
    ensures ParseDecimal((if negative then "-" else "") + t)
         == Some(if negative then -ParseUnsigned(t).value else ParseUnsigned(t).value)
  {
    if negative {
      NegatedParse(t);
    } else {
      assert "" + t == t;
      assert t[0] != '-' && t[0] != '+';
    }
  }

  lemma {:induction false} NegatedParse(t: string)
    ensures ParseDecimal("-" + t) == match ParseUnsigned(t) case None => None case Some(x) => Some(-x)
  {
    var s := "-" + t;
    assert s[0] == '-' && s[1..] == t;
  }

  /** An optionally signed `TwoPlaces(q)` is plain decimal text. */
  lemma {:induction false} SignedTwoPlacesPlain(negative: bool, q: nat)
    ensures PlainText((if negative then "-" else "") + TwoPlaces(q))
  {
    var digits := NatToString(q / 100);
    var suffix := CentsSuffix(q % 100);
    assert forall j :: 0 <= j < |digits| ==> IsDigit(digits[j]);
    assert PlainText(suffix);
  }

  /** The shape of an optionally signed `TwoPlaces(q)`. */
  lemma {:induction false} SignedTwoPlacesShape(negative: bool, q: nat)
    ensures FixedShape((if negative then "-" else "") + TwoPlaces(q), (if negative then "-" else "") + NatToString(q / 100))
  {
    hide FixedShape, IndexOfChar, NatToString, CentsSuffix;
    var sign := if negative then "-" else "";
    var digits := NatToString(q / 100);
    var ip := sign + digits;
    SignedDigitsHaveNoDot(negative, digits);
    CentsSuffixShape(ip, q % 100);
    AppendAssoc(sign, digits, CentsSuffix(q % 100));
  }

  /** An optionally signed digit string holds no `.` and does not end in one. */
  lemma {:induction false} SignedDigitsHaveNoDot(negative: bool, digits: string)
    requires |digits| > 0 && AllDigits(digits)
    ensures var ip := (if negative then "-" else "") + digits;
            |ip| > 0 && IndexOfChar(ip, '.') == |ip| && ip[|ip| - 1] != '.'
  {
    var ip := (if negative then "-" else "") + digits;
    DigitsHaveNoDot(digits);
    assert IsDigit(digits[|digits| - 1]);
    assert ip[|ip| - 1] == digits[|digits| - 1];
    if negative {
      IndexOfCharAbsent("-", digits, '.');
    } else {
      assert ip == digits;
    }
  }
}
