/** Decimal digit strings: printing naturals and integers, and Python's
    `float(str)` on ASCII literals: surrounding whitespace, `_` between
    digits, a sign, a decimal point and an exponent. */
module Numbers {
  import opened Wrappers

  function Pow10(n: nat): (r: nat)
    ensures r >= 1
  {
    if n == 0 then 1 else 10 * Pow10(n - 1)
  }

  /** Euclidean division facts for a non-negative dividend, stated over `int`
      so that callers need not prove them about `nat` again. */
  lemma DivBounds(n: int, m: int)
    requires n >= 0 && m >= 1
    ensures 0 <= n / m && 0 <= n % m < m
    ensures m * (n / m) <= n < m * (n / m) + m
    ensures n == m * (n / m) + n % m
  {
  }

  predicate IsDigit(c: char)
  {
    '0' <= c <= '9'
  }

  predicate AllDigits(s: string)
  {
    forall i :: 0 <= i < |s| ==> IsDigit(s[i])
  }

  function DigitChar(d: nat): (c: char)
    requires d < 10
    ensures IsDigit(c) && DigitValue(c) == d
  {
    ('0' as int + d) as char
  }

  function DigitValue(c: char): nat
    requires IsDigit(c)
  {
    c as int - '0' as int
  }

  /** Python's `str(n)` for a non-negative int. */
  function NatToString(n: nat): (s: string)
    ensures |s| >= 1 && AllDigits(s)
  {
    if n < 10 then [DigitChar(n)] else NatToString(n / 10) + [DigitChar(n % 10)]
  }

  /** Python's `str(i)` for an int. */
  function IntToString(i: int): (s: string)
    ensures |s| >= 1
  {
    if i < 0 then "-" + NatToString(-i) else NatToString(i)
  }

  /** The number a string of decimal digits denotes (0 for the empty string). */
  function DigitsValue(s: string): nat
    requires AllDigits(s)
  {
    if s == [] then 0 else 10 * DigitsValue(s[..|s| - 1]) + DigitValue(s[|s| - 1])
  }

  lemma {:induction false} DigitsRoundTrip(n: nat)
    ensures DigitsValue(NatToString(n)) == n
  {
    if n >= 10 {
      var s := NatToString(n);
      assert s[..|s| - 1] == NatToString(n / 10);
      DigitsRoundTrip(n / 10);
    }
  }

  /** Index of the first `c` in `s`, or `|s|` when there is none. */
  function IndexOfChar(s: string, c: char): (i: nat)
    ensures i <= |s|
    ensures forall j :: 0 <= j < i ==> s[j] != c
    ensures i < |s| ==> s[i] == c
  {
    if s == [] then 0 else if s[0] == c then 0 else 1 + IndexOfChar(s[1..], c)
  }

  lemma {:induction false} IndexOfCharAbsent(a: string, b: string, c: char)
    requires IndexOfChar(a, c) == |a|
    ensures IndexOfChar(a + b, c) == |a| + IndexOfChar(b, c)
  {
    if a != [] {
      assert (a + b)[0] == a[0];
      assert (a + b)[1..] == a[1..] + b;
      IndexOfCharAbsent(a[1..], b, c);
    } else {
      assert a + b == b;
    }
  }

  lemma {:induction false} IndexOfCharPresent(a: string, b: string, c: char)
    requires IndexOfChar(a, c) < |a|
    ensures IndexOfChar(a + b, c) == IndexOfChar(a, c)
  {
    assert (a + b)[0] == a[0];
    if a[0] != c {
      assert (a + b)[1..] == a[1..] + b;
      IndexOfCharPresent(a[1..], b, c);
    }
  }

  /** A digit string holds no `.`. */
  lemma {:induction false} DigitsHaveNoDot(s: string)
    requires AllDigits(s)
    ensures IndexOfChar(s, '.') == |s|
  {
    if s != [] {
      assert IsDigit(s[0]);
      DigitsHaveNoDot(s[1..]);
    }
  }

  /** Python's `float(s)` on an unsigned decimal literal: `ddd`, `ddd.`,
      `.ddd` or `ddd.ddd`; anything else does not parse. */
  function ParseUnsigned(s: string): Option<real>
  {
    var i := IndexOfChar(s, '.');
    var intPart := s[..i];
    var fracPart := if i < |s| then s[i + 1..] else "";
    if AllDigits(intPart) && AllDigits(fracPart) && (|intPart| > 0 || |fracPart| > 0) then
      Some(DigitsValue(intPart) as real + DigitsValue(fracPart) as real / Pow10(|fracPart|) as real)
    else
      None
  }

  /** An optional sign followed by an unsigned decimal literal. */
  function ParseDecimal(s: string): Option<real>
  {
    if |s| > 0 && (s[0] == '-' || s[0] == '+') then
      match ParseUnsigned(s[1..])
      case None => None
      case Some(x) => Some(if s[0] == '-' then -x else x)
    else
      ParseUnsigned(s)
  }

  /** The characters `str.isspace()` accepts, which `float` strips from
      both ends of its argument. */
  predicate IsSpace(c: char)
  {
    || ('\t' <= c <= '\r')
    || ('\U{1C}' <= c <= ' ')
    || c == '\U{85}' || c == '\U{A0}' || c == '\U{1680}'
    || ('\U{2000}' <= c <= '\U{200A}')
    || c == '\U{2028}' || c == '\U{2029}' || c == '\U{202F}' || c == '\U{205F}' || c == '\U{3000}'
  }

  predicate AllSpace(s: string)
  {
    forall i :: 0 <= i < |s| ==> IsSpace(s[i])
  }

  function TrimStart(s: string): string
  {
    if s != [] && IsSpace(s[0]) then TrimStart(s[1..]) else s
  }

  function TrimEnd(s: string): string
  {
    if s != [] && IsSpace(s[|s| - 1]) then TrimEnd(s[..|s| - 1]) else s
  }

  /** `s.strip()`. */
  function Strip(s: string): string
  {
    TrimEnd(TrimStart(s))
  }

  /** Every `_` sits between two digits, as the underscores of a numeric
      literal must. */
  predicate UnderscoresBetweenDigits(s: string)
  {
    forall i :: 0 <= i < |s| && s[i] == '_' ==> 0 < i < |s| - 1 && IsDigit(s[i - 1]) && IsDigit(s[i + 1])
  }

  function RemoveUnderscores(s: string): (t: string)
    ensures forall i :: 0 <= i < |t| ==> t[i] != '_'
  {
    if s == [] then [] else (if s[0] == '_' then [] else [s[0]]) + RemoveUnderscores(s[1..])
  }

  /** Index of the first `e` or `E`, or `|s|` when there is none. */
  function ExponentMark(s: string): (i: nat)
    ensures i <= |s|
  {
    var lower := IndexOfChar(s, 'e');
    var upper := IndexOfChar(s, 'E');
    if lower <= upper then lower else upper
  }

  /** An exponent: an optional sign and at least one digit. */
  function ParseExponent(s: string): Option<int>
  {
    var digits := if |s| > 0 && (s[0] == '-' || s[0] == '+') then s[1..] else s;
    if |digits| > 0 && AllDigits(digits) then
      Some(if |s| > 0 && s[0] == '-' then -(DigitsValue(digits) as int) else DigitsValue(digits))
    else
      None
  }

  /** `m` times ten to the `k`. */
  function Scale(m: real, k: int): real
  {
    if k >= 0 then m * Pow10(k) as real else m / Pow10(-k) as real
  }

  /** A signed decimal literal, optionally followed by an exponent. */
  function ParseScientific(s: string): Option<real>
  {
    var e := ExponentMark(s);
    if e == |s| then ParseDecimal(s)
    else
      match (ParseDecimal(s[..e]), ParseExponent(s[e + 1..]))
      case (Some(m), Some(k)) => Some(Scale(m, k))
      case _ => None
  }

  /** Python's `float(s)` for a string: surrounding whitespace is ignored,
      `_` may separate two digits, and the literal is a signed decimal with
      an optional exponent; anything else raises. */
  function ParseNumber(s: string): Option<real>
  {
    var t := Strip(s);
    if UnderscoresBetweenDigits(t) then ParseScientific(RemoveUnderscores(t)) else None
  }

  /** The characters of a plain signed decimal literal. */
  predicate IsPlainChar(c: char)
  {
    IsDigit(c) || c == '.' || c == '-' || c == '+'
  }

  predicate PlainText(s: string)
  {
    forall i :: 0 <= i < |s| ==> IsPlainChar(s[i])
  }

  lemma {:induction false} RemoveNoUnderscores(s: string)
    requires forall i :: 0 <= i < |s| ==> s[i] != '_'
    ensures RemoveUnderscores(s) == s
  {
    if s != [] {
      RemoveNoUnderscores(s[1..]);
    }
  }

  /** Text without whitespace at its ends, `_`, `e` or `E` is read as a
      signed decimal literal. */
  lemma {:induction false} ParseWithoutExtras(s: string)
    requires s == [] || (!IsSpace(s[0]) && !IsSpace(s[|s| - 1]))
    requires forall i :: 0 <= i < |s| ==> s[i] != '_' && s[i] != 'e' && s[i] != 'E'
    ensures ParseNumber(s) == ParseDecimal(s)
  {
    assert TrimStart(s) == s;
    assert TrimEnd(s) == s;
    RemoveNoUnderscores(s);
    assert ExponentMark(s) == |s|;
  }

  /** Plain decimal text is read as a signed decimal literal. */
  lemma {:induction false} PlainParse(s: string)
    requires PlainText(s)
    ensures ParseNumber(s) == ParseDecimal(s)
  {
    if s != [] {
      assert IsPlainChar(s[0]) && IsPlainChar(s[|s| - 1]);
    }
    ParseWithoutExtras(s);
  }

  // ---------------------------------------------------------------------
  // What `float` tolerates around and inside a literal

  lemma {:induction false} TrimStartSpaces(ws: string, x: string)
    requires AllSpace(ws) && (x == [] || !IsSpace(x[0]))
    ensures TrimStart(ws + x) == x
  {
    if ws == [] {
      assert ws + x == x;
    } else {
      assert (ws + x)[1..] == ws[1..] + x;
      TrimStartSpaces(ws[1..], x);
    }
  }

  lemma {:induction false} TrimEndSpaces(x: string, ws: string)
    requires AllSpace(ws) && (x == [] || !IsSpace(x[|x| - 1]))
    ensures TrimEnd(x + ws) == x
  {
    if ws == [] {
      assert x + ws == x;
    } else {
      assert (x + ws)[..|x + ws| - 1] == x + ws[..|ws| - 1];
      TrimEndSpaces(x, ws[..|ws| - 1]);
    }
  }

  /** `float` ignores whitespace around the literal. */
  lemma {:induction false} ParseIgnoresSpace(ws1: string, s: string, ws2: string)
    requires AllSpace(ws1) && AllSpace(ws2)
    requires s != [] && !IsSpace(s[0]) && !IsSpace(s[|s| - 1])
    ensures ParseNumber(ws1 + s + ws2) == ParseNumber(s)
  {
    assert ws1 + s + ws2 == ws1 + (s + ws2);
    assert (s + ws2)[0] == s[0];
    TrimStartSpaces(ws1, s + ws2);
    TrimEndSpaces(s, ws2);
    assert TrimStart(s) == s && TrimEnd(s) == s;
  }

  lemma {:induction false} ExponentOfIntString(k: int)
    ensures ParseExponent(IntToString(k)) == Some(k)
  {
    var d := IntToString(k);
    if k < 0 {
      assert d[0] == '-' && d[1..] == NatToString(-k);
      DigitsRoundTrip(-k);
    } else {
      assert IsDigit(d[0]);
      DigitsRoundTrip(k);
    }
  }

  /** `float` reads `m` followed by `e` and an integer `k` as `m` times ten
      to the `k`. */
  lemma {:induction false} ParseExponentForm(m: string, k: int)
    requires m != [] && PlainText(m)
    ensures ParseNumber(m + "e" + IntToString(k))
         == match ParseDecimal(m) case Some(x) => Some(Scale(x, k)) case None => None
  {
    var d := IntToString(k);
    var w := m + "e" + d;
    IntStringPlain(k);
    ExponentFormText(m, d);
    ParseWithoutSpaceOrUnderscore(w);
    ExponentFormMark(m, d);
    assert w[..|m|] == m && w[|m| + 1..] == d;
    ExponentOfIntString(k);
  }

  /** `m e d` for plain `m` and `d` has no whitespace at its ends and no `_`. */
  lemma {:induction false} ExponentFormText(m: string, d: string)
    requires m != [] && d != [] && PlainText(m) && PlainText(d)
    ensures var w := m + "e" + d;
            && !IsSpace(w[0]) && !IsSpace(w[|w| - 1])
            && forall i :: 0 <= i < |w| ==> w[i] != '_'
  {
    var w := m + "e" + d;
    assert forall i :: 0 <= i < |w| ==> IsPlainChar(w[i]) || w[i] == 'e';
    assert w[0] == m[0] && w[|w| - 1] == d[|d| - 1];
    assert IsPlainChar(m[0]) && IsPlainChar(d[|d| - 1]);
  }

  /** In `m e d` for plain `m` and `d` the exponent mark is the `e`. */
  lemma {:induction false} ExponentFormMark(m: string, d: string)
    requires PlainText(m) && PlainText(d)
    ensures ExponentMark(m + "e" + d) == |m|
  {
    var w := m + "e" + d;
    assert w == m + ("e" + d);
    assert forall i :: 0 <= i < |w| ==> w[i] != 'E' by {
      assert forall i :: 0 <= i < |w| ==> IsPlainChar(w[i]) || w[i] == 'e';
    }
    assert IndexOfChar(m, 'e') == |m|;
    IndexOfCharAbsent(m, "e" + d, 'e');
    assert IndexOfChar(w, 'E') == |w|;
  }

  /** Text without whitespace at its ends or `_` is read as a literal with
      an optional exponent. */
  lemma {:induction false} ParseWithoutSpaceOrUnderscore(s: string)
    requires s == [] || (!IsSpace(s[0]) && !IsSpace(s[|s| - 1]))
    requires forall i :: 0 <= i < |s| ==> s[i] != '_'
    ensures ParseNumber(s) == ParseScientific(s)
  {
    assert TrimStart(s) == s;
    assert TrimEnd(s) == s;
    RemoveNoUnderscores(s);
  }

  lemma {:induction false} TrimStartAppend(x: string, y: string)
    requires x != [] && !IsSpace(x[|x| - 1])
    ensures TrimStart(x + y) == TrimStart(x) + y
    ensures TrimStart(x) != [] && TrimStart(x)[|TrimStart(x)| - 1] == x[|x| - 1]
  {
    assert (x + y)[0] == x[0];
    if IsSpace(x[0]) {
      assert (x + y)[1..] == x[1..] + y;
      TrimStartAppend(x[1..], y);
    }
  }

  lemma {:induction false} TrimEndPrepend(x: string, y: string)
    requires y != [] && !IsSpace(y[0])
    ensures TrimEnd(x + y) == x + TrimEnd(y)
    ensures TrimEnd(y) != [] && TrimEnd(y)[0] == y[0]
  {
    assert (x + y)[|x + y| - 1] == y[|y| - 1];
    if IsSpace(y[|y| - 1]) {
      assert (x + y)[..|x + y| - 1] == x + y[..|y| - 1];
      TrimEndPrepend(x, y[..|y| - 1]);
    }
  }

  lemma {:induction false} RemoveUnderscoresAppend(x: string, y: string)
    ensures RemoveUnderscores(x + y) == RemoveUnderscores(x) + RemoveUnderscores(y)
  {
    if x == [] {
      assert x + y == y;
    } else {
      assert (x + y)[0] == x[0] && (x + y)[1..] == x[1..] + y;
      RemoveUnderscoresAppend(x[1..], y);
    }
  }

  /** An `_` between two digits neither breaks nor changes a literal. */
  lemma {:induction false} UnderscoreJoin(x: string, y: string)
    requires x != [] && y != [] && IsDigit(x[|x| - 1]) && IsDigit(y[0])
    ensures UnderscoresBetweenDigits(x + "_" + y) <==> UnderscoresBetweenDigits(x + y)
    ensures RemoveUnderscores(x + "_" + y) == RemoveUnderscores(x + y)
  {
    if UnderscoresBetweenDigits(x + "_" + y) {
      UnderscoreDropped(x, y);
    }
    if UnderscoresBetweenDigits(x + y) {
      UnderscoreInserted(x, y);
    }
    RemoveUnderscoresAppend(x + "_", y);
    RemoveUnderscoresAppend(x, "_");
    RemoveUnderscoresAppend(x, y);
    assert RemoveUnderscores("_") == [];
  }

  lemma {:induction false} UnderscoreDropped(x: string, y: string)
    requires x != [] && y != [] && IsDigit(x[|x| - 1]) && IsDigit(y[0])
    requires UnderscoresBetweenDigits(x + "_" + y)
    ensures UnderscoresBetweenDigits(x + y)
  {
    var u := x + "_" + y;
    var v := x + y;
    var n := |x|;
    assert u[n] == '_';
    assert IsDigit(v[n - 1]) && IsDigit(v[n]);
    forall i | 0 <= i < |v| && v[i] == '_'
      ensures 0 < i < |v| - 1 && IsDigit(v[i - 1]) && IsDigit(v[i + 1])
    {
      if i < n {
        assert u[i] == v[i] == '_' && i + 1 < n;
        assert u[i - 1] == v[i - 1] && u[i + 1] == v[i + 1];
      } else {
        assert u[i + 1] == v[i] == '_' && i > n;
        assert u[i] == v[i - 1] && u[i + 2] == v[i + 1];
      }
    }
  }

  lemma {:induction false} UnderscoreInserted(x: string, y: string)
    requires x != [] && y != [] && IsDigit(x[|x| - 1]) && IsDigit(y[0])
    requires UnderscoresBetweenDigits(x + y)
    ensures UnderscoresBetweenDigits(x + "_" + y)
  {
    var u := x + "_" + y;
    var v := x + y;
    var n := |x|;
    assert IsDigit(v[n - 1]) && IsDigit(v[n]);
    forall i | 0 <= i < |u| && u[i] == '_'
      ensures 0 < i < |u| - 1 && IsDigit(u[i - 1]) && IsDigit(u[i + 1])
    {
      if i < n {
        assert v[i] == u[i] == '_' && i + 1 < n;
        assert u[i - 1] == v[i - 1] && u[i + 1] == v[i + 1];
      } else if i > n {
        assert v[i - 1] == u[i] == '_' && i - 1 > n;
        assert u[i - 1] == v[i - 2] && u[i + 1] == v[i];
      } else {
        assert u[i - 1] == v[n - 1] && u[i + 1] == v[n];
      }
    }
  }

  /** `float` ignores an `_` between two digits. */
  lemma {:induction false} ParseIgnoresUnderscore(a: string, b: string)
    requires a != [] && b != [] && IsDigit(a[|a| - 1]) && IsDigit(b[0])
    ensures ParseNumber(a + "_" + b) == ParseNumber(a + b)
  {
    TrimStartAppend(a, "_" + b);
    TrimStartAppend(a, b);
    var a' := TrimStart(a);
    assert a + "_" + b == a + ("_" + b);
    assert a' + ("_" + b) == (a' + "_") + b;
    TrimEndPrepend(a' + "_", b);
    TrimEndPrepend(a', b);
    var b' := TrimEnd(b);
    assert Strip(a + "_" + b) == a' + "_" + b';
    assert Strip(a + b) == a' + b';
    UnderscoreJoin(a', b');
  }

  lemma {:induction false} ParseNatString(n: nat)
    ensures ParseUnsigned(NatToString(n)) == Some(n as real)
  {
    var s := NatToString(n);
    DigitsHaveNoDot(s);
    assert s[..|s|] == s;
    DigitsRoundTrip(n);
  }

  /** Printing an int and parsing it back with `float` gives the same number. */
  lemma {:induction false} ParseIntString(i: int)
    ensures ParseNumber(IntToString(i)) == Some(i as real)
  {
    IntStringPlain(i);
    PlainParse(IntToString(i));
    ParseIntDecimal(i);
  }

  lemma {:induction false} IntStringPlain(i: int)
    ensures PlainText(IntToString(i))
  {
    var digits := NatToString(if i < 0 then -i else i);
    assert forall j :: 0 <= j < |digits| ==> IsDigit(digits[j]);
  }

  lemma {:induction false} ParseIntDecimal(i: int)
    ensures ParseDecimal(IntToString(i)) == Some(i as real)
  {
    if i < 0 {
      var s := IntToString(i);
      assert s[1..] == NatToString(-i);
      ParseNatString(-i);
    } else {
      var s := NatToString(i);
      assert IsDigit(s[0]);
      ParseNatString(i);
    }
  }

  /** A literal `ip.fp` with a non-empty integer part parses to its value. */
  lemma {:induction false} ParseFixedPoint(ip: string, fp: string)
    requires |ip| > 0 && AllDigits(ip) && AllDigits(fp)
    ensures ParseUnsigned(ip + "." + fp)
         == Some(DigitsValue(ip) as real + DigitsValue(fp) as real / Pow10(|fp|) as real)
  {
    var s := ip + ("." + fp);
    assert s == ip + "." + fp;
    DigitsHaveNoDot(ip);
    IndexOfCharAbsent(ip, "." + fp, '.');
    assert IndexOfChar(s, '.') == |ip|;
    assert s[..|ip|] == ip;
    assert s[|ip| + 1..] == fp;
  }
}
