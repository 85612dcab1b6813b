/** The pure helpers of the notifier: dotted-path lookup, template
    rendering, number formatting and `${NAME}` expansion. */
module Utils {
  import opened Wrappers
  import opened Numbers
  import opened Json
  import opened Fixed
  import opened Seqs

  // ---------------------------------------------------------------------
  // get_by_path
  // ---------------------------------------------------------------------

  /** Python's `s.split(".")`: never empty, empty segments kept. */
  function Split(s: string): (parts: seq<string>)
    ensures |parts| >= 1
    decreases |s|
  {
    var i := IndexOfChar(s, '.');
    if i == |s| then [s] else [s[..i]] + Split(s[i + 1..])
  }

  /** Python's `".".join(parts)`. */
  function Join(parts: seq<string>): string
    requires |parts| >= 1
  {
    if |parts| == 1 then parts[0] else parts[0] + "." + Join(parts[1..])
  }

  /** Joining the segments of a split gives the original text back. */
  lemma {:induction false} JoinSplit(s: string)
    ensures Join(Split(s)) == s
    decreases |s|
  {
    var i := IndexOfChar(s, '.');
    if i < |s| {
      JoinSplit(s[i + 1..]);
      assert s == s[..i] + "." + s[i + 1..];
    }
  }

  /** Splitting `p.q` splits `p` and `q` separately. */
  lemma {:induction false} SplitDotted(p: string, q: string)
    ensures Split(p + "." + q) == Split(p) + Split(q)
    decreases |p|, 1
  {
    if IndexOfChar(p, '.') == |p| {
      SplitDottedLast(p, q);
    } else {
      SplitDottedInner(p, q);
    }
  }

  /** `p` holds no dot: the first segment of `p.q` is `p` itself. */
  lemma SplitDottedLast(p: string, q: string)
    requires IndexOfChar(p, '.') == |p|
    ensures Split(p + "." + q) == Split(p) + Split(q)
  {
    var s := p + ("." + q);
    assert s == p + "." + q;
    IndexOfCharAbsent(p, "." + q, '.');
    SplitAt(s, |p|);
    assert s[..|p|] == p;
    assert s[|p| + 1..] == q;
  }

  /** `p` holds a dot: `p.q` and `p` share their first segment. */
  lemma {:induction false} SplitDottedInner(p: string, q: string)
    requires IndexOfChar(p, '.') < |p|
    ensures Split(p + "." + q) == Split(p) + Split(q)
    decreases |p|, 0
  {
    var s := p + ("." + q);
    assert s == p + "." + q;
    var i := IndexOfChar(p, '.');
    IndexOfCharPresent(p, "." + q, '.');
    SplitAt(s, i);
    SplitAt(p, i);
    assert s[..i] == p[..i];
    assert s[i + 1..] == p[i + 1..] + "." + q;
    SplitDotted(p[i + 1..], q);
    var head, tail := [p[..i]], Split(p[i + 1..]);
    AppendAssoc(head, tail, Split(q));
  }

  /** The split of a string whose first dot is at `i`. */
  lemma SplitAt(s: string, i: nat)
    requires i < |s| && IndexOfChar(s, '.') == i
    ensures Split(s) == [s[..i]] + Split(s[i + 1..])
  {
  }

  /** Walking a list of keys down nested dicts; anything that is not a dict
      holding the next key ends the walk with `None`. */
  function Walk(data: Value, parts: seq<string>): Value
  {
    if parts == [] then data
    else if data.JObj? && parts[0] in data.fields then Walk(data.fields[parts[0]], parts[1..])
    else JNull
  }

  /** The value `get_by_path(data, path)` returns. */
  function Lookup(data: Value, path: Option<string>): Value
  {
    if path == None || path.value == "" then data else Walk(data, Split(path.value))
  }

  /** `get_by_path`: walks the dot-separated segments with a cursor. */
  method GetByPath(data: Value, path: Option<string>) returns (r: Value)
    ensures r == Lookup(data, path)
    ensures path == None || path.value == "" ==> r == data
  {
    if path == None || path.value == "" {
      return data;
    }
    var parts := Split(path.value);
    var cur := data;
    var i := 0;
    while i < |parts|
      invariant 0 <= i <= |parts|
      invariant Walk(cur, parts[i..]) == Walk(data, parts)
    {
      assert parts[i..][1..] == parts[i + 1..];
      if cur.JObj? && parts[i] in cur.fields {
        cur := cur.fields[parts[i]];
      } else {
        return JNull;
      }
      i := i + 1;
    }
    return cur;
  }

  lemma {:induction false} WalkAppend(data: Value, a: seq<string>, b: seq<string>)
    requires b != []
    ensures Walk(data, a + b) == Walk(Walk(data, a), b)
  {
    if a != [] {
      assert (a + b)[0] == a[0];
      assert (a + b)[1..] == a[1..] + b;
      if data.JObj? && a[0] in data.fields {
        WalkAppend(data.fields[a[0]], a[1..], b);
      }
    } else {
      assert a + b == b;
    }
  }

  /** Looking up `p.q` is looking up `q` inside the result of looking up `p`. */
  lemma LookupDotted(data: Value, p: string, q: string)
    requires p != "" && q != ""
    ensures Lookup(data, Some(p + "." + q)) == Lookup(Lookup(data, Some(p)), Some(q))
  {
    SplitDotted(p, q);
    WalkAppend(data, Split(p), Split(q));
  }

  /** Once a prefix of the path reaches something that is not a dict (a list,
      a scalar, or a missing key), the whole lookup yields `None`. */
  lemma LookupThroughNonObject(data: Value, p: string, q: string)
    requires p != "" && q != ""
    requires !Lookup(data, Some(p)).JObj?
    ensures Lookup(data, Some(p + "." + q)) == JNull
  {
    LookupDotted(data, p, q);
  }

  // ---------------------------------------------------------------------
  // SafeFormatDict / render_template
  // ---------------------------------------------------------------------

  /** A piece of a parsed format string. */
  datatype Piece = Literal(c: char) | Field(name: string)

  /** A replacement field the model resolves as a plain mapping key.
      Auto-numbered (`{}`) and positional (`{0}`) fields fail under
      `format_map`; attribute, index, conversion and format-spec syntax is
      treated as a failure too. */
  predicate IsPlainName(name: string)
  {
    && name != ""
    && !AllDigits(name)
    && forall i :: 0 <= i < |name| ==> name[i] !in "{}[].!:"
  }

  function Prepend(p: Piece, r: Option<seq<Piece>>): Option<seq<Piece>>
  {
    match r
    case None => None
    case Some(ps) => Some([p] + ps)
  }

  /** Parsing a format string as `str.format_map` does; `None` stands for the
      `ValueError` a single `{` or `}` raises. */
  function Tokenize(t: string): Option<seq<Piece>>
    decreases |t|
  {
    if t == "" then Some([])
    else if t[0] == '{' && |t| >= 2 && t[1] == '{' then Prepend(Literal('{'), Tokenize(t[2..]))
    else if t[0] == '}' && |t| >= 2 && t[1] == '}' then Prepend(Literal('}'), Tokenize(t[2..]))
    else if t[0] == '}' then None
    else if t[0] == '{' then
      var j := IndexOfChar(t[1..], '}');
      if j == |t| - 1 then None
      else if IsPlainName(t[1..1 + j]) then Prepend(Field(t[1..1 + j]), Tokenize(t[j + 2..]))
      else None
    else Prepend(Literal(t[0]), Tokenize(t[1..]))
  }

  /** What `SafeFormatDict` yields for a key: `""` for a missing key and for a
      `None` value, otherwise `str(value)`. */
  function FieldText(mapping: Record, name: string): string
  {
    if name in mapping && mapping[name] != JNull then Str(mapping[name]) else ""
  }

  /** The text one piece contributes. */
  function PieceText(p: Piece, mapping: Record): string
  {
    match p
    case Literal(c) => [c]
    case Field(name) => FieldText(mapping, name)
  }

  function Emit(ps: seq<Piece>, mapping: Record): string
  {
    if ps == [] then "" else PieceText(ps[0], mapping) + Emit(ps[1..], mapping)
  }

  /** `render_template`: the formatted text, or the template itself when
      formatting raises. */
  function RenderTemplate(template: string, mapping: Record): string
  {
    match Tokenize(template)
    case None => template
    case Some(ps) => Emit(ps, mapping)
  }

  function AppendPieces(x: Option<seq<Piece>>, y: Option<seq<Piece>>): Option<seq<Piece>>
  {
    if x.Some? && y.Some? then Some(x.value + y.value) else None
  }

  lemma PrependAppend(p: Piece, x: Option<seq<Piece>>, y: Option<seq<Piece>>)
    ensures Prepend(p, AppendPieces(x, y)) == AppendPieces(Prepend(p, x), y)
  {
    if x.Some? && y.Some? {
      assert [p] + (x.value + y.value) == ([p] + x.value) + y.value;
    }
  }

  /** A template that parses on its own parses the same way in front of any
      text: the parse of `a + b` is the parse of `a` followed by that of `b`. */
  lemma {:induction false} TokenizeAppend(a: string, b: string)
    requires Tokenize(a).Some?
    ensures Tokenize(a + b) == AppendPieces(Tokenize(a), Tokenize(b))
    decreases |a|
  {
    if a == "" {
      assert a + b == b;
      if Tokenize(b).Some? {
        assert [] + Tokenize(b).value == Tokenize(b).value;
      }
      return;
    }
    var s := a + b;
    assert s[0] == a[0];
    if |a| >= 2 {
      assert s[1] == a[1];
    }
    if a[0] == '{' && |a| >= 2 && a[1] == '{' {
      assert s[2..] == a[2..] + b;
      TokenizeAppend(a[2..], b);
      PrependAppend(Literal('{'), Tokenize(a[2..]), Tokenize(b));
    } else if a[0] == '}' && |a| >= 2 && a[1] == '}' {
      assert s[2..] == a[2..] + b;
      TokenizeAppend(a[2..], b);
      PrependAppend(Literal('}'), Tokenize(a[2..]), Tokenize(b));
    } else if a[0] == '{' {
      var j := IndexOfChar(a[1..], '}');
      assert s[1..] == a[1..] + b;
      IndexOfCharPresent(a[1..], b, '}');
      assert s[1..1 + j] == a[1..1 + j];
      assert s[j + 2..] == a[j + 2..] + b;
      TokenizeAppend(a[j + 2..], b);
      PrependAppend(Field(a[1..1 + j]), Tokenize(a[j + 2..]), Tokenize(b));
    } else {
      assert s[1..] == a[1..] + b;
      TokenizeAppend(a[1..], b);
      PrependAppend(Literal(a[0]), Tokenize(a[1..]), Tokenize(b));
    }
  }

  lemma {:induction false} EmitAppend(x: seq<Piece>, y: seq<Piece>, mapping: Record)
    ensures Emit(x + y, mapping) == Emit(x, mapping) + Emit(y, mapping)
  {
    hide PieceText;
    if x != [] {
      assert (x + y)[0] == x[0];
      assert (x + y)[1..] == x[1..] + y;
      EmitAppend(x[1..], y, mapping);
      AppendAssoc(PieceText(x[0], mapping), Emit(x[1..], mapping), Emit(y, mapping));
    } else {
      assert x + y == y;
    }
  }

  /** Rendering distributes over two well-formed templates. */
  lemma RenderAppend(a: string, b: string, mapping: Record)
    requires Tokenize(a).Some? && Tokenize(b).Some?
    ensures RenderTemplate(a + b, mapping) == RenderTemplate(a, mapping) + RenderTemplate(b, mapping)
  {
    TokenizeAppend(a, b);
    EmitAppend(Tokenize(a).value, Tokenize(b).value, mapping);
  }

  /** One literal piece per character. */
  function Literals(t: string): seq<Piece>
  {
    if t == "" then [] else [Literal(t[0])] + Literals(t[1..])
  }

  /** Text without braces parses into literal pieces and renders as itself. */
  lemma {:induction false} RenderLiteral(t: string, mapping: Record)
    requires forall i :: 0 <= i < |t| ==> t[i] != '{' && t[i] != '}'
    ensures Tokenize(t) == Some(Literals(t))
    ensures RenderTemplate(t, mapping) == t
    decreases |t|
  {
    if t != "" {
      RenderLiteral(t[1..], mapping);
      assert t == [t[0]] + t[1..];
    }
  }

  /** A single `{name}` renders as the value's text, and as `""` when the key
      is missing or its value is `None`. */
  lemma RenderPlaceholder(name: string, mapping: Record)
    requires IsPlainName(name)
    ensures Tokenize("{" + name + "}") == Some([Field(name)])
    ensures RenderTemplate("{" + name + "}", mapping)
         == if name in mapping && mapping[name] != JNull then Str(mapping[name]) else ""
  {
    var t := "{" + name + "}";
    assert t[0] == '{' && t[1] == name[0] && |t| == |name| + 2;
    assert t[1..] == name + "}";
    assert IndexOfChar(name, '}') == |name|;
    IndexOfCharAbsent(name, "}", '}');
    assert IndexOfChar(t[1..], '}') == |name|;
    assert t[1..1 + |name|] == name;
    assert t[|name| + 2..] == "";
    assert Tokenize(t) == Prepend(Field(name), Tokenize(""));
    assert [Field(name)] + [] == [Field(name)];
    assert Emit([Field(name)], mapping) == FieldText(mapping, name) + Emit([], mapping);
  }

  /** A `{` that is never closed makes formatting raise, so the template is
      returned unchanged. */
  lemma RenderUnclosedBrace(a: string, rest: string, mapping: Record)
    requires Tokenize(a).Some?
    requires forall i :: 0 <= i < |rest| ==> rest[i] != '{' && rest[i] != '}'
    ensures RenderTemplate(a + "{" + rest, mapping) == a + "{" + rest
  {
    var t := "{" + rest;
    assert t[1..] == rest;
    assert IndexOfChar(rest, '}') == |rest|;
    assert Tokenize(t) == None;
    TokenizeAppend(a, t);
    assert a + t == a + "{" + rest;
  }

  /** A single `}` makes formatting raise, so the template is returned
      unchanged. */
  lemma RenderStrayClosingBrace(a: string, rest: string, mapping: Record)
    requires Tokenize(a).Some?
    requires rest == "" || rest[0] != '}'
    ensures RenderTemplate(a + "}" + rest, mapping) == a + "}" + rest
  {
    var t := "}" + rest;
    assert Tokenize(t) == None;
    TokenizeAppend(a, t);
    assert a + t == a + "}" + rest;
  }

  /** Text followed by a placeholder whose key is missing renders as the text
    alone: `render_template("x={missing}", {})` is `"x="`. */
  lemma RenderMissingField(text: string, name: string, mapping: Record)
    requires forall i :: 0 <= i < |text| ==> text[i] != '{' && text[i] != '}'
    requires IsPlainName(name) && name !in mapping
    ensures RenderTemplate(text + "{" + name + "}", mapping) == text
  {
    hide Tokenize, Emit, Str, RenderTemplate;
    RenderLiteral(text, mapping);
    RenderPlaceholder(name, mapping);
    RenderAppend(text, "{" + name + "}", mapping);
    AppendAssoc(text + "{", name, "}");
    AppendAssoc(text, "{", name);
    AppendAssoc(text, "{" + name, "}");
    assert text + "" == text;
  }

  // ---------------------------------------------------------------------
  // format_number_2dp_no_sci / format_numbers_in_mapping
  // ---------------------------------------------------------------------

  /** `d.quantize(Decimal("0.01"), rounding=ROUND_HALF_UP)`, as the magnitude
      in hundredths. */
  function Hundredths(d: Decimal): nat
  {
    var p := Pow10(d.scale);
    DivBounds(200 * d.coefficient + p, 2 * p);
    (200 * d.coefficient + p) / (2 * p)
  }

  /** `Hundredths` is the nearest hundredth, ties away from zero:
      `q` is the unique count with `2pq <= 200c + p < 2p(q + 1)`. */
  lemma {:induction false} HundredthsNearest(d: Decimal)
    ensures var p := Pow10(d.scale);
            var q := Hundredths(d);
            2 * p * q <= 200 * d.coefficient + p < 2 * p * (q + 1)
  {
    var p := Pow10(d.scale);
    DivBounds(200 * d.coefficient + p, 2 * p);
  }

  /** The decimal branch of `format_number_2dp_no_sci`. The sign survives a
      rounding to zero, as with Python's `Decimal`. */
  function FormatDecimal(d: Decimal): string
  {
    (if d.negative then "-" else "") + TwoPlaces(Hundredths(d))
  }

  /** `format_number_2dp_no_sci`. */
  function FormatNumber(v: Value): (s: string)
    ensures !v.JFloat? ==> s == Str(v)
  {
    match v
    case JBool(_) => Str(v)
    case JInt(_) => Str(v)
    case JFloat(d) => FormatDecimal(d)
    case _ => Str(v)
  }

  /** The value the printed text stands for. */
  function Rounded(d: Decimal): real
  {
    var magnitude := Hundredths(d) as real / 100.0;
    if d.negative then -magnitude else magnitude
  }

  /** The rounding is half-up on the magnitude: never more than half a cent
      below, at most half a cent above (exactly half on a tie). */
  lemma {:induction false} RoundedWithinHalfCent(d: Decimal)
    ensures var x := d.coefficient as real / Pow10(d.scale) as real;
            var y := Hundredths(d) as real / 100.0;
            x - 0.005 < y <= x + 0.005
  {
    var n := Pow10(d.scale);
    var k := Hundredths(d);
    var c := d.coefficient;
    HundredthsNearest(d);
    MulToReal(2 * n, k);
    MulToReal(2 * n, k + 1);
    MulToReal(200, c);
    HalfCentBounds(c as real, n as real, k as real);
  }

  /** Reading the printed text back with `float` gives the rounded value. */
  lemma {:induction false} FormatDecimalParses(d: Decimal)
    ensures ParseNumber(FormatDecimal(d)) == Some(Rounded(d))
  {
    hide ParseNumber, ParseDecimal, ParseUnsigned, TwoPlaces, Hundredths;
    SignedTwoPlacesPlain(d.negative, Hundredths(d));
    PlainParse(FormatDecimal(d));
    SignedTwoPlacesParses(d.negative, Hundredths(d));
  }

  /** Fixed-point text: the digits left of the point are all kept, at most
      two digits follow it, and neither a trailing `.` nor a trailing
      fractional `0` remains. */
  lemma {:induction false} FormatDecimalShape(d: Decimal)
    ensures FixedShape(FormatDecimal(d), (if d.negative then "-" else "") + NatToString(Hundredths(d) / 100))
  {
    SignedTwoPlacesShape(d.negative, Hundredths(d));
  }

  /** `isinstance(v, (int, float, Decimal)) and not isinstance(v, bool)`. */
  predicate IsNumber(v: Value)
  {
    v.JInt? || v.JFloat?
  }

  /** One entry of `format_numbers_in_mapping`. */
  function FormatField(v: Value): Value
  {
    if IsNumber(v) then JStr(FormatNumber(v)) else v
  }

  function FormattedMapping(mapping: Record): Record
  {
    map k | k in mapping :: FormatField(mapping[k])
  }

  /** `format_numbers_in_mapping`: same keys; numbers replaced by their
      formatted text, everything else (bools included) kept. */
  method FormatNumbersInMapping(mapping: Record) returns (formatted: Record)
    ensures formatted.Keys == mapping.Keys
    ensures forall k :: k in mapping && IsNumber(mapping[k]) ==> formatted[k] == JStr(FormatNumber(mapping[k]))
    ensures forall k :: k in mapping && !IsNumber(mapping[k]) ==> formatted[k] == mapping[k]
    ensures formatted == FormattedMapping(mapping)
  {
    hide FormatNumber;
    formatted := map[];
    var todo := mapping.Keys;
    while todo != {}
      invariant todo <= mapping.Keys
      invariant formatted.Keys == mapping.Keys - todo
      invariant forall k :: k in formatted ==> formatted[k] == FormatField(mapping[k])
      decreases |todo|
    {
      var k :| k in todo;
      var v := mapping[k];
      if IsNumber(v) {
        formatted := formatted[k := JStr(FormatNumber(v))];
      } else {
        formatted := formatted[k := v];
      }
      todo := todo - {k};
    }
  }

  // ---------------------------------------------------------------------
  // expand_env_vars
  // ---------------------------------------------------------------------

  predicate IsNameChar(c: char)
  {
    'A' <= c <= 'Z' || '0' <= c <= '9' || c == '_'
  }

  /** Length of the leading run of `[A-Z0-9_]` characters. */
  function NameRun(s: string): (n: nat)
    ensures n <= |s|
    ensures forall i :: 0 <= i < n ==> IsNameChar(s[i])
    ensures n < |s| ==> !IsNameChar(s[n])
  {
    if s != [] && IsNameChar(s[0]) then 1 + NameRun(s[1..]) else 0
  }

  /** The length of NAME when `s` starts with a match of `\$\{([A-Z0-9_]+)\}`. */
  function PlaceholderAt(s: string): Option<nat>
  {
    if |s| >= 2 && s[0] == '$' && s[1] == '{' then
      var n := NameRun(s[2..]);
      if n > 0 && 2 + n < |s| && s[2 + n] == '}' then Some(n) else None
    else None
  }

  /** `_ENV_PATTERN.sub(repl, s)`: each match, left to right and without
      overlap, replaced by the variable's value or `""`. */
  function ExpandString(s: string, env: map<string, string>): string
    decreases |s|
  {
    if s == [] then []
    else match PlaceholderAt(s)
      case Some(n) => (if s[2..2 + n] in env then env[s[2..2 + n]] else "") + ExpandString(s[3 + n..], env)
      case None => [s[0]] + ExpandString(s[1..], env)
  }

  /** `expand_env_vars`: strings expanded, dict values and list elements
      expanded recursively, everything else returned as it is. */
  function ExpandEnvVars(v: Value, env: map<string, string>): (r: Value)
    ensures v.JList? ==> r.JList? && |r.items| == |v.items|
    ensures v.JObj? ==> r.JObj? && r.fields.Keys == v.fields.Keys
    ensures !v.JStr? && !v.JList? && !v.JObj? ==> r == v
  {
    match v
    case JStr(s) => JStr(ExpandString(s, env))
    case JList(xs) => JList(seq(|xs|, i requires 0 <= i < |xs| => ExpandEnvVars(xs[i], env)))
    case JObj(m) => JObj(map k | k in m :: ExpandEnvVars(m[k], env))
    case _ => v
  }

  /** Text with no `$` is left alone. */
  lemma {:induction false} ExpandNoDollar(s: string, env: map<string, string>)
    requires forall i :: 0 <= i < |s| ==> s[i] != '$'
    ensures ExpandString(s, env) == s
    decreases |s|
  {
    if s != [] {
      ExpandNoDollar(s[1..], env);
      assert s == [s[0]] + s[1..];
    }
  }

  /** `${NAME}` with NAME in `[A-Z0-9_]+` is replaced by its value, or by
      `""` when it is unset; the rest is expanded on its own. */
  lemma ExpandPlaceholder(name: string, rest: string, env: map<string, string>)
    requires name != [] && forall i :: 0 <= i < |name| ==> IsNameChar(name[i])
    ensures ExpandString("${" + name + "}" + rest, env)
         == (if name in env then env[name] else "") + ExpandString(rest, env)
  {
    var s := "${" + name + "}" + rest;
    assert s[2..] == name + ("}" + rest);
    NameRunStops(name, "}" + rest);
    assert s[2..2 + |name|] == name;
    assert s[3 + |name|..] == rest;
  }

  lemma {:induction false} NameRunStops(name: string, tail: string)
    requires forall i :: 0 <= i < |name| ==> IsNameChar(name[i])
    requires tail != [] && !IsNameChar(tail[0])
    ensures NameRun(name + tail) == |name|
  {
    if name != [] {
      assert (name + tail)[0] == name[0];
      assert (name + tail)[1..] == name[1..] + tail;
      NameRunStops(name[1..], tail);
    } else {
      assert name + tail == tail;
    }
  }

  /** A name outside `[A-Z0-9_]+`, such as a lower-case one, stays literal. */
  lemma ExpandInvalidNameLiteral(name: string, env: map<string, string>)
    requires forall i :: 0 <= i < |name| ==> name[i] != '$' && name[i] != '}'
    requires exists i :: 0 <= i < |name| && !IsNameChar(name[i])
    ensures ExpandString("${" + name + "}", env) == "${" + name + "}"
  {
    var s := "${" + name + "}";
    assert s[2..] == name + "}";
    var n := NameRun(s[2..]);
    assert n < |name| by {
      var k :| 0 <= k < |name| && !IsNameChar(name[k]);
      assert s[2..][k] == name[k];
    }
    assert s[2 + n] == name[n];
    assert PlaceholderAt(s) == None;
    assert s[1..] == "{" + name + "}";
    ExpandNoDollar(s[1..], env);
  }
}
