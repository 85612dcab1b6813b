/** The JSON-like values every component passes around (parsed HTTP
    responses, records, configuration, persisted state), with the pieces of
    Python's object semantics the core relies on: truthiness, `==`,
    `float(...)` and `str(...)`. */
module Json {
  import opened Wrappers
  import opened Numbers

  /** An exact decimal `(-1)^negative * coefficient / 10^scale`. The sign is
      kept apart from the coefficient, as in Python's `Decimal`, so that a
      negative zero can be told from a positive one. Python floats are modelled
      as the exact decimal that `str(float)` prints. */
  datatype Decimal = Decimal(negative: bool, coefficient: nat, scale: nat)

  function DecimalReal(d: Decimal): real
  {
    var magnitude := d.coefficient as real / Pow10(d.scale) as real;
    if d.negative then -magnitude else magnitude
  }

  datatype Value =
    | JNull
    | JBool(b: bool)
    | JInt(i: int)
    | JFloat(d: Decimal)
    | JStr(s: string)
    | JList(items: seq<Value>)
    | JObj(fields: map<string, Value>)

  /** A Python dict with string keys: one record, one tracking entry, one
      payload. */
  type Record = map<string, Value>

  /** `record.get(key)`: the stored value, or `None` when the key is missing. */
  function Get(r: Record, key: string): (v: Value)
    ensures key !in r ==> v == JNull
  {
    if key in r then r[key] else JNull
  }

  /** Python truthiness (`bool(v)`). */
  predicate Truthy(v: Value)
  {
    match v
    case JNull => false
    case JBool(b) => b
    case JInt(i) => i != 0
    case JFloat(d) => d.coefficient != 0
    case JStr(s) => s != ""
    case JList(xs) => xs != []
    case JObj(m) => m != map[]
  }

  /** `a or b`. */
  function Or(a: Value, b: Value): Value
  {
    if Truthy(a) then a else b
  }

  predicate IsNumeric(v: Value)
  {
    v.JBool? || v.JInt? || v.JFloat?
  }

  function NumericReal(v: Value): real
    requires IsNumeric(v)
  {
    match v
    case JBool(b) => if b then 1.0 else 0.0
    case JInt(i) => i as real
    case JFloat(d) => DecimalReal(d)
  }

  /** Python's `==` on JSON values: bools, ints and floats compare by value
      (`True == 1 == 1.0`), lists element-wise, dicts key-wise. */
  predicate PyEq(a: Value, b: Value)
  {
    if IsNumeric(a) && IsNumeric(b) then NumericReal(a) == NumericReal(b)
    else match (a, b)
      case (JNull, JNull) => true
      case (JStr(s), JStr(t)) => s == t
      case (JList(xs), JList(ys)) =>
        |xs| == |ys| && forall i :: 0 <= i < |xs| ==> PyEq(xs[i], ys[i])
      case (JObj(m), JObj(n)) =>
        m.Keys == n.Keys && forall k :: k in m ==> PyEq(m[k], n[k])
      case _ => false
  }

  /** Python's `float(v)`: `None` stands for the exception it raises. */
  function Float(v: Value): (r: Option<real>)
    ensures IsNumeric(v) ==> r == Some(NumericReal(v))
    ensures v.JNull? || v.JList? || v.JObj? ==> r == None
  {
    match v
    case JNull => None
    case JBool(_) => Some(NumericReal(v))
    case JInt(_) => Some(NumericReal(v))
    case JFloat(_) => Some(NumericReal(v))
    case JStr(s) => ParseNumber(s)
    case JList(_) => None
    case JObj(_) => None
  }

  /** The idiom `float(v or 0)`: a falsy value counts as zero, anything else
      goes through `float`. */
  function FloatOrZero(v: Value): (r: Option<real>)
    ensures !Truthy(v) ==> r == Some(0.0)
    ensures Truthy(v) ==> r == Float(v)
  {
    Float(Or(v, JInt(0)))
  }

  /** Digits of a decimal: integer part, and the fractional part with trailing
      zeros removed. */
  function FractionDigits(f: nat, width: nat): (s: string)
    ensures |s| == width
  {
    if width == 0 then "" else FractionDigits(f / 10, width - 1) + [DigitChar(f % 10)]
  }

  function TrimTrailingZeros(s: string): (t: string)
    ensures t == [] || t[|t| - 1] != '0'
  {
    if s == [] || s[|s| - 1] != '0' then s else TrimTrailingZeros(s[..|s| - 1])
  }

  /** The fractional digits `str(float)` prints: trailing zeros dropped, but
      at least one digit. */
  function FractionText(d: Decimal): string
  {
    var p := Pow10(d.scale);
    DivBounds(d.coefficient, p);
    var digits := TrimTrailingZeros(FractionDigits(d.coefficient % p, d.scale));
    if digits == "" then "0" else digits
  }

  /** Python's `str(float)` in fixed-point form. */
  function FloatToString(d: Decimal): string
  {
    var p := Pow10(d.scale);
    DivBounds(d.coefficient, p);
    (if d.negative then "-" else "") + NatToString(d.coefficient / p) + "." + FractionText(d)
  }

  /** Python's `str(v)`. Lists and dicts are shown as fixed placeholders. */
  function Str(v: Value): string
  {
    match v
    case JNull => "None"
    case JBool(b) => if b then "True" else "False"
    case JInt(i) => IntToString(i)
    case JFloat(d) => FloatToString(d)
    case JStr(s) => s
    case JList(_) => "[...]"
    case JObj(_) => "{...}"
  }

  /** `float(v or 0)` of a string that is a printed int is that int. */
  lemma FloatOrZeroOfIntString(i: int)
    ensures FloatOrZero(JStr(IntToString(i))) == Some(i as real)
  {
    ParseIntString(i);
  }

  /** `==` is reflexive on values, as Python's is on JSON data (no NaN here). */
  lemma {:induction false} PyEqReflexive(v: Value)
    ensures PyEq(v, v)
  {
    match v
    case JList(xs) =>
      forall i | 0 <= i < |xs| ensures PyEq(xs[i], xs[i]) { PyEqReflexive(xs[i]); }
    case JObj(m) =>
      forall k | k in m ensures PyEq(m[k], m[k]) { PyEqReflexive(m[k]); }
    case _ =>
  }

  /** `==` is symmetric. */
  lemma {:induction false} PyEqSymmetric(a: Value, b: Value)
    requires PyEq(a, b)
    ensures PyEq(b, a)
  {
    if !(IsNumeric(a) && IsNumeric(b)) {
      match (a, b)
      case (JList(xs), JList(ys)) =>
        forall i | 0 <= i < |ys| ensures PyEq(ys[i], xs[i]) { PyEqSymmetric(xs[i], ys[i]); }
      case (JObj(m), JObj(n)) =>
        forall k | k in n ensures PyEq(n[k], m[k]) { PyEqSymmetric(m[k], n[k]); }
      case _ =>
    }
  }
}
