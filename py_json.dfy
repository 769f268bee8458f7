/** Python values as they flow through the ledger and the AML code: the JSON-compatible
    objects that `json.load` produces and that the code builds as dicts, together with the
    parts of Python's own semantics the code relies on (truth values, `==` across numeric
    types, `int()`/`float()` conversions and the exceptions they raise, `str()` formatting,
    `s[start:]` slicing). */
module PyJson {

  datatype Option<+T> = None | Some(value: T)

  /** A JSON-compatible Python value. Floats are modelled as exact reals. */
  datatype Json =
    | JNull
    | JBool(b: bool)
    | JInt(i: int)
    | JFloat(r: real)
    | JStr(s: string)
    | JList(items: seq<Json>)
    | JObj(fields: map<string, Json>)

  /** A `Dict[str, Any]`. */
  type Dict = map<string, Json>

  /** The exceptions the conversions below can raise. */
  datatype PyError = TypeError | ValueError | OverflowError | KeyError | IndexError | AttributeError

  /** The outcome of a Python expression that may raise. */
  datatype Conv<+T> = Ok(value: T) | Raise(error: PyError)

  /** Parts of the Python runtime that are foreign to this model: the string parsers behind
      `int(s)` and `float(s)` (None when they raise ValueError) and `str()` of a float, a list
      or a dict. */
  datatype Builtins = Builtins(
    parseInt: string -> Option<int>,
    parseFloat: string -> Option<real>,
    repr: Json -> string)

  /** `d.get(key, default)` */
  function Get(d: Dict, key: string, default: Json): (v: Json)
    ensures key in d ==> v == d[key]
    ensures key !in d ==> v == default
  {
    if key in d then d[key] else default
  }

  /** Python's truth value of a JSON value (`if v:`, `v or default`). */
  predicate Truthy(v: Json)
  {
    match v
    case JNull => false
    case JBool(b) => b
    case JInt(i) => i != 0
    case JFloat(r) => r != 0.0
    case JStr(s) => s != ""
    case JList(xs) => xs != []
    case JObj(m) => m != map[]
  }

  /** `v or default` */
  function Or(v: Json, default: Json): (r: Json)
    ensures Truthy(v) ==> r == v
    ensures !Truthy(v) ==> r == default
  {
    if Truthy(v) then v else default
  }

  /** The numeric value of a bool, int or float (bool is a subclass of int in Python). */
  function NumValue(v: Json): Option<real>
  {
    match v
    case JBool(b) => Some(if b then 1.0 else 0.0)
    case JInt(i) => Some(i as real)
    case JFloat(r) => Some(r)
    case _ => None
  }

  /** Python's `==` on JSON values: numbers compare by value across bool, int and float;
      lists elementwise; dicts by keys and values. */
  predicate PyEq(a: Json, b: Json)
    decreases a
  {
    if NumValue(a).Some? || NumValue(b).Some? then
      NumValue(a) == NumValue(b)
    else
      match a
      case JNull => b.JNull?
      case JStr(s) => b.JStr? && b.s == s
      case JList(xs) =>
        b.JList? && |xs| == |b.items| && forall k :: 0 <= k < |xs| ==> PyEq(xs[k], b.items[k])
      case JObj(m) =>
        b.JObj? && m.Keys == b.fields.Keys && forall k :: k in m ==> PyEq(m[k], b.fields[k])
      case _ => false
  }

  /** Only a str equals a str in Python. */
  lemma {:induction false} PyEqStr(v: Json, s: string)
    ensures PyEq(v, JStr(s)) <==> v == JStr(s)
    ensures PyEq(JStr(s), v) <==> v == JStr(s)
  {
  }

  lemma {:induction false} PyEqReflexive(v: Json)
    ensures PyEq(v, v)
    decreases v
  {
    match v
    case JList(xs) =>
      forall k | 0 <= k < |xs| ensures PyEq(xs[k], xs[k]) {
        PyEqReflexive(xs[k]);
      }
    case JObj(m) =>
      forall k | k in m ensures PyEq(m[k], m[k]) {
        PyEqReflexive(m[k]);
      }
    case _ =>
  }

  /** Lists and dicts are unhashable: using one as a set member or dict key raises TypeError. */
  predicate Hashable(v: Json)
  {
    !v.JList? && !v.JObj?
  }

  // ---------------------------------------------------------------------------------------
  // Decimal formatting of Python ints (`str(i)`, `f"{i}"`)
  // ---------------------------------------------------------------------------------------

  function DigitChar(d: nat): char
    requires d < 10
  {
    "0123456789"[d]
  }

  predicate IsDigit(c: char)
  {
    '0' <= c <= '9'
  }

  function NatToDecimal(n: nat): (s: string)
    ensures |s| > 0 && forall k :: 0 <= k < |s| ==> IsDigit(s[k])
    decreases n
  {
    if n < 10 then [DigitChar(n)] else NatToDecimal(n / 10) + [DigitChar(n % 10)]
  }

  /** `str(i)` for a Python int. */
  function IntToDecimal(i: int): string
  {
    if i < 0 then "-" + NatToDecimal(-i) else NatToDecimal(i)
  }

  /** The value of a string of decimal digits. */
  function DigitsValue(s: string): (v: int)
    requires forall k :: 0 <= k < |s| ==> IsDigit(s[k])
    ensures v >= 0
  {
    if s == [] then 0
    else
      assert IsDigit(s[|s| - 1]);
      DigitsValue(s[..|s| - 1]) * 10 + (s[|s| - 1] as int - '0' as int)
  }

  /** Reads back what IntToDecimal writes: an optional '-' and decimal digits. */
  function DecimalValue(s: string): Option<int>
  {
    if |s| > 0 && s[0] == '-' then
      if |s| > 1 && forall k :: 1 <= k < |s| ==> IsDigit(s[k]) then Some(-DigitsValue(s[1..])) else None
    else if |s| > 0 && forall k :: 0 <= k < |s| ==> IsDigit(s[k]) then Some(DigitsValue(s))
    else None
  }

  lemma {:induction false} NatToDecimalValue(n: nat)
    ensures DigitsValue(NatToDecimal(n)) == n
    decreases n
  {
    if n >= 10 {
      var s := NatToDecimal(n);
      NatToDecimalValue(n / 10);
      assert s[..|s| - 1] == NatToDecimal(n / 10);
    }
  }

  /** A '-' followed by the digits of `n` reads back as `-n`. */
  lemma NegativeRoundTrip(n: nat)
    ensures DecimalValue("-" + NatToDecimal(n)) == Some(-(n as int))
  {
    var d := NatToDecimal(n);
    var s := "-" + d;
    assert s[1..] == d;
    forall k | 1 <= k < |s| ensures IsDigit(s[k]) {
      assert s[k] == d[k - 1];
    }
    NatToDecimalValue(n);
  }

  /** The digits of `n` read back as `n`. */
  lemma NonNegativeRoundTrip(n: nat)
    ensures DecimalValue(NatToDecimal(n)) == Some(n)
  {
    var d := NatToDecimal(n);
    assert IsDigit(d[0]);
    NatToDecimalValue(n);
  }

  /** Formatting an int in decimal loses nothing. */
  lemma {:induction false} DecimalRoundTrip(i: int)
    ensures DecimalValue(IntToDecimal(i)) == Some(i)
  {
    if i < 0 {
      NegativeRoundTrip(-i);
      assert IntToDecimal(i) == "-" + NatToDecimal(-i);
    } else {
      NonNegativeRoundTrip(i);
      assert IntToDecimal(i) == NatToDecimal(i);
    }
  }

  /** Distinct ints are formatted differently. */
  lemma IntToDecimalInjective(i: int, j: int)
    requires IntToDecimal(i) == IntToDecimal(j)
    ensures i == j
  {
    DecimalRoundTrip(i);
    DecimalRoundTrip(j);
  }

  // ---------------------------------------------------------------------------------------
  // int(), float(), str()
  // ---------------------------------------------------------------------------------------

  /** Truncation toward zero, as `int(x)` does on a float. */
  function Trunc(r: real): (t: int)
    ensures 0.0 <= r ==> t as real <= r < t as real + 1.0
    ensures r < 0.0 ==> t as real - 1.0 < r <= t as real
  {
    if r >= 0.0 then r.Floor else -((-r).Floor)
  }

  function Pow2(n: nat): (p: nat)
    ensures p > 0
  {
    if n == 0 then 1 else 2 * Pow2(n - 1)
  }

  /** `float(i)` raises OverflowError for an int whose rounded value reaches 2^1024. */
  const FloatOverflowBound: int := Pow2(1024) - Pow2(970)

  /** `int(v)` */
  function PyInt(py: Builtins, v: Json): (r: Conv<int>)
    ensures r.Raise? ==> r.error == TypeError || r.error == ValueError
    ensures v.JInt? ==> r == Ok(v.i)
    ensures v.JList? || v.JObj? || v.JNull? ==> r == Raise(TypeError)
  {
    match v
    case JNull => Raise(TypeError)
    case JBool(b) => Ok(if b then 1 else 0)
    case JInt(i) => Ok(i)
    case JFloat(r) => Ok(Trunc(r))
    case JStr(s) => (match py.parseInt(s) case Some(i) => Ok(i) case None => Raise(ValueError))
    case JList(_) => Raise(TypeError)
    case JObj(_) => Raise(TypeError)
  }

  /** `float(v)` */
  function PyFloat(py: Builtins, v: Json): (r: Conv<real>)
    ensures r.Raise? ==> r.error in {TypeError, ValueError, OverflowError}
    ensures r.Raise? && r.error == OverflowError ==> v.JInt? && FloatOverflowBound <= if v.i < 0 then -v.i else v.i
    ensures v.JFloat? ==> r == Ok(v.r)
    ensures v.JList? || v.JObj? || v.JNull? ==> r == Raise(TypeError)
  {
    match v
    case JNull => Raise(TypeError)
    case JBool(b) => Ok(if b then 1.0 else 0.0)
    case JInt(i) => if FloatOverflowBound <= (if i < 0 then -i else i) then Raise(OverflowError) else Ok(i as real)
    case JFloat(r) => Ok(r)
    case JStr(s) => (match py.parseFloat(s) case Some(x) => Ok(x) case None => Raise(ValueError))
    case JList(_) => Raise(TypeError)
    case JObj(_) => Raise(TypeError)
  }

  /** `str(v)`, which is also what an f-string substitutes. */
  function Str(py: Builtins, v: Json): (t: string)
    ensures v.JStr? ==> t == v.s
    ensures v.JInt? ==> t == IntToDecimal(v.i)
  {
    match v
    case JNull => "None"
    case JBool(b) => if b then "True" else "False"
    case JInt(i) => IntToDecimal(i)
    case JStr(s) => s
    case _ => py.repr(v)
  }

  // ---------------------------------------------------------------------------------------
  // Sequences
  // ---------------------------------------------------------------------------------------

  /** Python's `s[start:]`: a negative start counts from the end, and either bound is clamped. */
  function SliceFrom<T>(s: seq<T>, start: int): (r: seq<T>)
    ensures |r| == (if start < 0 then (if -start < |s| then -start else |s|)
                    else if start < |s| then |s| - start else 0)
    ensures r == s[|s| - |r|..]
  {
    var b := if start < 0 then (if |s| + start < 0 then 0 else |s| + start)
             else if start > |s| then |s| else start;
    s[b..]
  }

  function Reverse<T>(s: seq<T>): (r: seq<T>)
    ensures |r| == |s|
    ensures forall k :: 0 <= k < |s| ==> r[k] == s[|s| - 1 - k]
  {
    if s == [] then [] else Reverse(s[1..]) + [s[0]]
  }

  predicate StartsWith(s: string, prefix: string)
  {
    |prefix| <= |s| && s[..|prefix|] == prefix
  }
}
