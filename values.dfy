/** Python values as the webhook handlers see them: decoded JSON payloads, the
    truthiness and equality rules Python applies to them, and the few builtins
    (`dict.get`, `str`, `int(float(...))`, `str.lower`) the handlers call. */
module Values {

  datatype Option<+T> = None | Some(value: T)

  /** An exception the source lets escape, named by its Python class.
      `ApiError` stands for any error raised by the Proxmox or Netbox client. */
  datatype Fault = TypeError | AttributeError | ValueError | OverflowError | ApiError

  datatype Result<+T> = Ok(value: T) | Err(fault: Fault)

  /** A decoded JSON value (or a Python value of the same shape). */
  datatype Json =
    | Null
    | Bool(b: bool)
    | Int(i: int)
    | Real(r: real)
    | Str(s: string)
    | Obj(fields: map<string, Json>)
    | Arr(items: seq<Json>)

  /** What `float(s)` gives for a string it accepts: a finite number, an
      infinity ("inf", "1e999") or a NaN ("nan"). */
  datatype Float = Finite(x: real) | Infinite | NotANumber

  /** What the model takes as given from Python and its libraries: each is an
      uninterpreted function the model never looks inside. */
  datatype Runtime = Runtime(
    repr: Json -> string,                           // str() of a float, a dict or a list
    parseFloat: string -> Option<Float>,            // float(s), None when it raises
    utf8: string -> seq<bv8>,                       // s.encode()
    hmacSha512Hex: (seq<bv8>, seq<bv8>) -> string)  // hmac.new(key, msg, sha512).hexdigest()

  /** Python's `bool(v)`. */
  predicate Truthy(v: Json)
    ensures !Truthy(v) <==> v in {Null, Bool(false), Int(0), Real(0.0), Str(""), Obj(map[]), Arr([])}
  {
    match v
    case Null => false
    case Bool(b) => b
    case Int(i) => i != 0
    case Real(r) => r != 0.0
    case Str(s) => s != ""
    case Obj(m) => |m| != 0
    case Arr(xs) => |xs| != 0
  }

  /** `d.get(key, default)`; anything but a dict has no `get`. */
  function Get(d: Json, key: string, default: Json): (r: Result<Json>)
    ensures r.Err? <==> !d.Obj?
    ensures r.Err? ==> r.fault == AttributeError
  {
    match d
    case Obj(m) => Ok(if key in m then m[key] else default)
    case _ => Err(AttributeError)
  }

  /** `m.get(key)` on a dict known to be one: None when the key is absent. */
  function At(m: map<string, Json>, key: string): (v: Json)
    ensures Get(Obj(m), key, Null) == Ok(v)
  {
    if key in m then m[key] else Null
  }

  /** The value of a number (bool counts as 0 or 1), None for anything else. */
  function Numeric(v: Json): (r: Option<real>) {
    match v
    case Bool(b) => Some(if b then 1.0 else 0.0)
    case Int(i) => Some(i as real)
    case Real(r) => Some(r)
    case _ => None
  }

  /** Python's `a == b`: numbers compare by value across bool, int and float;
      other values compare structurally. */
  predicate PyEq(a: Json, b: Json)
    ensures a == b ==> PyEq(a, b)
    ensures a.Str? || b.Str? || a.Obj? || b.Obj? ==> (PyEq(a, b) <==> a == b)
    ensures a.Int? && b.Int? ==> (PyEq(a, b) <==> a.i == b.i)
    ensures a.Bool? && b.Int? ==> (PyEq(a, b) <==> b.i == if a.b then 1 else 0)
  {
    if Numeric(a).Some? && Numeric(b).Some? then Numeric(a).value == Numeric(b).value
    else a == b
  }

  function DigitChar(d: nat): (c: char)
    requires d < 10
  {
    "0123456789"[d]
  }

  function Digits(n: nat): (s: string)
    ensures |s| > 0
    ensures forall k :: 0 <= k < |s| ==> '0' <= s[k] <= '9'
  {
    if n < 10 then [DigitChar(n)] else Digits(n / 10) + [DigitChar(n % 10)]
  }

  /** `str(i)` for an int. */
  function Decimal(i: int): (s: string) {
    if i < 0 then "-" + Digits(-i) else Digits(i)
  }

  /** Python's `str(v)`, also what an f-string renders. */
  function PyStr(rt: Runtime, v: Json): (s: string)
    ensures v.Str? ==> s == v.s
    ensures v.Int? ==> |s| > 0 && (s[0] == '-' <==> v.i < 0)
    ensures v.Int? && v.i >= 0 ==> forall k :: 0 <= k < |s| ==> '0' <= s[k] <= '9'
  {
    match v
    case Null => "None"
    case Bool(b) => if b then "True" else "False"
    case Int(i) => Decimal(i)
    case Str(s) => s
    case _ => rt.repr(v)
  }

  /** `int(x)` for a float x: truncation toward zero. */
  function Trunc(x: real): (t: int)
    ensures x >= 0.0 ==> t >= 0 && t as real <= x < t as real + 1.0
    ensures x < 0.0 ==> t <= 0 && t as real - 1.0 < x <= t as real
  {
    if x >= 0.0 then x.Floor else -((-x).Floor)
  }

  /** `int(float(v))`. A string goes through the runtime's float parser;
      an infinity overflows and a NaN is a value error. */
  function IntOfFloat(rt: Runtime, v: Json): (r: Result<int>)
    ensures v.Int? ==> r == Ok(v.i)
    ensures v.Null? || v.Obj? || v.Arr? ==> r == Err(TypeError)
    ensures v.Str? && rt.parseFloat(v.s) == Some(Infinite) ==> r == Err(OverflowError)
    ensures v.Str? && rt.parseFloat(v.s) in {None, Some(NotANumber)} ==> r == Err(ValueError)
    ensures r.Err? ==> r.fault in {TypeError, ValueError, OverflowError}
  {
    match v
    case Null => Err(TypeError)
    case Bool(b) => Ok(if b then 1 else 0)
    case Int(i) => Ok(i)
    case Real(x) => Ok(Trunc(x))
    case Str(s) =>
      (match rt.parseFloat(s)
       case Some(Finite(x)) => Ok(Trunc(x))
       case Some(Infinite) => Err(OverflowError)
       case Some(NotANumber) => Err(ValueError)
       case None => Err(ValueError))
    case _ => Err(TypeError)
  }

  function LowerChar(c: char): (l: char) {
    if 'A' <= c <= 'Z' then (c as int + 32) as char else c
  }

  /** `s.lower()`, on ASCII letters. */
  function Lower(s: string): (r: string)
    ensures |r| == |s|
    ensures forall k :: 0 <= k < |s| ==> r[k] == LowerChar(s[k])
  {
    if s == [] then [] else [LowerChar(s[0])] + Lower(s[1..])
  }

  lemma LowerIdempotent(s: string)
    ensures Lower(Lower(s)) == Lower(s)
  {
  }
}
