/** Decoded JSON values as the consumer sees them after json.loads, with the two
    pieces of Python semantics that process_order relies on: truthiness (the
    `if not order_id` guard) and the `*` operator (the `total` computation). */
module Values {

  datatype Option<+T> = None | Some(value: T)

  /** A JSON document as Python's json module decodes it. Numbers are exact:
      integers stay `Int`, numbers with a fraction or exponent become `Float`,
      whose rounding is not modelled. */
  datatype Value =
    | Null
    | Bool(b: bool)
    | Int(i: int)
    | Float(r: real)
    | Str(s: string)
    | Array(items: seq<Value>)
    | Object(fields: map<string, Value>)

  /** Python's truth value of a decoded value: None, False, zero, the empty
      string and empty containers are false, everything else is true. */
  predicate Truthy(v: Value)
    ensures IsNumber(v) ==> (Truthy(v) <==> AsNumber(v) != 0.0)
    ensures IsSequence(v) ==> (Truthy(v) <==> SeqLength(v) > 0)
  {
    match v
    case Null => false
    case Bool(b) => b
    case Int(i) => i != 0
    case Float(r) => r != 0.0
    case Str(s) => s != ""
    case Array(items) => items != []
    case Object(fields) => fields != map[]
  }

  /** dict.get(key, default): the default is used only when the key is absent,
      not when it is present with a null value. */
  function Lookup(fields: map<string, Value>, key: string, default: Value): (v: Value)
    ensures key in fields ==> v == fields[key]
    ensures key !in fields ==> v == default
  {
    if key in fields then fields[key] else default
  }

  /** Values Python multiplies arithmetically (bool is a subclass of int). */
  predicate IsNumber(v: Value) {
    v.Bool? || v.Int? || v.Float?
  }

  /** Values Python accepts as a repetition count: int and bool. */
  predicate IsCount(v: Value) {
    v.Bool? || v.Int?
  }

  /** Values Python repeats when multiplied by a count: str and list. */
  predicate IsSequence(v: Value) {
    v.Str? || v.Array?
  }

  function AsNumber(v: Value): real
    requires IsNumber(v)
  {
    match v
    case Bool(b) => if b then 1.0 else 0.0
    case Int(i) => i as real
    case Float(r) => r
  }

  function AsCount(v: Value): int
    requires IsCount(v)
  {
    match v
    case Bool(b) => if b then 1 else 0
    case Int(i) => i
  }

  /** `s * n` on a Python sequence: n copies of s one after another, empty
      when n <= 0. The result starts with s and repeats with period |s|. */
  function Repeat<T>(s: seq<T>, n: int): (r: seq<T>)
    ensures |r| == if n <= 0 then 0 else |s| * n
    ensures n > 0 ==> r[..|s|] == s
    ensures forall k :: |s| <= k < |r| ==> r[k] == r[k - |s|]
    decreases if n <= 0 then 0 else n
  {
    if n <= 0 then [] else s + Repeat(s, n - 1)
  }

  /** sys.maxsize on a 64-bit build: the largest index Python accepts. */
  const MaxSize: int := 0x7FFF_FFFF_FFFF_FFFF

  function SeqLength(v: Value): nat
    requires IsSequence(v)
  {
    match v
    case Str(s) => |s|
    case Array(items) => |items|
  }

  /** Python repeats a sequence only when the count fits in an index and the
      result is no longer than sys.maxsize; otherwise it raises OverflowError
      (MemoryError for a list). */
  predicate RepeatFits(v: Value, n: int)
    requires IsSequence(v)
  {
    -MaxSize - 1 <= n <= MaxSize && (n <= 0 || SeqLength(v) * n <= MaxSize)
  }

  function Repeated(v: Value, n: int): Value
    requires IsSequence(v)
  {
    match v
    case Str(s) => Str(Repeat(s, n))
    case Array(items) => Array(Repeat(items, n))
  }

  /** The least integer that Python cannot convert to a float: 2^1024 - 2^970,
      halfway between the largest double and 2^1024, which rounds up. */
  const FloatLimit: int := 0xffff_ffff_ffff_fc00_0000_0000_0000_0000_0000_0000_0000_0000_0000_0000_0000_0000_0000_0000_0000_0000_0000_0000_0000_0000_0000_0000_0000_0000_0000_0000_0000_0000_0000_0000_0000_0000_0000_0000_0000_0000_0000_0000_0000_0000_0000_0000_0000_0000_0000_0000_0000_0000_0000_0000_0000_0000_0000_0000_0000_0000_0000_0000_0000_0000

  /** Python converts an int operand to float before multiplying it by a
      float; an int of magnitude FloatLimit or more raises OverflowError. */
  predicate ConvertsToFloat(v: Value) {
    !v.Int? || -FloatLimit < v.i < FloatLimit
  }

  /** Python multiplies two numbers, unless one is a float and the other an
      int too large to convert to one. */
  predicate NumbersMultiply(a: Value, b: Value) {
    IsNumber(a) && IsNumber(b) && (a.Float? || b.Float? ==> ConvertsToFloat(a) && ConvertsToFloat(b))
  }

  /** Python's `a * b` on decoded values; None stands for the exception Python
      raises: a TypeError for every other combination of operand types, an
      OverflowError for an int beyond the float range times a float, and an
      OverflowError or MemoryError for a repetition that does not fit. */
  function Mul(a: Value, b: Value): (r: Option<Value>)
    ensures r.Some? <==>
      || NumbersMultiply(a, b)
      || (IsSequence(a) && IsCount(b) && RepeatFits(a, AsCount(b)))
      || (IsCount(a) && IsSequence(b) && RepeatFits(b, AsCount(a)))
    ensures IsNumber(a) && IsNumber(b) && r.Some? ==>
      IsNumber(r.value) && AsNumber(r.value) == AsNumber(a) * AsNumber(b)
    ensures IsNumber(a) && IsNumber(b) && r.Some? ==> (r.value.Float? <==> a.Float? || b.Float?)
    ensures IsNumber(a) && IsNumber(b) && !a.Float? && !b.Float? ==> r.Some? && r.value.Int?
    ensures IsSequence(a) && IsCount(b) && r.Some? ==> r.value == Repeated(a, AsCount(b))
    ensures IsCount(a) && IsSequence(b) && r.Some? ==> r.value == Repeated(b, AsCount(a))
  {
    if IsNumber(a) && IsNumber(b) then
      if a.Float? || b.Float? then
        if ConvertsToFloat(a) && ConvertsToFloat(b) then Some(Float(AsNumber(a) * AsNumber(b))) else None
      else Some(Int(AsCount(a) * AsCount(b)))
    else if IsSequence(a) && IsCount(b) then
      if RepeatFits(a, AsCount(b)) then Some(Repeated(a, AsCount(b))) else None
    else if IsCount(a) && IsSequence(b) then
      if RepeatFits(b, AsCount(a)) then Some(Repeated(b, AsCount(a))) else None
    else None
  }
}
