/** Python runtime values and exceptions as the rest of the model sees them.
    The configuration maps handed to the record constructors are loosely typed:
    every field may hold any of these values. */
module PyValues {

  datatype Option<+T> = None | Some(value: T) {
    function GetOr(default: T): T {
      match this
      case Some(v) => v
      case None => default
    }
  }

  /** The exceptions the modelled code can raise. */
  datatype PyError =
    | KeyError(key: string)
    | TypeError
    | ZeroDivisionError
    | ValueError
    | AttributeError

  datatype Result<+T> = Ok(value: T) | Err(error: PyError) {
    predicate IsFailure() { Err? }
    function PropagateFailure<U>(): Result<U>
      requires Err?
    {
      Err(error)
    }
    function Extract(): T
      requires Ok?
    {
      value
    }
  }

  /** A value of the loaded configuration (booleans are not modelled). */
  datatype Value =
    | Int(i: int)
    | Real(r: real)
    | Str(s: string)
    | NoneV
    | List(items: seq<Value>)
    | Dict(entries: map<string, Value>)

  predicate IsNumber(v: Value) {
    v.Int? || v.Real?
  }

  /** The numeric value of an int or a float. */
  function AsReal(v: Value): real
    requires IsNumber(v)
  {
    if v.Int? then v.i as real else v.r
  }

  /** Python `a + b`: int + int stays int, a float operand makes a float,
      strings and lists concatenate, anything else is a TypeError. */
  function Add(a: Value, b: Value): (r: Result<Value>)
    ensures IsNumber(a) && IsNumber(b) ==> r.Ok? && IsNumber(r.value) && AsReal(r.value) == AsReal(a) + AsReal(b)
    ensures (IsNumber(a) && !IsNumber(b)) || (!IsNumber(a) && IsNumber(b)) ==> r == Err(TypeError)
  {
    match (a, b)
    case (Int(x), Int(y)) => Ok(Int(x + y))
    case (Int(x), Real(y)) => Ok(Real(x as real + y))
    case (Real(x), Int(y)) => Ok(Real(x + y as real))
    case (Real(x), Real(y)) => Ok(Real(x + y))
    case (Str(x), Str(y)) => Ok(Str(x + y))
    case (List(x), List(y)) => Ok(List(x + y))
    case _ => Err(TypeError)
  }

  /** Python `a - b` on numbers; anything else is a TypeError. */
  function Sub(a: Value, b: Value): (r: Result<Value>)
    ensures r.Ok? <==> IsNumber(a) && IsNumber(b)
    ensures r.Ok? ==> IsNumber(r.value) && AsReal(r.value) == AsReal(a) - AsReal(b)
  {
    match (a, b)
    case (Int(x), Int(y)) => Ok(Int(x - y))
    case (Int(x), Real(y)) => Ok(Real(x as real - y))
    case (Real(x), Int(y)) => Ok(Real(x - y as real))
    case (Real(x), Real(y)) => Ok(Real(x - y))
    case _ => Err(TypeError)
  }

  /** Python true division `a / b`: the operand types are checked first,
      then a zero divisor raises ZeroDivisionError; the result is a float. */
  function TrueDiv(a: Value, b: Value): (r: Result<Value>)
    ensures !(IsNumber(a) && IsNumber(b)) ==> r == Err(TypeError)
    ensures IsNumber(a) && IsNumber(b) && AsReal(b) == 0.0 ==> r == Err(ZeroDivisionError)
    ensures IsNumber(a) && IsNumber(b) && AsReal(b) != 0.0 ==> r == Ok(Real(AsReal(a) / AsReal(b)))
  {
    if !(IsNumber(a) && IsNumber(b)) then Err(TypeError)
    else if AsReal(b) == 0.0 then Err(ZeroDivisionError)
    else Ok(Real(AsReal(a) / AsReal(b)))
  }

  /** A hashable dictionary key. Python's `1 == 1.0` with equal hashes makes an
      int and a float of the same value one key. */
  datatype HashKey = NumKey(n: real) | StrKey(s: string) | NoneKey

  /** The key a value stands for in a dict; lists and dicts are unhashable. */
  function KeyOf(v: Value): (r: Result<HashKey>)
    ensures r.Err? <==> v.List? || v.Dict?
    ensures r.Err? ==> r.error == TypeError
    ensures IsNumber(v) ==> r == Ok(NumKey(AsReal(v)))
  {
    match v
    case Int(i) => Ok(NumKey(i as real))
    case Real(x) => Ok(NumKey(x))
    case Str(s) => Ok(StrKey(s))
    case NoneV => Ok(NoneKey)
    case _ => Err(TypeError)
  }
}
