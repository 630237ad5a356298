/** Values exchanged with a TP-Link device: the JSON-like payloads of sys_info and
    light-state replies, the requests sent to the device, and the Python behaviour
    (truthiness, int(), isinstance, subscripting) the device classes rely on. */
module Values {

  /** A decoded JSON value as found in a device reply or a request payload. */
  datatype Value =
    | Null
    | Bool(b: bool)
    | Int(i: int)
    | Str(s: string)
    | List(items: seq<Value>)
    | Obj(fields: map<string, Value>)

  /** The exceptions the device classes raise. */
  datatype Error =
    | KeyError(key: string)          // a missing dictionary key
    | TypeError                      // an operation applied to a value of the wrong type
    | AttributeError(name: string)   // a method called on a value that lacks it
    | ValueError(what: string)       // an argument outside its valid range
    | DeviceError(message: string)   // SmartDeviceException
    | UnboundLocalError(name: string)

  datatype Result<+T> = Ok(value: T) | Err(error: Error) {
    predicate IsFailure() { Err? }

    function PropagateFailure<U>(): Result<U>
      requires Err?
    {
      Err(error)
    }

    function Extract(): T
      requires Ok?
    {
      value
    }
  }

  datatype Option<+T> = None | Some(value: T)

  /** One request sent through the device protocol: module, command and parameters. */
  datatype Request = Request(service: string, command: string, params: map<string, Value>)

  /** Python's bool(v). */
  predicate Truthy(v: Value)
  {
    match v
    case Null => false
    case Bool(b) => b
    case Int(i) => i != 0
    case Str(s) => s != ""
    case List(items) => items != []
    case Obj(fields) => fields != map[]
  }

  /** Python's isinstance(v, int): bool is a subclass of int. */
  predicate IsInt(v: Value)
  {
    v.Int? || v.Bool?
  }

  /** The integer an int (or bool) value stands for in arithmetic and comparisons. */
  function IntOf(v: Value): int
    requires IsInt(v)
  {
    if v.Int? then v.i else if v.b then 1 else 0
  }

  /** isinstance(v, int) and lo <= v <= hi. */
  predicate InRange(v: Value, lo: int, hi: int)
  {
    IsInt(v) && lo <= IntOf(v) <= hi
  }

  /** Python's int(v) on the values a device reply carries. */
  function ToInt(v: Value): (r: Result<int>)
    ensures r.Ok? <==> IsInt(v)
    ensures r.Ok? ==> r.value == IntOf(v)
  {
    match v
    case Int(i) => Ok(i)
    case Bool(b) => Ok(if b then 1 else 0)
    case Str(_) => Err(ValueError("int"))
    case _ => Err(TypeError)
  }

  /** d[key] on a dictionary. */
  function Lookup(d: map<string, Value>, key: string): (r: Result<Value>)
    ensures r.Ok? <==> key in d
    ensures r.Ok? ==> r.value == d[key]
    ensures r.Err? ==> r.error == KeyError(key)
  {
    if key in d then Ok(d[key]) else Err(KeyError(key))
  }

  /** bool(d[key]). */
  function KeyFlag(d: map<string, Value>, key: string): (r: Result<bool>)
    ensures r.Ok? <==> key in d
    ensures r.Ok? ==> (r.value <==> Truthy(d[key]))
    ensures r.Err? ==> r.error == KeyError(key)
  {
    var v :- Lookup(d, key);
    Ok(Truthy(v))
  }

  /** v[key] with a string key: only a dictionary can be subscripted that way. */
  function Index(v: Value, key: string): (r: Result<Value>)
    ensures r.Ok? <==> v.Obj? && key in v.fields
    ensures r.Ok? ==> r.value == v.fields[key]
  {
    if v.Obj? then Lookup(v.fields, key) else Err(TypeError)
  }

  /** str.lower restricted to ASCII letters. */
  function LowerChar(c: char): char
  {
    if 'A' <= c <= 'Z' then (c as int + 32) as char else c
  }

  function Lower(s: string): (r: string)
    ensures |r| == |s|
    ensures forall i :: 0 <= i < |s| ==> r[i] == LowerChar(s[i])
  {
    seq(|s|, i requires 0 <= i < |s| => LowerChar(s[i]))
  }
}
