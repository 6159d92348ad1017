/** The dynamically typed values the workflows keep in their state dictionaries
    and that JSON decoding produces, with Python's truthiness and `str()`. */
module Values {
  import opened Wrappers

  datatype Value =
    | Null
    | Bool(b: bool)
    | Int(i: int)
    | Float(r: real)
    | Str(s: string)
    | List(items: seq<Value>)
    | Dict(entries: map<string, Value>)

  /** Python's truth test: None, False, zero and empty containers are false. */
  predicate Truthy(v: Value) {
    match v
    case Null => false
    case Bool(b) => b
    case Int(i) => i != 0
    case Float(r) => r != 0.0
    case Str(s) => s != []
    case List(xs) => xs != []
    case Dict(m) => m != map[]
  }

  /** Python's `a or b`: the first operand when it is truthy, else the second. */
  function Or(a: Value, b: Value): (r: Value)
    ensures Truthy(a) ==> r == a
    ensures !Truthy(a) ==> r == b
  {
    if Truthy(a) then a else b
  }

  /** `d.get(k)`: the stored value, or None when the key is absent. */
  function Get<K>(d: map<K, Value>, k: K): Value {
    if k in d then d[k] else Null
  }

  /** `d.get(k, default)`: a key that is present wins even when it holds None. */
  function GetOr<K>(d: map<K, Value>, k: K, default: Value): Value {
    if k in d then d[k] else default
  }

  /** `d[k]`: raises KeyError when the key is absent. */
  function Subscript<K>(d: map<K, Value>, k: K, name: string): (r: Outcome<Value>)
    ensures r.Ok? <==> k in d
    ensures r.Ok? ==> r.value == d[k]
  {
    if k in d then Ok(d[k]) else Raise("KeyError: '" + name + "'")
  }

  /** Python's name of the type of a value, as exception messages print it. */
  function TypeName(v: Value): string {
    match v
    case Null => "NoneType"
    case Bool(_) => "bool"
    case Int(_) => "int"
    case Float(_) => "float"
    case Str(_) => "str"
    case List(_) => "list"
    case Dict(_) => "dict"
  }

  /** Python's iteration over a value: a list's items, a string's
      characters; numbers, booleans and None cannot be iterated. A dict would
      yield its keys in insertion order, which a map does not keep, so here it
      raises a message of the model's own rather than one Python prints. */
  function Iterate(v: Value): Outcome<seq<Value>> {
    match v
    case List(xs) => Ok(xs)
    case Str(s) => Ok(seq(|s|, i requires 0 <= i < |s| => Str([s[i]])))
    case Dict(_) => Raise("NotModelled: iterating the keys of a dict")
    case _ => Raise("TypeError: '" + TypeName(v) + "' object is not iterable")
  }

  /** Decimal digits of a natural number. */
  function NatToString(n: nat): (r: string)
    ensures |r| >= 1
  {
    if n < 10 then [Digit(n)] else NatToString(n / 10) + [Digit(n % 10)]
  }

  /** The decimal digit for `d`. */
  function Digit(d: nat): (c: char)
    requires d < 10
    ensures '0' <= c <= '9'
  {
    ('0' as int + d) as char
  }

  /** `str(n)` is made of decimal digits only. */
  lemma {:induction false} NatToStringDigits(n: nat)
    ensures forall i :: 0 <= i < |NatToString(n)| ==> '0' <= NatToString(n)[i] <= '9'
  {
    if n >= 10 {
      NatToStringDigits(n / 10);
    }
  }

  /** Python's `str(i)` for an integer. */
  function IntToString(i: int): string {
    if i < 0 then "-" + NatToString(-i) else NatToString(i)
  }

  /** Python's `str(v)` for the scalar values; floats, lists and dicts are
      rendered by their type name only (see README, Left out). */
  function PyStr(v: Value): string {
    match v
    case Null => "None"
    case Bool(b) => if b then "True" else "False"
    case Int(i) => IntToString(i)
    case Str(s) => s
    case _ => "<" + TypeName(v) + ">"
  }
}
