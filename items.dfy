/**
 * Stored records. The Python code passes dictionaries whose fields are chosen by
 * the caller; an item is therefore a map from attribute name to value, and money
 * amounts (`20.0` dollars) are integer cents (`Num(2000)`).
 */
module Items {
  import opened Wrappers

  datatype Value =
    | Null
    | Bool(b: bool)
    | Num(n: int)
    | Str(s: string)
    | List(elems: seq<Value>)
    | Record(fields: map<string, Value>)

  type Item = map<string, Value>

  /** The exceptions the modelled code raises, by Python class. */
  datatype Error =
    | ValueError(msg: string)       // raised by the code itself
    | ValidationError(msg: string)  // the store refuses a key or a parameter
    | TypeError(msg: string)        // a value of the wrong kind reaches an operator
    | KeyError(msg: string)         // `d[k]` on a missing key
    | UpstreamError(msg: string)    // a collaborator (S3, the language model, ...) failed

  /** `item.get(name)`: the value, or `None` when the attribute is absent. */
  function Get(item: Item, name: string): (v: Value)
    ensures name !in item ==> v == Null
    ensures name in item ==> v == item[name]
  {
    if name in item then item[name] else Null
  }

  /** `item.get(name, default)`. */
  function GetOr(item: Item, name: string, default: Value): (v: Value)
    ensures name !in item ==> v == default
    ensures name in item ==> v == item[name]
  {
    if name in item then item[name] else default
  }

  /** Python truthiness of a stored value. */
  predicate Truthy(v: Value) {
    match v
    case Null => false
    case Bool(b) => b
    case Num(n) => n != 0
    case Str(s) => s != ""
    case List(xs) => xs != []
    case Record(m) => m != map[]
  }

  /** The string in attribute `name`, when there is one. */
  function StrAttr(item: Item, name: string): (r: Option<string>)
    ensures r.Some? <==> name in item && item[name].Str?
    ensures r.Some? ==> item[name] == Str(r.value)
  {
    if name in item && item[name].Str? then Some(item[name].s) else None
  }

  /** The number in attribute `name`, when there is one. */
  function NumAttr(item: Item, name: string): (r: Option<int>)
    ensures r.Some? <==> name in item && item[name].Num?
    ensures r.Some? ==> item[name] == Num(r.value)
  {
    if name in item && item[name].Num? then Some(item[name].n) else None
  }

  /**
   * `{**defaults, **data}`: the fields of both, and where both have a field the
   * caller's `data` wins, since it is spread last.
   */
  function Merge(defaults: Item, data: Item): (r: Item)
    ensures r.Keys == defaults.Keys + data.Keys
    ensures forall k :: k in data ==> r[k] == data[k]
    ensures forall k :: k in defaults && k !in data ==> r[k] == defaults[k]
  {
    defaults + data
  }
}
