/** The untyped JavaScript values that reach the tool dispatcher inside a
    call's `arguments` bag, with the two JavaScript operations the dispatcher
    applies to them: truthiness (`!v`) and `typeof`. Numbers are integers. */
module JsValue {
  import opened Wrappers

  datatype Value =
    | Undefined
    | Null
    | Bool(b: bool)
    | Number(n: int)
    | Str(s: string)
    | Array(items: seq<Value>)
    | Object(fields: map<string, Value>)

  /** A call's `arguments`: the SDK passes either an object or nothing at all. */
  type Args = Option<map<string, Value>>

  /** JavaScript truthiness; `!v` in the source is `!Truthy(v)`. */
  predicate Truthy(v: Value)
    ensures !Truthy(v) <==> v in {Undefined, Null, Bool(false), Number(0), Str("")}
  {
    match v
    case Undefined => false
    case Null => false
    case Bool(b) => b
    case Number(n) => n != 0
    case Str(s) => s != ""
    case Array(_) => true
    case Object(_) => true
  }

  /** The JavaScript `typeof` operator (`typeof null` is "object"). */
  function TypeOf(v: Value): (t: string)
    ensures t == "number" <==> v.Number?
  {
    match v
    case Undefined => "undefined"
    case Null => "object"
    case Bool(_) => "boolean"
    case Number(_) => "number"
    case Str(_) => "string"
    case Array(_) => "object"
    case Object(_) => "object"
  }

  /** Optional-chaining lookup `args?.key`: `undefined` when the bag is
      absent or does not hold the key. */
  function Get(args: Args, key: string): (v: Value)
    ensures args.Some? && key in args.value ==> v == args.value[key]
    ensures v != Undefined ==> args.Some? && key in args.value
  {
    match args
    case None => Undefined
    case Some(fields) => if key in fields then fields[key] else Undefined
  }
}
