/** JavaScript values as far as the playground's handlers and hooks inspect them. */
module JsValues {

  datatype Option<+T> = None | Some(value: T) {
    function GetOr(default: T): T {
      match this
      case Some(v) => v
      case None => default
    }
  }

  /** A JavaScript value: what a parsed JSON request body holds, plus `undefined` and `NaN`. */
  datatype JsValue =
    | Undefined
    | Null
    | Bool(b: bool)
    | Num(n: real)
    | NaN
    | Str(s: string)
    | Arr(elems: seq<JsValue>)
    | Obj(fields: map<string, JsValue>)

  /** JavaScript truthiness: `undefined`, `null`, `false`, `0`, `NaN` and `""` are falsy, everything else is truthy. */
  predicate Truthy(v: JsValue) {
    match v
    case Undefined => false
    case Null => false
    case Bool(b) => b
    case Num(n) => n != 0.0
    case NaN => false
    case Str(s) => s != ""
    case Arr(_) => true
    case Obj(_) => true
  }

  /**
   * The property read `v.key` for a key that names no built-in property (such as "code"):
   * a TypeError (None) on `undefined` and `null`, the own field of an object, `undefined` otherwise.
   */
  function Prop(v: JsValue, key: string): (r: Option<JsValue>)
    ensures r.None? <==> (v.Undefined? || v.Null?)
    ensures r.Some? && r.value != Undefined ==> v.Obj? && key in v.fields && v.fields[key] == r.value
  {
    match v
    case Undefined => None
    case Null => None
    case Obj(fields) => if key in fields then Some(fields[key]) else Some(Undefined)
    case _ => Some(Undefined)
  }

  /** An array of JavaScript strings, as `res.json` receives a `string[]`. */
  function StrArray(items: seq<string>): (r: JsValue)
    ensures r.Arr? && |r.elems| == |items|
    ensures forall i :: 0 <= i < |items| ==> r.elems[i] == Str(items[i])
  {
    Arr(seq(|items|, i requires 0 <= i < |items| => Str(items[i])))
  }

  /** The JSON object `{ error: message }` the handlers send on a rejected request. */
  function ErrorObject(message: string): JsValue {
    Obj(map["error" := Str(message)])
  }
}
