/**
 * The JavaScript values a parsed JSON request body can hold, with the three
 * operations the request handler applies to them: optional property access
 * (`v?.key`), `typeof`, and truthiness.
 */
module JsValues {

  /** Numbers are kept as integers; NaN and fractions play no part in the checks. */
  datatype JsValue =
    | Undefined
    | Null
    | Bool(b: bool)
    | Num(n: int)
    | Str(s: string)
    | Arr(items: seq<JsValue>)
    | Obj(fields: map<string, JsValue>)

  /** `v?.key`: a missing key, or a value that is not an object, gives `undefined`. */
  function Field(v: JsValue, key: string): JsValue
  {
    if v.Obj? && key in v.fields then v.fields[key] else Undefined
  }

  /** `typeof v`. */
  function TypeOf(v: JsValue): string
  {
    match v
    case Undefined => "undefined"
    case Null => "object"
    case Bool(_) => "boolean"
    case Num(_) => "number"
    case Str(_) => "string"
    case Arr(_) => "object"
    case Obj(_) => "object"
  }

  /** JavaScript truthiness: `undefined`, `null`, `false`, `0` and `""` are falsy. */
  predicate Truthy(v: JsValue)
  {
    match v
    case Undefined => false
    case Null => false
    case Bool(b) => b
    case Num(n) => n != 0
    case Str(s) => s != ""
    case Arr(_) => true
    case Obj(_) => true
  }

  lemma StringTypeIsStr(v: JsValue)
    ensures TypeOf(v) == "string" <==> v.Str?
  {
    if !v.Str? {
      assert TypeOf(v) != "string" by {
        assert "undefined" != "string" && "object" != "string";
        assert "boolean" != "string" && "number" != "string";
      }
    }
  }

  /** A plain object with the given string-valued `role` and `content` keys. */
  function RoleContent(role: string, content: string): (v: JsValue)
    ensures Field(v, "role") == Str(role) && Field(v, "content") == Str(content)
  {
    Obj(map["role" := Str(role), "content" := Str(content)])
  }
}
