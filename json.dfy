/**
 * Parsed JSON values as the server sees them after `JSON.parse`, together with
 * the three JavaScript operations the server applies to them: property access,
 * truthiness and `typeof`.
 */
module JsonModel {
  import opened Wrappers

  /** A JSON value. Objects are maps: a repeated key keeps its last value, as `JSON.parse` does. */
  datatype Json =
    | JNull
    | JBool(b: bool)
    | JNum(n: real)
    | JStr(s: string)
    | JArr(elems: seq<Json>)
    | JObj(fields: map<string, Json>)

  /**
   * `v.key` (or `v?.key`): the own property `key` of an object, and absent
   * (`undefined`) for every other value. None of the property names the server
   * reads is inherited from the Object, Array or String prototypes, so own
   * properties are all there is to see.
   */
  function Field(v: Json, key: string): Option<Json>
  {
    match v
    case JObj(fields) => if key in fields then Some(fields[key]) else None
    case _ => None
  }

  /** JavaScript truthiness of a parsed JSON value (`NaN` cannot come out of `JSON.parse`). */
  predicate Truthy(v: Json)
  {
    match v
    case JNull => false
    case JBool(b) => b
    case JNum(n) => n != 0.0
    case JStr(s) => s != ""
    case JArr(_) => true
    case JObj(_) => true
  }

  /** JavaScript `typeof` of a parsed JSON value; `null` and arrays are both "object". */
  function TypeOf(v: Json): string
  {
    match v
    case JNull => "object"
    case JBool(_) => "boolean"
    case JNum(_) => "number"
    case JStr(_) => "string"
    case JArr(_) => "object"
    case JObj(_) => "object"
  }

  /** `v.key` when it is a string (`typeof v.key === 'string'`). */
  function StringField(v: Json, key: string): Option<string>
  {
    match Field(v, key)
    case Some(JStr(s)) => Some(s)
    case _ => None
  }

  /** `v.key` when it is an array (`Array.isArray(v.key)`). */
  function ArrayField(v: Json, key: string): Option<seq<Json>>
  {
    match Field(v, key)
    case Some(JArr(elems)) => Some(elems)
    case _ => None
  }
}
