/**
 * JSON-like values as the backend (Python dicts from `json.loads` and dict literals) and the
 * frontend (axios payloads) exchange them, together with the two languages' rules for reading
 * them: member lookup, JavaScript and Python truthiness, and JavaScript's `??`.
 */
module Json {

  datatype Option<T> = None | Some(value: T) {
    /** The value, or `default` when there is none. */
    function GetOr(default: T): T {
      if Some? then value else default
    }
  }

  /**
   * A JSON value. An object maps its keys to its members; the order in which Python dicts and
   * JavaScript objects list their members is not part of the model.
   */
  datatype Json =
    | JNull
    | JBool(b: bool)
    | JNum(n: real)
    | JStr(s: string)
    | JArr(items: seq<Json>)
    | JObj(fields: map<string, Json>)

  /** The member named `key`, if any. */
  function Lookup(fields: map<string, Json>, key: string): (r: Option<Json>)
    ensures r.Some? <==> key in fields
    ensures r.Some? ==> r.value == fields[key]
  {
    if key in fields then Some(fields[key]) else None
  }

  /**
   * JavaScript's `v.key` and `v?.key` on a parsed JSON value, reading own members only:
   * `undefined` (None) unless `v` is an object with that member. None of the keys this model
   * reads names a member that objects, arrays, numbers or booleans inherit from their
   * prototypes; the one inherited member a string has among them (`match`) is modelled in
   * the Verify module.
   */
  function Prop(v: Json, key: string): (r: Option<Json>)
    ensures !v.JObj? ==> r.None?
    ensures v.JObj? ==> r == Lookup(v.fields, key)
  {
    if v.JObj? then Lookup(v.fields, key) else None
  }

  /** `v?.key` where `v` may itself be `undefined`. */
  function PropOf(v: Option<Json>, key: string): (r: Option<Json>)
    ensures v.None? ==> r.None?
    ensures v.Some? ==> r == Prop(v.value, key)
  {
    if v.Some? then Prop(v.value, key) else None
  }

  /** JavaScript's nullish test: `undefined` or `null`. */
  predicate Nullish(v: Option<Json>) {
    v.None? || v.value.JNull?
  }

  /** JavaScript's `a ?? b`: `b` exactly when `a` is `undefined` or `null`. */
  function Coalesce(a: Option<Json>, b: Option<Json>): (r: Option<Json>)
    ensures !Nullish(a) ==> r == a
    ensures Nullish(a) ==> r == b
  {
    if Nullish(a) then b else a
  }

  /**
   * JavaScript truthiness of a (possibly `undefined`) JSON value: `undefined`, `null`,
   * `false`, `0` and `""` are falsy; every array and object, even an empty one, is truthy.
   */
  predicate JsTruthy(v: Option<Json>) {
    match v
    case None => false
    case Some(JNull) => false
    case Some(JBool(b)) => b
    case Some(JNum(n)) => n != 0.0
    case Some(JStr(s)) => s != ""
    case Some(JArr(_)) => true
    case Some(JObj(_)) => true
  }

  /** Python truthiness of a JSON value: empty lists and dicts are falsy too. */
  predicate PyTruthy(v: Json) {
    match v
    case JNull => false
    case JBool(b) => b
    case JNum(n) => n != 0.0
    case JStr(s) => s != ""
    case JArr(items) => items != []
    case JObj(fields) => fields != map[]
  }

  /** Python's `d.get(key, default)` on a dict. */
  function PyGet(fields: map<string, Json>, key: string, default: Json): (r: Json)
    ensures key in fields ==> r == fields[key]
    ensures key !in fields ==> r == default
  {
    Lookup(fields, key).GetOr(default)
  }
}
