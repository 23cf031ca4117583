/**
 * JSON values as both halves of the application see them: the browser code
 * (JavaScript truthiness, property access) and the Flask backend (Python
 * truthiness, `in`, `dict.get`).
 */
module Json {

  import Text

  datatype Option<+T> = None | Some(value: T)

  /** A parsed JSON value. Numbers are integers in this model. */
  datatype Json =
    | JNull
    | JBool(b: bool)
    | JNum(n: int)
    | JStr(s: string)
    | JArr(items: seq<Json>)
    | JObj(fields: map<string, Json>)

  /** Outcome of a Python expression that may raise (KeyError, TypeError, ...). */
  datatype Py<+T> = Ok(value: T) | Raise

  /** JavaScript truthiness: arrays and objects are always truthy. */
  predicate JsTruthy(v: Json) {
    match v
    case JNull => false
    case JBool(b) => b
    case JNum(n) => n != 0
    case JStr(s) => s != ""
    case JArr(_) => true
    case JObj(_) => true
  }

  /** Python truthiness: empty lists and dicts are falsy. */
  predicate PyTruthy(v: Json) {
    match v
    case JNull => false
    case JBool(b) => b
    case JNum(n) => n != 0
    case JStr(s) => s != ""
    case JArr(xs) => |xs| != 0
    case JObj(m) => |m| != 0
  }

  /** The two notions differ exactly on empty containers. */
  lemma TruthinessDiffersOnEmptyContainers(v: Json)
    ensures JsTruthy(v) != PyTruthy(v) <==> v == JArr([]) || v == JObj(map[])
  {
    match v
    case JArr(xs) =>
      assert |xs| == 0 ==> xs == [];
    case JObj(m) =>
      assert |m| == 0 ==> m == map[];
    case _ =>
  }

  /** `key in container` in Python; None when Python raises TypeError. */
  function PyIn(key: string, container: Json): (r: Option<bool>)
    ensures r.None? <==> !(container.JObj? || container.JArr? || container.JStr?)
    ensures container.JObj? ==> r == Some(key in container.fields)
    ensures container.JArr? ==> r == Some(JStr(key) in container.items)
    ensures container.JStr? ==> r == Some(Text.Contains(container.s, key))
  {
    match container
    case JObj(m) => Some(key in m)
    case JArr(xs) => Some(JStr(key) in xs)
    case JStr(s) => Some(Text.Contains(s, key))
    case _ => None
  }

  /** `d.get(key, default)` on a Python dict. */
  function PyGet(m: map<string, Json>, key: string, default: Json): (r: Json)
    ensures key in m ==> r == m[key]
    ensures key !in m ==> r == default
  {
    if key in m then m[key] else default
  }
}
