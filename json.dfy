/**
 * Values that travel through the relay: the result of `JSON.parse`, the raw
 * text of a non-JSON request body, and JavaScript's notion of a falsy value,
 * which decides whether a request body is published at all.
 */
module JsonValues {

  datatype Option<+T> = None | Some(value: T)

  /** A parsed JSON document. JavaScript numbers are modelled as reals. */
  datatype Json =
    | JNull
    | JBool(b: bool)
    | JNum(n: real)
    | JStr(s: string)
    | JArr(items: seq<Json>)
    | JObj(fields: seq<(string, Json)>)

  /** `JSON.parse` is an oracle: it either yields a document or throws. */
  type Parser = string -> Option<Json>

  /** What a publish carries as `data`: the body as text, or the parsed document. */
  datatype Payload = Raw(text: string) | Parsed(value: Json)

  /**
   * JavaScript truthiness of a parsed value: `null`, `false`, `0` and `""`
   * are falsy; every array and object is truthy, even an empty one.
   */
  predicate JsonTruthy(v: Json) {
    match v
    case JNull => false
    case JBool(b) => b
    case JNum(n) => n != 0.0
    case JStr(s) => s != ""
    case JArr(_) => true
    case JObj(_) => true
  }

  predicate PayloadTruthy(p: Payload) {
    match p
    case Raw(t) => t != ""
    case Parsed(v) => JsonTruthy(v)
  }

  /**
   * Whether `obj.toString()` throws a `TypeError` on a parsed value. An
   * object with its own "toString" key holds a non-callable value there, so
   * the call fails. An array's `toString` joins its elements, converting
   * each object element to a primitive: one with its own "toString" key
   * then has no usable conversion either. Every other value converts.
   */
  predicate ToStringThrows(v: Json) {
    match v
    case JObj(fields) => exists i :: 0 <= i < |fields| && fields[i].0 == "toString"
    case JArr(items) => exists e :: e in items && ToStringThrows(e)
    case _ => false
  }

  /** A raw body is a string, whose `toString` never throws. */
  predicate PayloadToStringThrows(p: Payload) {
    p.Parsed? && ToStringThrows(p.value)
  }
}
