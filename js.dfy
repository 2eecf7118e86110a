/**
 * The JavaScript values the webhook handler reads and writes, the byte strings
 * it hashes, and the host services (crypto, Buffer, querystring, JSON) it calls.
 * The host services are not specified here: they are the fields of `Runtime`,
 * supplied by the caller as total functions.
 */
module Js {
  import opened Wrappers

  type byte = b: int | 0 <= b < 256

  type Bytes = seq<byte>

  /** The output of HMAC-SHA1: always 20 bytes. */
  type Digest = d: Bytes | |d| == 20 witness [0, 0, 0, 0, 0, 0, 0, 0, 0, 0, 0, 0, 0, 0, 0, 0, 0, 0, 0, 0]

  /**
   * A JavaScript value built from JSON data, plus `undefined`. Objects are
   * their own data properties; NaN is not a value of this model.
   */
  datatype Value =
    | Undefined
    | Null
    | Bool(b: bool)
    | Num(n: real)
    | Str(s: string)
    | Arr(elems: seq<Value>)
    | Obj(fields: map<string, Value>)

  /** JavaScript's ToBoolean: what `if (v)`, `!v` and `v || w` test. */
  function Truthy(v: Value): (r: bool)
    ensures !r <==> v in {Undefined, Null, Bool(false), Num(0.0), Str("")}
  {
    match v
    case Undefined => false
    case Null => false
    case Bool(b) => b
    case Num(n) => n != 0.0
    case Str(s) => s != ""
    case Arr(_) => true
    case Obj(_) => true
  }

  /** The `typeof` operator. */
  function TypeOf(v: Value): (r: string)
    ensures r in {"undefined", "object", "boolean", "number", "string"}
    ensures r == "object" <==> v.Null? || v.Arr? || v.Obj?
    ensures r == "undefined" <==> v.Undefined?
  {
    match v
    case Undefined => "undefined"
    case Null => "object"
    case Bool(_) => "boolean"
    case Num(_) => "number"
    case Str(_) => "string"
    case Arr(_) => "object"
    case Obj(_) => "object"
  }

  /**
   * The property read `v.key`: None when it throws a TypeError (reading a
   * property of undefined or null), otherwise the property's value or
   * `undefined`. Inherited properties are not modelled; no built-in
   * prototype defines the keys this project reads ("path", "secret",
   * "repository", "name").
   */
  function GetProperty(v: Value, key: string): (r: Option<Value>)
    ensures r.None? <==> v.Undefined? || v.Null?
    ensures r.Some? && r.value != Undefined ==> v.Obj? && key in v.fields && v.fields[key] == r.value
    ensures r.Some? ==> r.value == (if v.Obj? && key in v.fields then v.fields[key] else Undefined)
  {
    match v
    case Undefined => None
    case Null => None
    case Obj(fields) => Some(if key in fields then fields[key] else Undefined)
    case _ => Some(Undefined)
  }

  /**
   * The host services the handler calls, none of which is specified here:
   * - hmacSha1(key, data): `crypto.createHmac('sha1', key).update(data).digest()`;
   * - encodeUtf8(s): the bytes of `new Buffer(s)`;
   * - decodeUtf8(b): `b.toString()`;
   * - formPayload(text): `querystring.parse(text).payload` converted to a
   *   string, or None when the form has no `payload` field;
   * - parseJson(text): `JSON.parse(text)`, or the message of the SyntaxError it throws.
   */
  datatype Runtime = Runtime(
    hmacSha1: (Value, Bytes) -> Digest,
    encodeUtf8: string -> Bytes,
    decodeUtf8: Bytes -> string,
    formPayload: string -> Option<string>,
    parseJson: string -> Result<Value, string>)

  /** An encoding that maps distinct strings to distinct byte strings (UTF-8 does). */
  ghost predicate Injective(encode: string -> Bytes) {
    forall s, t :: encode(s) == encode(t) ==> s == t
  }
}
