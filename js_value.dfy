/**
 * The JavaScript values the signer and the request builders handle: request
 * bodies, the run-list argument of NodeCreate, and the exceptions the modelled
 * code throws. Numbers are integers here; fractions and NaN are not modelled.
 */
module JsValue {
  import opened Wrappers
  import JsObject

  datatype Value =
    | Undefined
    | Null
    | Bool(b: bool)
    | Number(n: int)
    | Str(s: string)
    | Arr(items: seq<Value>)
    | Obj(props: JsObject.Entries<Value>)

  /** The exceptions the modelled code can throw; each aborts the request before anything is sent. */
  datatype Exception =
    | ReadOfNullish(key: string)  // `v.key` with v null or undefined throws a TypeError
    | NoPathname                  // `url.parse(uri).pathname` is null, so `sha1(null)` throws
    | KeyUnusable                 // `crypto.privateEncrypt` rejects the key or the message
    | NoSignatureChunks           // `sig.match(...)` is null, so `.forEach` throws a TypeError

  /** JavaScript truthiness: `if (v)` takes the then-branch. */
  predicate Truthy(v: Value)
  {
    match v
    case Undefined => false
    case Null => false
    case Bool(b) => b
    case Number(n) => n != 0
    case Str(s) => s != ""
    case Arr(_) => true
    case Obj(_) => true
  }

  /**
   * `v.key` for a key that is not a built-in property (such as `policy_name`):
   * an object yields its own property or `undefined`, any other primitive
   * yields `undefined`, and null or undefined throw.
   */
  function Property(v: Value, key: string): (r: Result<Value, Exception>)
    ensures r.Failure? <==> v.Undefined? || v.Null?
    ensures r.Failure? ==> r.error == ReadOfNullish(key)
    ensures r.Success? && !r.value.Undefined? ==> v.Obj? && (key, r.value) in v.props
    ensures v.Obj? && key in JsObject.Keys(v.props) ==> r == Success(JsObject.Lookup(v.props, key).value)
    ensures !v.Obj? && !v.Undefined? && !v.Null? ==> r == Success(Undefined)
  {
    match v
    case Undefined => Failure(ReadOfNullish(key))
    case Null => Failure(ReadOfNullish(key))
    case Obj(props) =>
      (match JsObject.Lookup(props, key)
       case Some(x) => JsObject.LookupFound(props, key); Success(x)
       case None => Success(Undefined))
    case _ => Success(Undefined)
  }
}
