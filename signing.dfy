/**
 * `chefInfraAPIHeaders(auth, config)`, the request signer shared by both
 * source files: it hashes the body and the path, stamps the time to the
 * second, encrypts the canonical request string with the caller's private
 * key, and returns the eight fixed headers followed by the base64 signature
 * cut into numbered `X-OPS-AUTHORIZATION-<n>` headers.
 *
 * The library routines it calls (UTF-8 encoding, the SHA-1 digest, base64 as
 * in section 4 of RFC 4648, RSA `privateEncrypt`, `JSON.stringify`) are
 * parameters, and the proofs rely on nothing about what they compute. The clock
 * reading is the parameter `isoNow`, the string `new Date().toISOString()`.
 */
module Signing {
  import opened Wrappers
  import opened JsValue
  import JsObject
  import Decimal
  import opened Canonical
  import opened SignatureChunks

  newtype byte = x: int | 0 <= x < 256

  /** The caller's private key material, as handed to `crypto.privateEncrypt`. */
  datatype PrivateKey = PrivateKey(pem: string)

  /** The library routines the signer calls, left uninterpreted. */
  datatype Library = Library(
    utf8: string -> seq<byte>,
    sha1Digest: seq<byte> -> seq<byte>,
    base64: seq<byte> -> string,
    privateEncrypt: (PrivateKey, seq<byte>) -> Option<seq<byte>>,  // None: the call throws
    stringify: Value -> string)

  /** The `auth` argument. */
  datatype Auth = Auth(user: string, key: PrivateKey)

  /** The `config` argument; `verb` is its `method` field. */
  datatype RequestConfig = RequestConfig(hostname: string, body: Value, verb: string, uri: string)

  /** A header set: a JavaScript object from header name to value, in insertion order. */
  type Headers = JsObject.Entries<string>

  const ChefVersion: string := "17.99.99"
  const SignDescription: string := "algorithm=sha1;version=1.0;"
  const AuthorizationPrefix: string := "X-OPS-AUTHORIZATION-"

  /** `sha1(string)`: the base64 SHA-1 digest of the UTF-8 bytes of a string. */
  function Sha1(lib: Library, s: string): string
  {
    lib.base64(lib.sha1Digest(lib.utf8(s)))
  }

  /** `X-Ops-Content-Hash`: a falsy body is hashed as the empty string, any other as its JSON text. */
  function BodyHash(lib: Library, body: Value): string
  {
    Sha1(lib, if Truthy(body) then lib.stringify(body) else "")
  }

  predicate IsPathEnd(c: char)
  {
    c == '?' || c == '#'
  }

  /** The part of a request target before its query string or fragment. */
  function PathPrefix(uri: string): (p: string)
    ensures p <= uri
    ensures forall i :: 0 <= i < |p| ==> !IsPathEnd(p[i])
    ensures |p| < |uri| ==> IsPathEnd(uri[|p|])
  {
    if uri == [] || IsPathEnd(uri[0]) then ""
    else [uri[0]] + PathPrefix(uri[1..])
  }

  /** `url.parse(uri).pathname` of a request target: null when the path part is empty. */
  function Pathname(uri: string): Option<string>
  {
    var p := PathPrefix(uri);
    if p == "" then None else Some(p)
  }

  /** `isoNow.slice(0, -5) + 'Z'`: the last five characters are dropped and `Z` is appended. */
  function Timestamp(isoNow: string): string
  {
    var keep := if |isoNow| >= 5 then |isoNow| - 5 else 0;
    isoNow[..keep] + "Z"
  }

  /** The eight headers every signed request carries, in the order the signer writes them. */
  function FixedHeaders(host: string, bodyHash: string, timestamp: string, user: string): Headers
  {
    [("Accept", "application/json"),
     ("Content-Type", "application/json"),
     ("Host", host),
     ("X-Chef-Version", ChefVersion),
     ("X-Ops-Content-Hash", bodyHash),
     ("X-Ops-Sign", SignDescription),
     ("X-Ops-Timestamp", timestamp),
     ("X-Ops-UserId", user)]
  }

  /** `'X-OPS-AUTHORIZATION-' + n`. */
  function AuthHeaderName(n: nat): string
  {
    AuthorizationPrefix + Decimal.NatToString(n)
  }

  /** One header per chunk, numbered from 1 in chunk order. */
  function AuthorizationHeaders(chunks: seq<string>): Headers
  {
    seq(|chunks|, i requires 0 <= i < |chunks| => (AuthHeaderName(i + 1), chunks[i]))
  }

  /** The values the signer computes once and both embeds in the canonical string and sends as headers. */
  function CanonicalFor(lib: Library, auth: Auth, config: RequestConfig, isoNow: string): Result<CanonicalRequest, Exception>
  {
    var bodyHash := BodyHash(lib, config.body);
    match Pathname(config.uri)
    case None => Failure(NoPathname)
    case Some(pathname) =>
      Success(CanonicalRequest(config.verb, Sha1(lib, pathname), bodyHash, Timestamp(isoNow), auth.user))
  }

  /** `crypto.privateEncrypt(auth.key, Buffer.from(canonicalHeader, 'utf-8')).toString('base64')`. */
  function SignatureFor(lib: Library, auth: Auth, config: RequestConfig, isoNow: string): Result<string, Exception>
  {
    var c :- CanonicalFor(lib, auth, config, isoNow);
    match lib.privateEncrypt(auth.key, lib.utf8(Canonicalize(c)))
    case None => Failure(KeyUnusable)
    case Some(encrypted) => Success(lib.base64(encrypted))
  }

  /** The header set `chefInfraAPIHeaders` returns, or the exception it throws. */
  function SignedHeaders(lib: Library, auth: Auth, config: RequestConfig, isoNow: string): Result<Headers, Exception>
  {
    var c :- CanonicalFor(lib, auth, config, isoNow);
    var signature :- SignatureFor(lib, auth, config, isoNow);
    match Match(signature)
    case None => Failure(NoSignatureChunks)
    case Some(chunks) =>
      Success(FixedHeaders(config.hostname, c.contentHash, c.timestamp, c.userId) + AuthorizationHeaders(chunks))
  }

  /**
   * The signer as the source runs it: the fixed headers first, then one
   * `headers['X-OPS-AUTHORIZATION-' + (line + 1)] = hash` per chunk.
   */
  method ChefInfraApiHeaders(lib: Library, auth: Auth, config: RequestConfig, isoNow: string)
    returns (r: Result<Headers, Exception>)
    ensures r == SignedHeaders(lib, auth, config, isoNow)
  {
    var bodyHash := Sha1(lib, if Truthy(config.body) then lib.stringify(config.body) else "");
    var pathname := Pathname(config.uri);
    if pathname.None? {
      return Failure(NoPathname);
    }
    var pathHash := Sha1(lib, pathname.value);
    var timestamp := Timestamp(isoNow);
    var user := auth.user;

    var headers := FixedHeaders(config.hostname, bodyHash, timestamp, user);

    var canonicalHeader := Canonicalize(CanonicalRequest(config.verb, pathHash, bodyHash, timestamp, user));
    var encrypted := lib.privateEncrypt(auth.key, lib.utf8(canonicalHeader));
    if encrypted.None? {
      return Failure(KeyUnusable);
    }
    var signedCanonicalReq := lib.base64(encrypted.value);

    var matches := Match(signedCanonicalReq);
    if matches.None? {
      return Failure(NoSignatureChunks);
    }
    FixedNamesShort(config.hostname, bodyHash, timestamp, user);
    headers := AddAuthorizationHeaders(headers, matches.value);
    return Success(headers);
  }

  /**
   * The `forEach` over the signature's pieces: piece `line` is assigned to
   * `headers['X-OPS-AUTHORIZATION-' + (line + 1)]`. Every name is new, so each
   * assignment appends one header after those already there.
   */
  method AddAuthorizationHeaders(fixed: Headers, chunks: seq<string>) returns (headers: Headers)
    requires ShortNames(fixed)
    ensures headers == fixed + AuthorizationHeaders(chunks)
  {
    headers := fixed;
    var line := 0;
    while line < |chunks|
      invariant 0 <= line <= |chunks|
      invariant headers == fixed + AuthorizationHeaders(chunks[..line])
    {
      FreshAuthorizationName(fixed, chunks[..line]);
      headers := JsObject.Put(headers, AuthHeaderName(line + 1), chunks[line]);
      AppendAuthorization(fixed, chunks, line);
      line := line + 1;
    }
    assert chunks[..line] == chunks;
  }

  // ---------------------------------------------------------------------------
  // Header names

  /** One more turn of the loop appends the next numbered header. */
  lemma AppendAuthorization(fixed: Headers, chunks: seq<string>, line: nat)
    requires line < |chunks|
    ensures fixed + AuthorizationHeaders(chunks[..line]) + [(AuthHeaderName(line + 1), chunks[line])]
         == fixed + AuthorizationHeaders(chunks[..line + 1])
  {
    var a := AuthorizationHeaders(chunks[..line]);
    var b := AuthorizationHeaders(chunks[..line + 1]);
    assert b == a + [(AuthHeaderName(line + 1), chunks[line])];
  }

  /** Distinct chunk numbers give distinct header names. */
  lemma AuthHeaderNameInjective(m: nat, n: nat)
    requires AuthHeaderName(m) == AuthHeaderName(n)
    ensures m == n
  {
    var a, b := AuthHeaderName(m), AuthHeaderName(n);
    assert a[|AuthorizationPrefix|..] == Decimal.NatToString(m);
    assert b[|AuthorizationPrefix|..] == Decimal.NatToString(n);
    Decimal.NatToStringInjective(m, n);
  }

  /** Every name in `hs` is shorter than the authorization prefix. */
  predicate ShortNames(hs: Headers)
  {
    forall i :: 0 <= i < |hs| ==> |hs[i].0| < |AuthorizationPrefix|
  }

  lemma FixedNamesShort(host: string, bodyHash: string, timestamp: string, user: string)
    ensures ShortNames(FixedHeaders(host, bodyHash, timestamp, user))
  {
  }

  /** The name the loop is about to assign is not yet a key of `headers`, so the assignment appends it. */
  lemma FreshAuthorizationName(fixed: Headers, done: seq<string>)
    requires ShortNames(fixed)
    ensures AuthHeaderName(|done| + 1) !in JsObject.Keys(fixed + AuthorizationHeaders(done))
  {
    var hs := fixed + AuthorizationHeaders(done);
    var name := AuthHeaderName(|done| + 1);
    forall i | 0 <= i < |hs|
      ensures hs[i].0 != name
    {
      if i < |fixed| {
        assert hs[i] == fixed[i];
      } else {
        assert hs[i].0 == AuthHeaderName(i - |fixed| + 1);
        if hs[i].0 == name {
          AuthHeaderNameInjective(i - |fixed| + 1, |done| + 1);
        }
      }
    }
  }

  /** Every header set the signer produces has pairwise distinct names. */
  lemma HeaderNamesDistinct(host: string, bodyHash: string, timestamp: string, user: string, chunks: seq<string>)
    ensures JsObject.DistinctKeys(FixedHeaders(host, bodyHash, timestamp, user) + AuthorizationHeaders(chunks))
  {
    var fixed := FixedHeaders(host, bodyHash, timestamp, user);
    var hs := fixed + AuthorizationHeaders(chunks);
    forall i, j | 0 <= i < j < |hs|
      ensures hs[i].0 != hs[j].0
    {
      if j >= |fixed| {
        var n := j - |fixed| + 1;
        assert hs[j].0 == AuthHeaderName(n);
        if i < |fixed| {
          FixedNamesShort(host, bodyHash, timestamp, user);
          assert hs[i] == fixed[i];
        } else if hs[i].0 == hs[j].0 {
          AuthHeaderNameInjective(i - |fixed| + 1, n);
        }
      }
    }
  }
}
