# Chef Infra Server request signing, in Dafny

This project models the client side of the Chef Infra Server API's request
signing, which follows the "canonical header format 1.0 using SHA-1" of that
API. It also models the six client and node functions that use it.
`app.js` and `vRA_handler.js` contain the same signer, `chefInfraAPIHeaders`
(app.js:11-43 and vRA_handler.js:19-51). It is modelled once, in module
`Signing`, and the table cites the app.js copy.

Given a user, a private key, an HTTP method, a URI, a host, a body and the
ISO-8601 instant read from the clock, the signer does the following:
- it hashes the body: a falsy body is hashed as `''`, any other as its JSON text;
- it hashes the URI's pathname;
- it cuts the instant to whole seconds;
- it assembles the five-line canonical string;
- it encrypts that string with the RSA private key and base64-encodes the result;
- it cuts the signature into pieces of at most 60 characters with the pattern `/.{1,60}/g`;
- it returns the eight fixed headers followed by `X-OPS-AUTHORIZATION-1`..`k`.

The modules:
- `Wrappers`: `Option` and `Result`.
- `JsObject`: a JavaScript object as an insertion-ordered list of entries, which is JavaScript's order for keys that are not array indices (the only keys this program assigns). `Put` is `obj[k] = v`.
- `JsValue`: JavaScript values, truthiness, property reads, and the exceptions the code can throw.
- `Decimal`: the decimal numeral that `'...' + (line + 1)` produces, with its parser as inverse.
- `Canonical`: the canonical string, and a line-by-line parser that inverts it.
- `SignatureChunks`: `String.prototype.match(/.{1,60}/g)`, and how its pieces concatenate.
- `Signing`: `sha1`, the body and path hashes, the timestamp, the headers, and the signer.
  The header loop is the imperative method `ChefInfraApiHeaders`. It is proved equal to the function `SignedHeaders`.
- `SigningProperties`: what the signer guarantees. The headers agree with the signed string.
  The authorization headers reassemble to the signature. The error cases are exact.
  The result does not depend on the query string, or on the clock below one second.
- `ChefApi`: the resource paths, the create bodies, and one signed request.
  `BuildNodeCreateBody` mutates the body in place, as the source does.
- `App` and `VraHandler`: the six functions of each file, as the request each one issues.

The SHA-1 digest, UTF-8 encoding, base64, RSA `privateEncrypt` and
`JSON.stringify` are library calls. They are fields of the `Signing.Library`
value passed to every operation, so the proofs rely on nothing about them
beyond their types. The instant `new Date().toISOString()` is the parameter `isoNow`.

## Model

| member | source | states |
|---|---|---|
| Signing.Sha1 | app.js:7-9 | `sha1(string)` is base64 of the SHA-1 digest of the string's UTF-8 bytes; the library routines are parameters, so the lemmas below relate hashes only through equal inputs |
| Signing.BodyHash | app.js:12 | the content hash: `sha1('')` for a falsy body, `sha1(JSON.stringify(body))` otherwise; SigningProperties.FalsyBodiesSignAlike and SigningProperties.TruthyBodyHash state both cases |
| Signing.Pathname | app.js:13 | `url.parse(uri).pathname`: the path prefix, or null (the signer then throws) when it is empty; ChefApi.RootedPathHasPathname and SigningProperties.QueryDoesNotChangeSignature state its behaviour |
| Signing.Timestamp | app.js:14 | `slice(0, -5) + 'Z'`, including the empty slice of a string shorter than five characters; SigningProperties.TimestampFormat and SigningProperties.TimestampSameSecond state its shape |
| Signing.FixedHeaders | app.js:17-26 | the eight fixed headers in source order with the constants `17.99.99` and `algorithm=sha1;version=1.0;`; SigningProperties.HeadersAgreeWithSignedString reads each back by name |
| Signing.CanonicalFor | app.js:12-15 | the fields of the canonical string, each computed once; throws NoPathname exactly when the pathname is null (SigningProperties.SigningOutcome) |
| Signing.SignatureFor | app.js:36 | the base64 of `privateEncrypt` of the UTF-8 canonical string, or KeyUnusable; SigningProperties.HeadersAgreeWithSignedString states it is the encryption of this request's canonical string |
| Signing.AuthHeaderName | app.js:39 | `'X-OPS-AUTHORIZATION-' + n` in decimal; Signing.AuthHeaderNameInjective and Decimal.ParseNatToString state that the number reads back |
| Signing.AuthorizationHeaders | app.js:38-40 | piece `i` under the name numbered `i + 1`, in order; Signing.AddAuthorizationHeaders proves the `forEach` builds exactly this |
| Signing.SignedHeaders | app.js:11-43 | the signer's result: the exceptions in source order, else the fixed headers followed by the authorization headers; Signing.ChefInfraApiHeaders is proved equal to it and SigningProperties states its properties |
| Signing.PathPrefix | app.js:13 | the pathname is the longest prefix of the URI with no `?` or `#`; the URI continues with one of those or ends |
| Signing.ChefInfraApiHeaders | app.js:11-43 | the imperative signer (a `forEach` loop that sets `headers['X-OPS-AUTHORIZATION-' + (line + 1)]`) returns exactly the header set, or the exception, that `SignedHeaders` specifies |
| Signing.AddAuthorizationHeaders | app.js:38-40 | the `forEach` loop turns the fixed headers into the fixed headers followed by `X-OPS-AUTHORIZATION-1..k`, piece `n` under number `n + 1`, in order |
| Signing.AppendAuthorization | app.js:38-40 | after line `n` of the loop, the headers are the fixed ones followed by the authorization headers of chunks `0..n` |
| Signing.FreshAuthorizationName | app.js:38-40 | each name the loop assigns is new, so every assignment appends a header and never overwrites an earlier one |
| Signing.FixedNamesShort | app.js:17-26 | none of the eight fixed header names can be mistaken for an `X-OPS-AUTHORIZATION-n` name |
| Signing.AuthHeaderNameInjective | app.js:39 | different line numbers give different header names |
| Signing.HeaderNamesDistinct | app.js:17-40 | the fixed headers together with the authorization headers never repeat a name |
| SigningProperties.SignedHeadersLayout | app.js:17-40 | a successful result is the eight fixed headers in source order, with `X-Chef-Version: 17.99.99` and `X-Ops-Sign: algorithm=sha1;version=1.0;`, followed by `X-OPS-AUTHORIZATION-1..k`, k >= 1, holding the chunks in order, with distinct names |
| SigningProperties.ReassembleFrom | app.js:38-40 | reading the authorization headers from number `n` upwards until one is missing yields the concatenation of chunks `n-1..` |
| SigningProperties.AuthorizationRoundTrip | app.js:36-40 | concatenating `X-OPS-AUTHORIZATION-1..k` gives the signature without its line terminators, and exactly the signature when it has none (as base64 text never does) |
| SigningProperties.AuthorizationChunking | app.js:36-39 | for a signature without line terminators (which base64 text never holds), there are ceil(length/60) authorization headers, and header `n` holds characters 60(n-1) to min(60n, length) of the signature |
| SigningProperties.HeadersAgreeWithSignedString | app.js:12-36 | the encrypted text is the canonical string of this request. The Host header is the request's host (the canonical string has no host line); the content-hash, timestamp and user headers equal the values inside the canonical string; and when no field holds a newline, parsing the canonical string returns those header values |
| SigningProperties.SigningOutcome | app.js:13-40 | the signer throws exactly when the URI has no pathname, when encryption fails, or when the signature has nothing to match; otherwise it returns headers (each case is an if and only if) |
| SigningProperties.EmptySignatureThrows | app.js:38 | an empty signature makes `match` return null, so the signer throws instead of returning partial headers |
| SigningProperties.FalsyBodiesSignAlike | app.js:12 | any two falsy bodies (`''`, absent, `null`, `0`, `false`) hash as `''` and give identical headers |
| SigningProperties.TruthyBodyHash | app.js:12 | a truthy body is hashed as the SHA-1 of its JSON text |
| SigningProperties.PathPrefixIgnoresQuery | app.js:13 | appending a query or fragment to a path does not change its pathname |
| SigningProperties.QueryDoesNotChangeSignature | app.js:13 | two URIs that differ only in their query string produce identical signed headers |
| SigningProperties.ClockOnlyChangesTimestamp | app.js:14 | signing at another instant changes only the timestamp field of the canonical string |
| SigningProperties.TimestampFormat | app.js:14 | from a `YYYY-MM-DDTHH:MM:SS.sssZ` instant the timestamp is its first 19 characters plus `Z`: 20 characters with no fractional seconds |
| SigningProperties.TimestampSameSecond | app.js:14 | two instants give the same timestamp if and only if they agree to the second |
| SigningProperties.SameSecondSameHeaders | app.js:14-40 | signing twice within one second gives identical headers |
| Canonical.SplitLines | app.js:30-34 | splitting on `\n` gives at least one line |
| Canonical.SplitJoin | app.js:30-34 | joining newline-free lines with `\n` and splitting again returns the lines |
| Canonical.SplitPlain | app.js:30-34 | a newline-free string is a single line |
| Canonical.SplitAfterLine | app.js:30-34 | splitting `a + "\n" + b` gives `a`, then the lines of `b` |
| Canonical.JoinSplit | app.js:30-34 | splitting a string and joining the lines returns the string |
| Canonical.Canonicalize | app.js:30-34 | the source's concatenation of the five labelled fields; Canonical.ParseCanonical and Canonical.CanonicalRoundTrip are its inverse |
| Canonical.CanonicalizeIsJoin | app.js:30-34 | the canonical string is its five labelled lines joined by `\n`, in the order Method, Hashed Path, X-Ops-Content-Hash, X-Ops-Timestamp, X-Ops-UserId, with no trailing newline |
| Canonical.FlattenLabelled | app.js:30-34 | the canonical string is each label followed by its value, the lines separated by `\n` |
| Canonical.LabelledLine | app.js:30-34 | a label followed by a newline-free value is one line, from which the parser strips the label back off to the value |
| Canonical.StripLabel | app.js:30-34 | a line is accepted exactly when it starts with the label, and the label plus the value is the line |
| Canonical.ParseCanonical | app.js:30-34 | whatever the parser accepts re-serialises to the input |
| Canonical.CanonicalRoundTrip | app.js:30-34 | parsing the canonical string of newline-free fields returns those fields |
| Canonical.CanonicalizeInjective | app.js:30-34 | distinct newline-free requests have distinct canonical strings |
| Decimal.DigitChar | app.js:39 | a digit value is printed as a decimal digit character |
| Decimal.DigitValue | app.js:39 | a digit character reads back as a value below ten |
| Decimal.NatToString | app.js:39 | the line number is printed as a non-empty numeral without a leading zero (except for 0 itself) |
| Decimal.ParseNatToString | app.js:39 | reading back the printed number gives the number |
| Decimal.NatToStringInjective | app.js:39 | different numbers print differently |
| SignatureChunks.Match | app.js:38 | `match(/.{1,60}/g)`: the pieces, or null when there are none; SignatureChunks.MatchIsNull and SignatureChunks.ChunksConcatenate state both cases |
| SignatureChunks.RunLength | app.js:38 | one match of `.{1,60}` takes at most 60 characters, none of them a line terminator, and stops early only at a terminator |
| SignatureChunks.Chunks | app.js:38 | every match is 1 to 60 characters long and holds no line terminator |
| SignatureChunks.ConcatFrom | app.js:38 | concatenating the matches from index `k` is match `k` followed by the rest |
| SignatureChunks.MatchableAppend | app.js:38 | the characters `.` can match distribute over concatenation |
| SignatureChunks.MatchableOfPlain | app.js:38 | in a string without line terminators, `.` can match every character |
| SignatureChunks.ChunksConcatenate | app.js:38 | the matches concatenate to the input with its line terminators removed |
| SignatureChunks.MatchIsNull | app.js:38 | `match` returns null if and only if the string has no character `.` can match |
| SignatureChunks.ChunksOfPlain | app.js:38 | for a string without line terminators there are ceil(length/60) matches, and match `i` is characters 60i to min(60(i+1), length) |
| SignatureChunks.ChunkSizesOfPlain | app.js:38 | for a string without line terminators every match but the last has 60 characters, and the last has 1 to 60 |
| JsObject.Keys | app.js:17-26 | the keys of an object are its entry names, in insertion order |
| JsObject.Lookup | app.js:39 | a property is found exactly when the key is present |
| JsObject.Put | app.js:39 | after `obj[k] = v`, `k` reads `v` and every other key reads as before. An existing key keeps its position; a new key is appended last, which is JavaScript's order for the keys this program assigns (none of them an array index) |
| JsObject.LookupFound | app.js:217-218 | a value `obj[k]` reads is one of the object's own entries under `k` |
| JsObject.ConsLookup | app.js:39 | reading an object whose first entry is `e` finds `e` for its key and otherwise searches the rest |
| JsObject.ConsKeys | app.js:17-26 | the keys of an object whose first entry is `e` are `e`'s key followed by the rest's keys |
| JsObject.LookupAt | app.js:39 | in an object with distinct keys, each entry is what its key reads |
| JsValue.Truthy | app.js:12 | JavaScript truthiness (`undefined`, `null`, `false`, `0` and `''` are falsy), as used by `config.body ?` and `if (runlist.policy_name)` at app.js:217 |
| JsValue.Property | app.js:217-218 | reading a property of `null` or `undefined` throws, and nothing else does. On an object that has the key, the read returns that key's value; a defined result is always an own property of an object; any other value (a string, number, boolean or array) reads `undefined` |
| ChefApi.ClientsPath | app.js:86 | `/organizations/<org>/clients`; ChefApi.ResourcePathsRooted states it is rooted |
| ChefApi.ClientPath | app.js:48 | `/organizations/<org>/clients/<name>`, as at app.js:132 too; ChefApi.ResourcePathsRooted states it is the collection path plus `/name` |
| ChefApi.NodesPath | vRA_handler.js:191 | `/organizations/<org>/nodes`; ChefApi.ResourcePathsRooted states it is rooted |
| ChefApi.NodePath | app.js:172 | `/organizations/<org>/nodes/<name>`, as at app.js:262 too; ChefApi.ResourcePathsRooted states it is the collection path plus `/name` |
| ChefApi.RootedPathHasPathname | app.js:13 | a path that starts with `/` always has a pathname |
| ChefApi.ResourcePathsRooted | app.js:48 | the client and node paths start with `/`, and an element path is its collection path plus `/name` |
| ChefApi.EmptyBodyHash | app.js:61 | the bodyless requests' `''` is hashed as the empty string |
| ChefApi.ObjectBodyHash | app.js:12 | an object body is hashed as its JSON text |
| ChefApi.ClientCreateBody | app.js:87-92 | the new-client body; ChefApi.ClientCreateBodyFields states its fields |
| ChefApi.ClientCreateBodyFields | app.js:87-92 | the new-client body has exactly `name` and `clientname` (both the given name), `create_key: true` and `validator: false`, in that order |
| ChefApi.NodeCreateBody | app.js:211-222 | the body throws if and only if `runlist` is null or undefined. Otherwise it always has `name` and `json_class: 'Chef::Node'`. With a truthy `runlist.policy_name` it also has `policy_name` and `policy_group` copied from `runlist` and no `run_list`; otherwise it has `run_list = runlist` and nothing else |
| ChefApi.PolicyBodyFields | app.js:217-219 | the policy branch adds `policy_name` then `policy_group` after the two base fields |
| ChefApi.PutThird | app.js:221 | assigning a property the two-field body lacks appends it as the third entry |
| ChefApi.PutFourth | app.js:218-219 | assigning a property the three-field body lacks appends it as the fourth entry |
| ChefApi.RunListBodyFields | app.js:220-222 | the run-list branch adds only `run_list` after the two base fields |
| ChefApi.BuildNodeCreateBody | app.js:211-222 | the in-place construction (start with two fields, then assign by branch) produces exactly the body `NodeCreateBody` specifies, and the same exception |
| ChefApi.SignedRequest | app.js:50-64 | a request succeeds exactly when signing does, and a rooted path fails only for an unusable key or an empty signature. On success it carries the given method, host, path and payload, and its headers are exactly the signer's header set for that host, body, method and path (so they carry the host, the body's content hash and the user) |
| App.ClientGet | app.js:47-64 | GET `/organizations/<org>/clients/<client>`, no payload, the content hash of `''`, and failure only from signing. Its headers are exactly the signer's for GET, `''` and that path, and it succeeds exactly when that signing does |
| App.ClientCreate | app.js:85-126 | POST to `/organizations/<org>/clients`. The payload is the JSON of the new-client body, and the content hash is the SHA-1 of that same payload. Its headers are exactly the signer's for POST, the new-client body and that path, and it succeeds exactly when that signing does |
| App.ClientDelete | app.js:131-148 | DELETE `/organizations/<org>/clients/<name>`, no payload, the content hash of `''`. Its headers are exactly the signer's for DELETE, `''` and that path, and it succeeds exactly when that signing does |
| App.NodeGet | app.js:171-188 | GET `/organizations/<org>/nodes/<name>`, no payload, the content hash of `''`. Its headers are exactly the signer's for GET, `''` and that path, and it succeeds exactly when that signing does |
| App.NodeCreate | app.js:209-256 | throws before signing if and only if `runlist` is null or undefined. Otherwise it POSTs the node body's JSON, with a content hash over that payload, to `/organizations/<org>/clients`, as written. Its headers are exactly the signer's for POST, the node body and the clients path, and it succeeds exactly when the body is built and that signing succeeds |
| App.NodeDelete | app.js:261-278 | DELETE `/organizations/<org>/nodes/<name>`, no payload, the content hash of `''`. Its headers are exactly the signer's for DELETE, `''` and that path, and it succeeds exactly when that signing does |
| App.NodeCreateTargetsClients | app.js:210 | the node this function creates is never posted to the nodes collection |
| VraHandler.EmptyPayload | vRA_handler.js:70 | what `httpsRequest(options, '', ...)` writes: `JSON.stringify('')` |
| VraHandler.ClientGet | vRA_handler.js:77-100 | GET `/organizations/<org>/clients/<client>`; the payload is `JSON.stringify('')`, the content hash that of `''`. Its headers are exactly the signer's for GET, `''` and that path, and it succeeds exactly when that signing does |
| VraHandler.ClientCreate | vRA_handler.js:104-130 | POST to `/organizations/<org>/clients`. The payload is the JSON of the new-client body, and the content hash is the SHA-1 of that same payload. Its headers are exactly the signer's for POST, the new-client body and that path, and it succeeds exactly when that signing does |
| VraHandler.ClientDelete | vRA_handler.js:136-156 | DELETE `/organizations/<org>/clients/<name>`; the payload is `JSON.stringify('')`, the content hash that of `''`. Its headers are exactly the signer's for DELETE, `''` and that path, and it succeeds exactly when that signing does |
| VraHandler.NodeGet | vRA_handler.js:164-184 | GET `/organizations/<org>/nodes/<name>`; the payload is `JSON.stringify('')`, the content hash that of `''`. Its headers are exactly the signer's for GET, `''` and that path, and it succeeds exactly when that signing does |
| VraHandler.NodeCreate | vRA_handler.js:190-222 | throws before signing if and only if `runlist` is null or undefined. Otherwise it POSTs the node body's JSON, with a content hash over that payload, to `/organizations/<org>/nodes`. Its headers are exactly the signer's for POST, the node body and the nodes path, and it succeeds exactly when the body is built and that signing succeeds |
| VraHandler.NodeDelete | vRA_handler.js:228-248 | DELETE `/organizations/<org>/nodes/<name>`; the payload is `JSON.stringify('')`, the content hash that of `''`. Its headers are exactly the signer's for DELETE, `''` and that path, and it succeeds exactly when that signing does |

## Left out

- SHA-1, base64, UTF-8 encoding, RSA `privateEncrypt` and `JSON.stringify` are fields of `Signing.Library`. Nothing is proved about their internals, including the constant digest of `''`. A key the RSA routine rejects is an opaque `KeyUnusable` failure. `JSON.stringify` is taken never to throw.
- Strings are sequences of whole characters, while JavaScript's `.` in `/.{1,60}/g` takes one UTF-16 code unit: outside the Basic Multilingual Plane the pieces would differ. The signature is base64 text, which is ASCII, and there the two are identical.
- The clock read `new Date()` is the parameter `isoNow`. Extended-year (`+YYYYYY`) instants are outside `SigningProperties.TimestampFormat`.
- `url.parse` is reduced to two things: the pathname is the text before the first `?` or `#`, and `https://<server><path>` yields host `<server>` and path `<path>`. Escaping, whitespace trimming, port parsing and the `|| 443` port default are not modelled. Two effects follow. `url.parse` lowercases the host, so the source's `Host` header is the server name in lower case, where the model keeps `<server>` as given. Its `.path` also drops a `#fragment`, so for a client or node name containing `#` the source requests and signs only the text before it, where the model's `Request.path` keeps the whole name.
- HTTPS transport is not modelled: `https.request`, streaming the response, `JSON.parse` of the reply, error events, callbacks and `console` logging are I/O.
- `exports.handler` (vRA_handler.js:269-301) is vRealize action dispatch and is not part of this model.
- VraHandler.ClientGet, VraHandler.ClientDelete, VraHandler.NodeGet and VraHandler.NodeDelete: for these bodyless requests the payload written, `JSON.stringify('')`, and the hashed text, `''`, are stated separately. Nothing relates the two, because the model does not interpret `JSON.stringify`.
- `JsValue.Value` numbers are integers: floating point, `NaN` and `-0` are not modelled. They only matter for the truthiness of a `runlist.policy_name` or of a body.

## Findings

| source | as written | input that shows it | evidently intended | confidence | as-written member | corrected member |
|---|---|---|---|---|---|---|
| app.js:210 | `NodeCreate` builds its URL as `/organizations/<org>/clients`, so it posts a node body to the clients collection | any node, e.g. name `web1`, runlist `['recipe[base]']`, org `acme`: the request goes to `/organizations/acme/clients` | `/organizations/<org>/nodes`, as in vRA_handler.js:191 and the Chef Infra Server nodes endpoint | not executed | App.NodeCreateTargetsClients | VraHandler.NodeCreate |
