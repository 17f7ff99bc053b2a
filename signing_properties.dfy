/**
 * What the signer guarantees about the header set it returns, stated over
 * `Signing.SignedHeaders` (which `Signing.ChefInfraApiHeaders` is proved to
 * compute) for every library behaviour, key, request and clock reading.
 */
module SigningProperties {
  import opened Wrappers
  import opened JsValue
  import JsObject
  import opened Canonical
  import opened SignatureChunks
  import opened Signing

  // ---------------------------------------------------------------------------
  // Layout of the header set

  /**
   * A successful call returns the eight fixed headers, carrying the hash,
   * timestamp and user computed for the canonical string, followed by
   * `X-OPS-AUTHORIZATION-1` .. `-k` holding the signature's chunks in order,
   * k >= 1, with no two headers of the same name.
   */
  lemma SignedHeadersLayout(lib: Library, auth: Auth, config: RequestConfig, isoNow: string)
    requires SignedHeaders(lib, auth, config, isoNow).Success?
    ensures var hs := SignedHeaders(lib, auth, config, isoNow).value;
            var chunks := Chunks(SignatureFor(lib, auth, config, isoNow).value);
            && |chunks| >= 1
            && |hs| == 8 + |chunks|
            && hs[..8] == FixedHeaders(config.hostname, BodyHash(lib, config.body), Timestamp(isoNow), auth.user)
            && (forall i :: 0 <= i < |chunks| ==> hs[8 + i] == (AuthHeaderName(i + 1), chunks[i]))
            && JsObject.DistinctKeys(hs)
  {
    var c := CanonicalFor(lib, auth, config, isoNow).value;
    var chunks := Chunks(SignatureFor(lib, auth, config, isoNow).value);
    HeaderNamesDistinct(config.hostname, c.contentHash, c.timestamp, c.userId, chunks);
  }

  /**
   * How a verifier reads the signature back: the values of
   * `X-OPS-AUTHORIZATION-n`, `n+1`, ... concatenated up to the first number
   * that is missing (a set of |hs| headers cannot hold more than |hs| of them).
   */
  function Reassemble(hs: Headers, n: nat): string
    decreases |hs| + 1 - n
  {
    if n > |hs| then ""
    else
      match JsObject.Lookup(hs, AuthHeaderName(n))
      case None => ""
      case Some(v) => v + Reassemble(hs, n + 1)
  }

  lemma {:induction false} ReassembleFrom(fixed: Headers, chunks: seq<string>, n: nat)
    requires ShortNames(fixed)
    requires JsObject.DistinctKeys(fixed + AuthorizationHeaders(chunks))
    requires 1 <= n <= |chunks| + 1
    ensures Reassemble(fixed + AuthorizationHeaders(chunks), n) == Concat(chunks[n - 1..])
    decreases |chunks| + 1 - n
  {
    var hs := fixed + AuthorizationHeaders(chunks);
    if n == |chunks| + 1 {
      FreshAuthorizationName(fixed, chunks);
      assert JsObject.Lookup(hs, AuthHeaderName(n)).None?;
      assert Reassemble(hs, n) == "";
      assert chunks[n - 1..] == [];
    } else {
      var v := chunks[n - 1];
      assert hs[|fixed| + n - 1] == (AuthHeaderName(n), v);
      JsObject.LookupAt(hs, |fixed| + n - 1);
      assert Reassemble(hs, n) == v + Reassemble(hs, n + 1);
      ReassembleFrom(fixed, chunks, n + 1);
      ConcatFrom(chunks, n - 1);
    }
  }

  /**
   * Reading the authorization headers back yields the signature with only its
   * line terminators removed; so for a signature without line terminators, as
   * base64 text always is, it yields the signature exactly.
   */
  lemma AuthorizationRoundTrip(lib: Library, auth: Auth, config: RequestConfig, isoNow: string)
    requires SignedHeaders(lib, auth, config, isoNow).Success?
    ensures var hs := SignedHeaders(lib, auth, config, isoNow).value;
            var signature := SignatureFor(lib, auth, config, isoNow).value;
            && Reassemble(hs, 1) == Matchable(signature)
            && (NoLineTerminator(signature) ==> Reassemble(hs, 1) == signature)
  {
    var c := CanonicalFor(lib, auth, config, isoNow).value;
    var signature := SignatureFor(lib, auth, config, isoNow).value;
    var chunks := Chunks(signature);
    var fixed := FixedHeaders(config.hostname, c.contentHash, c.timestamp, c.userId);
    FixedNamesShort(config.hostname, c.contentHash, c.timestamp, c.userId);
    HeaderNamesDistinct(config.hostname, c.contentHash, c.timestamp, c.userId, chunks);
    ReassembleFrom(fixed, chunks, 1);
    assert chunks[0..] == chunks;
    ChunksConcatenate(signature);
    if NoLineTerminator(signature) {
      MatchableOfPlain(signature);
    }
  }

  /**
   * For a signature without line terminators, header `X-OPS-AUTHORIZATION-n`
   * holds characters 60(n-1) .. 60n of it (the last one the 1 to 60 that
   * remain), and there are ceil(|signature| / 60) such headers.
   */
  lemma AuthorizationChunking(lib: Library, auth: Auth, config: RequestConfig, isoNow: string)
    requires SignedHeaders(lib, auth, config, isoNow).Success?
    requires NoLineTerminator(SignatureFor(lib, auth, config, isoNow).value)
    ensures var hs := SignedHeaders(lib, auth, config, isoNow).value;
            var signature := SignatureFor(lib, auth, config, isoNow).value;
            && |hs| - 8 == (|signature| + ChunkSize - 1) / ChunkSize
            && forall n :: 1 <= n <= |hs| - 8 ==>
                 JsObject.Lookup(hs, AuthHeaderName(n))
                   == Some(signature[ChunkSize * (n - 1) .. Min(ChunkSize * n, |signature|)])
  {
    var hs := SignedHeaders(lib, auth, config, isoNow).value;
    var signature := SignatureFor(lib, auth, config, isoNow).value;
    SignedHeadersLayout(lib, auth, config, isoNow);
    ChunksOfPlain(signature);
    forall n | 1 <= n <= |hs| - 8
      ensures JsObject.Lookup(hs, AuthHeaderName(n))
                == Some(signature[ChunkSize * (n - 1) .. Min(ChunkSize * n, |signature|)])
    {
      var chunks := Chunks(signature);
      var i := n - 1;
      assert hs[8 + i] == (AuthHeaderName(i + 1), chunks[i]);
      assert chunks[i] == signature[ChunkSize * i .. Min(ChunkSize * (i + 1), |signature|)];
      JsObject.LookupAt(hs, 8 + i);
    }
  }

  // ---------------------------------------------------------------------------
  // The headers and the signed string agree

  /**
   * The string that was encrypted is the canonical string of this request, and
   * the content hash, timestamp and user sent as headers are the very values in
   * it: a verifier that parses the decrypted string line by line reads back the
   * method, the path hash and exactly those header values.
   */
  lemma HeadersAgreeWithSignedString(lib: Library, auth: Auth, config: RequestConfig, isoNow: string)
    requires SignedHeaders(lib, auth, config, isoNow).Success?
    ensures var hs := SignedHeaders(lib, auth, config, isoNow).value;
            var c := CanonicalFor(lib, auth, config, isoNow).value;
            var encrypted := lib.privateEncrypt(auth.key, lib.utf8(Canonicalize(c)));
            && encrypted.Some?
            && SignatureFor(lib, auth, config, isoNow) == Success(lib.base64(encrypted.value))
            && c.verb == config.verb
            && JsObject.Lookup(hs, "Accept") == Some("application/json")
            && JsObject.Lookup(hs, "Content-Type") == Some("application/json")
            && JsObject.Lookup(hs, "Host") == Some(config.hostname)
            && JsObject.Lookup(hs, "X-Chef-Version") == Some(ChefVersion)
            && JsObject.Lookup(hs, "X-Ops-Content-Hash") == Some(c.contentHash)
            && JsObject.Lookup(hs, "X-Ops-Sign") == Some(SignDescription)
            && JsObject.Lookup(hs, "X-Ops-Timestamp") == Some(c.timestamp)
            && JsObject.Lookup(hs, "X-Ops-UserId") == Some(c.userId)
            && (NewlineFree(c) ==>
                  ParseCanonical(Canonicalize(c)) == Some(CanonicalRequest(
                    config.verb, c.hashedPath,
                    JsObject.Lookup(hs, "X-Ops-Content-Hash").value,
                    JsObject.Lookup(hs, "X-Ops-Timestamp").value,
                    JsObject.Lookup(hs, "X-Ops-UserId").value)))
  {
    var hs := SignedHeaders(lib, auth, config, isoNow).value;
    var c := CanonicalFor(lib, auth, config, isoNow).value;
    var chunks := Chunks(SignatureFor(lib, auth, config, isoNow).value);
    var fixed := FixedHeaders(config.hostname, c.contentHash, c.timestamp, c.userId);
    HeaderNamesDistinct(config.hostname, c.contentHash, c.timestamp, c.userId, chunks);
    assert hs == fixed + AuthorizationHeaders(chunks);
    assert hs[0] == ("Accept", "application/json");
    JsObject.LookupAt(hs, 0);
    JsObject.LookupAt(hs, 1);
    JsObject.LookupAt(hs, 2);
    JsObject.LookupAt(hs, 3);
    JsObject.LookupAt(hs, 4);
    JsObject.LookupAt(hs, 5);
    JsObject.LookupAt(hs, 6);
    JsObject.LookupAt(hs, 7);
    if NewlineFree(c) {
      CanonicalRoundTrip(c);
    }
  }

  // ---------------------------------------------------------------------------
  // When signing fails

  /**
   * The signer throws exactly in these cases, checked in this order: the target
   * has no path; the key cannot encrypt the canonical string; the signature
   * has no character the chunking pattern matches (it is empty). Otherwise it
   * returns a header set.
   */
  lemma SigningOutcome(lib: Library, auth: Auth, config: RequestConfig, isoNow: string)
    ensures var r := SignedHeaders(lib, auth, config, isoNow);
            && (r == Failure(NoPathname) <==> Pathname(config.uri).None?)
            && (r == Failure(KeyUnusable) <==>
                  CanonicalFor(lib, auth, config, isoNow).Success? &&
                  lib.privateEncrypt(auth.key, lib.utf8(Canonicalize(CanonicalFor(lib, auth, config, isoNow).value))).None?)
            && (r == Failure(NoSignatureChunks) <==>
                  SignatureFor(lib, auth, config, isoNow).Success? &&
                  Matchable(SignatureFor(lib, auth, config, isoNow).value) == "")
            && (r.Success? <==>
                  SignatureFor(lib, auth, config, isoNow).Success? &&
                  Matchable(SignatureFor(lib, auth, config, isoNow).value) != "")
  {
    var s := SignatureFor(lib, auth, config, isoNow);
    if s.Success? {
      MatchIsNull(s.value);
    }
  }

  /** An empty signature (the `match` of `''` is null) makes the signer throw rather than return a partial header set. */
  lemma EmptySignatureThrows(lib: Library, auth: Auth, config: RequestConfig, isoNow: string)
    requires SignatureFor(lib, auth, config, isoNow) == Success("")
    ensures SignedHeaders(lib, auth, config, isoNow) == Failure(NoSignatureChunks)
  {
    MatchIsNull("");
  }

  // ---------------------------------------------------------------------------
  // What the headers depend on

  /** Every falsy body (absent, null, false, 0, '') is hashed as the empty string, so all of them are signed alike. */
  lemma FalsyBodiesSignAlike(lib: Library, auth: Auth, config: RequestConfig, isoNow: string, other: Value)
    requires !Truthy(config.body) && !Truthy(other)
    ensures BodyHash(lib, config.body) == BodyHash(lib, other) == Sha1(lib, "")
    ensures SignedHeaders(lib, auth, config, isoNow) == SignedHeaders(lib, auth, config.(body := other), isoNow)
  {
  }

  /** Any other body is hashed as its JSON text. */
  lemma TruthyBodyHash(lib: Library, body: Value)
    requires Truthy(body)
    ensures BodyHash(lib, body) == Sha1(lib, lib.stringify(body))
  {
  }

  /** The path part of a target ends at its first `?` or `#`, so appending a query string or fragment does not change it. */
  lemma {:induction false} PathPrefixIgnoresQuery(path: string, rest: string)
    requires forall i :: 0 <= i < |path| ==> !IsPathEnd(path[i])
    requires rest == "" || IsPathEnd(rest[0])
    ensures PathPrefix(path + rest) == path
  {
    if path == [] {
      assert path + rest == rest;
    } else {
      assert (path + rest)[1..] == path[1..] + rest;
      PathPrefixIgnoresQuery(path[1..], rest);
      assert [path[0]] + path[1..] == path;
    }
  }

  /** Two targets that differ only in their query string or fragment are signed alike. */
  lemma QueryDoesNotChangeSignature(lib: Library, auth: Auth, config: RequestConfig, isoNow: string, query: string)
    requires forall i :: 0 <= i < |config.uri| ==> !IsPathEnd(config.uri[i])
    ensures SignedHeaders(lib, auth, config.(uri := config.uri + "?" + query), isoNow)
         == SignedHeaders(lib, auth, config, isoNow)
  {
    PathPrefixIgnoresQuery(config.uri, "?" + query);
    PathPrefixIgnoresQuery(config.uri, "");
    assert config.uri + "" == config.uri;
    assert config.uri + "?" + query == config.uri + ("?" + query);
  }

  /** Signing the same request at two instants changes only the timestamp in the signed fields; the content and path hashes are the same. */
  lemma ClockOnlyChangesTimestamp(lib: Library, auth: Auth, config: RequestConfig, isoA: string, isoB: string)
    ensures CanonicalFor(lib, auth, config, isoA).Success? <==> CanonicalFor(lib, auth, config, isoB).Success?
    ensures CanonicalFor(lib, auth, config, isoA).Success? ==>
      CanonicalFor(lib, auth, config, isoB).value
        == CanonicalFor(lib, auth, config, isoA).value.(timestamp := Timestamp(isoB))
  {
  }

  // ---------------------------------------------------------------------------
  // The timestamp

  predicate DigitsAt(s: string, lo: nat, hi: nat)
    requires lo <= hi <= |s|
  {
    forall i :: lo <= i < hi ==> '0' <= s[i] <= '9'
  }

  /** `YYYY-MM-DDTHH:MM:SS`, the first 19 characters of an ISO 8601 UTC instant. */
  predicate SecondsShape(s: string)
  {
    |s| >= 19 &&
    DigitsAt(s, 0, 4) && s[4] == '-' && DigitsAt(s, 5, 7) && s[7] == '-' && DigitsAt(s, 8, 10) &&
    s[10] == 'T' && DigitsAt(s, 11, 13) && s[13] == ':' && DigitsAt(s, 14, 16) && s[16] == ':' &&
    DigitsAt(s, 17, 19)
  }

  /** What `Date.prototype.toISOString` returns for a year from 0 to 9999: `YYYY-MM-DDTHH:MM:SS.sssZ`. */
  predicate IsIsoInstant(s: string)
  {
    |s| == 24 && SecondsShape(s) && s[19] == '.' && DigitsAt(s, 20, 23) && s[23] == 'Z'
  }

  /** The timestamp format the protocol asks for: `YYYY-MM-DDTHH:MM:SSZ`. */
  predicate IsChefTimestamp(t: string)
  {
    |t| == 20 && SecondsShape(t) && t[19] == 'Z'
  }

  /** From an ISO instant the signer keeps the date and time to the second and marks it UTC; the milliseconds are gone. */
  lemma TimestampFormat(isoNow: string)
    requires IsIsoInstant(isoNow)
    ensures IsChefTimestamp(Timestamp(isoNow))
    ensures Timestamp(isoNow)[..19] == isoNow[..19]
    ensures '.' !in Timestamp(isoNow)
  {
    var t := Timestamp(isoNow);
    assert t == isoNow[..19] + "Z";
    forall i | 0 <= i < 20
      ensures t[i] != '.'
    {
      if i < 19 {
        assert t[i] == isoNow[i];
      }
    }
  }

  /** Two instants give the same timestamp exactly when they fall in the same second. */
  lemma TimestampSameSecond(isoA: string, isoB: string)
    requires IsIsoInstant(isoA) && IsIsoInstant(isoB)
    ensures Timestamp(isoA) == Timestamp(isoB) <==> isoA[..19] == isoB[..19]
  {
    TimestampFormat(isoA);
    TimestampFormat(isoB);
    assert Timestamp(isoA) == isoA[..19] + "Z";
    assert Timestamp(isoB) == isoB[..19] + "Z";
  }

  /** Signing the same request twice within one second gives the same header set. */
  lemma SameSecondSameHeaders(lib: Library, auth: Auth, config: RequestConfig, isoA: string, isoB: string)
    requires IsIsoInstant(isoA) && IsIsoInstant(isoB) && isoA[..19] == isoB[..19]
    ensures SignedHeaders(lib, auth, config, isoA) == SignedHeaders(lib, auth, config, isoB)
  {
    TimestampSameSecond(isoA, isoB);
  }
}
