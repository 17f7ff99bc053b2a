/**
 * The request builders' shared pieces: resource paths, the create bodies, and
 * one signed request as the client and node functions issue it. Both source
 * files build these the same way.
 */
module ChefApi {
  import opened Wrappers
  import opened JsValue
  import JsObject
  import opened Signing
  import SigningProperties

  function ClientsPath(org: string): string
  {
    "/organizations/" + org + "/clients"
  }

  function ClientPath(org: string, name: string): string
  {
    "/organizations/" + org + "/clients/" + name
  }

  function NodesPath(org: string): string
  {
    "/organizations/" + org + "/nodes"
  }

  function NodePath(org: string, name: string): string
  {
    "/organizations/" + org + "/nodes/" + name
  }

  /** A target that starts with `/` always has a pathname, so signing a request to it never throws for want of one. */
  lemma RootedPathHasPathname(path: string)
    requires |path| > 0 && path[0] == '/'
    ensures Pathname(path).Some?
  {
    assert PathPrefix(path)[0] == '/';
  }

  /** The resource paths, the element paths under their collection, are all rooted. */
  lemma ResourcePathsRooted(org: string, name: string)
    ensures ClientsPath(org)[0] == '/' && ClientPath(org, name)[0] == '/'
    ensures NodesPath(org)[0] == '/' && NodePath(org, name)[0] == '/'
    ensures ClientPath(org, name) == ClientsPath(org) + "/" + name
    ensures NodePath(org, name) == NodesPath(org) + "/" + name
  {
  }

  /** The bodyless requests sign the empty string `''`, which is falsy, so its hash is the hash of "". */
  lemma EmptyBodyHash(lib: Library)
    ensures BodyHash(lib, Str("")) == Sha1(lib, "")
  {
  }

  /** An object body is truthy, so its hash is the hash of its JSON text. */
  lemma ObjectBodyHash(lib: Library, body: Value)
    requires body.Obj?
    ensures BodyHash(lib, body) == Sha1(lib, lib.stringify(body))
  {
  }

  /** The body ClientCreate posts: a client named `name` that gets a new key and is not a validator. */
  function ClientCreateBody(name: string): Value
  {
    Obj([("name", Str(name)), ("clientname", Str(name)), ("create_key", Bool(true)), ("validator", Bool(false))])
  }

  lemma ClientCreateBodyFields(name: string)
    ensures var props := ClientCreateBody(name).props;
            && JsObject.Keys(props) == ["name", "clientname", "create_key", "validator"]
            && JsObject.Lookup(props, "name") == Some(Str(name))
            && JsObject.Lookup(props, "clientname") == Some(Str(name))
            && JsObject.Lookup(props, "create_key") == Some(Bool(true))
            && JsObject.Lookup(props, "validator") == Some(Bool(false))
            && Truthy(ClientCreateBody(name))
  {
    FourFields("name", "clientname", "create_key", "validator", Str(name), Str(name), Bool(true), Bool(false));
  }

  /**
   * The body NodeCreate posts: always `name` and `json_class`; then the policy
   * name and group if `runlist.policy_name` is truthy, else `run_list` set to
   * the whole `runlist` argument. Reading `policy_name` of null or undefined
   * throws.
   */
  function NodeCreateBody(name: string, runlist: Value): (r: Result<Value, Exception>)
    ensures r.Failure? <==> runlist.Undefined? || runlist.Null?
    ensures r.Failure? ==> r.error == ReadOfNullish("policy_name")
    ensures r.Success? ==> r.value.Obj?
    ensures r.Success? ==>
      var props := r.value.props;
      var policyName := Property(runlist, "policy_name").value;
      && JsObject.Lookup(props, "name") == Some(Str(name))
      && JsObject.Lookup(props, "json_class") == Some(Str("Chef::Node"))
      && (Truthy(policyName) ==>
            && JsObject.Keys(props) == ["name", "json_class", "policy_name", "policy_group"]
            && JsObject.Lookup(props, "policy_name") == Some(policyName)
            && JsObject.Lookup(props, "policy_group") == Some(Property(runlist, "policy_group").value))
      && (!Truthy(policyName) ==>
            && JsObject.Keys(props) == ["name", "json_class", "run_list"]
            && JsObject.Lookup(props, "run_list") == Some(runlist))
  {
    var bodyData := [("name", Str(name)), ("json_class", Str("Chef::Node"))];
    var policyName :- Property(runlist, "policy_name");
    if Truthy(policyName) then
      var policyGroup := Property(runlist, "policy_group").value;
      PolicyBodyFields(name, policyName, policyGroup);
      Success(Obj(JsObject.Put(JsObject.Put(bodyData, "policy_name", policyName), "policy_group", policyGroup)))
    else
      RunListBodyFields(name, runlist);
      Success(Obj(JsObject.Put(bodyData, "run_list", runlist)))
  }

  /** Assigning a name a two-entry object lacks appends it as the third entry. */
  lemma PutThird<V>(x: (string, V), y: (string, V), k: string, v: V)
    requires k != x.0 && k != y.0
    ensures JsObject.Put([x, y], k, v) == [x, y, (k, v)]
  {
    assert JsObject.Keys([x, y]) == [x.0, y.0];
  }

  /** Assigning a name a three-entry object lacks appends it as the fourth entry. */
  lemma PutFourth<V>(x: (string, V), y: (string, V), z: (string, V), k: string, v: V)
    requires k != x.0 && k != y.0 && k != z.0
    ensures JsObject.Put([x, y, z], k, v) == [x, y, z, (k, v)]
  {
    assert JsObject.Keys([x, y, z]) == [x.0, y.0, z.0];
  }

  lemma PolicyBodyFields(name: string, policyName: Value, policyGroup: Value)
    ensures var bodyData := [("name", Str(name)), ("json_class", Str("Chef::Node"))];
            var props := JsObject.Put(JsObject.Put(bodyData, "policy_name", policyName), "policy_group", policyGroup);
            && JsObject.Keys(props) == ["name", "json_class", "policy_name", "policy_group"]
            && JsObject.Lookup(props, "name") == Some(Str(name))
            && JsObject.Lookup(props, "json_class") == Some(Str("Chef::Node"))
            && JsObject.Lookup(props, "policy_name") == Some(policyName)
            && JsObject.Lookup(props, "policy_group") == Some(policyGroup)
  {
    PutThird(("name", Str(name)), ("json_class", Str("Chef::Node")), "policy_name", policyName);
    PutFourth(("name", Str(name)), ("json_class", Str("Chef::Node")), ("policy_name", policyName), "policy_group", policyGroup);
    FourFields("name", "json_class", "policy_name", "policy_group", Str(name), Str("Chef::Node"), policyName, policyGroup);
  }

  /** An object of four entries with distinct names: its keys in order, and what each name reads. */
  lemma FourFields<V>(n1: string, n2: string, n3: string, n4: string, a: V, b: V, c: V, d: V)
    requires n1 != n2 && n1 != n3 && n1 != n4 && n2 != n3 && n2 != n4 && n3 != n4
    ensures var props := [(n1, a), (n2, b), (n3, c), (n4, d)];
            && JsObject.Keys(props) == [n1, n2, n3, n4]
            && JsObject.Lookup(props, n1) == Some(a)
            && JsObject.Lookup(props, n2) == Some(b)
            && JsObject.Lookup(props, n3) == Some(c)
            && JsObject.Lookup(props, n4) == Some(d)
  {
    var props := [(n1, a), (n2, b), (n3, c), (n4, d)];
    assert JsObject.DistinctKeys(props);
    JsObject.LookupAt(props, 0);
    JsObject.LookupAt(props, 1);
    JsObject.LookupAt(props, 2);
    JsObject.LookupAt(props, 3);
  }

  /** An object of three entries with distinct names: its keys in order, and what each name reads. */
  lemma ThreeFields<V>(n1: string, n2: string, n3: string, a: V, b: V, c: V)
    requires n1 != n2 && n1 != n3 && n2 != n3
    ensures var props := [(n1, a), (n2, b), (n3, c)];
            && JsObject.Keys(props) == [n1, n2, n3]
            && JsObject.Lookup(props, n1) == Some(a)
            && JsObject.Lookup(props, n2) == Some(b)
            && JsObject.Lookup(props, n3) == Some(c)
  {
    var props := [(n1, a), (n2, b), (n3, c)];
    assert JsObject.DistinctKeys(props);
    JsObject.LookupAt(props, 0);
    JsObject.LookupAt(props, 1);
    JsObject.LookupAt(props, 2);
  }

  lemma RunListBodyFields(name: string, runlist: Value)
    ensures var bodyData := [("name", Str(name)), ("json_class", Str("Chef::Node"))];
            var props := JsObject.Put(bodyData, "run_list", runlist);
            && JsObject.Keys(props) == ["name", "json_class", "run_list"]
            && JsObject.Lookup(props, "name") == Some(Str(name))
            && JsObject.Lookup(props, "json_class") == Some(Str("Chef::Node"))
            && JsObject.Lookup(props, "run_list") == Some(runlist)
  {
    PutThird(("name", Str(name)), ("json_class", Str("Chef::Node")), "run_list", runlist);
    ThreeFields("name", "json_class", "run_list", Str(name), Str("Chef::Node"), runlist);
  }

  /** NodeCreate's body as the source builds it, adding the branch's fields to `bodyData` in place. */
  method BuildNodeCreateBody(name: string, runlist: Value) returns (r: Result<Value, Exception>)
    ensures r == NodeCreateBody(name, runlist)
  {
    var bodyData := [("name", Str(name)), ("json_class", Str("Chef::Node"))];
    var policyName := Property(runlist, "policy_name");
    if policyName.Failure? {
      return Failure(policyName.error);
    }
    if Truthy(policyName.value) {
      bodyData := JsObject.Put(bodyData, "policy_name", policyName.value);
      var policyGroup := Property(runlist, "policy_group");
      bodyData := JsObject.Put(bodyData, "policy_group", policyGroup.value);
    } else {
      bodyData := JsObject.Put(bodyData, "run_list", runlist);
    }
    return Success(Obj(bodyData));
  }

  /** What one call hands to `https.request` (method, host, path, signed headers) and what it writes as the body. */
  datatype Request = Request(verb: string, host: string, path: string, headers: Headers, payload: Option<string>)

  /**
   * A request to `https://<server><path>`, signed for `body`, that writes
   * `payload`. The host and path passed on are those of the URL built from
   * `server` and `path`.
   */
  function SignedRequest(lib: Library, user: string, key: PrivateKey, verb: string, server: string,
                         path: string, body: Value, payload: Option<string>, isoNow: string): (r: Result<Request, Exception>)
    ensures r.Success? <==> SignedHeaders(lib, Auth(user, key), RequestConfig(server, body, verb, path), isoNow).Success?
    ensures r.Failure? && |path| > 0 && path[0] == '/' ==> r.error == KeyUnusable || r.error == NoSignatureChunks
    ensures r.Success? ==>
      && r.value.verb == verb && r.value.host == server && r.value.path == path && r.value.payload == payload
      && JsObject.Lookup(r.value.headers, "Host") == Some(server)
      && JsObject.Lookup(r.value.headers, "X-Ops-Content-Hash") == Some(BodyHash(lib, body))
      && JsObject.Lookup(r.value.headers, "X-Ops-UserId") == Some(user)
      && r.value.headers == SignedHeaders(lib, Auth(user, key), RequestConfig(server, body, verb, path), isoNow).value
  {
    var auth := Auth(user, key);
    var config := RequestConfig(server, body, verb, path);
    var result := SignedHeaders(lib, auth, config, isoNow);
    if result.Failure? then
      (if |path| > 0 && path[0] == '/' then RootedPathHasPathname(path); Failure(result.error)
       else Failure(result.error))
    else
      SigningProperties.HeadersAgreeWithSignedString(lib, auth, config, isoNow);
      Success(Request(verb, server, path, result.value, payload))
  }
}
