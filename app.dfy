/**
 * The client and node functions of app.js. Each builds the target URL, signs
 * the request and sends it; only POST requests write a body. As written,
 * NodeCreate posts the node to the organization's clients collection.
 */
module App {
  import opened Wrappers
  import opened JsValue
  import JsObject
  import opened Signing
  import opened ChefApi

  /** GET `/organizations/<org>/clients/<client>`, signed with an empty body. */
  function ClientGet(lib: Library, client: string, server: string, org: string,
                     user: string, key: PrivateKey, isoNow: string): (r: Result<Request, Exception>)
    ensures r.Failure? ==> r.error == KeyUnusable || r.error == NoSignatureChunks
    ensures r.Success? ==>
      && r.value.verb == "GET" && r.value.host == server && r.value.path == ClientPath(org, client)
      && r.value.payload == None
      && JsObject.Lookup(r.value.headers, "X-Ops-Content-Hash") == Some(Sha1(lib, ""))
    ensures r.Success? <==> SignedHeaders(lib, Auth(user, key), RequestConfig(server, Str(""), "GET", ClientPath(org, client)), isoNow).Success?
    ensures r.Success? ==> r.value.headers == SignedHeaders(lib, Auth(user, key), RequestConfig(server, Str(""), "GET", ClientPath(org, client)), isoNow).value
  {
    EmptyBodyHash(lib);
    ResourcePathsRooted(org, client);
    SignedRequest(lib, user, key, "GET", server, ClientPath(org, client), Str(""), None, isoNow)
  }

  /** POST a new client to `/organizations/<org>/clients`; the content hash is over the very text written. */
  function ClientCreate(lib: Library, name: string, server: string, org: string,
                        user: string, key: PrivateKey, isoNow: string): (r: Result<Request, Exception>)
    ensures r.Failure? ==> r.error == KeyUnusable || r.error == NoSignatureChunks
    ensures r.Success? ==>
      && r.value.verb == "POST" && r.value.host == server && r.value.path == ClientsPath(org)
      && r.value.payload == Some(lib.stringify(ClientCreateBody(name)))
      && JsObject.Lookup(r.value.headers, "X-Ops-Content-Hash") == Some(Sha1(lib, r.value.payload.value))
    ensures r.Success? <==> SignedHeaders(lib, Auth(user, key), RequestConfig(server, ClientCreateBody(name), "POST", ClientsPath(org)), isoNow).Success?
    ensures r.Success? ==> r.value.headers == SignedHeaders(lib, Auth(user, key), RequestConfig(server, ClientCreateBody(name), "POST", ClientsPath(org)), isoNow).value
  {
    var bodyData := ClientCreateBody(name);
    ObjectBodyHash(lib, bodyData);
    ResourcePathsRooted(org, name);
    SignedRequest(lib, user, key, "POST", server, ClientsPath(org), bodyData, Some(lib.stringify(bodyData)), isoNow)
  }

  /** DELETE `/organizations/<org>/clients/<name>`, signed with an empty body. */
  function ClientDelete(lib: Library, name: string, server: string, org: string,
                        user: string, key: PrivateKey, isoNow: string): (r: Result<Request, Exception>)
    ensures r.Failure? ==> r.error == KeyUnusable || r.error == NoSignatureChunks
    ensures r.Success? ==>
      && r.value.verb == "DELETE" && r.value.host == server && r.value.path == ClientPath(org, name)
      && r.value.payload == None
      && JsObject.Lookup(r.value.headers, "X-Ops-Content-Hash") == Some(Sha1(lib, ""))
    ensures r.Success? <==> SignedHeaders(lib, Auth(user, key), RequestConfig(server, Str(""), "DELETE", ClientPath(org, name)), isoNow).Success?
    ensures r.Success? ==> r.value.headers == SignedHeaders(lib, Auth(user, key), RequestConfig(server, Str(""), "DELETE", ClientPath(org, name)), isoNow).value
  {
    EmptyBodyHash(lib);
    ResourcePathsRooted(org, name);
    SignedRequest(lib, user, key, "DELETE", server, ClientPath(org, name), Str(""), None, isoNow)
  }

  /** GET `/organizations/<org>/nodes/<name>`, signed with an empty body. */
  function NodeGet(lib: Library, name: string, server: string, org: string,
                   user: string, key: PrivateKey, isoNow: string): (r: Result<Request, Exception>)
    ensures r.Failure? ==> r.error == KeyUnusable || r.error == NoSignatureChunks
    ensures r.Success? ==>
      && r.value.verb == "GET" && r.value.host == server && r.value.path == NodePath(org, name)
      && r.value.payload == None
      && JsObject.Lookup(r.value.headers, "X-Ops-Content-Hash") == Some(Sha1(lib, ""))
    ensures r.Success? <==> SignedHeaders(lib, Auth(user, key), RequestConfig(server, Str(""), "GET", NodePath(org, name)), isoNow).Success?
    ensures r.Success? ==> r.value.headers == SignedHeaders(lib, Auth(user, key), RequestConfig(server, Str(""), "GET", NodePath(org, name)), isoNow).value
  {
    EmptyBodyHash(lib);
    ResourcePathsRooted(org, name);
    SignedRequest(lib, user, key, "GET", server, NodePath(org, name), Str(""), None, isoNow)
  }

  /**
   * POST a node body, built from `runlist`, to `/organizations/<org>/clients`
   * (the clients collection, as the code is written). A null or undefined
   * `runlist` throws before anything is signed.
   */
  function NodeCreate(lib: Library, name: string, runlist: Value, server: string, org: string,
                      user: string, key: PrivateKey, isoNow: string): (r: Result<Request, Exception>)
    ensures r == Failure(ReadOfNullish("policy_name")) <==> runlist.Undefined? || runlist.Null?
    ensures r.Failure? ==> r.error in {ReadOfNullish("policy_name"), KeyUnusable, NoSignatureChunks}
    ensures r.Success? ==>
      && r.value.verb == "POST" && r.value.host == server && r.value.path == ClientsPath(org)
      && r.value.payload == Some(lib.stringify(NodeCreateBody(name, runlist).value))
      && JsObject.Lookup(r.value.headers, "X-Ops-Content-Hash") == Some(Sha1(lib, r.value.payload.value))
    ensures r.Success? <==>
      NodeCreateBody(name, runlist).Success? &&
      SignedHeaders(lib, Auth(user, key), RequestConfig(server, NodeCreateBody(name, runlist).value, "POST", ClientsPath(org)), isoNow).Success?
    ensures r.Success? ==>
      r.value.headers == SignedHeaders(lib, Auth(user, key), RequestConfig(server, NodeCreateBody(name, runlist).value, "POST", ClientsPath(org)), isoNow).value
  {
    var bodyData :- NodeCreateBody(name, runlist);
    ObjectBodyHash(lib, bodyData);
    ResourcePathsRooted(org, name);
    SignedRequest(lib, user, key, "POST", server, ClientsPath(org), bodyData, Some(lib.stringify(bodyData)), isoNow)
  }

  /** DELETE `/organizations/<org>/nodes/<name>`, signed with an empty body. */
  function NodeDelete(lib: Library, name: string, server: string, org: string,
                      user: string, key: PrivateKey, isoNow: string): (r: Result<Request, Exception>)
    ensures r.Failure? ==> r.error == KeyUnusable || r.error == NoSignatureChunks
    ensures r.Success? ==>
      && r.value.verb == "DELETE" && r.value.host == server && r.value.path == NodePath(org, name)
      && r.value.payload == None
      && JsObject.Lookup(r.value.headers, "X-Ops-Content-Hash") == Some(Sha1(lib, ""))
    ensures r.Success? <==> SignedHeaders(lib, Auth(user, key), RequestConfig(server, Str(""), "DELETE", NodePath(org, name)), isoNow).Success?
    ensures r.Success? ==> r.value.headers == SignedHeaders(lib, Auth(user, key), RequestConfig(server, Str(""), "DELETE", NodePath(org, name)), isoNow).value
  {
    EmptyBodyHash(lib);
    ResourcePathsRooted(org, name);
    SignedRequest(lib, user, key, "DELETE", server, NodePath(org, name), Str(""), None, isoNow)
  }

  /**
   * The request NodeCreate sends never goes to the nodes collection: it is
   * posted to the clients collection (for which, by NodeCreate's contract, its
   * headers are signed).
   */
  lemma NodeCreateTargetsClients(lib: Library, name: string, runlist: Value, server: string, org: string,
                                 user: string, key: PrivateKey, isoNow: string)
    requires NodeCreate(lib, name, runlist, server, org, user, key, isoNow).Success?
    ensures NodeCreate(lib, name, runlist, server, org, user, key, isoNow).value.path != NodesPath(org)
  {
    assert |ClientsPath(org)| != |NodesPath(org)|;
  }
}
