/**
 * The Node.js `authMiddleware`: it copies the load balancer's OIDC token
 * headers onto `req.user` when at least one of them is non-empty, echoes them
 * in two debugging response headers, and always hands on to the next handler.
 */
module NodeAuth {
  import opened Wrappers
  import NodeApi

  /** `req.user`; an absent field is `undefined`. */
  datatype User = User(idToken: Option<string>, accessToken: Option<string>)

  /** The parts of the request the middleware reads and writes. */
  datatype AuthRequest = AuthRequest(headers: map<string, string>, user: Option<User>)

  /** What an Express middleware can do: pass control on, or answer by itself. */
  datatype MiddlewareResult =
    | Next(request: AuthRequest, responseHeaders: map<string, string>)
    | Respond(status: int)

  const IdTokenEcho: string := "X-Client-ID-Token"
  const AccessTokenEcho: string := "X-Client-Access-Token"

  /** A header value JavaScript treats as true: present and non-empty. */
  predicate Present(v: Option<string>) {
    v.Some? && v.value != ""
  }

  /** `v || undefined`. */
  function OrUndefined(v: Option<string>): (r: Option<string>)
    ensures r.Some? <==> Present(v)
    ensures r.Some? ==> r == v
  {
    if Present(v) then v else None
  }

  /** `v || ""`. */
  function OrEmpty(v: Option<string>): (r: string)
    ensures Present(v) ==> r == v.value
    ensures !Present(v) ==> r == ""
  {
    if Present(v) then v.value else ""
  }

  function AuthMiddleware(req: AuthRequest, resHeaders: map<string, string>): (r: MiddlewareResult)
    // it never answers by itself
    ensures r.Next?
    ensures r.request.headers == req.headers
    // `req.user` is replaced exactly when a token is present, and left alone otherwise
    ensures var id := Lookup(req.headers, NodeApi.IdTokenHeader);
            var access := Lookup(req.headers, NodeApi.AccessTokenHeader);
            && (Present(id) || Present(access) ==> r.request.user == Some(User(OrUndefined(id), OrUndefined(access))))
            && (!Present(id) && !Present(access) ==> r.request.user == req.user)
            && IdTokenEcho in r.responseHeaders && r.responseHeaders[IdTokenEcho] == OrEmpty(id)
            && AccessTokenEcho in r.responseHeaders && r.responseHeaders[AccessTokenEcho] == OrEmpty(access)
    ensures forall h :: h != IdTokenEcho && h != AccessTokenEcho ==>
              (h in r.responseHeaders <==> h in resHeaders)
    ensures forall h :: h != IdTokenEcho && h != AccessTokenEcho && h in r.responseHeaders ==>
              r.responseHeaders[h] == resHeaders[h]
  {
    var id := Lookup(req.headers, NodeApi.IdTokenHeader);
    var access := Lookup(req.headers, NodeApi.AccessTokenHeader);
    var user := if Present(id) || Present(access) then Some(User(OrUndefined(id), OrUndefined(access))) else req.user;
    assert IdTokenEcho[9] != AccessTokenEcho[9];
    Next(req.(user := user), resHeaders[IdTokenEcho := OrEmpty(id)][AccessTokenEcho := OrEmpty(access)])
  }

  /**
   * Each `req.user` field holds a token exactly when its header is present and
   * non-empty, and then holds it verbatim.
   */
  lemma UserFieldsFollowHeaders(req: AuthRequest, resHeaders: map<string, string>)
    requires NodeApi.IdTokenHeader in req.headers && req.headers[NodeApi.IdTokenHeader] != ""
    ensures var u := AuthMiddleware(req, resHeaders).request.user;
            && u.Some?
            && u.value.idToken == Some(req.headers[NodeApi.IdTokenHeader])
            && (u.value.accessToken.Some? <==>
                  NodeApi.AccessTokenHeader in req.headers && req.headers[NodeApi.AccessTokenHeader] != "")
  {
  }

  /**
   * `/hello` and the middleware read the same headers: for a non-empty access
   * token they agree, but an empty header is echoed by `/hello` as "" while the
   * middleware treats it as absent.
   */
  lemma HelloAgreesWithMiddleware(req: AuthRequest, resHeaders: map<string, string>, timestamp: string)
    requires NodeApi.AccessTokenHeader in req.headers
    ensures var hello := NodeApi.Hello(req.headers, resHeaders, timestamp);
            var mw := AuthMiddleware(req, resHeaders);
            var t := req.headers[NodeApi.AccessTokenHeader];
            && hello.body.accessToken == Some(t)
            && mw.responseHeaders[AccessTokenEcho] == t
            && (t != "" ==> mw.request.user.Some? && mw.request.user.value.accessToken == Some(t))
            && (t == "" && Present(Lookup(req.headers, NodeApi.IdTokenHeader)) ==>
                  mw.request.user.Some? && mw.request.user.value.accessToken.None?)
            && (t == "" && !Present(Lookup(req.headers, NodeApi.IdTokenHeader)) ==> mw.request.user == req.user)
  {
  }
}
