/**
 * The `/hello` route of the Node.js demo server: it echoes the two headers an
 * AWS application load balancer adds after OIDC sign-in and sets a fixed
 * `AK-Token` response header. Request header names are the lower-case names
 * Node.js delivers; a missing header reads as `undefined`. The server's table
 * of GET routes is kept here too.
 */
module NodeApi {
  import opened Wrappers

  /** The JSON body of `/hello`; an `undefined` token is left out when serialised. */
  datatype HelloBody = HelloBody(message: string, accessToken: Option<string>, idToken: Option<string>, timestamp: string)

  datatype HelloResponse = HelloResponse(headers: map<string, string>, body: HelloBody)

  const AccessTokenHeader: string := "x-amzn-oidc-accesstoken"
  const IdTokenHeader: string := "x-amzn-oidc-data"
  const AkTokenHeader: string := "AK-Token"
  const AkTokenValue: string := "This is a header"
  const HelloMessage: string := "Hello from the backend!"

  /** The `/hello` handler, given the request headers, the response headers so far and the clock. */
  function Hello(reqHeaders: map<string, string>, resHeaders: map<string, string>, timestamp: string): (r: HelloResponse)
    ensures AkTokenHeader in r.headers && r.headers[AkTokenHeader] == AkTokenValue
    ensures forall h :: h != AkTokenHeader ==> (h in r.headers <==> h in resHeaders)
    ensures forall h :: h != AkTokenHeader && h in r.headers ==> r.headers[h] == resHeaders[h]
    ensures r.body.message == HelloMessage && r.body.timestamp == timestamp
    // each token is echoed verbatim when the header is present, even when empty
    ensures r.body.accessToken.Some? <==> AccessTokenHeader in reqHeaders
    ensures r.body.accessToken.Some? ==> r.body.accessToken.value == reqHeaders[AccessTokenHeader]
    ensures r.body.idToken.Some? <==> IdTokenHeader in reqHeaders
    ensures r.body.idToken.Some? ==> r.body.idToken.value == reqHeaders[IdTokenHeader]
  {
    HelloResponse(resHeaders[AkTokenHeader := AkTokenValue],
                  HelloBody(HelloMessage, Lookup(reqHeaders, AccessTokenHeader), Lookup(reqHeaders, IdTokenHeader), timestamp))
  }

  /**
   * The GET paths the Node.js server answers other than with its 404 handler:
   * the root router at `/`, the health router under `/health`, the API router
   * under `/api` and the legacy router under `/api2`.
   */
  const NodeGetPaths: set<string> :=
    {"/", "/health", "/health/detailed", "/api", "/api/hello", "/api/env", "/api/goodbye", "/api2", "/api2/health"}
}
