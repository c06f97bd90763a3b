/**
 * The API console of the dashboard: a request form (method, URL, header map,
 * body), the body-encoding decision, the mapping of a send outcome onto the
 * `response` / `error` / `loading` read model, and the header editors.
 *
 * The HTTP client, the clock and `JSON.parse` are inputs: `parse` stands for
 * `JSON.parse` (`None` when it throws), `outcome` for what the client resolved
 * or rejected with, and `startMs` / `endMs` for the two `Date.now()` readings.
 */
module ApiConsole {
  import opened Wrappers
  import opened Strings
  import opened Json
  import NodeApi
  import PythonServer

  /** The request form. The method is the string chosen in the form. */
  datatype ApiRequest = ApiRequest(httpMethod: string, url: string, headers: map<string, string>, body: string)

  /** What the console shows under "Response". */
  datatype ApiResponse = ApiResponse(status: int, statusText: string, headers: map<string, string>, data: Json, duration: int)

  /** The component state: the form, the last response, the busy flag and the error banner. */
  datatype ConsoleState = ConsoleState(request: ApiRequest, response: Option<ApiResponse>, loading: bool, error: Option<Json>)

  /** A request body as handed to the client: the parsed JSON, or the raw text when parsing failed. */
  datatype Payload = Parsed(value: Json) | Raw(text: string)

  /** The configuration object handed to the HTTP client. */
  datatype RequestConfig = RequestConfig(httpMethod: string, url: string, headers: map<string, string>, timeout: int, data: Option<Payload>)

  /** A response received from the server, whatever its status. */
  datatype HttpResponse = HttpResponse(status: int, statusText: string, headers: map<string, string>, data: Json)

  /** How the client call ended: resolved with a response, or rejected with an error that may carry one. */
  datatype SendOutcome =
    | Resolved(response: HttpResponse)
    | Rejected(errResponse: Option<HttpResponse>, message: string)

  /** The request actually dispatched (if any) and the state after the send. */
  datatype SendResult = SendResult(sent: Option<RequestConfig>, state: ConsoleState)

  /** One entry of the "Predefined Requests" list. */
  datatype PredefinedRequest = PredefinedRequest(name: string, httpMethod: string, url: string, description: string)

  const RequestTimeoutMs: int := 10000
  const UrlRequired: string := "URL is required"
  const RequestFailed: string := "Request failed"
  const DefaultPythonUrl: string := "http://localhost:8080"
  const DefaultNodeUrl: string := "http://localhost:5000"
  const SuccessBadge: string := "bg-green-100 text-green-800"
  const FailureBadge: string := "bg-red-100 text-red-800"

  /** The form as first shown: a GET with a blank URL, so nothing can be sent yet, and JSON as the only header. */
  function InitialRequest(): (r: ApiRequest)
    ensures r.httpMethod == "GET" && IsBlank(r.url) && r.body == []
    ensures r.headers.Keys == {"Content-Type"} && r.headers["Content-Type"] == "application/json"
  {
    ApiRequest("GET", "", map["Content-Type" := "application/json"], "")
  }

  function InitialState(): ConsoleState {
    ConsoleState(InitialRequest(), None, false, None)
  }

  /** `window.ENV?.X || fallback`: a configured base URL, unless it is missing or empty. */
  function ServiceUrl(configured: Option<string>, fallback: string): (u: string)
    ensures configured.Some? && configured.value != "" ==> u == configured.value
    ensures configured.None? || configured.value == "" ==> u == fallback
  {
    if configured.Some? && configured.value != "" then configured.value else fallback
  }

  /** The Python base URL: the configured `VITE_PYTHON_SERVICE_URL`, or the local default; never empty. */
  function PythonUrl(configured: Option<string>): (u: string)
    ensures configured.Some? && configured.value != "" ==> u == configured.value
    ensures configured.None? || configured.value == "" ==> u == DefaultPythonUrl
    ensures u != ""
  {
    ServiceUrl(configured, DefaultPythonUrl)
  }

  /** The Node.js base URL: the configured `VITE_NODE_SERVICE_URL`, or the local default; never empty. */
  function NodeUrl(configured: Option<string>): (u: string)
    ensures configured.Some? && configured.value != "" ==> u == configured.value
    ensures configured.None? || configured.value == "" ==> u == DefaultNodeUrl
    ensures u != ""
  {
    ServiceUrl(configured, DefaultNodeUrl)
  }

  /** A service URL followed by an absolute path; never blank, whatever the base. */
  function Endpoint(base: string, path: string): (u: string)
    requires |path| > 0 && path[0] == '/'
    ensures u == base + path && !IsBlank(u)
  {
    assert !IsWhitespace(path[0]);
    NotBlankConcat(base, path);
    base + path
  }

  /** The paths the three Python presets append to the Python base URL, as written. */
  const PythonPresetPaths: seq<string> := ["/api/health", "/api/metrics", "/api/env"]

  /** The same three presets with the paths the Python application routes. */
  const RoutedPythonPresetPaths: seq<string> := ["/health", "/metrics", "/env"]

  /** The paths the three Node.js presets append to the Node.js base URL, as written. */
  const NodePresetPaths: seq<string> := ["/health", "/healthdetailed", "/apienv"]

  /** The same three presets with the paths the Node.js router serves. */
  const RoutedNodePresetPaths: seq<string> := ["/health", "/health/detailed", "/api/env"]

  /** Three paths, each starting with a slash. */
  predicate ThreePaths(paths: seq<string>) {
    |paths| == 3 && forall i :: 0 <= i < 3 ==> |paths[i]| > 0 && paths[i][0] == '/'
  }

  /** The six presets: three on the Python base URL, then three on the Node.js base URL, with the given paths. */
  function Presets(pythonUrl: string, nodeUrl: string, pythonPaths: seq<string>, nodePaths: seq<string>): (ps: seq<PredefinedRequest>)
    requires ThreePaths(pythonPaths) && ThreePaths(nodePaths)
    ensures |ps| == 6
    ensures forall i :: 0 <= i < |ps| ==> ps[i].httpMethod == "GET" && !IsBlank(ps[i].url)
    ensures forall i :: 0 <= i < 3 ==> ps[i].url == pythonUrl + pythonPaths[i]
    ensures forall i :: 3 <= i < 6 ==> ps[i].url == nodeUrl + nodePaths[i - 3]
  {
    [
      PredefinedRequest("Python Health Check", "GET", Endpoint(pythonUrl, pythonPaths[0]), "Check Python service health"),
      PredefinedRequest("Python Metrics", "GET", Endpoint(pythonUrl, pythonPaths[1]), "Get Python service metrics"),
      PredefinedRequest("Python Environment", "GET", Endpoint(pythonUrl, pythonPaths[2]), "Get Python service environment variables"),
      PredefinedRequest("Node.js Health Check", "GET", Endpoint(nodeUrl, nodePaths[0]), "Check Node.js service health"),
      PredefinedRequest("Node.js Detailed Health", "GET", Endpoint(nodeUrl, nodePaths[1]), "Get detailed Node.js service health"),
      PredefinedRequest("Node.js Environment", "GET", Endpoint(nodeUrl, nodePaths[2]), "Get Node.js service environment variables")
    ]
  }

  /** The six predefined requests of the form, built from the two service base URLs. */
  function PredefinedRequests(pythonUrl: string, nodeUrl: string): (ps: seq<PredefinedRequest>)
    ensures |ps| == 6
    ensures forall i :: 0 <= i < |ps| ==> ps[i].httpMethod == "GET" && !IsBlank(ps[i].url)
    ensures forall i :: 0 <= i < 3 ==> ps[i].url == pythonUrl + PythonPresetPaths[i]
    ensures forall i :: 3 <= i < 6 ==> ps[i].url == nodeUrl + NodePresetPaths[i - 3]
  {
    Presets(pythonUrl, nodeUrl, PythonPresetPaths, NodePresetPaths)
  }

  /** None of the Python presets asks for a path the Python application routes: it has no `/api` prefix. */
  lemma PythonPresetsMissRoutes(pythonUrl: string, nodeUrl: string)
    ensures var ps := PredefinedRequests(pythonUrl, nodeUrl);
            && ps[0].url == pythonUrl + "/api/health" && !PythonServer.IsPythonGetPath("/api/health")
            && ps[1].url == pythonUrl + "/api/metrics" && !PythonServer.IsPythonGetPath("/api/metrics")
            && ps[2].url == pythonUrl + "/api/env" && !PythonServer.IsPythonGetPath("/api/env")
  {
    assert PythonServer.ItemsPrefix[1] == 'i';
    assert "/api/health"[..7][1] == 'a';
    assert "/api/metrics"[..7][1] == 'a';
    assert "/api/env"[..7][1] == 'a';
  }

  /**
   * Two of the Node.js presets ask for paths the Node.js server does not
   * route: the slash between the router prefix and the route is missing.
   */
  lemma NodePresetsMissRoutes(pythonUrl: string, nodeUrl: string)
    ensures var ps := PredefinedRequests(pythonUrl, nodeUrl);
            && ps[3].url == nodeUrl + "/health" && "/health" in NodeApi.NodeGetPaths
            && ps[4].url == nodeUrl + "/healthdetailed" && "/healthdetailed" !in NodeApi.NodeGetPaths
            && ps[5].url == nodeUrl + "/apienv" && "/apienv" !in NodeApi.NodeGetPaths
  {
  }

  /** The presets with the routed paths: the same six requests, each on a path its server routes. */
  function RoutedPredefinedRequests(pythonUrl: string, nodeUrl: string): (ps: seq<PredefinedRequest>)
    ensures |ps| == 6
    ensures forall i :: 0 <= i < |ps| ==> ps[i].httpMethod == "GET" && !IsBlank(ps[i].url)
    ensures forall i :: 0 <= i < 6 ==>
              && ps[i].name == PredefinedRequests(pythonUrl, nodeUrl)[i].name
              && ps[i].description == PredefinedRequests(pythonUrl, nodeUrl)[i].description
    ensures forall i :: 0 <= i < 3 ==>
              ps[i].url == pythonUrl + RoutedPythonPresetPaths[i] && PythonServer.IsPythonGetPath(RoutedPythonPresetPaths[i])
    ensures forall i :: 3 <= i < 6 ==>
              ps[i].url == nodeUrl + RoutedNodePresetPaths[i - 3] && RoutedNodePresetPaths[i - 3] in NodeApi.NodeGetPaths
  {
    RoutedPathsAreRouted();
    Presets(pythonUrl, nodeUrl, RoutedPythonPresetPaths, RoutedNodePresetPaths)
  }

  lemma RoutedPathsAreRouted()
    ensures ThreePaths(RoutedPythonPresetPaths) && ThreePaths(RoutedNodePresetPaths)
    ensures forall i :: 0 <= i < 3 ==> PythonServer.IsPythonGetPath(RoutedPythonPresetPaths[i])
    ensures forall i :: 0 <= i < 3 ==> RoutedNodePresetPaths[i] in NodeApi.NodeGetPaths
  {
  }

  /**
   * The body attached to the outbound request: only for a non-GET method with a
   * body that is not blank; the parsed JSON when it parses, else the raw text.
   */
  function EncodeBody(httpMethod: string, body: string, parse: string -> Option<Json>): (d: Option<Payload>)
    ensures d.Some? <==> httpMethod != "GET" && !IsBlank(body)
    ensures d.Some? && parse(body).Some? ==> d.value == Parsed(parse(body).value)
    ensures d.Some? && parse(body).None? ==> d.value == Raw(body)
  {
    if httpMethod != "GET" && Trim(body) != "" then
      match parse(body)
      case Some(j) => Some(Parsed(j))
      case None => Some(Raw(body))
    else None
  }

  function BuildConfig(req: ApiRequest, parse: string -> Option<Json>): RequestConfig {
    RequestConfig(ToLower(req.httpMethod), req.url, req.headers, RequestTimeoutMs, EncodeBody(req.httpMethod, req.body, parse))
  }

  /** `err.response?.data?.message`. */
  function ServerMessage(errResponse: Option<HttpResponse>): Option<Json> {
    if errResponse.Some? then Field(errResponse.value.data, "message") else None
  }

  /** The server supplied a truthy `message` in the body of its error response. */
  predicate HasServerMessage(errResponse: Option<HttpResponse>) {
    ServerMessage(errResponse).Some? && Truthy(ServerMessage(errResponse).value)
  }

  /**
   * The error banner text of a rejected send: the server's `message` when it is
   * truthy, else the client's message when non-empty, else "Request failed".
   */
  function FailureMessage(errResponse: Option<HttpResponse>, message: string): (m: Json)
    ensures Truthy(m)
    ensures HasServerMessage(errResponse) ==> m == ServerMessage(errResponse).value
    ensures !HasServerMessage(errResponse) ==> m == Str(if message != "" then message else RequestFailed)
  {
    if HasServerMessage(errResponse) then ServerMessage(errResponse).value
    else if message != "" then Str(message)
    else Str(RequestFailed)
  }

  /** The state right after the send begins: busy, with the banner and the last response cleared. */
  function BeginSend(s: ConsoleState): ConsoleState {
    s.(loading := true, error := None, response := None)
  }

  /** The state once the client call has settled (the `finally` clears the busy flag). */
  function Settle(s: ConsoleState, outcome: SendOutcome, startMs: int, endMs: int): ConsoleState {
    var busy := BeginSend(s);
    match outcome
    case Resolved(resp) =>
      busy.(response := Some(ApiResponse(resp.status, resp.statusText, resp.headers, resp.data, endMs - startMs)),
            loading := false)
    case Rejected(errResponse, message) =>
      var shown :=
        if errResponse.Some? then
          Some(ApiResponse(errResponse.value.status, errResponse.value.statusText,
                           errResponse.value.headers, errResponse.value.data, 0))
        else None;
      busy.(error := Some(FailureMessage(errResponse, message)), response := shown, loading := false)
  }

  /** The "Send Request" action. */
  function Send(s: ConsoleState, parse: string -> Option<Json>, outcome: SendOutcome, startMs: int, endMs: int): (r: SendResult)
    // a blank URL is refused before anything is sent; only the banner changes
    ensures IsBlank(s.request.url) ==> r.sent.None? && r.state == s.(error := Some(Str(UrlRequired)))
    // otherwise the form is sent as it stands, and the busy flag ends cleared
    ensures !IsBlank(s.request.url) ==>
              && r.sent.Some?
              && r.sent.value.httpMethod == ToLower(s.request.httpMethod)
              && r.sent.value.url == s.request.url
              && r.sent.value.headers == s.request.headers
              && r.sent.value.timeout == RequestTimeoutMs
              && r.sent.value.data == EncodeBody(s.request.httpMethod, s.request.body, parse)
              && r.state.request == s.request
              && !r.state.loading
    // success: no banner, and the response mirrors what was received
    ensures !IsBlank(s.request.url) && outcome.Resolved? ==>
              && r.state.error.None?
              && r.state.response.Some?
              && r.state.response.value.status == outcome.response.status
              && r.state.response.value.statusText == outcome.response.statusText
              && r.state.response.value.headers == outcome.response.headers
              && r.state.response.value.data == outcome.response.data
              && r.state.response.value.duration == endMs - startMs
    // failure: a banner always, a response exactly when the error carried one, unmeasured
    ensures !IsBlank(s.request.url) && outcome.Rejected? ==>
              && r.state.error == Some(FailureMessage(outcome.errResponse, outcome.message))
              && (r.state.response.Some? <==> outcome.errResponse.Some?)
              && (r.state.response.Some? ==>
                    && r.state.response.value.status == outcome.errResponse.value.status
                    && r.state.response.value.statusText == outcome.errResponse.value.statusText
                    && r.state.response.value.headers == outcome.errResponse.value.headers
                    && r.state.response.value.data == outcome.errResponse.value.data
                    && r.state.response.value.duration == 0)
    // with a monotone clock no duration is negative
    ensures (!IsBlank(s.request.url) && startMs <= endMs && r.state.response.Some?)
              ==> r.state.response.value.duration >= 0
  {
    if Trim(s.request.url) == "" then
      SendResult(None, s.(error := Some(Str(UrlRequired))))
    else
      SendResult(Some(BuildConfig(s.request, parse)), Settle(s, outcome, startMs, endMs))
  }

  /** The colour of the status badge: green exactly for a 2xx status. */
  function StatusBadge(status: int): (c: string)
    ensures c == SuccessBadge <==> 200 <= status < 300
    ensures c == SuccessBadge || c == FailureBadge
  {
    assert SuccessBadge[3] != FailureBadge[3];
    if 200 <= status && status < 300 then SuccessBadge else FailureBadge
  }

  /** Choosing a predefined request replaces the method and the URL only. */
  function LoadPredefinedRequest(req: ApiRequest, p: PredefinedRequest): (r: ApiRequest)
    ensures r.httpMethod == p.httpMethod && r.url == p.url
    ensures r.headers == req.headers && r.body == req.body
  {
    req.(httpMethod := p.httpMethod, url := p.url)
  }

  /** "Add Header": the placeholder entry `"" ↦ ""`, overwriting any earlier one. */
  function AddHeader(req: ApiRequest): (r: ApiRequest)
    ensures r.httpMethod == req.httpMethod && r.url == req.url && r.body == req.body
    ensures "" in r.headers && r.headers[""] == ""
    ensures forall k :: k != "" ==> (k in r.headers <==> k in req.headers)
    ensures forall k :: k != "" && k in r.headers ==> r.headers[k] == req.headers[k]
  {
    req.(headers := req.headers["" := ""])
  }

  /**
   * Setting a header's value on a copy of the header object: the empty value
   * deletes the header, any other value is assigned to it, an assignment that
   * a header named `__proto__` does not receive.
   */
  function UpdateHeader(req: ApiRequest, key: string, value: string): (r: ApiRequest)
    ensures r.httpMethod == req.httpMethod && r.url == req.url && r.body == req.body
    ensures key in r.headers <==> value != "" && (key != ProtoKey || key in req.headers)
    ensures key in r.headers ==> r.headers[key] == value
    ensures forall k :: k != key ==> (k in r.headers <==> k in req.headers)
    ensures forall k :: k != key && k in r.headers ==> r.headers[k] == req.headers[k]
  {
    req.(headers := if value == "" then req.headers - {key} else SetProperty(req.headers, key, value))
  }

  /** Typing `newKey` into the name field of the row for `oldKey`, as the form wires it. */
  function EditHeaderName(req: ApiRequest, oldKey: string, newKey: string): ApiRequest
    requires oldKey in req.headers
  {
    UpdateHeader(req, newKey, req.headers[oldKey])
  }

  /**
   * Editing a name keeps the old header; it adds a second header with the same
   * value, or, for a new name `__proto__`, changes nothing at all.
   */
  lemma EditHeaderNameKeepsOldKey(req: ApiRequest, oldKey: string, newKey: string)
    requires oldKey in req.headers && req.headers[oldKey] != "" && newKey != oldKey
    ensures var r := EditHeaderName(req, oldKey, newKey);
            && oldKey in r.headers && r.headers[oldKey] == req.headers[oldKey]
            && ((newKey != ProtoKey || newKey in req.headers) ==>
                  && newKey in r.headers && r.headers[newKey] == r.headers[oldKey]
                  && |r.headers| == |req.headers| + (if newKey in req.headers then 0 else 1))
            && ((newKey == ProtoKey && newKey !in req.headers) ==> r == req)
  {
  }

  /** The placeholder row added by "Add Header" can never be given a name. */
  lemma PlaceholderCannotBeNamed(req: ApiRequest, newKey: string)
    requires "" in req.headers && req.headers[""] == "" && newKey != ""
    ensures var r := EditHeaderName(req, "", newKey);
            && "" in r.headers && r.headers[""] == ""
            && newKey !in r.headers
  {
  }

  /**
   * The rename the name field evidently means: the header moves to `newKey`,
   * keeping its value. It builds the new object as a literal with a computed
   * name (`{ ...rest, [newKey]: value }`), which defines the property even for
   * `__proto__`.
   */
  function RenameHeader(req: ApiRequest, oldKey: string, newKey: string): (r: ApiRequest)
    requires oldKey in req.headers
    ensures r.httpMethod == req.httpMethod && r.url == req.url && r.body == req.body
    ensures newKey in r.headers && r.headers[newKey] == req.headers[oldKey]
    ensures newKey != oldKey ==> oldKey !in r.headers
    ensures forall k :: k != oldKey && k != newKey ==> (k in r.headers <==> k in req.headers)
    ensures forall k :: k != oldKey && k != newKey && k in r.headers ==> r.headers[k] == req.headers[k]
  {
    req.(headers := (req.headers - {oldKey})[newKey := req.headers[oldKey]])
  }

  /** Renaming to a fresh name never changes the number of headers, even for the placeholder. */
  lemma RenameHeaderKeepsCount(req: ApiRequest, oldKey: string, newKey: string)
    requires oldKey in req.headers && newKey !in req.headers
    ensures |RenameHeader(req, oldKey, newKey).headers| == |req.headers|
  {
  }

  /** The untouched form sends nothing: its URL is empty. */
  lemma InitialSendIsRefused(parse: string -> Option<Json>, outcome: SendOutcome, startMs: int, endMs: int)
    ensures var r := Send(InitialState(), parse, outcome, startMs, endMs);
            && r.sent.None?
            && r.state.error == Some(Str(UrlRequired))
            && r.state.response.None? && !r.state.loading
  {
  }

  /** A loaded GET request with a URL is always dispatched, as a body-less GET with the form's headers. */
  lemma LoadedGetIsSent(s: ConsoleState, p: PredefinedRequest,
                        parse: string -> Option<Json>, outcome: SendOutcome, startMs: int, endMs: int)
    requires p.httpMethod == "GET" && !IsBlank(p.url)
    ensures var r := Send(s.(request := LoadPredefinedRequest(s.request, p)), parse, outcome, startMs, endMs);
            && r.sent.Some?
            && r.sent.value.httpMethod == "get"
            && r.sent.value.url == p.url
            && r.sent.value.headers == s.request.headers
            && r.sent.value.data.None?
  {
  }

  /**
   * A loaded predefined request, from the list as written or with the routed
   * paths, is always dispatched, as a body-less GET with the form's headers.
   */
  lemma PredefinedRequestIsSent(s: ConsoleState, pythonUrl: string, nodeUrl: string, routed: bool, i: nat,
                                parse: string -> Option<Json>, outcome: SendOutcome, startMs: int, endMs: int)
    requires i < 6
    ensures var ps := if routed then RoutedPredefinedRequests(pythonUrl, nodeUrl) else PredefinedRequests(pythonUrl, nodeUrl);
            var r := Send(s.(request := LoadPredefinedRequest(s.request, ps[i])), parse, outcome, startMs, endMs);
            && r.sent.Some?
            && r.sent.value.httpMethod == "get"
            && r.sent.value.url == ps[i].url
            && r.sent.value.headers == s.request.headers
            && r.sent.value.data.None?
  {
    var ps := if routed then RoutedPredefinedRequests(pythonUrl, nodeUrl) else PredefinedRequests(pythonUrl, nodeUrl);
    LoadedGetIsSent(s, ps[i], parse, outcome, startMs, endMs);
  }
}
