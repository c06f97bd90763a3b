/**
 * The service-health panel: two fixed slots (the Python service, then the
 * Node.js service), each overwritten by one pass of `checkHealth`, and the
 * status-to-colour and status-to-icon maps used to render a slot.
 *
 * A probe's result is an input: `Answered(data)` when the GET resolved, or
 * `Threw(t)` with what it threw. The two probes are awaited one after the
 * other and the new slot list is published once, after both.
 */
module ServiceHealth {
  import opened Wrappers
  import opened Strings
  import opened Json
  import PythonServer
  import NodeApi

  datatype Status = Healthy | Unhealthy | Loading | Error

  /** A slot of the panel. `response` is kept for a healthy slot, `error` and `details` for a failed one. */
  datatype HealthStatus = HealthStatus(service: string, status: Status, response: Option<Json>,
                                       error: Option<string>, details: Option<string>)

  /** What a failed probe threw: an axios error, another `Error`, or any other value. */
  datatype Thrown =
    | AxiosError(message: string, responseStatus: Option<int>, configUrl: Option<string>)
    | PlainError(message: string)
    | OtherThrown

  /** The settled health GET of one service. */
  datatype Probe = Answered(data: Json) | Threw(thrown: Thrown)

  /** The GET issued for one slot. */
  datatype ProbeRequest = ProbeRequest(url: string, timeoutMs: int)

  const PythonService: string := "Python Service"
  const NodeService: string := "Node.js Service"
  const ProbeTimeoutMs: int := 5000
  const UnknownError: string := "Unknown error"

  const GreenClass: string := "bg-green-100 text-green-800"
  const RedClass: string := "bg-red-100 text-red-800"
  const YellowClass: string := "bg-yellow-100 text-yellow-800"
  const GreyClass: string := "bg-gray-100 text-gray-800"

  /** The status as the panel spells it. */
  function StatusName(s: Status): string {
    match s
    case Healthy => "healthy"
    case Unhealthy => "unhealthy"
    case Loading => "loading"
    case Error => "error"
  }

  /** Before the first pass: both slots, Python first, waiting. */
  function InitialHealth(): (hs: seq<HealthStatus>)
    ensures |hs| == 2 && hs[0].service == PythonService && hs[1].service == NodeService
    ensures forall i :: 0 <= i < |hs| ==> hs[i].status == Loading
    ensures forall i :: 0 <= i < |hs| ==> hs[i].response.None? && hs[i].error.None? && hs[i].details.None?
  {
    [HealthStatus(PythonService, Loading, None, None, None),
     HealthStatus(NodeService, Loading, None, None, None)]
  }

  /** The two GETs of one pass, in the order they are awaited. */
  function ProbeRequests(pythonUrl: string, nodeUrl: string): (rs: seq<ProbeRequest>)
    ensures |rs| == 2
    ensures rs[0].url == pythonUrl + "/api/health" && rs[1].url == nodeUrl + "/health"
    ensures forall i :: 0 <= i < |rs| ==> rs[i].timeoutMs == ProbeTimeoutMs
  {
    [ProbeRequest(pythonUrl + "/api/health", ProbeTimeoutMs), ProbeRequest(nodeUrl + "/health", ProbeTimeoutMs)]
  }

  /**
   * The Python probe asks for a path the Python service does not route: its
   * routes carry no `/api` prefix, so the GET meets the framework's 404 and the
   * Python slot can only settle as an error. The Node.js probe is routed.
   */
  lemma PythonProbeMissesRoute(pythonUrl: string, nodeUrl: string)
    ensures ProbeRequests(pythonUrl, nodeUrl)[0].url == pythonUrl + "/api/health"
    ensures !PythonServer.IsPythonGetPath("/api/health")
    ensures ProbeRequests(pythonUrl, nodeUrl)[1].url == nodeUrl + "/health"
    ensures "/health" in NodeApi.NodeGetPaths
  {
    assert PythonServer.ItemsPrefix[1] == 'i';
    assert "/api/health"[..7][1] == 'a';
  }

  /** The probes with the Python path the service actually routes; the Node.js probe is unchanged. */
  function RoutedProbeRequests(pythonUrl: string, nodeUrl: string): (rs: seq<ProbeRequest>)
    ensures |rs| == 2
    ensures rs[0].url == pythonUrl + "/health" && PythonServer.IsPythonGetPath("/health")
    ensures rs[1] == ProbeRequests(pythonUrl, nodeUrl)[1] && "/health" in NodeApi.NodeGetPaths
    ensures forall i :: 0 <= i < |rs| ==> rs[i].timeoutMs == ProbeTimeoutMs
  {
    [ProbeRequest(pythonUrl + "/health", ProbeTimeoutMs), ProbeRequest(nodeUrl + "/health", ProbeTimeoutMs)]
  }

  /** The banner text of a failed probe: the error's message when it is an `Error`, else "Unknown error". */
  function ErrorMessage(t: Thrown): (m: string)
    ensures t.OtherThrown? ==> m == UnknownError
    ensures !t.OtherThrown? ==> m == t.message
  {
    match t
    case AxiosError(message, _, _) => message
    case PlainError(message) => message
    case OtherThrown => UnknownError
  }

  /** A template-literal rendering of a possibly `undefined` value. */
  function ShowStatus(s: Option<int>): string {
    if s.Some? then IntToString(s.value) else "undefined"
  }

  function ShowUrl(u: Option<string>): string {
    u.GetOr("undefined")
  }

  /** The diagnostic line: the response status and request URL for an axios error, else empty. */
  function ErrorDetails(t: Thrown): (d: string)
    ensures d != "" <==> t.AxiosError?
    ensures t.AxiosError? ==> d == "Status: " + ShowStatus(t.responseStatus) + ", URL: " + ShowUrl(t.configUrl)
  {
    match t
    case AxiosError(_, status, url) =>
      var d := "Status: " + ShowStatus(status) + ", URL: " + ShowUrl(url);
      assert d[0] == 'S';
      d
    case _ => ""
  }

  /** The slot written for service `name` from its own probe. */
  function ProbeSlot(name: string, p: Probe): (h: HealthStatus)
    ensures h.service == name
    ensures h.status == Healthy <==> p.Answered?
    ensures h.status == Error <==> p.Threw?
    ensures p.Answered? ==> h.response == Some(p.data) && h.error.None? && h.details.None?
    ensures p.Threw? ==> && h.response.None?
                         && h.error == Some(ErrorMessage(p.thrown))
                         && h.details == Some(ErrorDetails(p.thrown))
  {
    match p
    case Answered(data) => HealthStatus(name, Healthy, Some(data), None, None)
    case Threw(t) => HealthStatus(name, Error, None, Some(ErrorMessage(t)), Some(ErrorDetails(t)))
  }

  /**
   * One pass of `checkHealth` over the list `prev`: slot 0 from the Python probe,
   * slot 1 from the Node.js probe; assigning past the end of a shorter list grows it.
   */
  function CheckHealth(prev: seq<HealthStatus>, python: Probe, node: Probe): (r: seq<HealthStatus>)
    ensures |r| == if |prev| < 2 then 2 else |prev|
    ensures r[0] == ProbeSlot(PythonService, python) && r[1] == ProbeSlot(NodeService, node)
    ensures forall i :: 2 <= i < |r| ==> r[i] == prev[i]
  {
    [ProbeSlot(PythonService, python), ProbeSlot(NodeService, node)] + (if |prev| > 2 then prev[2..] else [])
  }

  /** After a pass both slots are settled: healthy or error, never loading, never unhealthy. */
  lemma CheckHealthSettles(prev: seq<HealthStatus>, python: Probe, node: Probe)
    ensures var r := CheckHealth(prev, python, node);
            && r[0].service == PythonService && r[1].service == NodeService
            && (forall i :: 0 <= i < 2 ==> r[i].status == Healthy || r[i].status == Error)
            && (r[0].status == Healthy <==> python.Answered?)
            && (r[1].status == Healthy <==> node.Answered?)
            && (python.Answered? ==> r[0].response == Some(python.data))
            && (node.Answered? ==> r[1].response == Some(node.data))
  {
  }

  /** Each slot depends on its own probe only: not on the other probe, nor on what it held before. */
  lemma SlotsAreIndependent(prev1: seq<HealthStatus>, prev2: seq<HealthStatus>,
                            python1: Probe, python2: Probe, node1: Probe, node2: Probe)
    ensures python1 == python2 ==> CheckHealth(prev1, python1, node1)[0] == CheckHealth(prev2, python2, node2)[0]
    ensures node1 == node2 ==> CheckHealth(prev1, python1, node1)[1] == CheckHealth(prev2, python2, node2)[1]
  {
  }

  /** The panel after a sequence of passes, each with its own pair of probe results. */
  function RunPasses(hs: seq<HealthStatus>, passes: seq<(Probe, Probe)>): seq<HealthStatus>
    decreases |passes|
  {
    if passes == [] then hs
    else
      var last := passes[|passes| - 1];
      CheckHealth(RunPasses(hs, passes[..|passes| - 1]), last.0, last.1)
  }

  /**
   * From the initial panel, any number of passes keeps exactly two slots, and
   * after at least one pass the panel is exactly what the last pass alone
   * produces: no error count, no backoff, no history.
   */
  lemma {:induction false} PassesFromInitial(passes: seq<(Probe, Probe)>)
    ensures |RunPasses(InitialHealth(), passes)| == 2
    ensures passes != [] ==>
              var last := passes[|passes| - 1];
              RunPasses(InitialHealth(), passes) == CheckHealth(InitialHealth(), last.0, last.1)
    decreases |passes|
  {
    if passes != [] {
      PassesFromInitial(passes[..|passes| - 1]);
    }
  }

  /** The badge colour of a status string; unknown strings fall back to grey. */
  function StatusColor(status: string): (c: string)
    ensures c == GreenClass <==> status == "healthy"
    ensures c == RedClass <==> status == "unhealthy" || status == "error"
    ensures c == YellowClass <==> status == "loading"
    ensures c == GreyClass <==> status !in {"healthy", "unhealthy", "loading", "error"}
  {
    assert GreenClass[3] != RedClass[3] && GreenClass[3] != YellowClass[3] && RedClass[3] != YellowClass[3];
    assert GreenClass[5] != GreyClass[5] && RedClass[3] != GreyClass[3] && YellowClass[3] != GreyClass[3];
    if status == "healthy" then GreenClass
    else if status == "unhealthy" then RedClass
    else if status == "loading" then YellowClass
    else if status == "error" then RedClass
    else GreyClass
  }

  /** The badge icon of a status string; unknown strings get "?". */
  function StatusIcon(status: string): (icon: string)
    ensures icon == "✓" <==> status == "healthy"
    ensures icon == "✗" <==> status == "unhealthy" || status == "error"
    ensures icon == "⟳" <==> status == "loading"
    ensures icon == "?" <==> status !in {"healthy", "unhealthy", "loading", "error"}
  {
    if status == "healthy" then "✓"
    else if status == "unhealthy" || status == "error" then "✗"
    else if status == "loading" then "⟳"
    else "?"
  }

  /** Colour and icon always tell the same story, for any status string. */
  lemma ColorAgreesWithIcon(status: string)
    ensures StatusColor(status) == GreenClass <==> StatusIcon(status) == "✓"
    ensures StatusColor(status) == RedClass <==> StatusIcon(status) == "✗"
    ensures StatusColor(status) == YellowClass <==> StatusIcon(status) == "⟳"
    ensures StatusColor(status) == GreyClass <==> StatusIcon(status) == "?"
  {
  }

  /** Every status the panel can hold has a known colour; "unhealthy" and "error" look alike. */
  lemma KnownStatusesAreNotGrey(s: Status)
    ensures StatusColor(StatusName(s)) != GreyClass && StatusIcon(StatusName(s)) != "?"
    ensures StatusColor(StatusName(Unhealthy)) == StatusColor(StatusName(Error))
    ensures StatusIcon(StatusName(Unhealthy)) == StatusIcon(StatusName(Error))
  {
  }
}
