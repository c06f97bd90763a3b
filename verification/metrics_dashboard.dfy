/**
 * The metrics dashboard. Each fetch regenerates a 20-sample window of mock
 * data stamped one minute apart and ending at the current time; it replaces
 * the previous window. The request-count bar chart shows the last 10 samples
 * and the summary shows the last one.
 *
 * The clock reading and the `Math.random()` draws are inputs: each sample
 * consumes four draws, in the order cpu, memory, request count, response time.
 */
module MetricsDashboard {
  import opened Wrappers

  /** One point of the window; `timestamp` is in milliseconds. */
  datatype Sample = Sample(timestamp: int, cpuUsage: real, memoryUsage: real, requestCount: int, responseTime: real)

  /** The component state: the window, the busy flag and the error text. */
  datatype MetricsState = MetricsState(data: seq<Sample>, loading: bool, error: Option<string>)

  /** How the body of one fetch ended: it built the window from a clock reading and draws, or it threw. */
  datatype FetchOutcome = Generated(nowMs: int, draws: seq<real>) | Threw

  /** What the component renders for a state. */
  datatype View =
    | LoadingView
    | ErrorView(message: string)
    | DashboardView(lines: seq<Sample>, bars: seq<Sample>, summary: Option<Sample>)

  const WindowSize: nat := 20
  const DrawsPerSample: nat := 4
  const SampleSpacingMs: int := 60000
  const BarCount: nat := 10
  const FetchFailed: string := "Failed to fetch metrics data"

  /** A value `Math.random()` can return. */
  predicate IsDraw(x: real) {
    0.0 <= x < 1.0
  }

  /** Enough draws for one window, all in range. */
  predicate ValidDraws(draws: seq<real>) {
    |draws| == DrawsPerSample * WindowSize && forall i :: 0 <= i < |draws| ==> IsDraw(draws[i])
  }

  /** `Math.floor(r * 1000)`: an integer request count below one thousand. */
  function RequestCount(r: real): (n: int)
    requires IsDraw(r)
    ensures 0 <= n <= 999
    ensures n as real <= r * 1000.0 < n as real + 1.0
  {
    (r * 1000.0).Floor
  }

  /** Sample `i` of a window generated at `nowMs`. */
  function MakeSample(nowMs: int, i: nat, draws: seq<real>): Sample
    requires i < WindowSize && ValidDraws(draws)
  {
    var k := DrawsPerSample * i;
    Sample(nowMs - (WindowSize - 1 - i) * SampleSpacingMs,
           draws[k] * 100.0, draws[k + 1] * 100.0, RequestCount(draws[k + 2]), draws[k + 3] * 500.0)
  }

  /** The window one fetch builds. */
  function BuildWindow(nowMs: int, draws: seq<real>): (w: seq<Sample>)
    requires ValidDraws(draws)
    ensures |w| == WindowSize
    ensures w[|w| - 1].timestamp == nowMs
    ensures forall i :: 0 <= i < |w| - 1 ==> w[i + 1].timestamp == w[i].timestamp + SampleSpacingMs
    ensures forall i, j :: 0 <= i < j < |w| ==> w[i].timestamp < w[j].timestamp
    ensures forall i :: 0 <= i < |w| ==>
              && 0 <= w[i].requestCount <= 999
              && 0.0 <= w[i].cpuUsage < 100.0
              && 0.0 <= w[i].memoryUsage < 100.0
              && 0.0 <= w[i].responseTime < 500.0
    // sample i takes draws 4i .. 4i + 3, in the order cpu, memory, request count, response time
    ensures forall i :: 0 <= i < |w| ==>
              && w[i].cpuUsage == draws[DrawsPerSample * i] * 100.0
              && w[i].memoryUsage == draws[DrawsPerSample * i + 1] * 100.0
              && w[i].requestCount == RequestCount(draws[DrawsPerSample * i + 2])
              && w[i].responseTime == draws[DrawsPerSample * i + 3] * 500.0
  {
    seq(WindowSize, i requires 0 <= i < WindowSize => MakeSample(nowMs, i, draws))
  }

  function InitialMetrics(): MetricsState {
    MetricsState([], true, None)
  }

  /** One run of `fetchMetrics`: it always ends with the busy flag cleared. */
  function Fetch(s: MetricsState, outcome: FetchOutcome): (r: MetricsState)
    requires outcome.Generated? ==> ValidDraws(outcome.draws)
    ensures !r.loading
    ensures outcome.Generated? ==> r.error.None? && r.data == BuildWindow(outcome.nowMs, outcome.draws)
    ensures outcome.Threw? ==> r.error == Some(FetchFailed) && r.data == s.data
  {
    var busy := s.(loading := true, error := None);
    match outcome
    case Generated(nowMs, draws) => busy.(data := BuildWindow(nowMs, draws), loading := false)
    case Threw => busy.(error := Some(FetchFailed), loading := false)
  }

  /** `data.slice(-10)`: the last (up to) ten samples, in their original order. */
  function BarChartData(data: seq<Sample>): (bars: seq<Sample>)
    ensures |bars| == if |data| < BarCount then |data| else BarCount
    ensures forall i :: 0 <= i < |bars| ==> bars[i] == data[|data| - |bars| + i]
  {
    if |data| <= BarCount then data else data[|data| - BarCount..]
  }

  /** `data[data.length - 1]`: the newest sample, or nothing for an empty window. */
  function Summary(data: seq<Sample>): (s: Option<Sample>)
    ensures s.None? <==> data == []
    ensures s.Some? ==> s.value == data[|data| - 1]
  {
    if data == [] then None else Some(data[|data| - 1])
  }

  /** The rendered view: loading first, then the error, then the charts and the summary. */
  function Render(s: MetricsState): (v: View)
    ensures s.loading ==> v == LoadingView
    ensures !s.loading && s.error.Some? && s.error.value != "" ==> v == ErrorView(s.error.value)
    ensures !s.loading && (s.error.None? || s.error.value == "") ==> v.DashboardView?
    ensures v.DashboardView? ==> v.lines == s.data && v.bars == BarChartData(s.data) && v.summary == Summary(s.data)
  {
    if s.loading then LoadingView
    else if s.error.Some? && s.error.value != "" then ErrorView(s.error.value)
    else DashboardView(s.data, BarChartData(s.data), Summary(s.data))
  }

  /** A fetch does not accumulate: its window does not depend on what was shown before. */
  lemma FetchReplacesWindow(s1: MetricsState, s2: MetricsState, nowMs: int, draws: seq<real>)
    requires ValidDraws(draws)
    ensures Fetch(s1, Generated(nowMs, draws)).data == Fetch(s2, Generated(nowMs, draws)).data
    ensures |Fetch(s1, Generated(nowMs, draws)).data| == WindowSize
  {
  }

  /** Every outcome of a sequence of fetches supplies valid draws. */
  predicate ValidOutcomes(outcomes: seq<FetchOutcome>) {
    forall i :: 0 <= i < |outcomes| ==> (outcomes[i].Generated? ==> ValidDraws(outcomes[i].draws))
  }

  /** The state after running the fetches in `outcomes`, oldest first. */
  function RunFetches(s: MetricsState, outcomes: seq<FetchOutcome>): MetricsState
    requires ValidOutcomes(outcomes)
    decreases |outcomes|
  {
    if outcomes == [] then s
    else Fetch(RunFetches(s, outcomes[..|outcomes| - 1]), outcomes[|outcomes| - 1])
  }

  /**
   * From the initial state, the window holds no samples until a fetch succeeds
   * and exactly twenty from then on; it never grows beyond twenty.
   */
  lemma {:induction false} WindowNeverExceedsCapacity(outcomes: seq<FetchOutcome>)
    requires ValidOutcomes(outcomes)
    ensures var n := |RunFetches(InitialMetrics(), outcomes).data|;
            (n == 0 || n == WindowSize) && n <= WindowSize
    ensures (exists i :: 0 <= i < |outcomes| && outcomes[i].Generated?)
              <==> |RunFetches(InitialMetrics(), outcomes).data| == WindowSize
    decreases |outcomes|
  {
    if outcomes != [] {
      var init := outcomes[..|outcomes| - 1];
      assert ValidOutcomes(init) by {
        forall i | 0 <= i < |init| ensures init[i].Generated? ==> ValidDraws(init[i].draws) {
          assert init[i] == outcomes[i];
        }
      }
      WindowNeverExceedsCapacity(init);
      if outcomes[|outcomes| - 1].Threw? {
        if exists i :: 0 <= i < |outcomes| && outcomes[i].Generated? {
          var i :| 0 <= i < |outcomes| && outcomes[i].Generated?;
          assert init[i] == outcomes[i];
        }
      }
    }
  }

  /** After a successful fetch, the bar chart covers the last ten minutes and the summary reads "now". */
  lemma ViewsOfFreshWindow(s: MetricsState, nowMs: int, draws: seq<real>)
    requires ValidDraws(draws)
    ensures var v := Render(Fetch(s, Generated(nowMs, draws)));
            && v.DashboardView?
            && |v.bars| == BarCount
            && v.bars[0].timestamp == nowMs - 9 * SampleSpacingMs
            && v.bars[BarCount - 1].timestamp == nowMs
            && v.summary.Some? && v.summary.value.timestamp == nowMs
  {
  }
}
