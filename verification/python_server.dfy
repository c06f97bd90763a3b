/**
 * The FastAPI demo server's request bookkeeping: the HTTP middleware that
 * counts requests and stamps the count on each response, and the global
 * exception handler that turns an unhandled exception into a 500 response.
 *
 * The processing time (a float of seconds) and the ISO timestamp are inputs,
 * already rendered as strings.
 *
 * The middleware bumps the counter when a request arrives but reads it for the
 * header only after `await call_next(request)`. Served one at a time, each
 * response carries its own request's number; when requests overlap on the
 * event loop, a response carries the count at the moment its handler finished.
 * Both are modelled: `ServeAll` for one-at-a-time service, and an event-loop
 * run for overlapping requests, as written and with the count captured before
 * the await.
 */
module PythonServer {
  import opened Wrappers
  import opened Strings
  import opened Json

  /** A response as it leaves the application. */
  datatype Response = Response(status: int, headers: map<string, string>, body: Json)

  /** How the route handler ended: with a response, or by raising (carrying `str(exc)`). */
  datatype HandlerOutcome = Returned(response: Response) | Raised(message: string)

  /** The module-level `request_count`. */
  datatype ServerState = ServerState(requestCount: nat)

  /** One request as the middleware sees it. */
  datatype Exchange = Exchange(outcome: HandlerOutcome, processTime: string, timestamp: string)

  const InternalServerError: string := "Internal server error"
  const RequestCountHeader: string := "X-Request-Count"
  const ProcessTimeHeader: string := "X-Process-Time"

  /**
   * `global_exception_handler`: status 500, a three-field JSON body (the fixed
   * error text, the exception's text, the time), and the JSON content type;
   * the middleware's count and timing headers are never added to it. The
   * `content-length` header Starlette adds when it sends the body is framing
   * and is not modelled.
   */
  function ExceptionResponse(message: string, timestamp: string): (r: Response)
    ensures r.status == 500
    ensures Field(r.body, "error") == Some(Str(InternalServerError))
    ensures Field(r.body, "message") == Some(Str(message))
    ensures Field(r.body, "timestamp") == Some(Str(timestamp))
    ensures r.body.Obj? && |r.body.fields| == 3
    ensures "content-type" in r.headers && r.headers["content-type"] == "application/json"
    ensures RequestCountHeader !in r.headers && ProcessTimeHeader !in r.headers
  {
    var fields := [("error", Str(InternalServerError)), ("message", Str(message)), ("timestamp", Str(timestamp))];
    assert "timestamp"[0] != "message"[0] && "timestamp"[0] != "error"[0] && "message"[0] != "error"[0];
    assert fields[..2][..1] == fields[..1];
    assert FieldIn(fields[..1], "error") == Some(Str(InternalServerError));
    assert FieldIn(fields[..2], "error") == Some(Str(InternalServerError));
    assert FieldIn(fields[..2], "message") == Some(Str(message));
    Response(500, map["content-type" := "application/json"], Obj(fields))
  }

  /** The count a client reads back from the `X-Request-Count` header, if the header is a decimal number. */
  function StampedCount(r: Response): Option<nat> {
    if RequestCountHeader in r.headers
       && forall k :: 0 <= k < |r.headers[RequestCountHeader]| ==> '0' <= r.headers[RequestCountHeader][k] <= '9'
    then Some(DecimalValue(r.headers[RequestCountHeader]))
    else None
  }

  /**
   * What leaves the middleware once the handler has finished, `count` being
   * the value of `request_count` when the middleware reads it. A returned
   * response keeps status, body and every other header and gains the two
   * headers; a raised exception bypasses them and reaches the exception
   * handler, which sits outside this middleware.
   */
  function Stamp(x: Exchange, count: nat): (r: Response)
    ensures x.outcome.Returned? ==> StampedCount(r) == Some(count)
    ensures x.outcome.Raised? ==> r == ExceptionResponse(x.outcome.message, x.timestamp) && StampedCount(r).None?
  {
    NatToStringRoundTrip(count);
    match x.outcome
    case Returned(resp) =>
      resp.(headers := resp.headers[ProcessTimeHeader := x.processTime][RequestCountHeader := NatToString(count)])
    case Raised(message) =>
      ExceptionResponse(message, x.timestamp)
  }

  /**
   * A returned response keeps status, body and every other header, and gains
   * the count and the process time.
   */
  lemma StampHeaders(x: Exchange, count: nat)
    ensures x.outcome.Returned? ==>
            var r, resp := Stamp(x, count), x.outcome.response;
            && r.status == resp.status && r.body == resp.body
            && RequestCountHeader in r.headers && r.headers[RequestCountHeader] == NatToString(count)
            && ProcessTimeHeader in r.headers && r.headers[ProcessTimeHeader] == x.processTime
            && (forall h :: h != RequestCountHeader && h != ProcessTimeHeader ==>
                  (h in r.headers <==> h in resp.headers))
            && (forall h :: h != RequestCountHeader && h != ProcessTimeHeader && h in r.headers ==>
                  r.headers[h] == resp.headers[h])
  {
  }

  /**
   * `add_process_time_header` around one request that runs alone: the counter
   * is bumped before the handler runs, and the response is stamped with the
   * bumped count.
   */
  function HandleRequest(s: ServerState, x: Exchange): (r: (ServerState, Response))
    ensures r.0.requestCount == s.requestCount + 1
    ensures x.outcome.Returned? ==>
              && r.1.status == x.outcome.response.status
              && r.1.body == x.outcome.response.body
              && RequestCountHeader in r.1.headers
              && r.1.headers[RequestCountHeader] == NatToString(r.0.requestCount)
              && ProcessTimeHeader in r.1.headers
              && r.1.headers[ProcessTimeHeader] == x.processTime
              && (forall h :: h != RequestCountHeader && h != ProcessTimeHeader ==>
                    (h in r.1.headers <==> h in x.outcome.response.headers))
              && (forall h :: h != RequestCountHeader && h != ProcessTimeHeader && h in r.1.headers ==>
                    r.1.headers[h] == x.outcome.response.headers[h])
    ensures x.outcome.Raised? ==> r.1 == ExceptionResponse(x.outcome.message, x.timestamp)
  {
    var s' := s.(requestCount := s.requestCount + 1);
    StampHeaders(x, s'.requestCount);
    (s', Stamp(x, s'.requestCount))
  }

  /** The state and the responses after serving `xs` one at a time, in order. */
  function ServeAll(s: ServerState, xs: seq<Exchange>): (r: (ServerState, seq<Response>))
    ensures |r.1| == |xs|
    decreases |xs|
  {
    if xs == [] then (s, [])
    else
      var prev := ServeAll(s, xs[..|xs| - 1]);
      var step := HandleRequest(prev.0, xs[|xs| - 1]);
      (step.0, prev.1 + [step.1])
  }

  /**
   * Serving requests one at a time: the counter grows by exactly one per
   * request, and the `i`-th response is exchange `i` stamped with `start + i + 1`.
   */
  lemma {:induction false} ServeAllStamps(s: ServerState, xs: seq<Exchange>)
    ensures ServeAll(s, xs).0.requestCount == s.requestCount + |xs|
    ensures StampedInOrder(ServeAll(s, xs).1, xs, s.requestCount)
    decreases |xs|
  {
    if xs != [] {
      var init, last := xs[..|xs| - 1], xs[|xs| - 1];
      ServeAllStamps(s, init);
      ServeAllStep(s, xs);
      var before := ServeAll(s, init).1;
      StampedInOrderGrows(before, init, s.requestCount, last);
      assert init + [last] == xs;
      assert ServeAll(s, xs).1 == before + [Stamp(last, s.requestCount + |init| + 1)];
    }
  }

  /** Response `i` of `rs` is exchange `i` of `xs` stamped with the count `start + i + 1`. */
  predicate StampedInOrder(rs: seq<Response>, xs: seq<Exchange>, start: nat) {
    |rs| == |xs| && forall i :: 0 <= i < |xs| ==> rs[i] == Stamp(xs[i], start + i + 1)
  }

  lemma StampedInOrderGrows(rs: seq<Response>, xs: seq<Exchange>, start: nat, last: Exchange)
    requires StampedInOrder(rs, xs, start)
    ensures StampedInOrder(rs + [Stamp(last, start + |xs| + 1)], xs + [last], start)
  {
    var rs', xs' := rs + [Stamp(last, start + |xs| + 1)], xs + [last];
    forall i | 0 <= i < |xs'|
      ensures rs'[i] == Stamp(xs'[i], start + i + 1)
    {
      if i < |xs| {
        assert rs'[i] == rs[i] && xs'[i] == xs[i];
      }
    }
  }

  /** Served one at a time, the `i`-th returned response carries the count `start + i + 1` in its header. */
  lemma ServeAllCounts(s: ServerState, xs: seq<Exchange>)
    ensures ServeAll(s, xs).0.requestCount == s.requestCount + |xs|
    ensures forall i :: 0 <= i < |xs| && xs[i].outcome.Returned? ==>
              && RequestCountHeader in ServeAll(s, xs).1[i].headers
              && ServeAll(s, xs).1[i].headers[RequestCountHeader] == NatToString(s.requestCount + i + 1)
  {
    ServeAllStamps(s, xs);
    forall i | 0 <= i < |xs| && xs[i].outcome.Returned?
      ensures && RequestCountHeader in ServeAll(s, xs).1[i].headers
              && ServeAll(s, xs).1[i].headers[RequestCountHeader] == NatToString(s.requestCount + i + 1)
    {
      assert ServeAll(s, xs).1[i] == Stamp(xs[i], s.requestCount + i + 1);
      StampHeaders(xs[i], s.requestCount + i + 1);
    }
  }

  /** Served one at a time, the counts read back from the header strictly increase from one request to a later one. */
  lemma {:induction false} RequestCountsIncrease(s: ServerState, xs: seq<Exchange>, i: nat, j: nat)
    requires i < j < |xs|
    requires xs[i].outcome.Returned? && xs[j].outcome.Returned?
    ensures var rs := ServeAll(s, xs).1;
            && StampedCount(rs[i]) == Some(s.requestCount + i + 1)
            && StampedCount(rs[j]) == Some(s.requestCount + j + 1)
            && StampedCount(rs[i]).value < StampedCount(rs[j]).value
  {
    ServeAllStamps(s, xs);
    var rs := ServeAll(s, xs).1;
    assert rs[i] == Stamp(xs[i], s.requestCount + i + 1);
    assert rs[j] == Stamp(xs[j], s.requestCount + j + 1);
  }

  /** One step of the event loop: a request arrives, or the handler of request `id` finishes. */
  datatype Event = Arrive | Finish(id: nat, exchange: Exchange)

  /** A finished request: how its handler ended and the count the middleware read for its header. */
  datatype Finished = Finished(exchange: Exchange, count: nat)

  /** The response that leaves the middleware for a finished request. */
  function Answer(f: Finished): Response {
    Stamp(f.exchange, f.count)
  }

  /**
   * The server under overlapping requests: `request_count`, the requests whose
   * handler is still running (each named by the count its arrival produced),
   * and the requests that have been answered.
   */
  datatype Loop = Loop(requestCount: nat, pending: set<nat>, sent: map<nat, Finished>)

  function Start(count: nat): Loop {
    Loop(count, {}, map[])
  }

  /** `request_count += 1` before the await: the new request is named by the bumped count. */
  function Arrival(l: Loop): Loop {
    Loop(l.requestCount + 1, l.pending + {l.requestCount + 1}, l.sent)
  }

  /** Request `id` is answered, its header carrying `count`. */
  function Complete(l: Loop, id: nat, x: Exchange, count: nat): Loop {
    Loop(l.requestCount, l.pending - {id}, l.sent[id := Finished(x, count)])
  }

  /**
   * The middleware as written: a finishing request is stamped with the counter
   * as it stands when its handler finishes. A finish for a request that is not
   * running does not happen and changes nothing.
   */
  function StepAsWritten(l: Loop, e: Event): Loop {
    match e
    case Arrive => Arrival(l)
    case Finish(id, x) => if id in l.pending then Complete(l, id, x, l.requestCount) else l
  }

  /** The middleware with the count captured before the await: a request is stamped with its own number. */
  function StepCaptured(l: Loop, e: Event): Loop {
    match e
    case Arrive => Arrival(l)
    case Finish(id, x) => if id in l.pending then Complete(l, id, x, id) else l
  }

  function RunAsWritten(l: Loop, es: seq<Event>): Loop
    decreases |es|
  {
    if es == [] then l else StepAsWritten(RunAsWritten(l, es[..|es| - 1]), es[|es| - 1])
  }

  function RunCaptured(l: Loop, es: seq<Event>): Loop
    decreases |es|
  {
    if es == [] then l else StepCaptured(RunCaptured(l, es[..|es| - 1]), es[|es| - 1])
  }

  /** The number of arrivals in `es`. */
  function Arrivals(es: seq<Event>): (n: nat)
    ensures n <= |es|
    decreases |es|
  {
    if es == [] then 0 else Arrivals(es[..|es| - 1]) + (if es[|es| - 1].Arrive? then 1 else 0)
  }

  /** Running requests carry numbers above `n` and up to the counter. */
  predicate PendingInRange(l: Loop, n: nat) {
    forall id :: id in l.pending ==> n < id <= l.requestCount
  }

  /** A returned response reads back the count its request was stamped with; a raised one carries none. */
  lemma AnswerCarriesCount(f: Finished)
    ensures f.exchange.outcome.Returned? ==> StampedCount(Answer(f)) == Some(f.count)
    ensures f.exchange.outcome.Raised? ==> StampedCount(Answer(f)).None?
  {
  }

  /**
   * As written, under any interleaving: the counter grows by one per arrival,
   * and an answered request was stamped with a count at least its own number
   * and at most the current counter.
   */
  lemma {:induction false} AsWrittenCounts(n: nat, es: seq<Event>)
    ensures var l := RunAsWritten(Start(n), es);
            && l.requestCount == n + Arrivals(es)
            && PendingInRange(l, n)
            && forall id :: id in l.sent ==> n < id <= l.sent[id].count <= l.requestCount
    decreases |es|
  {
    if es != [] {
      AsWrittenCounts(n, es[..|es| - 1]);
    }
  }

  /**
   * Two overlapping requests, the first finishing after the second arrived:
   * both responses carry the count 2.
   */
  lemma OverlappingRequestsShareCount(x: Exchange, y: Exchange)
    requires x.outcome.Returned? && y.outcome.Returned?
    ensures var l := RunAsWritten(Start(0), [Arrive, Arrive, Finish(1, x), Finish(2, y)]);
            && 1 in l.sent && 2 in l.sent
            && StampedCount(Answer(l.sent[1])) == Some(2) && StampedCount(Answer(l.sent[2])) == Some(2)
  {
    var es := [Arrive, Arrive, Finish(1, x), Finish(2, y)];
    var e1, e2 := [Arrive], [Arrive, Arrive];
    var e3 := e2 + [Finish(1, x)];
    assert e1[..0] == [] && e2[..1] == e1 && e3[..2] == e2 && es[..3] == e3;
    var l2 := RunAsWritten(Start(0), e2);
    assert l2 == Loop(2, {1, 2}, map[]);
    var l3 := RunAsWritten(Start(0), e3);
    assert l3 == Complete(l2, 1, x, 2);
    var l := RunAsWritten(Start(0), es);
    assert l == Complete(l3, 2, y, 2);
    AnswerCarriesCount(l.sent[1]);
    AnswerCarriesCount(l.sent[2]);
  }

  /**
   * With the count captured before the await, under any interleaving: the
   * counter grows by one per arrival, every answered request was stamped with
   * its own number, and so distinct requests never share a count and a later
   * request always carries a larger one.
   */
  lemma {:induction false} CapturedCounts(n: nat, es: seq<Event>)
    ensures var l := RunCaptured(Start(n), es);
            && l.requestCount == n + Arrivals(es)
            && PendingInRange(l, n)
            && (forall id :: id in l.sent ==> l.sent[id].count == id && n < id <= l.requestCount)
            && (forall a, b :: a in l.sent && b in l.sent && a < b ==> l.sent[a].count < l.sent[b].count)
    decreases |es|
  {
    if es != [] {
      CapturedCounts(n, es[..|es| - 1]);
    }
  }

  /** Serving one more request appends its response, stamped with the next count. */
  lemma ServeAllStep(s: ServerState, xs: seq<Exchange>)
    requires xs != []
    ensures var before := ServeAll(s, xs[..|xs| - 1]);
            && ServeAll(s, xs).0.requestCount == before.0.requestCount + 1
            && ServeAll(s, xs).1 == before.1 + [Stamp(xs[|xs| - 1], before.0.requestCount + 1)]
  {
  }

  /** Requests served one at a time: each finishes before the next arrives. */
  function SequentialTrace(n: nat, xs: seq<Exchange>): (es: seq<Event>)
    ensures |es| == 2 * |xs|
    decreases |xs|
  {
    if xs == [] then [] else SequentialTrace(n, xs[..|xs| - 1]) + [Arrive, Finish(n + |xs|, xs[|xs| - 1])]
  }

  /** A request that arrives and finishes before the next one is stamped with its own number either way. */
  lemma RunOneRequest(l: Loop, t: seq<Event>, id: nat, x: Exchange)
    requires RunAsWritten(l, t) == RunCaptured(l, t)
    requires id == RunAsWritten(l, t).requestCount + 1
    ensures RunAsWritten(l, t + [Arrive, Finish(id, x)]) == Complete(Arrival(RunAsWritten(l, t)), id, x, id)
    ensures RunCaptured(l, t + [Arrive, Finish(id, x)]) == Complete(Arrival(RunAsWritten(l, t)), id, x, id)
  {
    var es := t + [Arrive, Finish(id, x)];
    assert es[..|es| - 1] == t + [Arrive];
    assert (t + [Arrive])[..|t|] == t;
  }

  /** Request number `n + i + 1` finished with exchange `i` of `xs`, stamped with its own number. */
  predicate AnsweredInOrder(l: Loop, n: nat, xs: seq<Exchange>) {
    forall i :: 0 <= i < |xs| ==> FinishedWith(l, n + i + 1, xs[i])
  }

  /** Request `id` finished with exchange `x` and was stamped with its own number. */
  predicate FinishedWith(l: Loop, id: nat, x: Exchange) {
    id in l.sent && l.sent[id] == Finished(x, id)
  }

  lemma AnsweredInOrderGrows(prev: Loop, n: nat, xs: seq<Exchange>)
    requires xs != [] && AnsweredInOrder(prev, n, xs[..|xs| - 1])
    ensures AnsweredInOrder(Complete(Arrival(prev), n + |xs|, xs[|xs| - 1], n + |xs|), n, xs)
  {
    var id, init := n + |xs|, xs[..|xs| - 1];
    var l := Complete(Arrival(prev), id, xs[|xs| - 1], id);
    assert l.sent == prev.sent[id := Finished(xs[|xs| - 1], id)];
    forall i | 0 <= i < |xs|
      ensures FinishedWith(l, n + i + 1, xs[i])
    {
      if i < |init| {
        assert init[i] == xs[i] && FinishedWith(prev, n + i + 1, init[i]);
      }
    }
  }

  lemma SequentialTraceStep(n: nat, xs: seq<Exchange>)
    requires xs != []
    ensures SequentialTrace(n, xs) == SequentialTrace(n, xs[..|xs| - 1]) + [Arrive, Finish(n + |xs|, xs[|xs| - 1])]
  {
  }

  /**
   * Without overlap the two event-loop readings coincide: request `n + i + 1`
   * finishes with exchange `i` and is stamped with its own number either way.
   */
  lemma {:induction false} SequentialRunsCoincide(n: nat, xs: seq<Exchange>)
    ensures var l := RunAsWritten(Start(n), SequentialTrace(n, xs));
            && l == RunCaptured(Start(n), SequentialTrace(n, xs))
            && l.requestCount == n + |xs|
            && l.pending == {}
            && AnsweredInOrder(l, n, xs)
    decreases |xs|
  {
    if xs != [] {
      var init := xs[..|xs| - 1];
      var t := SequentialTrace(n, init);
      SequentialRunsCoincide(n, init);
      SequentialTraceStep(n, xs);
      RunOneRequest(Start(n), t, n + |xs|, xs[|xs| - 1]);
      AnsweredInOrderGrows(RunAsWritten(Start(n), t), n, xs);
    }
  }

  /**
   * Without overlap the event loop agrees with `ServeAll`: request `i` is
   * answered with the response `ServeAll` gives it, stamped `start + i + 1`.
   */
  lemma SequentialServiceAgrees(s: ServerState, xs: seq<Exchange>)
    ensures RunAsWritten(Start(s.requestCount), SequentialTrace(s.requestCount, xs)).requestCount
            == ServeAll(s, xs).0.requestCount
    ensures AnsweredAs(RunAsWritten(Start(s.requestCount), SequentialTrace(s.requestCount, xs)),
                       s.requestCount, ServeAll(s, xs).1)
  {
    var n := s.requestCount;
    var l := RunAsWritten(Start(n), SequentialTrace(n, xs));
    var rs := ServeAll(s, xs).1;
    SequentialRunsCoincide(n, xs);
    ServeAllStamps(s, xs);
    AnsweredAsStamped(l, n, xs, rs);
  }

  lemma AnsweredAsStamped(l: Loop, n: nat, xs: seq<Exchange>, rs: seq<Response>)
    requires AnsweredInOrder(l, n, xs)
    requires StampedInOrder(rs, xs, n)
    ensures AnsweredAs(l, n, rs)
  {
    forall i | 0 <= i < |rs|
      ensures RepliedWith(l, n + i + 1, rs[i])
    {
      assert FinishedWith(l, n + i + 1, xs[i]);
    }
  }

  /** Request number `n + i + 1` was answered with `rs[i]`. */
  predicate AnsweredAs(l: Loop, n: nat, rs: seq<Response>) {
    forall i :: 0 <= i < |rs| ==> RepliedWith(l, n + i + 1, rs[i])
  }

  /** Request `id` was answered with `r`. */
  predicate RepliedWith(l: Loop, id: nat, r: Response) {
    id in l.sent && Answer(l.sent[id]) == r
  }

  /**
   * The fixed paths of the application's GET routes: those declared with
   * `@app.get`, with no prefix or mount, and the documentation routes FastAPI
   * adds by default.
   */
  const PythonFixedGetPaths: set<string> :=
    {"/", "/ready", "/health", "/actuator/health", "/metrics", "/env", "/info",
     "/docs", "/docs/oauth2-redirect", "/redoc", "/openapi.json"}

  const ItemsPrefix: string := "/items/"

  /** A GET path some route matches: a fixed path, or `/items/{item_id}` with one non-empty segment. */
  predicate IsPythonGetPath(path: string) {
    || path in PythonFixedGetPaths
    || (|path| > |ItemsPrefix| && path[..|ItemsPrefix|] == ItemsPrefix && '/' !in path[|ItemsPrefix|..])
  }
}
