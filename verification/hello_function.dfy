/** The example HTTP-triggered function `hello` (Function.java:18-41): it picks a name from the
    request, answers with a greeting, and reports to a metric wrapper that it closes twice, once
    in an explicit `finally` and once through try-with-resources. */
module HelloFunction {
  import opened Options
  import opened Dimensions
  import opened Wrapper

  const MissingNameMessage := "Please pass a name on the query string or in the request body"
  const CloseWarning := "Exception thrown closing wrapper"

  /** The parts of the HTTP request `hello` reads: the optional body and the `name` query
      parameter (`None` when absent). */
  datatype Request = Request(body: Option<string>, nameQuery: Option<string>)

  datatype Response = Response(status: int, body: string)

  /** Which of the possible exceptions happen: one in the handler body (caught as `Exception`),
      and an `IOException` from the explicit close and from the try-with-resources close. */
  datatype Faults = Faults(bodyThrows: bool, firstCloseFails: bool, secondCloseFails: bool)

  /** The outcome of one invocation: the response, the warnings logged, and the wrapper's final
      state (its session log and close count). */
  datatype Invocation = Invocation(response: Response, warnings: seq<string>, wrapper: MetricWrapper)

  /** How a Java block completed. */
  datatype Completion = Normal | Returned(response: Response) | ThrewIO

  /** `request.getBody().orElse(query)`: the body when present, otherwise the query parameter. */
  function ChosenName(req: Request): (name: Option<string>)
    ensures req.body.Some? ==> name == req.body
    ensures req.body.None? ==> name == req.nameQuery
  {
    if req.body.Some? then req.body else req.nameQuery
  }

  /** The response the body returns for a chosen name. */
  function Respond(name: Option<string>): (r: Response)
    ensures r.status == 400 <==> name.None?
    ensures name.None? ==> r.body == MissingNameMessage
    ensures name.Some? ==> r.status == 200 && r.body == "Hello, " + name.value
  {
    match name
    case None => Response(400, MissingNameMessage)
    case Some(n) => Response(200, "Hello, " + n)
  }

  /** The handler body and its two closes, for a wrapper `w0` the handler has just built.
      Returns the response, whether the close warning is logged, and the wrapper's final state. */
  function Serve(w0: MetricWrapper, req: Request, faults: Faults): (r: (Response, bool, MetricWrapper))
    ensures !faults.bodyThrows && !faults.firstCloseFails && !faults.secondCloseFails ==>
      r.0 == Respond(ChosenName(req))
    ensures faults.bodyThrows || faults.firstCloseFails || faults.secondCloseFails ==>
      r.0 == Response(200, "Hello")
    ensures r.1 <==> faults.firstCloseFails || faults.secondCloseFails
  {
    // The inner try: choose the name and return a response, or catch an exception with error().
    var (w1, pending) :=
      if faults.bodyThrows then (Error(w0), Normal)
      else (w0, Returned(Respond(ChosenName(req))));
    // The finally block closes the wrapper; an IOException there discards the pending return.
    var (w2, failed1) := Close(w1, faults.firstCloseFails);
    var inner := if failed1 then ThrewIO else pending;
    // Try-with-resources closes it again; after an exception its own one is only suppressed.
    var (w3, failed2) := Close(w2, faults.secondCloseFails);
    var outer := if failed2 && !inner.ThrewIO? then ThrewIO else inner;
    // catch (IOException): log a warning and fall through to the final return.
    var response := if outer.Returned? then outer.response else Response(200, "Hello");
    (response, outer.ThrewIO?, w3)
  }

  /** `hello`. `order` is the iteration order of the wrapper's default-dimension map. */
  function Hello(req: Request, host: Host, order: seq<string>, faults: Faults): (inv: Invocation)
    requires Enumerates(order, DefaultKeys)
    ensures !faults.bodyThrows && !faults.firstCloseFails && !faults.secondCloseFails ==>
      inv.response == Respond(ChosenName(req))
    ensures faults.bodyThrows || faults.firstCloseFails || faults.secondCloseFails ==>
      inv.response == Response(200, "Hello")
    ensures var built := Construct(host, None, order).warnings;
      inv.warnings == built + (if faults.firstCloseFails || faults.secondCloseFails then [CloseWarning] else [])
  {
    var c := Construct(host, None, order);
    var (response, warned, w) := Serve(c.wrapper, req, faults);
    Invocation(response, c.warnings + (if warned then [CloseWarning] else []), w)
  }

  /** The wrapper calls `hello` makes after construction. */
  function HelloCalls(faults: Faults): seq<Call> {
    (if faults.bodyThrows then [CallError] else []) +
    [CallClose(faults.firstCloseFails), CallClose(faults.secondCloseFails)]
  }

  /** The handler drives its wrapper through exactly those calls. */
  lemma ServeRunsCalls(w0: MetricWrapper, req: Request, faults: Faults)
    ensures Serve(w0, req, faults).2 == Run(w0, HelloCalls(faults))
  {
    var calls := HelloCalls(faults);
    var w1 := if faults.bodyThrows then Error(w0) else w0;
    var closes := [CallClose(faults.firstCloseFails), CallClose(faults.secondCloseFails)];
    if faults.bodyThrows {
      assert calls == [CallError] + closes;
      assert calls[1..] == closes;
    } else {
      assert calls == closes;
    }
    assert Run(w0, calls) == Run(w1, closes);
    var w2 := Close(w1, faults.firstCloseFails).0;
    assert closes[1..] == [CallClose(faults.secondCloseFails)];
    assert Run(w1, closes) == Run(w2, [CallClose(faults.secondCloseFails)]);
  }

  /** The calls hold two closes, and one error exactly when the body throws. */
  lemma HelloCallCounts(faults: Faults)
    ensures Closes(HelloCalls(faults)) == 2
    ensures ErrorCalls(HelloCalls(faults)) == (if faults.bodyThrows then 1 else 0)
  {
    var calls := HelloCalls(faults);
    var closes := [CallClose(faults.firstCloseFails), CallClose(faults.secondCloseFails)];
    assert closes[1..] == [CallClose(faults.secondCloseFails)];
    assert closes[1..][1..] == [];
    assert ErrorCalls(closes[1..]) == 0;
    assert Closes(closes[1..]) == 1;
    assert Closes(closes) == 2 && ErrorCalls(closes) == 0;
    if faults.bodyThrows {
      assert calls[1..] == closes;
    } else {
      assert calls == closes;
    }
  }

  /** On every path the wrapper is closed twice: the session is closed twice, the log holds
      two duration gauges and one invocation counter, an exception in the body adds exactly one
      error counter, and every datapoint carries the wrapper's dimension list. */
  lemma ServeClosesTwice(w0: MetricWrapper, req: Request, faults: Faults)
    requires |w0.session.sent| == 1 && w0.session.closeCalls == 0
    requires IsOwnPoint(w0.session.sent[0], InvocationsMetric, Counter, w0.dimensions)
    ensures var w := Serve(w0, req, faults).2;
      && w.dimensions == w0.dimensions
      && w.session.closeCalls == 2
      && Count(w.session.sent, DurationMetric) == 2
      && Count(w.session.sent, InvocationsMetric) == 1
      && Count(w.session.sent, ErrorsMetric) == (if faults.bodyThrows then 1 else 0)
      && |w.session.sent| == (if faults.bodyThrows then 4 else 3)
      && (forall i :: 0 <= i < |w.session.sent| ==> w.session.sent[i].dimensions == w.dimensions)
  {
    ServeRunsCalls(w0, req, faults);
    RunFromFresh(w0, HelloCalls(faults));
    HelloCallCounts(faults);
  }

  /** The two closes are the last thing the handler does to the wrapper: its log ends with two
      duration gauges. */
  lemma ServeEndsWithTwoGauges(w0: MetricWrapper, req: Request, faults: Faults)
    ensures var w := Serve(w0, req, faults).2;
      && |w.session.sent| >= 2
      && IsOwnPoint(w.session.sent[|w.session.sent| - 2], DurationMetric, Gauge, w.dimensions)
      && IsOwnPoint(w.session.sent[|w.session.sent| - 1], DurationMetric, Gauge, w.dimensions)
  {
    var w1 := if faults.bodyThrows then Error(w0) else w0;
    var w2 := Close(w1, faults.firstCloseFails).0;
    var w3 := Close(w2, faults.secondCloseFails).0;
    assert Serve(w0, req, faults).2 == w3;
    assert w3.session.sent[|w2.session.sent| - 1] == w2.session.sent[|w2.session.sent| - 1];
  }

  /** The same for a whole invocation of `hello`, starting from the freshly built wrapper. */
  lemma HelloClosesTwice(req: Request, host: Host, order: seq<string>, faults: Faults)
    requires Enumerates(order, DefaultKeys)
    ensures var w := Hello(req, host, order, faults).wrapper;
      && w.session.closeCalls == 2
      && Count(w.session.sent, DurationMetric) == 2
      && Count(w.session.sent, InvocationsMetric) == 1
      && Count(w.session.sent, ErrorsMetric) == (if faults.bodyThrows then 1 else 0)
      && |w.session.sent| == (if faults.bodyThrows then 4 else 3)
  {
    ServeClosesTwice(Construct(host, None, order).wrapper, req, faults);
  }

  /** No warning of the construction is the close warning, so it is logged at most once. */
  lemma ConstructionNeverWarnsOfClose(host: Host, order: seq<string>)
    requires Enumerates(order, DefaultKeys)
    ensures CloseWarning !in Construct(host, None, order).warnings
  {
    WarningsAreFallbackNotices(SourcesOf(host));
    CloseWarningIsNoFallbackNotice(Construct(host, None, order).warnings);
  }

  /** The close warning differs from each construction warning. */
  lemma CloseWarningIsNoFallbackNotice(warnings: seq<string>)
    requires forall i :: 0 <= i < |warnings| ==>
      warnings[i] in {RegionWarning, FunctionNameWarning, ResourceNameWarning}
    ensures CloseWarning !in warnings
  {
    assert |CloseWarning| != |RegionWarning| && |CloseWarning| != |FunctionNameWarning|;
    assert |CloseWarning| != |ResourceNameWarning|;
  }

  /** Without faults the answer is 400 exactly when neither the body nor the query names
      anyone, and otherwise greets the body's name in preference to the query's. */
  lemma ResponseWithoutFaults(req: Request)
    ensures var r := Respond(ChosenName(req));
      && (r.status == 400 <==> req.body.None? && req.nameQuery.None?)
      && (r.status == 400 ==> r.body == MissingNameMessage)
      && (req.body.Some? ==> r == Response(200, "Hello, " + req.body.value))
      && (req.body.None? && req.nameQuery.Some? ==> r == Response(200, "Hello, " + req.nameQuery.value))
  {
  }

  /** The handler with its explicit `close()` removed, so that only try-with-resources closes
      the wrapper: the single release per invocation that the wrapper's contract asks for.
      `closeFails` is whether that one close throws. */
  function ServeClosingOnce(w0: MetricWrapper, req: Request, bodyThrows: bool, closeFails: bool): (r: (Response, bool, MetricWrapper))
    ensures !bodyThrows && !closeFails ==> r.0 == Respond(ChosenName(req))
    ensures bodyThrows || closeFails ==> r.0 == Response(200, "Hello")
    ensures r.1 <==> closeFails
  {
    var (w1, pending) :=
      if bodyThrows then (Error(w0), Normal)
      else (w0, Returned(Respond(ChosenName(req))));
    var (w2, failed) := Close(w1, closeFails);
    var outcome := if failed then ThrewIO else pending;
    var response := if outcome.Returned? then outcome.response else Response(200, "Hello");
    (response, outcome.ThrewIO?, w2)
  }

  /** The wrapper calls of the corrected handler. */
  function ClosingOnceCalls(bodyThrows: bool, closeFails: bool): seq<Call> {
    (if bodyThrows then [CallError] else []) + [CallClose(closeFails)]
  }

  /** The corrected handler answers and warns as the handler as written does when both its
      closes behave alike. */
  lemma ClosingOnceAnswersAlike(w0: MetricWrapper, req: Request, bodyThrows: bool, closeFails: bool)
    ensures ServeClosingOnce(w0, req, bodyThrows, closeFails).0 == Serve(w0, req, Faults(bodyThrows, closeFails, closeFails)).0
    ensures ServeClosingOnce(w0, req, bodyThrows, closeFails).1 == Serve(w0, req, Faults(bodyThrows, closeFails, closeFails)).1
  {
  }

  /** The corrected handler releases the wrapper once: one duration gauge, one session close,
      one invocation counter, and an error counter exactly when the body throws. */
  lemma ClosingOnceClosesOnce(w0: MetricWrapper, req: Request, bodyThrows: bool, closeFails: bool)
    requires |w0.session.sent| == 1 && w0.session.closeCalls == 0
    requires IsOwnPoint(w0.session.sent[0], InvocationsMetric, Counter, w0.dimensions)
    ensures var w := ServeClosingOnce(w0, req, bodyThrows, closeFails).2;
      && w.session.closeCalls == 1
      && Count(w.session.sent, DurationMetric) == 1
      && Count(w.session.sent, InvocationsMetric) == 1
      && Count(w.session.sent, ErrorsMetric) == (if bodyThrows then 1 else 0)
      && |w.session.sent| == (if bodyThrows then 3 else 2)
  {
    var calls := ClosingOnceCalls(bodyThrows, closeFails);
    var w1 := if bodyThrows then Error(w0) else w0;
    var last := [CallClose(closeFails)];
    assert last[1..] == [];
    assert Closes(last) == 1 && ErrorCalls(last) == 0;
    if bodyThrows {
      assert calls[1..] == last;
    } else {
      assert calls == last;
    }
    assert Run(w0, calls) == Run(w1, last);
    assert ServeClosingOnce(w0, req, bodyThrows, closeFails).2 == Run(w1, last);
    RunFromFresh(w0, calls);
  }
}
