/** The metric wrapper's lifecycle (MetricWrapper.java:48-103, 207-240) as a trace: the session
    is a log of the datapoints handed to it plus the number of times it was closed. */
module Wrapper {
  import opened Options
  import opened Dimensions
  import SendTimeout

  const MetricNamePrefix := "azure.function."
  const InvocationsMetric := MetricNamePrefix + "invocations"
  const ErrorsMetric := MetricNamePrefix + "errors"
  const DurationMetric := MetricNamePrefix + "duration"

  datatype MetricType = Counter | Gauge

  /** A datapoint's value. The duration gauge's elapsed milliseconds (a float computed from the
      clock) is not modelled, only that the value is a double. */
  datatype Datum = IntValue(n: int) | DoubleValue

  /** A protobuf `DataPoint` (or its builder): name, type, value and dimensions. */
  datatype DataPoint = DataPoint(metric: string, metricType: MetricType, value: Datum, dimensions: seq<Dimension>)

  /** The session of the metric sender: the datapoints set on it, in order, and how often
      `close()` was called on it. */
  datatype Session = Session(sent: seq<DataPoint>, closeCalls: nat)

  /** A constructed wrapper: its dimension list, the resolved timeout, the factory settings and
      its session. */
  datatype MetricWrapper = MetricWrapper(
    dimensions: seq<Dimension>,
    timeoutMs: int,
    factories: SendTimeout.Factories,
    session: Session)

  /** The host's view at construction: the context's function name and the environment
      variables read, a Java `null` as `None`, and the wrapper version string. */
  datatype Host = Host(
    functionName: Option<string>,
    sendTimeout: Option<string>,
    websiteSiteName: Option<string>,
    appPoolId: Option<string>,
    regionName: Option<string>,
    wrapperVersion: Option<string>)

  /** A new wrapper and the warnings its construction logged. */
  datatype Construction = Construction(wrapper: MetricWrapper, warnings: seq<string>)

  /** The sources of the default dimensions. */
  function SourcesOf(host: Host): Sources {
    Sources(host.functionName, host.websiteSiteName, host.appPoolId, host.regionName, host.wrapperVersion)
  }

  /** `d` ends with the wrapper's dimension list `suffix`. */
  predicate EndsWith(d: seq<Dimension>, suffix: seq<Dimension>) {
    |suffix| <= |d| && d[|d| - |suffix|..] == suffix
  }

  /** The protected `sendMetric(builder)`: the builder's dimensions get the wrapper's list
      appended and the datapoint is set on the session. The caller's builder is taken as a
      value, so the update Java makes to that object is not visible here. `MetricSender.sendMetric` reaches this
      for the most recently registered wrapper, which in a sequential invocation is this one. */
  function SendMetric(w: MetricWrapper, b: DataPoint): (w': MetricWrapper)
    ensures |w'.session.sent| == |w.session.sent| + 1
    ensures w'.session.sent[..|w.session.sent|] == w.session.sent
    ensures var p := w'.session.sent[|w.session.sent|];
      && p.metric == b.metric && p.metricType == b.metricType && p.value == b.value
      && |p.dimensions| == |b.dimensions| + |w.dimensions|
      && p.dimensions[..|b.dimensions|] == b.dimensions
      && EndsWith(p.dimensions, w.dimensions)
    ensures w'.session.closeCalls == w.session.closeCalls
    ensures w'.dimensions == w.dimensions && w'.timeoutMs == w.timeoutMs && w'.factories == w.factories
  {
    var p := b.(dimensions := b.dimensions + w.dimensions);
    w.(session := w.session.(sent := w.session.sent + [p]))
  }

  /** `sendMetricCounter` with the private `sendMetric(name, type, datum)` it calls: a datapoint
      of int value 1 and no dimensions of its own, sent through `MetricSender`, so it carries
      exactly the wrapper's dimension list. */
  function SendCounter(w: MetricWrapper, metric: string, metricType: MetricType): (w': MetricWrapper)
    ensures |w'.session.sent| == |w.session.sent| + 1
    ensures w'.session.sent[..|w.session.sent|] == w.session.sent
    ensures var p := w'.session.sent[|w.session.sent|];
      && p.metric == metric && p.metricType == metricType && p.value == IntValue(1)
      && p.dimensions == w.dimensions
    ensures metricType == Counter ==> IsOwnPoint(w'.session.sent[|w.session.sent|], metric, metricType, w.dimensions)
    ensures w'.session.closeCalls == w.session.closeCalls
    ensures w'.dimensions == w.dimensions && w'.timeoutMs == w.timeoutMs && w'.factories == w.factories
  {
    SendMetric(w, DataPoint(metric, metricType, IntValue(1), []))
  }

  /** The wrapper's own datapoint for `metric`: int value 1 for a counter, a double for the
      duration gauge, carrying exactly the wrapper's dimension list. */
  predicate IsOwnPoint(p: DataPoint, metric: string, metricType: MetricType, dims: seq<Dimension>) {
    && p.metric == metric && p.metricType == metricType && p.dimensions == dims
    && (if metricType == Counter then p.value == IntValue(1) else p.value == DoubleValue)
  }

  /** The constructor: resolve the timeout and configure both factories, open an empty session,
      build the dimension list, register the wrapper and send one invocation counter. `order`
      is the iteration order of the default-dimension map. */
  function Construct(host: Host, extra: Option<seq<Dimension>>, order: seq<string>): (c: Construction)
    requires Enumerates(order, DefaultKeys)
    ensures c.wrapper.timeoutMs == SendTimeout.ResolveTimeout(host.sendTimeout)
    ensures c.wrapper.factories == SendTimeout.ConfigureFactories(c.wrapper.timeoutMs)
    ensures |c.wrapper.dimensions| == 6 + |extra.GetOr([])|
    ensures forall k :: k in DefaultKeys ==>
      Dimension(k, DefaultDimensions(SourcesOf(host)).labels[k]) in c.wrapper.dimensions[..6]
    ensures c.wrapper.dimensions[6..] == extra.GetOr([])
    ensures |c.wrapper.session.sent| == 1
    ensures IsOwnPoint(c.wrapper.session.sent[0], InvocationsMetric, Counter, c.wrapper.dimensions)
    ensures c.wrapper.session.closeCalls == 0
    ensures c.warnings == DefaultDimensions(SourcesOf(host)).warnings
  {
    var timeoutMs := SendTimeout.ResolveTimeout(host.sendTimeout);
    var factories := SendTimeout.ConfigureFactories(timeoutMs);
    var defaults := DefaultDimensions(SourcesOf(host));
    SixDefaultKeys();
    var dims := MergeDimensions(defaults.labels, order, extra);
    var w := MetricWrapper(dims, timeoutMs, factories, Session([], 0));
    Construction(SendCounter(w, InvocationsMetric, Counter), defaults.warnings)
  }

  /** `error()`: one error counter. */
  function Error(w: MetricWrapper): (w': MetricWrapper)
    ensures |w'.session.sent| == |w.session.sent| + 1
    ensures w'.session.sent[..|w.session.sent|] == w.session.sent
    ensures IsOwnPoint(w'.session.sent[|w.session.sent|], ErrorsMetric, Counter, w.dimensions)
    ensures w'.session.closeCalls == w.session.closeCalls
    ensures w'.dimensions == w.dimensions
  {
    SendCounter(w, ErrorsMetric, Counter)
  }

  /** `close()`: one duration gauge, then the session is closed. `fails` is whether the
      session's close throws `IOException`, which `close()` passes on; the gauge is set before
      that. Nothing stops a second call. */
  function Close(w: MetricWrapper, fails: bool): (r: (MetricWrapper, bool))
    ensures |r.0.session.sent| == |w.session.sent| + 1
    ensures r.0.session.sent[..|w.session.sent|] == w.session.sent
    ensures IsOwnPoint(r.0.session.sent[|w.session.sent|], DurationMetric, Gauge, w.dimensions)
    ensures r.0.session.closeCalls == w.session.closeCalls + 1
    ensures r.0.dimensions == w.dimensions
    ensures r.1 == fails
  {
    var w1 := SendMetric(w, DataPoint(DurationMetric, Gauge, DoubleValue, []));
    (w1.(session := w1.session.(closeCalls := w1.session.closeCalls + 1)), fails)
  }

  /** A call made on a live wrapper: `error()`, `close()` (with whether the session's close
      throws), or a custom datapoint sent through `MetricSender`. */
  datatype Call = CallError | CallClose(fails: bool) | CallSend(b: DataPoint)

  /** The wrapper after a sequence of calls. */
  function Run(w: MetricWrapper, calls: seq<Call>): MetricWrapper
    decreases |calls|
  {
    if |calls| == 0 then w else Run(Step(w, calls[0]), calls[1..])
  }

  /** The wrapper after one call. */
  function Step(w: MetricWrapper, c: Call): MetricWrapper {
    match c
    case CallError => Error(w)
    case CallClose(fails) => Close(w, fails).0
    case CallSend(b) => SendMetric(w, b)
  }

  /** The datapoint a call adds for a wrapper with dimension list `dims`. */
  predicate PointOfCall(p: DataPoint, c: Call, dims: seq<Dimension>) {
    match c
    case CallError => IsOwnPoint(p, ErrorsMetric, Counter, dims)
    case CallClose(_) => IsOwnPoint(p, DurationMetric, Gauge, dims)
    case CallSend(b) =>
      p.metric == b.metric && p.metricType == b.metricType && p.value == b.value
      && p.dimensions == b.dimensions + dims
  }

  /** Number of `close()` calls in `calls`. */
  function Closes(calls: seq<Call>): nat {
    if |calls| == 0 then 0 else (if calls[0].CallClose? then 1 else 0) + Closes(calls[1..])
  }

  /** One call appends its datapoint and leaves earlier ones alone. */
  lemma StepAppendsPoint(w: MetricWrapper, c: Call)
    ensures var w' := Step(w, c);
      && w'.session.sent == w.session.sent + [w'.session.sent[|w.session.sent|]]
      && PointOfCall(w'.session.sent[|w.session.sent|], c, w.dimensions)
      && w'.session.closeCalls == w.session.closeCalls + (if c.CallClose? then 1 else 0)
      && w'.dimensions == w.dimensions
  {
  }

  /** Each call appends exactly one datapoint, in call order, and leaves earlier ones alone;
      only `close()` closes the session; the dimension list never changes. */
  lemma {:induction false} RunAppendsOnePointPerCall(w: MetricWrapper, calls: seq<Call>)
    ensures var w' := Run(w, calls);
      && |w'.session.sent| == |w.session.sent| + |calls|
      && w'.session.sent[..|w.session.sent|] == w.session.sent
      && (forall i :: 0 <= i < |calls| ==> PointOfCall(w'.session.sent[|w.session.sent| + i], calls[i], w.dimensions))
      && w'.session.closeCalls == w.session.closeCalls + Closes(calls)
      && w'.dimensions == w.dimensions
    decreases |calls|
  {
    if |calls| > 0 {
      var w1 := Step(w, calls[0]);
      StepAppendsPoint(w, calls[0]);
      RunAppendsOnePointPerCall(w1, calls[1..]);
      var w' := Run(w1, calls[1..]);
      var n := |w.session.sent|;
      assert w'.session.sent[..n] == w1.session.sent[..n];
      assert w'.session.sent[n] == w1.session.sent[n];
      forall i | 1 <= i < |calls|
        ensures PointOfCall(w'.session.sent[n + i], calls[i], w.dimensions)
      {
        assert calls[1..][i - 1] == calls[i];
      }
    }
  }

  /** Number of datapoints named `metric`. */
  function Count(points: seq<DataPoint>, metric: string): nat {
    if |points| == 0 then 0 else (if points[0].metric == metric then 1 else 0) + Count(points[1..], metric)
  }

  /** Number of `error()` calls in `calls`. */
  function ErrorCalls(calls: seq<Call>): nat {
    if |calls| == 0 then 0 else (if calls[0].CallError? then 1 else 0) + ErrorCalls(calls[1..])
  }

  /** Only the wrapper's own API is used: no custom datapoints. */
  predicate OwnCallsOnly(calls: seq<Call>) {
    forall i :: 0 <= i < |calls| ==> !calls[i].CallSend?
  }

  /** The datapoints added for calls of the wrapper's own API count them: one error counter per
      `error()` and one duration gauge per `close()`, and never an invocation counter. */
  lemma {:induction false} OwnPointsCountCalls(points: seq<DataPoint>, calls: seq<Call>, dims: seq<Dimension>)
    requires |points| == |calls| && OwnCallsOnly(calls)
    requires forall i :: 0 <= i < |calls| ==> PointOfCall(points[i], calls[i], dims)
    ensures Count(points, ErrorsMetric) == ErrorCalls(calls)
    ensures Count(points, DurationMetric) == Closes(calls)
    ensures Count(points, InvocationsMetric) == 0
    ensures forall i :: 0 <= i < |points| ==> points[i].dimensions == dims
    decreases |calls|
  {
    if |calls| > 0 {
      assert PointOfCall(points[0], calls[0], dims);
      assert forall i :: 0 <= i < |calls| - 1 ==> calls[1..][i] == calls[i + 1] && points[1..][i] == points[i + 1];
      OwnPointsCountCalls(points[1..], calls[1..], dims);
    }
  }

  /** Calls of the wrapper's own API on a freshly constructed wrapper, whose log holds just
      the invocation counter. */
  lemma {:induction false} RunFromFresh(w0: MetricWrapper, calls: seq<Call>)
    requires |w0.session.sent| == 1 && w0.session.closeCalls == 0
    requires IsOwnPoint(w0.session.sent[0], InvocationsMetric, Counter, w0.dimensions)
    requires OwnCallsOnly(calls)
    ensures var w := Run(w0, calls);
      && |w.session.sent| == 1 + |calls|
      && IsOwnPoint(w.session.sent[0], InvocationsMetric, Counter, w.dimensions)
      && Count(w.session.sent, InvocationsMetric) == 1
      && Count(w.session.sent, ErrorsMetric) == ErrorCalls(calls)
      && Count(w.session.sent, DurationMetric) == Closes(calls)
      && w.session.closeCalls == Closes(calls)
      && (forall i :: 0 <= i < |w.session.sent| ==> w.session.sent[i].dimensions == w.dimensions)
  {
    var w := Run(w0, calls);
    RunAppendsOnePointPerCall(w0, calls);
    var added := w.session.sent[1..];
    assert forall i :: 0 <= i < |calls| ==> added[i] == w.session.sent[1 + i];
    OwnPointsCountCalls(added, calls, w0.dimensions);
  }

  /** A wrapper's whole life through its own API: construction sends exactly one invocation
      counter, first; N `error()` calls send exactly N error counters; each `close()` sends one
      duration gauge and closes the session once more, so nothing guards a second close; every
      datapoint carries exactly the wrapper's dimension list. */
  lemma Lifecycle(host: Host, extra: Option<seq<Dimension>>, order: seq<string>, calls: seq<Call>)
    requires Enumerates(order, DefaultKeys) && OwnCallsOnly(calls)
    ensures var w := Run(Construct(host, extra, order).wrapper, calls);
      && |w.session.sent| == 1 + |calls|
      && IsOwnPoint(w.session.sent[0], InvocationsMetric, Counter, w.dimensions)
      && Count(w.session.sent, InvocationsMetric) == 1
      && Count(w.session.sent, ErrorsMetric) == ErrorCalls(calls)
      && Count(w.session.sent, DurationMetric) == Closes(calls)
      && w.session.closeCalls == Closes(calls)
      && (forall i :: 0 <= i < |w.session.sent| ==> w.session.sent[i].dimensions == w.dimensions)
  {
    RunFromFresh(Construct(host, extra, order).wrapper, calls);
  }
}
