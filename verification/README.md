# SignalFx Azure Functions metric wrapper, modelled in Dafny

This project models the core of the SignalFx metric wrapper for Java Azure Functions. It covers
`MetricWrapper`, the object a function handler creates once per invocation. On construction it:

- resolves the send timeout from `SIGNALFX_SEND_TIMEOUT`;
- builds six default dimensions from the execution context and the environment, including the
  Azure region slug from a fixed table;
- appends the caller's dimensions;
- opens a session and sends an `azure.function.invocations` counter.

Two more operations complete its lifecycle:

- `error()` sends an `azure.function.errors` counter;
- `close()` sends an `azure.function.duration` gauge and closes the session.

`sendMetric(builder)` appends the wrapper's dimension list to a caller's datapoint.

It also models the example handler `hello`, which builds a greeting from the request. The handler
closes its wrapper twice: once in an explicit `finally` and once through try-with-resources. It
logs and swallows a failed close.

Modules:

- `Options` (options.dfy): `Option`, with `None` standing for a Java `null`, and Guava's
  `Strings.isNullOrEmpty`.
- `Regions` (regions.dfy): the region table, `getRegionName`, and proofs that the table is
  injective and that each slug is its display name lower-cased without spaces.
- `SendTimeout` (timeout.dfy): `Integer.valueOf` over 32-bit `int`s, the 300 ms fallback and
  the factory configuration guarded by `timeoutMs > -1`.
- `Dimensions` (dimensions.dfy): `getDefaultDimensions` with its fallbacks and warnings, and
  the merge of the default labels with the caller's dimensions.
- `Wrapper` (wrapper.dfy): the constructor, `sendMetric`, `error()` and `close()`, as
  functions on an immutable wrapper whose session is a log of datapoints plus a close count. It
  also defines `Run`, which applies a sequence of calls.
- `HelloFunction` (hello_function.dfy): the handler `hello`. The three exceptions it can meet
  are inputs: one in the body, one from each close. The module also holds a corrected handler
  that closes the wrapper once (see "Findings").

A Java `HashMap`'s iteration order is unspecified, so the order in which the default labels
enter the dimension list is a parameter. It must list each of the six keys exactly once.

## Model

Paths are relative to the repository root. `MetricWrapper.java` is
`src/java/com/signalfx/azurefunctions/wrapper/MetricWrapper.java`; `Function.java` is
`src/java/com/signalfx/azurefunctions/example/Function.java`.

| member | source | states |
|---|---|---|
| Regions.RegionName | src/java/com/signalfx/azurefunctions/wrapper/MetricWrapper.java:165-197 | a slug is returned exactly when the input is non-null and one of the 25 listed display names, and then it is that row's slug |
| Regions.Lookup | src/java/com/signalfx/azurefunctions/wrapper/MetricWrapper.java:166-194 | the string switch finds a slug exactly when some row has the display name, and the slug it finds belongs to such a row |
| Regions.LookupFindsRow | src/java/com/signalfx/azurefunctions/wrapper/MetricWrapper.java:166-194 | in a table without repeated case labels, every row's display name yields that row's own slug |
| Regions.KnownRegionsHaveTheirSlug | src/java/com/signalfx/azurefunctions/wrapper/MetricWrapper.java:168-192 | each of the 25 display names maps to exactly its listed slug |
| Regions.TableDistinct | src/java/com/signalfx/azurefunctions/wrapper/MetricWrapper.java:168-192 | no display name is listed twice and no two display names share a slug |
| Regions.RegionNameInjective | src/java/com/signalfx/azurefunctions/wrapper/MetricWrapper.java:165-197 | two inputs that get the same slug are the same display name |
| Regions.SlugMatchesIffNormalized | src/java/com/signalfx/azurefunctions/wrapper/MetricWrapper.java:168-192 | the character-by-character check holds exactly when the slug is the display name lower-cased with its spaces dropped |
| Regions.TableSlugsNormalized | src/java/com/signalfx/azurefunctions/wrapper/MetricWrapper.java:168-192 | every listed slug is its display name lower-cased with the spaces removed |
| Regions.RegionNameNormalizes | src/java/com/signalfx/azurefunctions/wrapper/MetricWrapper.java:165-197 | whatever slug the lookup returns is its input lower-cased without spaces |
| Regions.EmptyRegionHasNoSlug | src/java/com/signalfx/azurefunctions/wrapper/MetricWrapper.java:165-197 | the empty string is no display name and gets no slug |
| SendTimeout.ParseInt | src/java/com/signalfx/azurefunctions/wrapper/MetricWrapper.java:63 | a parsed value lies in the 32-bit `int` range; null, empty and a lone sign never parse |
| SendTimeout.ResolveTimeout | src/java/com/signalfx/azurefunctions/wrapper/MetricWrapper.java:61-66 | the timeout is the parsed value when parsing succeeds and 300 otherwise, always within `int` range |
| SendTimeout.DecimalRoundTrip | src/java/com/signalfx/azurefunctions/wrapper/MetricWrapper.java:63 | every `int` printed in decimal parses back to itself |
| SendTimeout.TimeoutAsWritten | src/java/com/signalfx/azurefunctions/wrapper/MetricWrapper.java:61-66 | a variable holding an `int` in decimal is used as the timeout unchanged |
| SendTimeout.OverflowFallsBack | src/java/com/signalfx/azurefunctions/wrapper/MetricWrapper.java:61-66 | a number outside the `int` range does not parse and the timeout falls back to 300 |
| SendTimeout.MissingTimeoutFallsBack | src/java/com/signalfx/azurefunctions/wrapper/MetricWrapper.java:61-66 | an unset variable, an empty one and a lone sign all give 300 |
| SendTimeout.StrayCharacterFallsBack | src/java/com/signalfx/azurefunctions/wrapper/MetricWrapper.java:61-66 | any character other than a digit or a leading sign makes the timeout 300 |
| SendTimeout.SignedDigitsParse | src/java/com/signalfx/azurefunctions/wrapper/MetricWrapper.java:63 | an optional sign followed by one or more digits, leading zeros allowed, parses to the signed value of the digits when that is an `int` and fails otherwise |
| SendTimeout.NonCanonicalSpellings | src/java/com/signalfx/azurefunctions/wrapper/MetricWrapper.java:63 | "+300", "007" and "-0" parse to 300, 7 and 0 |
| SendTimeout.ConfigureFactories | src/java/com/signalfx/azurefunctions/wrapper/MetricWrapper.java:78-81 | both factories get the same timeout, which is set exactly when it is non-negative and then equals it |
| SendTimeout.ResolvedTimeoutConfiguresFactories | src/java/com/signalfx/azurefunctions/wrapper/MetricWrapper.java:61-81 | an unset variable configures both factories with 300 ms; an `int` written in decimal configures them with that value when it is not negative and leaves them alone otherwise |
| SendTimeout.NegativeTimeoutLeavesFactories | src/java/com/signalfx/azurefunctions/wrapper/MetricWrapper.java:78-81 | a negative timeout, -1 included, configures neither factory |
| Dimensions.DefaultDimensions | src/java/com/signalfx/azurefunctions/wrapper/MetricWrapper.java:121-163 | exactly the six keys; each of region, function name, resource name and wrapper version takes its source when neither null nor empty, else "undefined"; the site name is preferred to the app pool id; the two constant labels; one warning per fallback of region, function name and resource name, in that order |
| Dimensions.WarningsAreFallbackNotices | src/java/com/signalfx/azurefunctions/wrapper/MetricWrapper.java:129-151 | every warning logged is one of the three fallback notices |
| Dimensions.LabelsNeverEmpty | src/java/com/signalfx/azurefunctions/wrapper/MetricWrapper.java:129-161 | no label value is ever empty |
| Dimensions.SecondaryResourceNameUnused | src/java/com/signalfx/azurefunctions/wrapper/MetricWrapper.java:144-151 | with the site name set, the app pool id changes no label and no warning |
| Dimensions.UnknownRegionUndefined | src/java/com/signalfx/azurefunctions/wrapper/MetricWrapper.java:127-134 | a null region or a string outside the table is labelled "undefined" and warned about |
| Dimensions.WarningsOncePerFallback | src/java/com/signalfx/azurefunctions/wrapper/MetricWrapper.java:129-158 | at most three warnings, none repeated, and a missing wrapper version logs nothing |
| Dimensions.EastUs2Example | src/java/com/signalfx/azurefunctions/wrapper/MetricWrapper.java:121-163 | a fully configured host in "East US 2" gets "eastus2", its site and function name, and no warning |
| Dimensions.EnumerationLength | src/java/com/signalfx/azurefunctions/wrapper/MetricWrapper.java:91-93 | an iteration order that lists each key once is as long as the map |
| Dimensions.MergeDimensions | src/java/com/signalfx/azurefunctions/wrapper/MetricWrapper.java:91-97 | one dimension per label with its value and no key repeated, followed by the caller's dimensions verbatim; a null caller list adds nothing |
| Wrapper.Construct | src/java/com/signalfx/azurefunctions/wrapper/MetricWrapper.java:57-103 | the timeout and factories as resolved; six default dimensions then the caller's; a session holding exactly one invocation counter with the wrapper's dimensions and not yet closed; the warnings of the default dimensions |
| Wrapper.SendMetric | src/java/com/signalfx/azurefunctions/wrapper/MetricWrapper.java:223-226 | exactly one datapoint is added at the end, with the builder's name, type and value, and its dimensions followed by the wrapper's whole list; the wrapper's dimensions, timeout, factories and close count stay as they were |
| Wrapper.SendCounter | src/java/com/signalfx/azurefunctions/wrapper/MetricWrapper.java:207-221 | one datapoint is appended with the given name and type, int value 1 and exactly the wrapper's dimension list, so a counter is the wrapper's own point; nothing else of the wrapper changes |
| Wrapper.Error | src/java/com/signalfx/azurefunctions/wrapper/MetricWrapper.java:228-230 | exactly one error counter of value 1 with the wrapper's dimensions is appended; the session is not closed |
| Wrapper.Close | src/java/com/signalfx/azurefunctions/wrapper/MetricWrapper.java:232-240 | one duration gauge is appended before the session is closed once more; the session's failure is passed on |
| Wrapper.StepAppendsPoint | src/java/com/signalfx/azurefunctions/wrapper/MetricWrapper.java:223-240 | each call appends its own datapoint and only `close()` closes the session |
| Wrapper.RunAppendsOnePointPerCall | src/java/com/signalfx/azurefunctions/wrapper/MetricWrapper.java:223-240 | after any sequence of calls: one datapoint per call, in call order, earlier ones untouched; the close count grows by the number of `close()` calls; the dimension list never changes |
| Wrapper.OwnPointsCountCalls | src/java/com/signalfx/azurefunctions/wrapper/MetricWrapper.java:228-240 | among datapoints of the wrapper's own calls, the error and duration counts equal the `error()` and `close()` calls, and none is an invocation counter |
| Wrapper.RunFromFresh | src/java/com/signalfx/azurefunctions/wrapper/MetricWrapper.java:99-102 | from a freshly opened session: exactly one invocation counter, first; one error counter per `error()`; one duration gauge and one session close per `close()`; every datapoint with the wrapper's dimensions |
| Wrapper.Lifecycle | src/java/com/signalfx/azurefunctions/wrapper/MetricWrapper.java:57-103 | the same for a newly constructed wrapper; nothing prevents a second `close()` |
| HelloFunction.ChosenName | src/java/com/signalfx/azurefunctions/example/Function.java:24-25 | the body when present, otherwise the `name` query parameter |
| HelloFunction.Respond | src/java/com/signalfx/azurefunctions/example/Function.java:27-31 | 400 with the help message exactly when there is no name, otherwise 200 "Hello, " followed by the name |
| HelloFunction.ResponseWithoutFaults | src/java/com/signalfx/azurefunctions/example/Function.java:24-31 | 400 exactly when neither the body nor the query gives a name; the body wins over the query |
| HelloFunction.Serve | src/java/com/signalfx/azurefunctions/example/Function.java:23-40 | without exceptions the chosen response; after any exception 200 "Hello"; the warning is logged exactly when a close fails |
| HelloFunction.Hello | src/java/com/signalfx/azurefunctions/example/Function.java:22-40 | the response as for `Serve`; the construction warnings, then the close warning exactly when some close failed |
| HelloFunction.ServeRunsCalls | src/java/com/signalfx/azurefunctions/example/Function.java:22-36 | the handler makes `error()` only when the body throws, then two `close()` calls |
| HelloFunction.HelloCallCounts | src/java/com/signalfx/azurefunctions/example/Function.java:32-36 | the handler's calls hold two closes, and one error exactly when the body throws |
| HelloFunction.ServeClosesTwice | src/java/com/signalfx/azurefunctions/example/Function.java:22-36 | the session is closed twice on every path; two duration gauges, one invocation counter, and an error counter exactly when the body threw |
| HelloFunction.ServeEndsWithTwoGauges | src/java/com/signalfx/azurefunctions/example/Function.java:34-36 | the log ends with the two duration gauges |
| HelloFunction.HelloClosesTwice | src/java/com/signalfx/azurefunctions/example/Function.java:22-40 | a whole invocation logs three datapoints, or four when the body throws, and closes the session twice |
| HelloFunction.ConstructionNeverWarnsOfClose | src/java/com/signalfx/azurefunctions/example/Function.java:37-39 | no construction warning is the close warning, so that warning is logged at most once |
| HelloFunction.ServeClosingOnce | src/java/com/signalfx/azurefunctions/example/Function.java:22-40 | the handler with the explicit close removed: the chosen response without exceptions, 200 "Hello" after any, the warning exactly when its one close fails |
| HelloFunction.ClosingOnceAnswersAlike | src/java/com/signalfx/azurefunctions/example/Function.java:22-40 | with both closes behaving alike, the corrected handler gives the same response and warning as the handler as written |
| HelloFunction.ClosingOnceClosesOnce | src/java/com/signalfx/azurefunctions/example/Function.java:22-36 | the corrected handler closes the session once and sends one duration gauge, one invocation counter, and an error counter exactly when the body throws |

## Left out

- The network and the SignalFx client library: the ingest endpoint, the receiver factories'
  HTTP plumbing, the auth token and `setVersion(2)`. A factory is only the timeout set on it.
- Sending is not modelled. The session records the datapoints set on it and how often it was
  closed, and a failing close is an input.
- `getWrapperVersionString` reads a properties file. Its result is an input of the host.
- The duration value comes from `System.nanoTime` and float arithmetic. The model records only
  that the gauge carries a double.
- `MetricSender` is not part of this model. It is the process-wide holder of the current
  wrapper, set at MetricWrapper.java:99. The model assumes that `MetricSender.sendMetric`
  reaches the most recently constructed wrapper, as in a single sequential invocation.
  Concurrent invocations overwriting the holder are left out.
- The error callback that logs "Metric sending error" is left out, because it is only called by
  the client library.
- The test handler `TestCustomHandler` and the Azure HTTP request and response types are left
  out. A request is its body and its `name` query parameter; a response is a status and a body.
- Exceptions the constructor itself might throw, for example from the client library, are left
  out. Only the three exceptions the handler deals with are modelled.
- SendTimeout.ParseInt: accepts only the ASCII digits `0`-`9`. Java's `Integer.valueOf` also
  accepts other Unicode decimal digits, which are not modelled.
- The documented default send timeout is 2000 ms, but the code falls back to 300 ms. The model
  follows the code.
- `MetricSender.sendMetric` is assumed to add no labels of its own before it hands the builder
  to the wrapper; whatever it does is not part of this model. The wrapper's `sendMetric` at
  MetricWrapper.java:223-226 appends the wrapper's dimension list, and the model follows that
  code.
- Wrapper.SendMetric: the caller's builder is not updated. The code adds the wrapper's
  dimensions to the caller's own builder object (MetricWrapper.java:224), so a builder sent a
  second time collects the list again; the model copies the builder, so each send carries the
  list once.

## Findings

| source | as written | input that shows it | evidently intended | confidence | as-written member | corrected member |
|---|---|---|---|---|---|---|
| src/java/com/signalfx/azurefunctions/example/Function.java:22-36 | `hello` calls `wrapper.close()` in a `finally` inside the try-with-resources that closes the same wrapper again; `close()` has no guard, so every invocation sends two duration gauges and closes the session twice | any request, with no exception anywhere | one release per invocation: one duration gauge and one session close, as the wrapper's release promises | medium, not executed | HelloFunction.ServeClosesTwice | HelloFunction.ClosingOnceClosesOnce |
