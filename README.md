# Egress handler supervisor, modelled in Dafny

This project models the per-job egress handler of the LiveKit egress service
(`pkg/service/handler.go`). The handler supervises one media pipeline for the
whole life of its process. It serves two bus topics (UpdateStream,
StopEgress) and a local introspection service (pipeline debug graph,
profiles, metrics). It also reconciles a kill signal with the pipeline's own
completion in one event loop.

The model covers three pieces of sequential decision logic:

- **Metrics rendering** (`metrics.dfy`, module `Metrics`). `RenderMetrics` is
  the `renderMetrics` loop. It is proved against a recursive specification,
  `Render`. Lemmas then show that `Render` yields the concatenation of every
  family's text, in input order, with the sum of their counts. They also show
  that it fails with exactly the first failing family's error, and that
  families after that failure play no part. The text serializer
  (`expfmt.MetricFamilyToText`) is a function parameter `toText`.
- **Construction and startup error classification** (`handler.dfy`,
  `Service.NewHandler`). Setup steps are abstract outcomes, and each failure
  is wrapped as fatal before any pipeline is built. A fatal pipeline error is
  returned untouched. A user error stamps the shared descriptor failed, with
  `UpdatedAt = EndedAt = now` and the error text, and reports it exactly
  once. `now` is a parameter. A ghost `calls` lists the collaborator calls.
- **The handler's lifecycle** (`handler.dfy` class `Service.Handler`, and
  `lifecycle.dfy` module `Lifecycle`). The fields are `pipelinePresent`,
  `pipelineInfo`, `killed` (the fuse is broken), `finished`, and a ghost
  `trace` of collaborator calls.
  - `Step` is one pass of Run's `select`.
  - `Run` consumes a schedule: Kill calls from other callers, and the select
    case taken at each pass.
  - `Valid()` is the object invariant. It says the terminal report, the bus
    server shutdown and the local server stop each happen exactly once, and
    only when the handler is finished.
  - The RPC handlers guard on `pipelinePresent`, then forward to the
    collaborator. The collaborator's answer is a parameter. The two-second
    race in GetPipelineDot is a nondeterministic `DotRace`.

`errors.dfy` (module `Errors`) holds the error values and their
fatal/non-fatal classification. `protocol.dfy` (module `Protocol`) holds the
descriptor and the request and response messages.

Three points where the code behaves differently from what a reader might
expect; the model follows the code:

- A one-shot kill switch suggests a single end-of-stream request. In the
  code the fuse's watch channel stays closed after it breaks, so the `select`
  may take the kill case on every pass until the result arrives. The model
  allows repeated end-of-stream requests, and `Lifecycle.KillCaseRepeats`
  exhibits two of them.
- A user error's report does not set `StartedAt`. The code sets only
  `UpdatedAt` and `EndedAt`, both to the same instant, so nothing orders
  `EndedAt` after `StartedAt`. The model does the same.
- The handler methods do not check whether Run has returned. Refusing
  requests after shutdown is left to the stopped servers, whose transport is
  not modelled.

## Model

| member | source | states |
|---|---|---|
| `Metrics.RenderMetrics` | pkg/service/handler.go:226-242 | The loop returns exactly `Render`'s outcome: on success, the text and the total count. On failure it returns `("", 0, err)` with the failing render's error and no partial text. A ghost record taken at the serializer call shows that the families handed to it are exactly every family on success, and on failure the families up to and including the first failing one. |
| `Metrics.RenderAppend` | pkg/service/handler.go:228-238 | Rendering two lists of families back to back is rendering the first and then the second. The texts are concatenated and the counts added, and the earliest failure wins. This is the step the loop takes for each family it appends to the builder. |
| `Metrics.FirstFailure` | pkg/service/handler.go:230-236 | The index it returns is the first family the serializer rejects. Every family before it serializes, and the family at that index fails. If none fails, it is the number of families. |
| `Metrics.RenderSucceeds` | pkg/service/handler.go:226-241 | When every family serializes, the result is the concatenation of every family's text in input order, and the count is the sum of the per-family counts. |
| `Metrics.RenderFails` | pkg/service/handler.go:230-236 | When some family fails, the render fails with the error of the first failing family. |
| `Metrics.RenderSucceedsIff` | pkg/service/handler.go:230-241 | The render succeeds if and only if no family fails to serialize. |
| `Metrics.RenderIgnoresLaterFamilies` | pkg/service/handler.go:230-236 | Families after the first failing one do not affect the outcome. Replacing them with any other families gives the same render. |
| `Service.Handler.GetMetrics` | pkg/service/handler.go:204-224 | A gathering error is returned alone, with no response. A render error is returned together with a response whose metrics text is empty. Otherwise the response carries the rendered text and there is no error. The pipeline's presence plays no part. |
| `Service.NewHandler` | pkg/service/handler.go:56-105 | A failure in bus-server creation, either topic registration or the listener is returned as `Fatal(err)` of the earliest failure. In that case no handler is returned, no pipeline is built and nothing is reported. A fatal build error is returned unchanged, with no report and the descriptor untouched. A non-fatal one stamps the descriptor `EgressFailed` with `updatedAt = endedAt = now` and the error's text, reports it exactly once and returns the original error. On success, a fresh handler with a pipeline and an unbroken fuse is returned. |
| `Service.Handler.constructor` | pkg/service/handler.go:57-62 | A new handler has no pipeline, an unbroken fuse, has not finished and has made no calls. |
| `Service.Handler.Kill` | pkg/service/handler.go:244-246 | Breaking the fuse leaves it broken whatever its previous state, so repeated calls are harmless. Nothing else changes. |
| `Service.Handler.Step` | pkg/service/handler.go:119-130 | The kill case is taken only once the fuse is broken. It adds exactly one end-of-stream request and does not return. The result case adds the report of the result, then the bus-server shutdown, then the local-server stop, and makes Run return. The invariant that each of these happens once holds throughout. |
| `Service.Handler.Run` | pkg/service/handler.go:107-132 | Run first starts the pipeline. It returns if and only if the schedule delivers a result, and it returns right after the first one. Its trace is the schedule's effects up to that point. Without a result it keeps waiting and has only sent end-of-stream requests. After it returns, the handler is finished, having reported and shut down exactly once. A fuse broken before Run is still broken after it. |
| `Lifecycle.FirstResult` | pkg/service/handler.go:118-131 | The position it returns is that of the first result in a schedule: no earlier step is a result, and that step is one. If the schedule holds no result, it is the schedule's length. |
| `Lifecycle.KillsOnlySendEOS` | pkg/service/handler.go:120-122 | Before the result, the loop's only effects are end-of-stream requests, one for each time it takes the kill case. |
| `Lifecycle.RunEffectsShape` | pkg/service/handler.go:118-131 | Up to and including the first result, the loop's effects are the end-of-stream requests, then one report of the result, then the bus-server shutdown, then the local-server stop. The trace holds exactly one report, one shutdown and one stop. |
| `Lifecycle.TerminalCounts` | pkg/service/handler.go:124-129 | A trace of end-of-stream requests followed by the terminal branch holds exactly one report, one bus-server shutdown and one local-server stop. |
| `Lifecycle.FuseStaysBroken` | pkg/service/handler.go:244-246 | Once the fuse is broken, no schedule mends it: `Break` has no inverse. |
| `Lifecycle.KillCaseRepeats` | pkg/service/handler.go:117-123 | One Kill can be followed by two passes through the kill case before the result, giving two end-of-stream requests. The loop therefore does not promise a single one. |
| `Service.Handler.UpdateStream` | pkg/service/handler.go:134-147 | Without a pipeline, it returns "egress not found" and makes no call. Otherwise it forwards the request once. A pipeline error is returned unchanged with no descriptor. On success, the pipeline's current descriptor is returned. |
| `Service.Handler.StopEgress` | pkg/service/handler.go:149-159 | Without a pipeline, it returns "egress not found" and makes no call. Otherwise it sends exactly one end-of-stream request and returns the current descriptor at once, without waiting for the pipeline to end. |
| `Service.Handler.GetPipelineDot` | pkg/service/handler.go:161-183 | Without a pipeline, it returns "egress not found" and makes no call. Otherwise it asks the pipeline for its graph. If the graph arrives first, the response carries it. If the two-second timer wins, it returns a deadline-exceeded error with no response. |
| `Service.Handler.GetPProf` | pkg/service/handler.go:185-201 | Without a pipeline, it returns "egress not found" and makes no profiler call. Otherwise it requests the named profile with the given timeout and debug level. The profiler's data is returned in the response, or its error is returned unchanged. |

## Left out

- Transport setup is not modelled: the psrpc bus server, the topic registrations, `net.Listen` on the unix socket, `getSocketAddress` and the gRPC `Serve` goroutine. Each is an abstract success-or-failure outcome (`SetupOutcome`), because it is network I/O.
- Goroutines, channels and `time.After` are concurrency and wall-clock time. They become an explicit schedule of events (`Happening`) for Run and a nondeterministic `DotRace` for GetPipelineDot.
- The RPC handlers are not interleaved into Run's schedule. They change only the trace, and never the fields Run reads, so their interleaving does not affect Run's decisions.
- The internals of `core.Fuse`, `pipeline.Controller`, `pprof.GetProfileData`, `prometheus.DefaultGatherer.Gather` and `expfmt.MetricFamilyToText` are foreign code and are not modelled. Their answers are parameters (`BuildOutcome`, `pipelineErr`, `DotRace`, `profile`, `gathered`/`gatherErr`, `toText`). Changes the controller makes to its own descriptor are not modelled: `pipelineInfo` is whatever the controller exposes.
- Tracing spans and logger calls are left out; they have no behavioural content.
- `time.Now()` is the parameter `now`.
- `ErrEgressNotFound` and `errors.Fatal` are defined in `pkg/errors`, which is not part of this model. The model gives the not-found error the text "egress not found". It gives a fatal error the text of its cause, and treats an error as fatal only when it is wrapped directly by `Fatal`.
- `Run` returns Go's `error`, which is always nil. The model instead returns whether Run has returned yet, and how much of the schedule it consumed.
- Metrics.RenderMetrics: byte counts are unbounded naturals, so an overflow of Go's `int` in `totalCnt` is not modelled.
- Metric families are an abstract type parameter. The text exposition format itself belongs to the serializer and is not modelled.
