# Flow: schema verification, binding and sequential execution

This project models the core of the `flow` Go library. Callers register named
flow schemas. A flow schema is an ordered list of process definitions, each
with a list of expected inputs. Callers then submit a `FlowRequest` that claims
to instantiate one of those schemas. The library does three things:

1. **Verify.** It checks the request's shape against the registered schema.
   The flow is looked up first, then the process count is compared, then, at
   each position in order, the process name and then the input count. The
   first failure wins.
2. **Bind.** It turns the request into a `Flow`. Every input is copied field
   for field, and each process name is resolved to a handler in the handler
   map. Binding stops at the first name that has no handler.
3. **Run.** `Flow.Process` runs the handlers in index order. One shared
   context map is threaded through them. The run stops at the first handler
   that fails.

Modules, one per source file:

- `Wrappers` (wrappers.dfy): `Option`, `Result` and `Outcome`.
- `ErrorKinds` (errors.dfy): one `ErrKind` value per Go error sentinel. An
  `Error` is the set of kinds it carries plus a structured `Detail` (index,
  names, counts, the handler's error). `Join` models `errors.Join` and `Is`
  models `errors.Is` over the kinds, including the kinds a handler's own
  error matches.
- `Requests` (request.dfy): the already-decoded request records.
- `Execution` (flow.dfy): the bound `Flow` and `Process`, the context, and
  `Run`, which is the `Flow.Process` loop written as a recursive fold. A fold
  returns the final context, the trace of handler indices it invoked, and the
  error.
- `Parsing` (parser.dfy): the schema records, the registry (`NewFlowParser`,
  `Add`), `Verify` (`_verifySchema`), `Bind` (`_parseRequest`) and `Parse`.
- `Scenarios` (scenarios.dfy): the "Stake" request and schemas, with the three
  test handlers written as an explicit semantics function.

Handlers are abstract. A `Process` holds an opaque `HandlerId`. What a handler
does is given by a `Semantics` function. It maps the handler, the context and
the process's inputs to the context the handler leaves behind and an optional
error. `CtxAfter` and `StepAt` are the independent reference: handlers replayed
one after the other. `RunReplays` ties the run loop to that reference.

Two points about where things happen:

- The handler-existence check is part of the binder (`_parseRequest`,
  parser.go:75-79), so it runs only after verification has passed. `Bind`
  models it there.
- Some details are not in the Go error messages and are added by the model.
  `ProcessNameMismatch`, `InputCountMismatch` and `MissingHandler` carry the
  zero-based position, while the Go messages give only names or counts. This
  makes "the first offending position is reported" statable.

## Model

| member | source | states |
|---|---|---|
| Parsing.NewFlowParser | parser.go:32-37 | a new parser keeps the handler map it was given and has no schema registered under any key |
| Parsing.Add | parser.go:39-41 | after registering `s` under `name`, looking up `name` gives `s` (an earlier entry is overwritten); every other key and the handler map are unchanged |
| Parsing.AddThenVerify | parser.go:86-93 | the schema that verifies a request is the one registered under the request's name, i.e. the `Add` key, not the schema's own `name` field |
| Parsing.CheckPosition | parser.go:99-108 | at one position the check passes exactly when names are equal and input counts are equal; a name mismatch is reported as InvalidRequestProcess even when the counts also differ, and otherwise a count mismatch as InvalidRequestInputs, with the position, names and counts |
| Parsing.CheckProcesses | parser.go:98-111 | the positional pass succeeds exactly when every position matches; on failure it reports the smallest mismatching position, all earlier positions matching |
| Parsing.Verify | parser.go:86-112 | verify succeeds exactly when the name is registered, the process counts are equal and every position has equal names and equal input counts; every failure carries exactly one kind; FlowNotFound exactly when the name is unregistered; InvalidRequest exactly when it is registered with a different process count, and then no per-position check is made; when the name is registered and the counts agree, a failure reports the first mismatching position with that position's own check (InvalidRequestProcess for a name mismatch, otherwise InvalidRequestInputs) |
| Parsing.VerifyReportsFirstViolation | parser.go:98-109 | if position k is the first where the request does not match the schema, verification fails with InvalidRequestProcess and both names when the names differ at k, and otherwise with InvalidRequestInputs and both counts; later mismatches are never reported |
| Parsing.VerifyShapeOnly | parser.go:98-109 | input names, values, types and meta tags never affect verification: requests with equal names, process names and input counts verify alike |
| Parsing.BindProcesses | parser.go:61-81 | binding from a position succeeds exactly when every later process name has a handler; on success each bound process mirrors its request process and carries the handler registered for its name; on failure the error is HandlerNotFound naming the first unresolved process |
| Parsing.Bind | parser.go:57-84 | the bound flow has the request's name and one process per request process, in request order, each mirroring it; otherwise HandlerNotFound at the first unresolved process and no flow |
| Parsing.BindRoundTrip | parser.go:57-83 | binding loses nothing: the request can be read back off the bound flow exactly |
| Parsing.Parse | parser.go:43-55 | parse succeeds exactly when the request verifies and every process has a handler; a verification error comes back joined with ParserFailure and SchemaVerificationFailure; a missing handler gives exactly ParserFailure and HandlerNotFound, without SchemaVerificationFailure; a successful parse returns the bound flow |
| Parsing.ParseIgnoresHandlersUntilVerified | parser.go:43-52 | when verification fails, the handler map does not influence the result of parse |
| Execution.RunFrom | flow.go:31-37 | from position i, the handlers are invoked at i, i+1, … with no index skipped or repeated; without an error every remaining handler ran; with one, the last invoked index is the one reported, under ProcessFailure, with its process name |
| Execution.Run | flow.go:30-39 | the trace is a prefix 0 … k of the process indices; success means every handler ran; failure reports ProcessFailure with the index and name of the last handler invoked |
| Execution.RunFromContext | flow.go:31-37 | the context a run returns is exactly the one left by the last handler it invoked; nothing is rolled back |
| Execution.RunFromOutcome | flow.go:31-37 | every handler invoked before the last one succeeded; the last one failed exactly when an error is reported, and the reported cause is that handler's own error |
| Execution.RunReplays | flow.go:30-39 | a run is the sequential replay of its handlers, each seeing the context its predecessors built and its own inputs: it succeeds exactly when every replayed step succeeds, then returns the replayed final context; otherwise it stops at the first failing handler k, returns the context k left and reports ProcessFailure with k's index and name, joined with k's own error and every kind that error matches |
| Scenarios.StakeSucceeds | flow_test.go:35-71 | with both handlers registered, the Stake request parses, both handlers run in order, and the context ends with response = {data: "to mars"} |
| Scenarios.StakeFailsAtFirstProcess | flow_test.go:73-101 | when the first handler always fails, the run reports ProcessFailure at index 0, the second handler never runs, and no "response" key is set |
| Scenarios.UnknownFlowRejected | flow_test.go:103-128 | with only "Unstake" registered, parse fails with ParserFailure, SchemaVerificationFailure and FlowNotFound |
| Scenarios.ProcessCountRejected | flow_test.go:130-155 | a one-process schema against the two-process request gives InvalidRequest |
| Scenarios.ProcessNameRejected | flow_test.go:184-209 | a schema whose first process is signUserOp gives InvalidRequestProcess at position 0 |
| Scenarios.InputCountRejected | flow_test.go:211-236 | a schema whose first process takes no inputs gives InvalidRequestInputs at position 0 with counts 0 and 1 |
| Scenarios.MissingHandlerRejected | flow_test.go:238-262 | without a handler for prepareCallData, parse gives ParserFailure and HandlerNotFound naming it |

## Left out

- JSON decoding of `FlowRequest` and its struct tags (request.go) is left out. The model starts from an already-decoded request.
- Error message text (`fmt.Errorf`) is left out. Errors are a set of sentinel kinds plus structured detail.
- The tree structure of `errors.Join` and the unwrapping done by `errors.Is` are left out. A joined error is flattened to the union of the sentinel kinds it matches. A handler's error is given by the kinds it matches plus a message; its own nesting is not modelled.
- Go's `interface{}` context keys and values are not modelled in general. Keys are strings, and values are a string or a string-to-string record. These are the only shapes the library and its tests use.
- `DefinedInput.Value` is an `interface{}` in Go, but the binder only ever stores the request's string in it. It is modelled as a string.
- Handlers are modelled as an opaque `HandlerId` plus a `Semantics` function, not as Go function values. A handler that panics or never returns is not modelled.
- A nil function value stored in the handler map is not modelled. The lookup at parser.go:75 finds it, the binder stores it (parser.go:80), and the call at flow.go:32 panics at run time. A `Flow` built directly by client code is not modelled either.
- Concurrency is not modelled. This covers sharing a context between runs and changing the registry during a run; the library does not synchronise either.
- The nil maps of a `FlowParser` that was never constructed are left out. Writing to one panics in Go.
- Aliasing of a flow's inputs is not modelled. flow.go:32 hands each handler the process's `DefinedInput` slice, which shares its backing array with the flow. A Go handler that writes to its inputs changes the flow, and a later run on an equal context can then differ. In the model a `Semantics` function cannot change the flow, so the model does not cover such handlers.
- Aliasing of the handler map is not modelled. `NewFlowParser` keeps the caller's map by reference (parser.go:34), so later writes to that map change what `Parse` resolves. The model's `FlowParser` holds a copy taken at construction.
- The test `TestInvalidRequestProcess` (flow_test.go:157-182) repeats the process-count test, so it has no scenario of its own.
