/**
 * The "Stake" scenarios: one request, several registered schemas and handler
 * maps, and three concrete handlers given by their effect on the context.
 */
module Scenarios {
  import opened Wrappers
  import opened ErrorKinds
  import opened Requests
  import opened Execution
  import opened Parsing

  const PrepareCallDataId := HandlerId(0)
  const ProcessUserOpId := HandlerId(1)
  const SignUserOpId := HandlerId(2)

  /**
   * prepareCallData stores "calldata"; processUserOp turns a string
   * "calldata" into a "response" record and fails without one; signUserOp
   * always fails. Any other handler leaves the context alone.
   */
  function StakeHandlers(h: HandlerId, ctx: Context, inputs: seq<DefinedInput>): StepResult {
    if h == PrepareCallDataId then
      StepResult(ctx["calldata" := Text("to mars")], None)
    else if h == ProcessUserOpId then
      if "calldata" in ctx && ctx["calldata"].Text? then
        StepResult(ctx["response" := Record(map["data" := ctx["calldata"].text])], None)
      else
        StepResult(ctx, Some(Cause({}, "invalid calldata")))
    else if h == SignUserOpId then
      StepResult(ctx, Some(Cause({}, "failed to sign userOp")))
    else
      StepResult(ctx, None)
  }

  const StakeRequest := FlowRequest("Stake", [
    RequestProcess("prepareCallData", [RequestInput("stake_amount", "100000", "string", "bigint")]),
    RequestProcess("processUserOp", [])
  ])

  const StakeAmount := InputSchema("stake_amount", "string", "bigint")

  function StakeSchema(flowName: string, first: string, firstInputs: seq<InputSchema>, withSecond: bool): FlowSchema {
    FlowSchema(flowName,
      [ProcessSchema(first, firstInputs)] + (if withSecond then [ProcessSchema("processUserOp", [])] else []))
  }

  const Handlers := map["prepareCallData" := PrepareCallDataId, "processUserOp" := ProcessUserOpId]

  function Registered(handlers: map<string, HandlerId>, s: FlowSchema): FlowParser {
    Add(NewFlowParser(handlers), s.name, s)
  }

  /** Both handlers succeed and the second one publishes what the first one stored. */
  lemma StakeSucceeds()
    ensures var parsed := Parse(Registered(Handlers, StakeSchema("Stake", "prepareCallData", [StakeAmount], true)), StakeRequest);
            && parsed.Success?
            && var r := Run(parsed.value, StakeHandlers, map[]);
            && r.err.None?
            && r.trace == [0, 1]
            && "response" in r.ctx
            && r.ctx["response"] == Record(map["data" := "to mars"])
  {
    var p := Registered(Handlers, StakeSchema("Stake", "prepareCallData", [StakeAmount], true));
    assert Accepts(p.flowList, StakeRequest);
    var f := Parse(p, StakeRequest).value;
    assert f.processes[0].handler == PrepareCallDataId;
    assert f.processes[1].handler == ProcessUserOpId;
    var r := Run(f, StakeHandlers, map[]);
    assert r.trace == [0, 1];
    RunReplays(f, StakeHandlers, map[]);
  }

  /** The first handler fails: the run stops there and the second never runs. */
  lemma StakeFailsAtFirstProcess()
    ensures var handlers := Handlers["prepareCallData" := SignUserOpId];
            var parsed := Parse(Registered(handlers, StakeSchema("Stake", "prepareCallData", [StakeAmount], true)), StakeRequest);
            && parsed.Success?
            && var r := Run(parsed.value, StakeHandlers, map[]);
            && r.err.Some?
            && r.err.value.Is(ProcessFailure)
            && r.err.value.detail == HandlerFailed(0, "prepareCallData", Cause({}, "failed to sign userOp"))
            && r.trace == [0]
            && "response" !in r.ctx
  {
  }

  /** Only "Unstake" is registered. */
  lemma UnknownFlowRejected()
    ensures var parsed := Parse(Registered(Handlers, StakeSchema("Unstake", "prepareCallData", [StakeAmount], true)), StakeRequest);
            && parsed.Failure?
            && parsed.error.kinds == {ParserFailure, SchemaVerificationFailure, FlowNotFound}
  {
  }

  /** The schema defines one process, the request two. */
  lemma ProcessCountRejected()
    ensures var parsed := Parse(Registered(Handlers, StakeSchema("Stake", "prepareCallData", [StakeAmount], false)), StakeRequest);
            && parsed.Failure?
            && parsed.error.kinds == {ParserFailure, SchemaVerificationFailure, InvalidRequest}
  {
  }

  /** The schema's first process is signUserOp, the request's prepareCallData. */
  lemma ProcessNameRejected()
    ensures var parsed := Parse(Registered(Handlers, StakeSchema("Stake", "signUserOp", [StakeAmount], true)), StakeRequest);
            && parsed.Failure?
            && parsed.error.kinds == {ParserFailure, SchemaVerificationFailure, InvalidRequestProcess}
            && parsed.error.detail == ProcessNameMismatch(0, "signUserOp", "prepareCallData")
  {
  }

  /** The schema's first process takes no input, the request's one. */
  lemma InputCountRejected()
    ensures var parsed := Parse(Registered(Handlers, StakeSchema("Stake", "prepareCallData", [], true)), StakeRequest);
            && parsed.Failure?
            && parsed.error.kinds == {ParserFailure, SchemaVerificationFailure, InvalidRequestInputs}
            && parsed.error.detail == InputCountMismatch(0, 0, 1)
  {
  }

  /** prepareCallData has no handler. */
  lemma MissingHandlerRejected()
    ensures var parsed := Parse(Registered(map["processUserOp" := ProcessUserOpId], StakeSchema("Stake", "prepareCallData", [StakeAmount], true)), StakeRequest);
            && parsed.Failure?
            && parsed.error.kinds == {ParserFailure, HandlerNotFound}
            && parsed.error.detail == MissingHandler(0, "prepareCallData")
  {
  }
}
