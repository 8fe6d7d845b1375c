/**
 * The schema registry, the verifier that checks an untrusted request against
 * a registered schema, the binder that turns a verified request into a flow,
 * and the parse pipeline that composes the two.
 */
module Parsing {
  import opened Wrappers
  import opened ErrorKinds
  import opened Requests
  import opened Execution

  /** Schema of one input: name, type and meta are descriptive tags only. */
  datatype InputSchema = InputSchema(name: string, typeTag: string, meta: string)

  datatype ProcessSchema = ProcessSchema(name: string, definedInputs: seq<InputSchema>)

  datatype FlowSchema = FlowSchema(name: string, processDefinitions: seq<ProcessSchema>)

  /** The schema registry together with the handler registry. */
  datatype FlowParser = FlowParser(flowList: map<string, FlowSchema>, handlers: map<string, HandlerId>)

  // ---------------------------------------------------------------------------
  // Registry
  // ---------------------------------------------------------------------------

  function NewFlowParser(handlers: map<string, HandlerId>): (p: FlowParser)
    ensures p.handlers == handlers
    ensures forall name :: Lookup(p, name).None?
  {
    FlowParser(map[], handlers)
  }

  /** Looks a schema up by its registration key. */
  function Lookup(p: FlowParser, name: string): Option<FlowSchema> {
    if name in p.flowList then Some(p.flowList[name]) else None
  }

  /**
   * Registers `s` under `name` (not under `s.name`), overwriting any earlier
   * entry; every other key and the handlers keep what they had.
   */
  function Add(p: FlowParser, name: string, s: FlowSchema): (q: FlowParser)
    ensures Lookup(q, name) == Some(s)
    ensures forall other :: other != name ==> Lookup(q, other) == Lookup(p, other)
    ensures q.handlers == p.handlers
  {
    p.(flowList := p.flowList[name := s])
  }

  // ---------------------------------------------------------------------------
  // Verifier
  // ---------------------------------------------------------------------------

  /** A request process has the shape its schema process asks for. */
  predicate ProcessMatches(s: ProcessSchema, r: RequestProcess) {
    r.name == s.name && |r.definedInputs| == |s.definedInputs|
  }

  /** Position by position, the request has the shape the schema asks for. */
  predicate Conforms(s: FlowSchema, req: FlowRequest) {
    && |s.processDefinitions| == |req.processes|
    && forall i :: 0 <= i < |req.processes| ==> ProcessMatches(s.processDefinitions[i], req.processes[i])
  }

  /** The request names a registered schema and conforms to it. */
  predicate Accepts(flowList: map<string, FlowSchema>, req: FlowRequest) {
    req.name in flowList && Conforms(flowList[req.name], req)
  }

  /**
   * The check made at one position k: the process name is compared first and
   * the number of inputs second; input names, types and tags never are.
   */
  function CheckPosition(s: ProcessSchema, r: RequestProcess, k: nat): (e: Option<Error>)
    ensures e.None? <==> ProcessMatches(s, r)
    ensures e.Some? && r.name != s.name ==>
              e.value == Error({InvalidRequestProcess}, ProcessNameMismatch(k, s.name, r.name))
    ensures e.Some? && r.name == s.name ==>
              e.value == Error({InvalidRequestInputs}, InputCountMismatch(k, |s.definedInputs|, |r.definedInputs|))
  {
    if r.name != s.name then
      Some(Error({InvalidRequestProcess}, ProcessNameMismatch(k, s.name, r.name)))
    else if |s.definedInputs| != |r.definedInputs| then
      Some(Error({InvalidRequestInputs}, InputCountMismatch(k, |s.definedInputs|, |r.definedInputs|)))
    else
      None
  }

  /**
   * `e` reports the first position at or after i where the request does not
   * match the schema, with the check that position fails first.
   */
  predicate ReportsFirstMismatch(sp: seq<ProcessSchema>, rp: seq<RequestProcess>, i: nat, e: Error)
    requires |sp| == |rp|
  {
    && (e.detail.ProcessNameMismatch? || e.detail.InputCountMismatch?)
    && i <= e.detail.index < |sp|
    && (forall j :: i <= j < e.detail.index ==> ProcessMatches(sp[j], rp[j]))
    && CheckPosition(sp[e.detail.index], rp[e.detail.index], e.detail.index) == Some(e)
  }

  /** The positional pass from index i on; the arity check guarantees equal lengths. */
  function CheckProcesses(sp: seq<ProcessSchema>, rp: seq<RequestProcess>, i: nat): (r: Outcome<Error>)
    requires |sp| == |rp| && i <= |sp|
    decreases |sp| - i
    ensures r.Pass? <==> forall j :: i <= j < |sp| ==> ProcessMatches(sp[j], rp[j])
    ensures r.Fail? ==> ReportsFirstMismatch(sp, rp, i, r.error)
  {
    if i == |sp| then Pass
    else
      match CheckPosition(sp[i], rp[i], i)
      case Some(e) => Fail(e)
      case None => CheckProcesses(sp, rp, i + 1)
  }

  /**
   * Checks a request against the schema registered under its name: lookup,
   * then process count, then each position in order; the first failure wins.
   */
  function Verify(p: FlowParser, req: FlowRequest): (r: Outcome<Error>)
    ensures r.Pass? <==> Accepts(p.flowList, req)
    ensures r.Fail? ==> |r.error.kinds| == 1
    ensures (r.Fail? && r.error.Is(FlowNotFound)) <==> req.name !in p.flowList
    ensures r.Fail? && r.error.Is(FlowNotFound) ==> r.error.detail == UnknownFlow(req.name)
    ensures (r.Fail? && r.error.Is(InvalidRequest)) <==>
              req.name in p.flowList && |p.flowList[req.name].processDefinitions| != |req.processes|
    ensures r.Fail? && r.error.Is(InvalidRequest) ==>
              r.error.detail == ProcessCountMismatch(|p.flowList[req.name].processDefinitions|, |req.processes|)
    ensures r.Fail? && (r.error.Is(InvalidRequestProcess) || r.error.Is(InvalidRequestInputs)) ==>
              req.name in p.flowList && |p.flowList[req.name].processDefinitions| == |req.processes|
    ensures r.Fail? && req.name in p.flowList && |p.flowList[req.name].processDefinitions| == |req.processes| ==>
              ReportsFirstMismatch(p.flowList[req.name].processDefinitions, req.processes, 0, r.error)
  {
    if req.name !in p.flowList then
      Fail(Error({FlowNotFound}, UnknownFlow(req.name)))
    else
      var schema := p.flowList[req.name];
      if |schema.processDefinitions| != |req.processes| then
        Fail(Error({InvalidRequest}, ProcessCountMismatch(|schema.processDefinitions|, |req.processes|)))
      else
        CheckProcesses(schema.processDefinitions, req.processes, 0)
  }

  /**
   * If position k is the first one where the request does not match the
   * registered schema, verification reports exactly the check position k fails
   * first: InvalidRequestProcess for a name mismatch, otherwise
   * InvalidRequestInputs; mismatches at later positions are never reported.
   */
  lemma VerifyReportsFirstViolation(p: FlowParser, req: FlowRequest, k: nat)
    requires req.name in p.flowList
    requires |p.flowList[req.name].processDefinitions| == |req.processes|
    requires k < |req.processes|
    requires forall j :: 0 <= j < k ==> ProcessMatches(p.flowList[req.name].processDefinitions[j], req.processes[j])
    requires !ProcessMatches(p.flowList[req.name].processDefinitions[k], req.processes[k])
    ensures var s := p.flowList[req.name].processDefinitions[k]; var rp := req.processes[k];
            && Verify(p, req).Fail?
            && (rp.name != s.name ==>
                  Verify(p, req).error == Error({InvalidRequestProcess}, ProcessNameMismatch(k, s.name, rp.name)))
            && (rp.name == s.name ==>
                  Verify(p, req).error == Error({InvalidRequestInputs}, InputCountMismatch(k, |s.definedInputs|, |rp.definedInputs|)))
  {
  }

  /**
   * Two requests with the same flow name, the same process names and the same
   * number of inputs per process look alike to the verifier.
   */
  predicate SameShape(r1: FlowRequest, r2: FlowRequest) {
    && r1.name == r2.name
    && |r1.processes| == |r2.processes|
    && forall i :: 0 <= i < |r1.processes| ==>
         && r1.processes[i].name == r2.processes[i].name
         && |r1.processes[i].definedInputs| == |r2.processes[i].definedInputs|
  }

  /** Input names, values, types and tags never influence verification. */
  lemma VerifyShapeOnly(p: FlowParser, r1: FlowRequest, r2: FlowRequest)
    requires SameShape(r1, r2)
    ensures Verify(p, r1) == Verify(p, r2)
  {
    // The contracts of Verify and CheckProcesses determine the result from
    // the request's shape alone: the first mismatching position is unique.
  }

  /** After `Add(name, s)`, a request named `name` is checked against `s`, whatever `s.name` says. */
  lemma AddThenVerify(p: FlowParser, name: string, s: FlowSchema, req: FlowRequest)
    requires req.name == name
    ensures Verify(Add(p, name, s), req).Pass? <==> Conforms(s, req)
  {
  }

  // ---------------------------------------------------------------------------
  // Binder
  // ---------------------------------------------------------------------------

  /** A bound input is a field-for-field copy of its request input. */
  predicate Copies(ri: RequestInput, di: DefinedInput) {
    di.name == ri.name && di.value == ri.value && di.typeTag == ri.typeTag && di.meta == ri.metaType
  }

  /** A bound process mirrors its request process and runs the handler registered for its name. */
  predicate BindsTo(handlers: map<string, HandlerId>, rp: RequestProcess, proc: Process) {
    && rp.name in handlers
    && proc.handler == handlers[rp.name]
    && proc.name == rp.name
    && |proc.definedInput| == |rp.definedInputs|
    && forall j :: 0 <= j < |rp.definedInputs| ==> Copies(rp.definedInputs[j], proc.definedInput[j])
  }

  /** Every process name of the request has a handler. */
  predicate Resolvable(handlers: map<string, HandlerId>, rps: seq<RequestProcess>) {
    forall i :: 0 <= i < |rps| ==> rps[i].name in handlers
  }

  function CopyInputs(ris: seq<RequestInput>): (dis: seq<DefinedInput>)
    ensures |dis| == |ris|
    ensures forall j :: 0 <= j < |ris| ==> Copies(ris[j], dis[j])
  {
    seq(|ris|, j requires 0 <= j < |ris| =>
      DefinedInput(ris[j].name, ris[j].value, ris[j].typeTag, ris[j].metaType))
  }

  /** `e` names the first request process at or after i that has no handler. */
  predicate ReportsFirstMissingHandler(handlers: map<string, HandlerId>, rps: seq<RequestProcess>, i: nat, e: Error) {
    && e.detail.MissingHandler?
    && i <= e.detail.index < |rps|
    && (forall j :: i <= j < e.detail.index ==> rps[j].name in handlers)
    && rps[e.detail.index].name !in handlers
    && e.detail.process == rps[e.detail.index].name
  }

  /** Binds the request processes from index i on, stopping at the first missing handler. */
  function BindProcesses(handlers: map<string, HandlerId>, rps: seq<RequestProcess>, i: nat)
    : (r: Result<seq<Process>, Error>)
    requires i <= |rps|
    decreases |rps| - i
    ensures r.Success? <==> forall j :: i <= j < |rps| ==> rps[j].name in handlers
    ensures r.Success? ==>
              && |r.value| == |rps| - i
              && forall j :: 0 <= j < |r.value| ==> BindsTo(handlers, rps[i + j], r.value[j])
    ensures r.Failure? ==> r.error.kinds == {HandlerNotFound}
    ensures r.Failure? ==> ReportsFirstMissingHandler(handlers, rps, i, r.error)
  {
    if i == |rps| then Success([])
    else if rps[i].name !in handlers then
      Failure(Error({HandlerNotFound}, MissingHandler(i, rps[i].name)))
    else
      match BindProcesses(handlers, rps, i + 1)
      case Failure(e) => Failure(e)
      case Success(rest) =>
        Success([Process(handlers[rps[i].name], rps[i].name, CopyInputs(rps[i].definedInputs))] + rest)
  }

  /**
   * Turns a request into a flow with the request's name and one bound process
   * per request process, in request order; no partial flow on failure.
   */
  function Bind(p: FlowParser, req: FlowRequest): (r: Result<Flow, Error>)
    ensures r.Success? <==> Resolvable(p.handlers, req.processes)
    ensures r.Success? ==>
              && r.value.name == req.name
              && |r.value.processes| == |req.processes|
              && forall j :: 0 <= j < |req.processes| ==> BindsTo(p.handlers, req.processes[j], r.value.processes[j])
    ensures r.Failure? ==> r.error.kinds == {HandlerNotFound}
    ensures r.Failure? ==> ReportsFirstMissingHandler(p.handlers, req.processes, 0, r.error)
  {
    match BindProcesses(p.handlers, req.processes, 0)
    case Failure(e) => Failure(e)
    case Success(procs) => Success(Flow(req.name, procs))
  }

  /** The request a flow was bound from, read back off the flow. */
  function Unbind(f: Flow): FlowRequest {
    FlowRequest(f.name, seq(|f.processes|, i requires 0 <= i < |f.processes| =>
      RequestProcess(f.processes[i].name, UnbindInputs(f.processes[i].definedInput))))
  }

  function UnbindInputs(dis: seq<DefinedInput>): seq<RequestInput> {
    seq(|dis|, j requires 0 <= j < |dis| =>
      RequestInput(dis[j].name, dis[j].value, dis[j].typeTag, dis[j].meta))
  }

  /** Binding loses nothing: the request can be read back off the flow. */
  lemma BindRoundTrip(p: FlowParser, req: FlowRequest)
    requires Bind(p, req).Success?
    ensures Unbind(Bind(p, req).value) == req
  {
    var f := Bind(p, req).value;
    forall i | 0 <= i < |req.processes|
      ensures Unbind(f).processes[i] == req.processes[i]
    {
      assert UnbindInputs(f.processes[i].definedInput) == req.processes[i].definedInputs;
    }
  }

  // ---------------------------------------------------------------------------
  // Parse
  // ---------------------------------------------------------------------------

  /**
   * Verifies, then binds; a verification error is tagged as a parser and a
   * schema-verification failure, a binding error as a parser failure only.
   */
  function Parse(p: FlowParser, req: FlowRequest): (r: Result<Flow, Error>)
    ensures r.Success? <==> Accepts(p.flowList, req) && Resolvable(p.handlers, req.processes)
    ensures r.Failure? ==> r.error.Is(ParserFailure)
    ensures r.Failure? ==> (r.error.Is(SchemaVerificationFailure) <==> !Accepts(p.flowList, req))
    ensures r.Failure? ==> (r.error.Is(HandlerNotFound) <==> Accepts(p.flowList, req))
    ensures !Accepts(p.flowList, req) ==>
              && Verify(p, req).Fail?
              && r == Failure(Join({ParserFailure, SchemaVerificationFailure}, Verify(p, req).error))
    ensures Accepts(p.flowList, req) && r.Failure? ==>
              && r.error.kinds == {ParserFailure, HandlerNotFound}
              && ReportsFirstMissingHandler(p.handlers, req.processes, 0, r.error)
    ensures r.Success? ==>
              && r.value.name == req.name
              && |r.value.processes| == |req.processes|
              && forall j :: 0 <= j < |req.processes| ==> BindsTo(p.handlers, req.processes[j], r.value.processes[j])
  {
    match Verify(p, req)
    case Fail(e) => Failure(Join({ParserFailure, SchemaVerificationFailure}, e))
    case Pass =>
      match Bind(p, req)
      case Failure(e) => Failure(Join({ParserFailure}, e))
      case Success(f) => Success(f)
  }

  /** Handlers are consulted only once verification has passed. */
  lemma ParseIgnoresHandlersUntilVerified(p1: FlowParser, p2: FlowParser, req: FlowRequest)
    requires p1.flowList == p2.flowList
    requires !Accepts(p1.flowList, req)
    ensures Parse(p1, req) == Parse(p2, req)
  {
  }
}
