/**
 * The bound, executable flow and its sequential run loop.
 *
 * Handlers are abstract: a process refers to its handler by an opaque
 * identity, and what a handler does is given by a `Semantics` function that
 * maps the handler, the shared context and the process's inputs to the
 * context the handler leaves behind and the error it returned, if any.
 */
module Execution {
  import opened Wrappers
  import opened ErrorKinds

  /** The identity of a registered handler (a function value in Go). */
  datatype HandlerId = HandlerId(id: nat)

  /** The dynamically typed values handlers exchange through the context. */
  datatype Value = Text(text: string) | Record(fields: map<string, string>)

  /** The key/value store shared by all the handlers of one run. */
  type Context = map<string, Value>

  /** One bound input; the value keeps the string form it arrived in. */
  datatype DefinedInput = DefinedInput(name: string, value: string, typeTag: string, meta: string)

  datatype Process = Process(handler: HandlerId, name: string, definedInput: seq<DefinedInput>)

  datatype Flow = Flow(name: string, processes: seq<Process>)

  /** What one handler invocation leaves: the context as it mutated it, and its error. */
  datatype StepResult = StepResult(ctx: Context, failure: Option<Cause>)

  type Semantics = (HandlerId, Context, seq<DefinedInput>) -> StepResult

  /**
   * The outcome of a run: the final context, the indices of the handlers
   * invoked, in invocation order, and the error returned to the caller.
   */
  datatype RunResult = RunResult(ctx: Context, trace: seq<nat>, err: Option<Error>)

  /** The context after handlers 0 .. n-1 have run one after the other. */
  function CtxAfter(procs: seq<Process>, sem: Semantics, ctx0: Context, n: nat): Context
    requires n <= |procs|
  {
    if n == 0 then ctx0
    else sem(procs[n - 1].handler, CtxAfter(procs, sem, ctx0, n - 1), procs[n - 1].definedInput).ctx
  }

  /** Handler j invoked on the context its predecessors built and on its own inputs. */
  function StepAt(procs: seq<Process>, sem: Semantics, ctx0: Context, j: nat): StepResult
    requires j < |procs|
  {
    sem(procs[j].handler, CtxAfter(procs, sem, ctx0, j), procs[j].definedInput)
  }

  /**
   * The error a run returns when handler k fails with `cause`: ProcessFailure
   * joined with the handler's own error, so every kind that error matches is
   * matched by the run's error too.
   */
  function FailureAt(procs: seq<Process>, k: nat, cause: Cause): Error
    requires k < |procs|
  {
    Error({ProcessFailure} + cause.kinds, HandlerFailed(k, procs[k].name, cause))
  }

  /** The run loop from index i on, with ctx the context built so far. */
  function RunFrom(procs: seq<Process>, sem: Semantics, ctx: Context, i: nat): (r: RunResult)
    requires i <= |procs|
    decreases |procs| - i
    ensures i + |r.trace| <= |procs|
    ensures forall j :: 0 <= j < |r.trace| ==> r.trace[j] == i + j
    ensures r.err.None? ==> i + |r.trace| == |procs|
    ensures r.err.Some? ==>
              && |r.trace| > 0
              && r.err.value.detail.HandlerFailed?
              && r.err.value == FailureAt(procs, i + |r.trace| - 1, r.err.value.detail.cause)
  {
    if i == |procs| then RunResult(ctx, [], None)
    else
      var step := sem(procs[i].handler, ctx, procs[i].definedInput);
      if step.failure.Some? then
        RunResult(step.ctx, [i], Some(FailureAt(procs, i, step.failure.value)))
      else
        var rest := RunFrom(procs, sem, step.ctx, i + 1);
        RunResult(rest.ctx, [i] + rest.trace, rest.err)
  }

  /**
   * Runs the flow's handlers in index order, threading one context through
   * them, and stops at the first failing handler.
   */
  function Run(f: Flow, sem: Semantics, ctx: Context): (r: RunResult)
    ensures |r.trace| <= |f.processes|
    ensures forall j :: 0 <= j < |r.trace| ==> r.trace[j] == j
    ensures r.err.None? ==> |r.trace| == |f.processes|
    ensures r.err.Some? ==>
              && |r.trace| > 0
              && r.err.value.detail.HandlerFailed?
              && r.err.value == FailureAt(f.processes, |r.trace| - 1, r.err.value.detail.cause)
  {
    RunFrom(f.processes, sem, ctx, 0)
  }

  /** The context a run returns is the one left by the last handler it invoked. */
  lemma {:induction false} RunFromContext(procs: seq<Process>, sem: Semantics, ctx0: Context, i: nat)
    requires i <= |procs|
    decreases |procs| - i
    ensures var r := RunFrom(procs, sem, CtxAfter(procs, sem, ctx0, i), i);
            r.ctx == CtxAfter(procs, sem, ctx0, i + |r.trace|)
  {
    if i < |procs| {
      var step := StepAt(procs, sem, ctx0, i);
      assert CtxAfter(procs, sem, ctx0, i + 1) == step.ctx;
      if step.failure.None? {
        RunFromContext(procs, sem, ctx0, i + 1);
      }
    }
  }

  /**
   * Every handler the run invoked before the last one succeeded; the last one
   * failed exactly when the run reports an error, and that error is its own.
   */
  lemma {:induction false} RunFromOutcome(procs: seq<Process>, sem: Semantics, ctx0: Context, i: nat)
    requires i <= |procs|
    decreases |procs| - i
    ensures var r := RunFrom(procs, sem, CtxAfter(procs, sem, ctx0, i), i);
            && (forall j :: i <= j < i + |r.trace| - 1 ==> StepAt(procs, sem, ctx0, j).failure.None?)
            && (r.err.None? ==> forall j :: i <= j < |procs| ==> StepAt(procs, sem, ctx0, j).failure.None?)
            && (r.err.Some? ==>
                  var k := i + |r.trace| - 1;
                  && StepAt(procs, sem, ctx0, k).failure.Some?
                  && r.err.value.detail.cause == StepAt(procs, sem, ctx0, k).failure.value)
  {
    if i < |procs| {
      var step := StepAt(procs, sem, ctx0, i);
      assert CtxAfter(procs, sem, ctx0, i + 1) == step.ctx;
      if step.failure.None? {
        RunFromOutcome(procs, sem, ctx0, i + 1);
      }
    }
  }

  /**
   * A run is the sequential replay of its handlers: it succeeds exactly when
   * every handler succeeds on the context its predecessors built, and
   * otherwise stops at the first failing handler k, keeping the context that
   * handler left (no rollback) and wrapping that handler's error.
   */
  lemma RunReplays(f: Flow, sem: Semantics, ctx: Context)
    ensures var r := Run(f, sem, ctx); var procs := f.processes;
            && (r.err.None? <==> forall j :: 0 <= j < |procs| ==> StepAt(procs, sem, ctx, j).failure.None?)
            && (r.err.None? ==> r.ctx == CtxAfter(procs, sem, ctx, |procs|))
            && (r.err.Some? ==>
                  var k := |r.trace| - 1;
                  && (forall j :: 0 <= j < k ==> StepAt(procs, sem, ctx, j).failure.None?)
                  && StepAt(procs, sem, ctx, k).failure.Some?
                  && r.ctx == CtxAfter(procs, sem, ctx, k + 1)
                  && r.err.value == FailureAt(procs, k, StepAt(procs, sem, ctx, k).failure.value))
  {
    RunFromContext(f.processes, sem, ctx, 0);
    RunFromOutcome(f.processes, sem, ctx, 0);
  }
}
