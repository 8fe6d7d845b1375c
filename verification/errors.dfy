/**
 * The error sentinels of the library and the structured errors built from them.
 *
 * Go layers sentinels with `errors.Join` and queries them with `errors.Is`;
 * here an error is the set of sentinel kinds it carries plus the structured
 * detail that the Go code formats into a message.
 */
module ErrorKinds {

  /** One value per sentinel declared in errors.go. */
  datatype ErrKind =
    | ProcessFailure
    | ParserFailure
    | SchemaVerificationFailure
    | HandlerNotFound
    | FlowNotFound
    | InvalidRequest
    | InvalidRequestProcess
    | InvalidRequestInputs

  /**
   * The error a handler returned: the sentinel kinds it matches under
   * `errors.Is` (a handler may return an error that wraps sentinels) and
   * its message.
   */
  datatype Cause = Cause(kinds: set<ErrKind>, message: string)

  /** The contextual information attached to each error. */
  datatype Detail =
    | UnknownFlow(flow: string)
    | ProcessCountMismatch(schemaCount: nat, requestCount: nat)
    | ProcessNameMismatch(index: nat, schemaName: string, requestName: string)
    | InputCountMismatch(index: nat, schemaCount: nat, requestCount: nat)
    | MissingHandler(index: nat, process: string)
    | HandlerFailed(index: nat, process: string, cause: Cause)

  datatype Error = Error(kinds: set<ErrKind>, detail: Detail) {
    /** The counterpart of `errors.Is(err, sentinel)`. */
    predicate Is(k: ErrKind) {
      k in kinds
    }
  }

  /** Layers more sentinels over an error, as `errors.Join(sentinels..., err)` does. */
  function Join(sentinels: set<ErrKind>, e: Error): Error {
    Error(sentinels + e.kinds, e.detail)
  }
}
