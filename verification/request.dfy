/**
 * The already-decoded request a caller submits: it claims to instantiate a
 * registered flow schema. Every field arrives as a string.
 */
module Requests {

  datatype RequestInput = RequestInput(name: string, value: string, typeTag: string, metaType: string)

  datatype RequestProcess = RequestProcess(name: string, definedInputs: seq<RequestInput>)

  datatype FlowRequest = FlowRequest(name: string, processes: seq<RequestProcess>)
}
