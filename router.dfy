/** Action selection shared, line for line, by the production handler and
    its test twin: the action defaults to "generate"; "status" and
    "get_output" are the two queries; anything else is refused. */
module Router {
  import opened Values

  datatype Action = Generate | Status | FetchOutput | Unknown(action: Value)

  /** `job_input.get("action", "generate")`, classified. */
  function ActionOf(input: Dict): (a: Action)
    ensures a == Generate <==> "action" !in input || input["action"] == Str("generate")
    ensures a == Status <==> "action" in input && input["action"] == Str("status")
    ensures a == FetchOutput <==> "action" in input && input["action"] == Str("get_output")
    ensures a.Unknown? ==> "action" in input && a.action == input["action"]
  {
    var action := GetOr(input, "action", Str("generate"));
    if action == Str("generate") then Generate
    else if action == Str("status") then Status
    else if action == Str("get_output") then FetchOutput
    else Unknown(action)
  }

  /** A reply carrying only an error message. */
  function ErrorReply(message: string): Dict {
    map["error" := Str(message)]
  }

  /** The reply to an action no branch handles. */
  function UnknownActionReply(action: Value): Dict {
    ErrorReply("Unknown action: " + Render(action))
  }
}
