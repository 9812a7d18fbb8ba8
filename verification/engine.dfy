/**
 * The workflow engine as the backend sees it (functions/agent-backend/DeploymentQueue.js,
 * functions/agent-backend/App.js): `getExecution` reports an execution's state and end time.
 */
module Engine {
  /**
   * `execution.state`.  `Unlisted` stands for any other name the engine may report: its name is
   * none of the five listed ones (`Listed` states this, and `StateNamed` only builds such values).
   */
  datatype ExecutionState =
    | StateUnspecified
    | Active
    | Succeeded
    | Failed
    | Cancelled
    | Unlisted(name: string)

  /** The fields of an execution the backend reads. */
  datatype Execution = Execution(state: ExecutionState, endTime: int)

  /** `State.Execution`: the five names the backend compares `execution.state` with. */
  const ListedNames: set<string> := {"STATE_UNSPECIFIED", "ACTIVE", "SUCCEEDED", "FAILED", "CANCELLED"}

  /** An `Unlisted` state never carries one of the five listed names. */
  predicate Listed(s: ExecutionState)
  {
    s.Unlisted? ==> s.name !in ListedNames
  }

  /** The string the engine reports for a state. */
  function NameOf(s: ExecutionState): string
  {
    match s
    case StateUnspecified => "STATE_UNSPECIFIED"
    case Active => "ACTIVE"
    case Succeeded => "SUCCEEDED"
    case Failed => "FAILED"
    case Cancelled => "CANCELLED"
    case Unlisted(name) => name
  }

  /**
   * The state the backend's string comparisons see in a reported name: a listed name is its
   * state, and only a name outside the list becomes `Unlisted`.
   */
  function StateNamed(name: string): (s: ExecutionState)
    ensures Listed(s)
    ensures s.Unlisted? <==> name !in ListedNames
    ensures NameOf(s) == name
  {
    if name == "STATE_UNSPECIFIED" then StateUnspecified
    else if name == "ACTIVE" then Active
    else if name == "SUCCEEDED" then Succeeded
    else if name == "FAILED" then Failed
    else if name == "CANCELLED" then Cancelled
    else Unlisted(name)
  }

  /** Reading back the name of a state gives the state, for every state `Listed` admits. */
  lemma StateNamedRoundTrip(s: ExecutionState)
    requires Listed(s)
    ensures StateNamed(NameOf(s)) == s
  {
  }
}
