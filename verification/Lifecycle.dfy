/** The request state machine of the domain layer. */
module Lifecycle {

  datatype Status = Pending | Approved | Committed | Rejected | Cancelled | Failed

  function ValidTransitions(from: Status): set<Status> {
    match from
    case Pending => {Approved, Rejected, Cancelled}
    case Approved => {Committed, Failed}
    case Committed => {}
    case Rejected => {}
    case Cancelled => {}
    case Failed => {}
  }

  predicate CanTransition(from: Status, to: Status) {
    to in ValidTransitions(from)
  }

  /** A request counts toward the reserved days of its balance while this holds. */
  predicate HoldsReservation(status: Status) {
    status == Pending || status == Approved
  }

  /** A status is left by no transition exactly when it holds no reservation. */
  predicate IsTerminal(status: Status): (terminal: bool)
    ensures terminal <==> !HoldsReservation(status)
  {
    ValidTransitions(status) == {}
  }
}
