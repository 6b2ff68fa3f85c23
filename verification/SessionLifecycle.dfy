/** The lifecycle graph of a charging session (domain/charging-session-state-machine.ts). */
module SessionLifecycle {

  datatype Status =
    | PENDING | AUTHORIZED | STARTING | CHARGING | STOPPING | COMPLETED | FAILED | CANCELLED

  function Targets(status: Status): seq<Status> {
    match status
    case PENDING => [AUTHORIZED, FAILED, CANCELLED]
    case AUTHORIZED => [STARTING, FAILED, CANCELLED]
    case STARTING => [CHARGING, FAILED, CANCELLED]
    case CHARGING => [STOPPING, FAILED]
    case STOPPING => [COMPLETED, FAILED]
    case COMPLETED => []
    case FAILED => []
    case CANCELLED => []
  }

  predicate Edge(from: Status, to: Status) {
    to in Targets(from)
  }

  predicate Terminal(status: Status) {
    Targets(status) == []
  }

  predicate Active(status: Status) {
    !Terminal(status)
  }

  function Rank(status: Status): nat {
    match status
    case PENDING => 0
    case AUTHORIZED => 1
    case STARTING => 2
    case CHARGING => 3
    case STOPPING => 4
    case COMPLETED => 5
    case FAILED => 5
    case CANCELLED => 5
  }

  /** The way of a session that is charged to the end. */
  const PATH: seq<Status> := [PENDING, AUTHORIZED, STARTING, CHARGING, STOPPING, COMPLETED]

  /**
    The graph leads along the way to COMPLETED one status at a time; a session may fail from every
    status before that, and be cancelled until it charges. The last three statuses lead nowhere.
   */
  lemma EdgesFollowThePath(from: Status, to: Status)
    ensures Edge(from, to)
      <==> exists i :: 0 <= i < 5 && from == PATH[i] && (to == PATH[i + 1] || to == FAILED || (to == CANCELLED && i < 3))
    ensures Terminal(from) <==> from == COMPLETED || from == FAILED || from == CANCELLED
  {
    assert PATH[0] == PENDING && PATH[1] == AUTHORIZED && PATH[2] == STARTING;
    assert PATH[3] == CHARGING && PATH[4] == STOPPING && PATH[5] == COMPLETED;
  }

  /** Every edge of the graph climbs, so no status is ever entered twice. */
  lemma EdgesClimb(from: Status, to: Status)
    requires Edge(from, to)
    ensures Rank(from) < Rank(to)
  {
  }
}
