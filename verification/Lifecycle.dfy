/** The rig state machine's vocabulary: which states cost money and which
    normally have a resource behind them. */
module Lifecycle {

  datatype State =
    | Idle | Searching | Selected | Creating | Provisioned | Bootstrapping
    | Ready | Degraded | Stopped | Draining | Destroyed | Failed | Orphaned

  /** A state costs money unless it is known not to: everything but the states
      before a create and the one proven absent. */
  predicate Billable(s: State) {
    !(s.Idle? || s.Searching? || s.Selected? || s.Destroyed?)
  }

  /** A live resource is the normal situation, not a contradiction. */
  predicate ExpectsInstance(s: State) {
    s.Creating? || s.Provisioned? || s.Bootstrapping? || s.Ready? || s.Degraded? || s.Draining? || s.Stopped?
  }
}
