/**
 A deployment says which clients may emit, flush and shut down, and whether the timer runs; its runs
 are all interleavings of such steps.
 */
module Deployments {
  import opened OtlpBatcher

  datatype Deployment = Deployment(clients: nat, batchSize: int,
                                   emitters: set<nat>, flushers: set<nat>, closers: set<nat>, timer: bool)

  predicate Deployed(d: Deployment) {
    forall c :: c in d.emitters + d.flushers + d.closers ==> c < d.clients
  }

  predicate Allowed(d: Deployment, step: Step) {
    match step
    case EmitRecord(c, _) => c in d.emitters
    case FlushTake(c) => c in d.flushers
    case Cancel(c) => c in d.closers
    case TimerFire => d.timer
    case _ => true
  }

  predicate AllAllowed(d: Deployment, steps: seq<Step>) {
    forall i :: 0 <= i < |steps| ==> Allowed(d, steps[i])
  }
}
