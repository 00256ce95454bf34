/** Wakers: the waiters' list, the pump's parked waker and its kick flag
    (endpoint/src/endpoint_impl.rs). */
module Wakeups {
  import opened Types

  type TaskId = nat

  /** The waker fields of `State`, and the scheduler's view of fired wakers:
      the tasks, and whether the pump, that will be resumed. */
  datatype Wake = Wake(
    waiters: seq<TaskId>,
    pumpWaker: bool,
    pumpKicked: bool,
    ready: set<TaskId>,
    pumpReady: bool)

  function NoWakers(): Wake { Wake([], false, false, {}, false) }

  function Tasks(waiters: seq<TaskId>): set<TaskId> { set t | t in waiters }

  function WakeWaiters(w: Wake): Wake {
    w.(waiters := [], ready := w.ready + Tasks(w.waiters))
  }

  function KickPump(w: Wake): Wake {
    w.(pumpKicked := true, pumpWaker := false, pumpReady := w.pumpReady || w.pumpWaker)
  }

  /** `wait_until` polled with its condition unmet. */
  function ParkWaiter(w: Wake, t: TaskId): Wake {
    w.(waiters := w.waiters + [t], ready := w.ready - {t})
  }

  /** `wait_until` resolved, or its future dropped; a waker left behind is harmless. */
  function ForgetWaiter(w: Wake, t: TaskId): Wake { w.(ready := w.ready - {t}) }

  /** `kicked` polled: consume a pending kick, or park the pump's waker. */
  function PollKicked(w: Wake): (Wake, bool) {
    if w.pumpKicked then (w.(pumpKicked := false), true) else (w.(pumpWaker := true), false)
  }

  /** Every parked waiter is registered to be woken, or already will be resumed. */
  ghost predicate NoneForgotten(w: Wake, waiting: set<TaskId>) {
    forall t :: t in waiting ==> t in w.ready || t in w.waiters
  }

  /** A wake resumes every waiter parked before it. */
  lemma WakeResumesAll(w: Wake, waiting: set<TaskId>)
    requires NoneForgotten(w, waiting)
    ensures waiting <= WakeWaiters(w).ready && NoneForgotten(WakeWaiters(w), waiting)
  {
  }
}
