/** The sleep and wake protocol of a completion thread, the same in both drivers. */
module Sleep {

  /** Where the thread is whenever the driver lock is free: asleep without a timer, asleep until a time, or awake and
      waiting for the lock after one of these sleeps was woken, interrupted, or ran out. */
  datatype Thread =
    | Idle
    | IdleWoken
    | Timed(until: int)
    | Interrupted(until: int)
    | Fired(until: int)
  {
    /** wake_up_process: only a sleeping thread notices. */
    function Wake(): Thread {
      match this
      case Idle => IdleWoken
      case Timed(u) => Interrupted(u)
      case _ => this
    }

    /** A timer that has run out. A timed sleep that was interrupted may still find its timer fired when it returns. */
    predicate CanFire(clock: int) {
      match this
      case Timed(u) => u <= clock
      case Interrupted(u) => u <= clock
      case _ => false
    }
  }

  /** The sleep the thread enters when it comes back to the top of its loop. */
  function Rest(pending: bool, deadline: int): Thread {
    if pending then Timed(deadline) else Idle
  }

  /** No wake-up is lost: untimed sleep only while nothing is pending, timed sleep only until the current deadline. */
  predicate Attentive(t: Thread, pending: bool, deadline: int, clock: int) {
    match t
    case Idle => !pending
    case IdleWoken => pending
    case Timed(u) => pending && u == deadline
    case Interrupted(u) => pending && deadline <= u
    case Fired(u) => pending && deadline <= u <= clock
  }

  /** Lowering the deadline, or setting the first one, keeps the thread attentive if and only if the thread is woken
      whenever it sleeps and the deadline really changed. */
  lemma WakeKeepsAttention(t: Thread, pending: bool, deadline: int, earlier: int, clock: int, later: int, wake: bool)
    requires Attentive(t, pending, deadline, clock) && clock <= later
    requires pending ==> earlier <= deadline
    ensures Attentive(if wake then t.Wake() else t, true, earlier, later) <==>
            (wake || (pending && (earlier == deadline || !t.Timed?)))
  {
  }
}
