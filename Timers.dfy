/**
 * The single-slot timer shared by the two editors' debounced autosave and by
 * the idle detector: a React ref that holds at most one `setTimeout` handle,
 * cleared and reassigned as a whole. The slot type itself is what makes "at
 * most one pending timer" hold: there is no room for a second one.
 */
module Timers {

  /** Either no timer, or one timer that will run with `payload` once the clock reaches `deadline`. */
  datatype Slot<T> = Idle | Armed(payload: T, deadline: int)
  {
    /** A timer callback runs at or after its deadline, never before. */
    predicate Due(now: int) {
      Armed? && deadline <= now
    }
  }

  /** `clearTimeout` on the held handle (if any) followed by `setTimeout(…, delay)` at time `now`. */
  function Rearm<T>(payload: T, now: int, delay: int): (s: Slot<T>)
    requires delay > 0
    ensures s.Armed? && s.payload == payload
    ensures !s.Due(now) && !s.Due(now + delay - 1) && s.Due(now + delay)
  {
    Armed(payload, now + delay)
  }
}
