/**
 * The `useUserActivity` hook: a flag that is true while the user is active and
 * turns false after two seconds without mouse, scroll, key or touch activity.
 * Its state is the flag, the single timer `timeoutRef` holds and the set of
 * window events it listens to.
 */
module UserActivity {
  import opened Timers

  /** Inactivity after which the user counts as idle (ms). */
  const ActivityTimeout: int := 2000

  /** The window events that count as activity. */
  const ActivityEvents: seq<string> := ["mousemove", "mousedown", "scroll", "keydown", "touchstart"]

  datatype Monitor = Monitor(active: bool, timer: Slot<()>, listening: set<string>)

  /** `useState(true)` before the effect has run: active, no timer, no listeners. */
  const Initial: Monitor := Monitor(true, Idle, {})

  datatype Event =
    | Mount(at: int)                   // the effect runs, once, after the first render
    | Activity(name: string, at: int)  // a window event of that name fires
    | Tick(at: int)                    // the clock reaches `at`
    | Cleanup

  /** `resetTimer`: active again, and the held timer replaced by a fresh one. */
  function Reset(m: Monitor, at: int): (r: Monitor)
    ensures r.active && r.listening == m.listening
    ensures r.timer.Armed? && !r.timer.Due(at + ActivityTimeout - 1) && r.timer.Due(at + ActivityTimeout)
  {
    m.(active := true, timer := Rearm((), at, ActivityTimeout))
  }

  /** The effect: reset once, then listen to the five activity events. */
  function OnMount(m: Monitor, at: int): (r: Monitor)
    ensures r.active && r.timer == Armed((), at + ActivityTimeout)
    ensures r.listening == {"mousemove", "mousedown", "scroll", "keydown", "touchstart"}
  {
    Reset(m, at).(listening := set name | name in ActivityEvents)
  }

  /** A window event resets the timer exactly when the hook listens to it. */
  function OnActivity(m: Monitor, name: string, at: int): (r: Monitor)
    ensures name in m.listening ==> r == Reset(m, at)
    ensures name !in m.listening ==> r == m
  {
    if name in m.listening then Reset(m, at) else m
  }

  /** A due timer makes the user idle; the slot is then spent. */
  function OnTick(m: Monitor, at: int): (r: Monitor)
    ensures m.timer.Due(at) ==> !r.active && r.timer.Idle? && r.listening == m.listening
    ensures !m.timer.Due(at) ==> r == m
  {
    if m.timer.Due(at) then m.(active := false, timer := Idle) else m
  }

  /** The effect's cleanup: clear the timer, remove every listener. The flag keeps its value. */
  function OnCleanup(m: Monitor): (r: Monitor)
    ensures r.timer.Idle? && r.listening == {} && r.active == m.active
  {
    m.(timer := Idle, listening := {})
  }

  function Step(m: Monitor, ev: Event): Monitor {
    match ev
    case Mount(at) => OnMount(m, at)
    case Activity(name, at) => OnActivity(m, name, at)
    case Tick(at) => OnTick(m, at)
    case Cleanup => OnCleanup(m)
  }

  /** The state after a sequence of events, applied oldest first. */
  function Run(m: Monitor, evs: seq<Event>): Monitor
    decreases |evs|
  {
    if |evs| == 0 then m else Step(Run(m, evs[..|evs| - 1]), evs[|evs| - 1])
  }

  /** The events that reset the timer are exactly the five activity events, once mounted. */
  lemma ResetsExactlyOnActivityEvents(m: Monitor, at: int, name: string, t: int)
    requires t != at
    ensures var mounted := OnMount(m, at);
            OnActivity(mounted, name, t) == Reset(mounted, t)
            <==> name in {"mousemove", "mousedown", "scroll", "keydown", "touchstart"}
  {
    var mounted := OnMount(m, at);
    if name !in mounted.listening {
      assert Reset(mounted, t).timer != mounted.timer;
    }
  }

  /** A trace of the mounted hook: activity and clock only, no second mount, no cleanup. */
  predicate Live(evs: seq<Event>) {
    forall k :: 0 <= k < |evs| ==> evs[k].Activity? || evs[k].Tick?
  }

  predicate Resets(ev: Event) {
    ev.Activity? && ev.name in ActivityEvents
  }

  /** When the timer was last reset: the last activity event, or the mount at `t0`. */
  function LastReset(t0: int, evs: seq<Event>): int
    decreases |evs|
  {
    if |evs| == 0 then t0
    else if Resets(evs[|evs| - 1]) then evs[|evs| - 1].at
    else LastReset(t0, evs[..|evs| - 1])
  }

  /** Where the events after the last reset begin. */
  function SinceReset(evs: seq<Event>): (i: nat)
    ensures i <= |evs|
    decreases |evs|
  {
    if |evs| == 0 then 0
    else if Resets(evs[|evs| - 1]) then |evs|
    else SinceReset(evs[..|evs| - 1])
  }

  /** Some clock reading after the last reset is a full timeout past it. */
  predicate TimedOut(t0: int, evs: seq<Event>) {
    exists k :: SinceReset(evs) <= k < |evs| && evs[k].Tick? && evs[k].at >= LastReset(t0, evs) + ActivityTimeout
  }

  /**
   * The hook's flag, for any trace after the mount at `t0`: the user is idle
   * exactly when the clock has passed ActivityTimeout after the last reset with
   * no activity event since; while active, one timer is pending, due
   * ActivityTimeout after that reset.
   */
  lemma {:induction false} IdleIffTimedOut(m: Monitor, t0: int, evs: seq<Event>)
    requires Live(evs)
    ensures var r := Run(OnMount(m, t0), evs);
            && (r.active <==> !TimedOut(t0, evs))
            && r.timer == (if TimedOut(t0, evs) then Idle else Armed((), LastReset(t0, evs) + ActivityTimeout))
            && r.listening == OnMount(m, t0).listening
    decreases |evs|
  {
    var n := |evs|;
    if n > 0 {
      var init := evs[..n - 1];
      var ev := evs[n - 1];
      assert Live(init) by {
        forall k | 0 <= k < |init| ensures init[k].Activity? || init[k].Tick? {
          assert init[k] == evs[k];
        }
      }
      IdleIffTimedOut(m, t0, init);
      var before := Run(OnMount(m, t0), init);
      assert forall name :: name in before.listening <==> name in ActivityEvents;
      if Resets(ev) {
        assert !TimedOut(t0, evs);
      } else {
        assert SinceReset(evs) == SinceReset(init) && LastReset(t0, evs) == LastReset(t0, init);
        assert forall k :: 0 <= k < |init| ==> evs[k] == init[k];
        if ev.Tick? {
          if ev.at >= LastReset(t0, init) + ActivityTimeout {
            assert TimedOut(t0, evs) by {
              assert SinceReset(evs) <= n - 1;
            }
          }
        }
        if TimedOut(t0, evs) && !TimedOut(t0, init) {
          var k :| SinceReset(evs) <= k < |evs| && evs[k].Tick? && evs[k].at >= LastReset(t0, evs) + ActivityTimeout;
          assert k == n - 1;
        }
      }
    }
  }

  /** After the cleanup, no activity and no clock reading changes anything. */
  lemma {:induction false} FrozenAfterCleanup(m: Monitor, evs: seq<Event>)
    requires Live(evs)
    ensures Run(OnCleanup(m), evs) == OnCleanup(m)
    decreases |evs|
  {
    if |evs| > 0 {
      var init := evs[..|evs| - 1];
      assert Live(init) by {
        forall k | 0 <= k < |init| ensures init[k].Activity? || init[k].Tick? {
          assert init[k] == evs[k];
        }
      }
      FrozenAfterCleanup(m, init);
    }
  }

  /** The hook with its state and ref as fields. */
  class UserActivityHook {
    var isUserActive: bool
    var timeout: Slot<()>
    var listeners: set<string>

    function State(): Monitor reads this {
      Monitor(isUserActive, timeout, listeners)
    }

    constructor ()
      ensures State() == Initial
    {
      isUserActive := true;
      timeout := Idle;
      listeners := {};
    }

    method ResetTimer(now: int)
      modifies this
      ensures State() == Reset(old(State()), now)
    {
      isUserActive := true;
      timeout := Armed((), now + ActivityTimeout);
    }

    method Mount(now: int)
      requires listeners == {}
      modifies this
      ensures State() == Step(old(State()), Event.Mount(now))
    {
      ResetTimer(now);
      var i := 0;
      while i < |ActivityEvents|
        invariant 0 <= i <= |ActivityEvents|
        invariant isUserActive && timeout == Armed((), now + ActivityTimeout)
        invariant listeners == old(listeners) + set k | 0 <= k < i :: ActivityEvents[k]
      {
        listeners := listeners + {ActivityEvents[i]};
        i := i + 1;
      }
      assert listeners == set name | name in ActivityEvents;
    }

    method OnWindowEvent(name: string, now: int)
      modifies this
      ensures State() == Step(old(State()), Activity(name, now))
    {
      if name in listeners {
        ResetTimer(now);
      }
    }

    method TimerFires(now: int)
      modifies this
      ensures State() == Step(old(State()), Tick(now))
    {
      if timeout.Due(now) {
        isUserActive := false;
        timeout := Idle;
      }
    }

    method Cleanup()
      modifies this
      ensures State() == Step(old(State()), Event.Cleanup)
    {
      timeout := Idle;
      listeners := {};
    }
  }
}
