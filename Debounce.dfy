/**
 * Trailing-edge debounced autosave, as both editors implement it around their
 * `debounceTimeoutRef`: every change clears the held timer and arms a new one
 * that, 1000 ms later, hands the changed text to `onContentChange`.
 *
 * `Saver` is the abstract state: the timer slot and the list of texts handed
 * to `onContentChange` so far. Events carry the clock reading at which they
 * happen; a `Tick` is the clock reaching a time, at which a due timer runs.
 */
module Debounce {
  import opened Timers
  import opened Wrappers

  /** Quiet period before a scheduled save runs (the `1000` passed to `setTimeout`). */
  const SaveDelay: int := 1000

  datatype Saver = Saver(slot: Slot<string>, saved: seq<string>)

  /** A component that has just mounted: no timer, nothing saved. */
  const Initial: Saver := Saver(Idle, [])

  datatype Event = Change(text: string, at: int) | Tick(at: int)

  /** One event. A change replaces whatever timer was pending; a tick runs a due timer and empties the slot. */
  function Step(s: Saver, e: Event): (r: Saver)
    ensures e.Change? ==> r.slot == Armed(e.text, e.at + SaveDelay) && r.saved == s.saved
    ensures e.Tick? && s.slot.Due(e.at) ==> r.slot == Idle && r.saved == s.saved + [s.slot.payload]
    ensures e.Tick? && !s.slot.Due(e.at) ==> r == s
  {
    match e
    case Change(text, at) => Saver(Rearm(text, at, SaveDelay), s.saved)
    case Tick(at) =>
      if s.slot.Due(at) then Saver(Idle, s.saved + [s.slot.payload]) else s
  }

  /** Unmount cleanup: `clearTimeout` on the held handle; nothing is flushed. */
  function Cancel(s: Saver): (r: Saver)
    ensures r.slot == Idle && r.saved == s.saved
  {
    s.(slot := Idle)
  }

  /** The state after a sequence of events, applied oldest first. */
  function Run(s: Saver, evs: seq<Event>): Saver
    decreases |evs|
  {
    if |evs| == 0 then s else Step(Run(s, evs[..|evs| - 1]), evs[|evs| - 1])
  }

  /** The most recent change in a trace, if any. */
  function LastChange(evs: seq<Event>): (c: Option<Event>)
    ensures c.Some? ==> c.value.Change? && c.value in evs
    ensures c.None? <==> forall k :: 0 <= k < |evs| ==> !evs[k].Change?
    decreases |evs|
  {
    if |evs| == 0 then None
    else if evs[|evs| - 1].Change? then Some(evs[|evs| - 1])
    else LastChange(evs[..|evs| - 1])
  }

  lemma RunSnoc(s: Saver, evs: seq<Event>, e: Event)
    ensures Run(s, evs + [e]) == Step(Run(s, evs), e)
  {
    assert (evs + [e])[..|evs|] == evs;
  }

  lemma {:induction false} RunAppend(s: Saver, a: seq<Event>, b: seq<Event>)
    ensures Run(s, a + b) == Run(Run(s, a), b)
    decreases |b|
  {
    if |b| == 0 {
      assert a + b == a;
    } else {
      var b' := b[..|b| - 1];
      assert a + b == (a + b') + [b[|b| - 1]];
      assert b == b' + [b[|b| - 1]];
      RunSnoc(s, a + b', b[|b| - 1]);
      RunAppend(s, a, b');
      RunSnoc(Run(s, a), b', b[|b| - 1]);
    }
  }

  /** Saves are only ever appended: an event never takes back a save already made. */
  lemma {:induction false} SavedOnlyGrows(s: Saver, evs: seq<Event>)
    ensures s.saved <= Run(s, evs).saved
    decreases |evs|
  {
    if |evs| > 0 {
      SavedOnlyGrows(s, evs[..|evs| - 1]);
    }
  }

  /**
   * Whatever the history, once a trace contains a change, the only timer that
   * can be pending carries the text of the most recent change and is due
   * exactly SaveDelay after it.
   */
  lemma {:induction false} PendingCarriesLastChange(s: Saver, evs: seq<Event>)
    requires LastChange(evs).Some?
    ensures Run(s, evs).slot.Armed? ==>
              Run(s, evs).slot == Armed(LastChange(evs).value.text, LastChange(evs).value.at + SaveDelay)
    decreases |evs|
  {
    var n := |evs|;
    if !evs[n - 1].Change? {
      PendingCarriesLastChange(s, evs[..n - 1]);
    }
  }

  /**
   * A save that runs carries the text of the most recent change, and runs only
   * once the clock is at least SaveDelay past that change. Starting from a
   * freshly mounted editor, nothing is saved before some change is made.
   */
  lemma {:induction false} SaveIsLastChange(s: Saver, evs: seq<Event>, now: int)
    requires s.slot.Idle?
    requires |Run(s, evs + [Tick(now)]).saved| != |Run(s, evs).saved|
    ensures LastChange(evs).Some?
    ensures now >= LastChange(evs).value.at + SaveDelay
    ensures Run(s, evs + [Tick(now)]).saved == Run(s, evs).saved + [LastChange(evs).value.text]
  {
    RunSnoc(s, evs, Tick(now));
    if LastChange(evs).None? {
      IdleWithoutChange(s, evs);
    } else {
      PendingCarriesLastChange(s, evs);
    }
  }

  /** With no change in the trace, a slot that starts empty stays empty and nothing is saved. */
  lemma {:induction false} IdleWithoutChange(s: Saver, evs: seq<Event>)
    requires s.slot.Idle?
    requires forall k :: 0 <= k < |evs| ==> !evs[k].Change?
    ensures Run(s, evs) == s
    decreases |evs|
  {
    if |evs| > 0 {
      IdleWithoutChange(s, evs[..|evs| - 1]);
    }
  }

  /** After the unmount cleanup, no timer remains, so no later tick saves anything. */
  lemma {:induction false} NothingAfterCancel(s: Saver, ticks: seq<Event>)
    requires forall k :: 0 <= k < |ticks| ==> ticks[k].Tick?
    ensures Run(Cancel(s), ticks) == Cancel(s)
    decreases |ticks|
  {
    if |ticks| > 0 {
      NothingAfterCancel(s, ticks[..|ticks| - 1]);
    }
  }

  /**
   * A typing burst: changes (text, time) in order, where before each change
   * after the first the clock has already advanced to that change's time.
   */
  function Burst(changes: seq<(string, int)>): (evs: seq<Event>)
    ensures |changes| > 0 ==> |evs| == 2 * |changes| - 1
    decreases |changes|
  {
    if |changes| == 0 then []
    else if |changes| == 1 then [Change(changes[0].0, changes[0].1)]
    else
      var last := changes[|changes| - 1];
      Burst(changes[..|changes| - 1]) + [Tick(last.1), Change(last.0, last.1)]
  }

  /** Every change comes less than SaveDelay after the one before it. */
  predicate Tight(changes: seq<(string, int)>) {
    forall i :: 0 < i < |changes| ==> changes[i].1 < changes[i - 1].1 + SaveDelay
  }

  /** At the end of a burst the pending timer carries the burst's last text. */
  lemma {:induction false} BurstEndsArmed(s: Saver, changes: seq<(string, int)>)
    requires |changes| > 0
    ensures Run(s, Burst(changes)).slot
            == Armed(changes[|changes| - 1].0, changes[|changes| - 1].1 + SaveDelay)
  {
    var n := |changes|;
    var evs := Burst(changes);
    assert evs[|evs| - 1] == Change(changes[n - 1].0, changes[n - 1].1);
  }

  /** A tight burst saves nothing while it lasts. */
  lemma {:induction false} TightBurstSavesNothing(s: Saver, changes: seq<(string, int)>)
    requires s.slot.Idle? && |changes| > 0 && Tight(changes)
    ensures Run(s, Burst(changes)).saved == s.saved
    decreases |changes|
  {
    var n := |changes|;
    if n > 1 {
      var init := changes[..n - 1];
      var last := changes[n - 1];
      assert Tight(init) by {
        forall i | 0 < i < |init| ensures init[i].1 < init[i - 1].1 + SaveDelay {
          assert init[i] == changes[i] && init[i - 1] == changes[i - 1];
        }
      }
      TightBurstSavesNothing(s, init);
      BurstEndsArmed(s, init);
      RunAppend(s, Burst(init), [Tick(last.1), Change(last.0, last.1)]);
      RunSnoc(Run(s, Burst(init)), [Tick(last.1)], Change(last.0, last.1));
      assert [Tick(last.1)] + [Change(last.0, last.1)] == [Tick(last.1), Change(last.0, last.1)];
      assert Run(Run(s, Burst(init)), [Tick(last.1)]) == Step(Run(s, Burst(init)), Tick(last.1)) by {
        RunSnoc(Run(s, Burst(init)), [], Tick(last.1));
        assert [] + [Tick(last.1)] == [Tick(last.1)];
      }
    }
  }

  /** A burst whose last change is followed by SaveDelay of silence, then the clock tick. */
  function Settled(changes: seq<(string, int)>, now: int): seq<Event> {
    Burst(changes) + [Tick(now)]
  }

  /**
   * Coalescing: a burst of changes each less than SaveDelay after the previous
   * one, followed by SaveDelay of silence, makes exactly one save, and that
   * save carries the burst's last text.
   */
  lemma {:induction false} TightBurstSavesOnce(s: Saver, changes: seq<(string, int)>, now: int)
    requires s.slot.Idle? && |changes| > 0 && Tight(changes)
    requires now >= changes[|changes| - 1].1 + SaveDelay
    ensures Run(s, Settled(changes, now)).saved == s.saved + [changes[|changes| - 1].0]
  {
    TightBurstSavesNothing(s, changes);
    BurstEndsArmed(s, changes);
    RunSnoc(s, Burst(changes), Tick(now));
  }

  /**
   * The converse: if some change comes SaveDelay or more after the one before
   * it, the timer of the earlier change runs in between, and the settled burst
   * makes at least two saves.
   */
  lemma {:induction false} LooseBurstSavesTwice(s: Saver, changes: seq<(string, int)>, now: int)
    requires |changes| > 0 && !Tight(changes)
    requires now >= changes[|changes| - 1].1 + SaveDelay
    ensures |Run(s, Settled(changes, now)).saved| >= |s.saved| + 2
  {
    var i :| 0 < i < |changes| && changes[i].1 >= changes[i - 1].1 + SaveDelay;
    var head := changes[..i];
    var mid := Run(s, Burst(head));
    BurstEndsArmed(s, head);
    assert head[|head| - 1] == changes[i - 1];
    var fired := Step(mid, Tick(changes[i].1));
    assert |fired.saved| == |mid.saved| + 1;
    var rest := [Change(changes[i].0, changes[i].1)] + BurstTail(changes, i + 1);
    BurstAsTail(changes, i);
    assert BurstTail(changes, i) == [Tick(changes[i].1)] + rest;
    RunAppend(s, Burst(head), [Tick(changes[i].1)] + rest);
    RunAppend(mid, [Tick(changes[i].1)], rest);
    RunSnoc(mid, [], Tick(changes[i].1));
    assert [] + [Tick(changes[i].1)] == [Tick(changes[i].1)];
    SavedOnlyGrows(s, Burst(head));
    SavedOnlyGrows(fired, rest);
    // the whole burst still ends armed with the last change, so the final tick saves once more
    BurstEndsArmed(s, changes);
    RunSnoc(s, Burst(changes), Tick(now));
    assert Run(s, Burst(changes)) == Run(fired, rest);
  }

  /** The tick-change pairs of the changes from `j` on. */
  function BurstTail(changes: seq<(string, int)>, j: nat): seq<Event>
    requires 0 < j <= |changes|
    decreases |changes| - j
  {
    if j == |changes| then []
    else [Tick(changes[j].1), Change(changes[j].0, changes[j].1)] + BurstTail(changes, j + 1)
  }

  lemma {:induction false} BurstAsTail(changes: seq<(string, int)>, j: nat)
    requires 0 < j <= |changes|
    ensures Burst(changes) == Burst(changes[..j]) + BurstTail(changes, j)
    decreases |changes|
  {
    var n := |changes|;
    if j == n {
      assert changes[..j] == changes;
    } else {
      var init := changes[..n - 1];
      if j == n - 1 {
        assert changes[..j] == init;
        assert BurstTail(changes, j + 1) == [];
      } else {
        BurstAsTail(init, j);
        assert init[..j] == changes[..j];
        TailOfInit(changes, j);
      }
    }
  }

  lemma {:induction false} TailOfInit(changes: seq<(string, int)>, j: nat)
    requires 0 < j < |changes| - 1
    ensures BurstTail(changes, j)
            == BurstTail(changes[..|changes| - 1], j)
               + [Tick(changes[|changes| - 1].1), Change(changes[|changes| - 1].0, changes[|changes| - 1].1)]
    decreases |changes| - j
  {
    var init := changes[..|changes| - 1];
    assert init[j] == changes[j];
    if j + 1 < |changes| - 1 {
      TailOfInit(changes, j + 1);
    } else {
      assert BurstTail(changes, j + 1)
             == [Tick(changes[|changes| - 1].1), Change(changes[|changes| - 1].0, changes[|changes| - 1].1)] + BurstTail(changes, j + 2);
    }
  }
}
