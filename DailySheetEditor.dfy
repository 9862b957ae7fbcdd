/**
 * The plain textarea editor with a markdown preview. Its state is the
 * `content` shown in the textarea, the `initialContent` prop of the last
 * render, the debounced autosave and whether it is still mounted.
 *
 * The prop-sync effect runs after a render in which `initialContent` changed
 * (its only dependency); the first render's run sets `content` to the value it
 * already has.
 */
module DailySheetEditor {
  import opened Timers
  import Debounce

  datatype TextEditor = TextEditor(
    initialContent: string,     // the prop, as of the last render
    content: string,            // the `content` state
    saver: Debounce.Saver,      // `debounceTimeoutRef` and what reached `onContentChange`
    mounted: bool)

  /** `useState(initialContent)`: the textarea starts with the prop, no save pending. */
  function Mount(initialContent: string): (e: TextEditor)
    ensures e.content == e.initialContent == initialContent
    ensures e.saver == Debounce.Initial && e.mounted
  {
    TextEditor(initialContent, initialContent, Debounce.Initial, true)
  }

  datatype Event =
    | Input(value: string, at: int)         // a change event from the textarea
    | Rerender(initialContent: string)
    | Tick(at: int)                         // the clock reaches `at`
    | Unmount

  /**
   * `handleInputChange`: the textarea shows the new value at once, and the
   * pending save is replaced by a save of that value a second later.
   */
  function OnInput(e: TextEditor, value: string, at: int): (r: TextEditor)
    ensures !e.mounted ==> r == e
    ensures e.mounted ==>
              && r.content == value
              && r.saver.slot == Armed(value, at + Debounce.SaveDelay)
              && r.saver.saved == e.saver.saved
              && r.initialContent == e.initialContent && r.mounted
  {
    if !e.mounted then e
    else e.(content := value, saver := Debounce.Step(e.saver, Debounce.Change(value, at)))
  }

  /**
   * A render with a new prop: a changed `initialContent` replaces `content`
   * whatever the user has typed; an unchanged one leaves it. The timer is not touched.
   */
  function OnRerender(e: TextEditor, initial: string): (r: TextEditor)
    ensures !e.mounted ==> r == e
    ensures r.saver == e.saver && r.mounted == e.mounted
    ensures e.mounted ==> r.initialContent == initial
    ensures e.mounted && initial != e.initialContent ==> r.content == initial
    ensures initial == e.initialContent ==> r == e
  {
    if !e.mounted then e
    else if initial != e.initialContent then e.(initialContent := initial, content := initial)
    else e
  }

  /** The clock reaches `at`: a due save runs. */
  function OnTick(e: TextEditor, at: int): (r: TextEditor)
    ensures r.saver == Debounce.Step(e.saver, Debounce.Tick(at))
    ensures r.(saver := e.saver) == e
  {
    e.(saver := Debounce.Step(e.saver, Debounce.Tick(at)))
  }

  /** Unmount cleanup: the pending save is cleared, not flushed. */
  function OnUnmount(e: TextEditor): (r: TextEditor)
    ensures !r.mounted && r.saver.slot.Idle? && r.saver.saved == e.saver.saved
    ensures r.content == e.content
  {
    e.(mounted := false, saver := Debounce.Cancel(e.saver))
  }

  function Step(e: TextEditor, ev: Event): TextEditor {
    match ev
    case Input(value, at) => OnInput(e, value, at)
    case Rerender(initial) => OnRerender(e, initial)
    case Tick(at) => OnTick(e, at)
    case Unmount => OnUnmount(e)
  }

  /** The state after a sequence of events, applied oldest first. */
  function Run(e: TextEditor, evs: seq<Event>): TextEditor
    decreases |evs|
  {
    if |evs| == 0 then e else Step(Run(e, evs[..|evs| - 1]), evs[|evs| - 1])
  }

  /** The autosave's view of a trace: inputs become changes, ticks stay ticks, re-renders are invisible. */
  function Saves(evs: seq<Event>): seq<Debounce.Event>
    decreases |evs|
  {
    if |evs| == 0 then []
    else
      var last := evs[|evs| - 1];
      Saves(evs[..|evs| - 1])
      + match last
        case Input(value, at) => [Debounce.Change(value, at)]
        case Tick(at) => [Debounce.Tick(at)]
        case _ => []
  }

  predicate NoUnmount(evs: seq<Event>) {
    forall k :: 0 <= k < |evs| ==> !evs[k].Unmount?
  }

  /** While mounted, the autosave is exactly the debounce; prop changes never touch it. */
  lemma {:induction false} SaverFollowsDebounce(e: TextEditor, evs: seq<Event>)
    requires e.mounted && NoUnmount(evs)
    ensures Run(e, evs).mounted
    ensures Run(e, evs).saver == Debounce.Run(e.saver, Saves(evs))
    decreases |evs|
  {
    if |evs| > 0 {
      var init := evs[..|evs| - 1];
      SaverFollowsDebounce(e, init);
      match evs[|evs| - 1]
      case Input(value, at) =>
        Debounce.RunSnoc(e.saver, Saves(init), Debounce.Change(value, at));
      case Tick(at) =>
        Debounce.RunSnoc(e.saver, Saves(init), Debounce.Tick(at));
      case Rerender(_) =>
        assert Saves(evs) == Saves(init) + [];
        assert Saves(init) + [] == Saves(init);
      case Unmount =>
        assert false;
    }
  }

  /** A debounce trace played as textarea events: changes are inputs. */
  function Inputs(devs: seq<Debounce.Event>): (evs: seq<Event>)
    ensures |evs| == |devs| && NoUnmount(evs)
    ensures Saves(evs) == devs
    decreases |devs|
  {
    if |devs| == 0 then []
    else
      var last := devs[|devs| - 1];
      var init := Inputs(devs[..|devs| - 1]);
      var ev := match last
                case Change(text, at) => Input(text, at)
                case Tick(at) => Tick(at);
      assert (init + [ev])[..|devs| - 1] == init;
      init + [ev]
  }

  /** The textarea shows what was typed last. */
  lemma {:induction false} ContentIsLastInput(e: TextEditor, devs: seq<Debounce.Event>)
    requires e.mounted && Debounce.LastChange(devs).Some?
    ensures Run(e, Inputs(devs)).content == Debounce.LastChange(devs).value.text
    decreases |devs|
  {
    var n := |devs|;
    var evs := Inputs(devs);
    assert evs[..n - 1] == Inputs(devs[..n - 1]);
    SaverFollowsDebounce(e, evs[..n - 1]);
    if !devs[n - 1].Change? {
      ContentIsLastInput(e, devs[..n - 1]);
    }
  }

  /**
   * A burst of inputs each less than a second after the previous one,
   * followed by a second of silence, makes exactly one save, of the last value.
   */
  lemma TypingBurstSavesOnce(e: TextEditor, changes: seq<(string, int)>, now: int)
    requires e.mounted && e.saver.slot.Idle?
    requires |changes| > 0 && Debounce.Tight(changes)
    requires now >= changes[|changes| - 1].1 + Debounce.SaveDelay
    ensures Run(e, Inputs(Debounce.Settled(changes, now))).saver.saved
            == e.saver.saved + [changes[|changes| - 1].0]
  {
    SaverFollowsDebounce(e, Inputs(Debounce.Settled(changes, now)));
    Debounce.TightBurstSavesOnce(e.saver, changes, now);
  }

  /** After unmount nothing changes any more: in particular no save ever runs. */
  lemma {:induction false} FrozenAfterUnmount(e: TextEditor, evs: seq<Event>)
    ensures Run(OnUnmount(e), evs) == OnUnmount(e)
    decreases |evs|
  {
    if |evs| > 0 {
      FrozenAfterUnmount(e, evs[..|evs| - 1]);
    }
  }

  /** The component with its state and ref as fields; each handler is one event. */
  class DailySheetEditorComponent {
    var initialContent: string
    var content: string
    var debounceTimeout: Slot<string>
    var saved: seq<string>
    var mounted: bool

    function State(): TextEditor reads this {
      TextEditor(initialContent, content, Debounce.Saver(debounceTimeout, saved), mounted)
    }

    constructor (initialContent: string)
      ensures State() == Mount(initialContent)
    {
      this.initialContent := initialContent;
      content := initialContent;
      debounceTimeout := Idle;
      saved := [];
      mounted := true;
    }

    method HandleInputChange(value: string, now: int)
      modifies this
      ensures State() == Step(old(State()), Input(value, now))
    {
      if mounted {
        content := value;
        debounceTimeout := Armed(value, now + Debounce.SaveDelay);
      }
    }

    method Rerender(newInitialContent: string)
      modifies this
      ensures State() == Step(old(State()), Event.Rerender(newInitialContent))
    {
      if mounted && newInitialContent != initialContent {
        initialContent := newInitialContent;
        content := newInitialContent;
      }
    }

    method TimerFires(now: int)
      modifies this
      ensures State() == Step(old(State()), Tick(now))
    {
      if debounceTimeout.Due(now) {
        saved := saved + [debounceTimeout.payload];
        debounceTimeout := Idle;
      }
    }

    method Unmount()
      modifies this
      ensures State() == Step(old(State()), Event.Unmount)
    {
      debounceTimeout := Idle;
      mounted := false;
    }
  }
}
