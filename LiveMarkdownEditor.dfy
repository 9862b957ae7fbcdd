/**
 * The rich-text editor of today's sheet. Its observable state is the editor's
 * markdown, the props of the last render, the realtime channel it holds, the
 * debounced autosave and whether it is still mounted.
 *
 * Effects are modelled as React runs them: an effect body runs after a render
 * in which one of its dependencies changed, after the previous run's cleanup.
 * The editor instance appears once, after the first render
 * (`immediatelyRender: false`), and is stable afterwards; the backend client is
 * stable too, so the subscription effect reruns only for the editor's arrival
 * and for a new `sheetId`. `setContent(_, false)` emits no update, so neither
 * the prop sync nor a remote payload reaches `onUpdate`.
 */
module LiveMarkdownEditor {
  import opened Wrappers
  import opened Timers
  import Debounce

  datatype Editor = Editor(
    ready: bool,                // `useEditor` has produced the editor (null before)
    markdown: string,           // the document, as `getMarkdown()` reads it
    sheetId: string,            // props of the last render
    initialContent: string,
    channel: Option<string>,    // the sheet whose `sheet_updates:` channel is subscribed
    overwrites: nat,            // `setContent` calls made so far
    saver: Debounce.Saver,      // `debounceTimeoutRef` and what reached `onContentChange`
    mounted: bool)

  /** After the first render: no editor yet, so neither effect has done anything. */
  function Mount(sheetId: string, initialContent: string): (e: Editor)
    ensures !e.ready && e.channel.None? && e.overwrites == 0 && e.mounted
    ensures e.saver == Debounce.Initial && e.sheetId == sheetId && e.initialContent == initialContent
  {
    Editor(false, initialContent, sheetId, initialContent, None, 0, Debounce.Initial, true)
  }

  datatype Event =
    | Created                                  // the editor instance becomes available
    | Rerender(sheetId: string, initialContent: string)
    | Update(markdown: string, at: int)        // the user edits the document
    | Remote(sheet: string, content: string)   // an UPDATE payload on `sheet_updates:<sheet>`
    | Tick(at: int)                            // the clock reaches `at`
    | Unmount

  /** The channel the component should hold: its sheet's, once there is an editor and a sheet id. */
  function Wanted(e: Editor): Option<string> {
    if e.mounted && e.ready && e.sheetId != "" then Some(e.sheetId) else None
  }

  /** The subscription invariant: the held channel is exactly the wanted one. */
  predicate Subscribed(e: Editor) {
    e.channel == Wanted(e)
  }

  /**
   * The editor arrives holding `initialContent`. The sync effect then finds the
   * markdown equal to the prop and does nothing; the subscription effect
   * subscribes when there is a sheet id.
   */
  function OnCreated(e: Editor): (r: Editor)
    ensures !e.mounted || e.ready ==> r == e
    ensures e.mounted && !e.ready ==>
              r.ready && r.markdown == e.initialContent && r.overwrites == e.overwrites
              && r.channel == (if e.sheetId == "" then None else Some(e.sheetId))
              && r.saver == e.saver && r.sheetId == e.sheetId && r.initialContent == e.initialContent
  {
    if !e.mounted || e.ready then e
    else e.(ready := true, markdown := e.initialContent,
            channel := if e.sheetId != "" then Some(e.sheetId) else None)
  }

  /**
   * A render with new props. A changed `initialContent` is pushed into the
   * editor only when it differs from the current markdown; a changed `sheetId`
   * removes the old channel and subscribes to the new sheet's (none for an
   * empty id or a missing editor). The timer is not touched.
   */
  function OnRerender(e: Editor, sheetId: string, initial: string): (r: Editor)
    ensures !e.mounted ==> r == e
    ensures e.mounted ==> r.sheetId == sheetId && r.initialContent == initial
    ensures r.saver == e.saver && r.ready == e.ready && r.mounted == e.mounted
    ensures e.mounted && e.ready && initial != e.initialContent ==> r.markdown == initial
    ensures r.overwrites == e.overwrites + 1 <==>
              e.mounted && e.ready && initial != e.initialContent && e.markdown != initial
    ensures r.overwrites == e.overwrites <==>
              !(e.mounted && e.ready && initial != e.initialContent && e.markdown != initial)
    ensures r.overwrites == e.overwrites ==> r.markdown == e.markdown
    ensures e.mounted && sheetId != e.sheetId ==>
              r.channel == (if sheetId != "" && e.ready then Some(sheetId) else None)
    ensures sheetId == e.sheetId ==> r.channel == e.channel
  {
    if !e.mounted then e
    else
      var replace := e.ready && initial != e.initialContent && e.markdown != initial;
      var channel := if sheetId == e.sheetId then e.channel
                     else if sheetId != "" && e.ready then Some(sheetId) else None;
      e.(sheetId := sheetId, initialContent := initial, channel := channel,
         markdown := if replace then initial else e.markdown,
         overwrites := if replace then e.overwrites + 1 else e.overwrites)
  }

  /** `onUpdate`: the edit is in the document, and the pending save is replaced by one of this text. */
  function OnUpdate(e: Editor, md: string, at: int): (r: Editor)
    ensures !(e.mounted && e.ready) ==> r == e
    ensures e.mounted && e.ready ==>
              && r.markdown == md
              && r.saver.slot == Armed(md, at + Debounce.SaveDelay)
              && r.saver.saved == e.saver.saved
              && r.channel == e.channel && r.overwrites == e.overwrites
              && r.sheetId == e.sheetId && r.initialContent == e.initialContent
  {
    if !(e.mounted && e.ready) then e
    else e.(markdown := md, saver := Debounce.Step(e.saver, Debounce.Change(md, at)))
  }

  /**
   * The payload handler: only a payload on the held channel arrives, and it
   * overwrites the document exactly when its content differs (last writer
   * wins). A pending save is left as it is.
   */
  function OnRemote(e: Editor, sheet: string, content: string): (r: Editor)
    ensures r.saver == e.saver && r.channel == e.channel
    ensures e.channel == Some(sheet) ==> r.markdown == content
    ensures e.channel != Some(sheet) ==> r == e
    ensures r == e <==> e.channel != Some(sheet) || e.markdown == content
    ensures r != e ==> r.overwrites == e.overwrites + 1
  {
    if e.channel == Some(sheet) && content != e.markdown then
      e.(markdown := content, overwrites := e.overwrites + 1)
    else e
  }

  /** The clock reaches `at`: a due save runs. */
  function OnTick(e: Editor, at: int): (r: Editor)
    ensures r.saver == Debounce.Step(e.saver, Debounce.Tick(at))
    ensures r.(saver := e.saver) == e
  {
    e.(saver := Debounce.Step(e.saver, Debounce.Tick(at)))
  }

  /** Unmount: the channel is removed and the pending save is cleared, not flushed. */
  function OnUnmount(e: Editor): (r: Editor)
    ensures !r.mounted && r.channel.None? && r.saver.slot.Idle? && r.saver.saved == e.saver.saved
    ensures r.markdown == e.markdown && r.overwrites == e.overwrites
  {
    e.(mounted := false, channel := None, saver := Debounce.Cancel(e.saver))
  }

  function Step(e: Editor, ev: Event): Editor {
    match ev
    case Created => OnCreated(e)
    case Rerender(sheetId, initial) => OnRerender(e, sheetId, initial)
    case Update(md, at) => OnUpdate(e, md, at)
    case Remote(sheet, content) => OnRemote(e, sheet, content)
    case Tick(at) => OnTick(e, at)
    case Unmount => OnUnmount(e)
  }

  /** The state after a sequence of events, applied oldest first. */
  function Run(e: Editor, evs: seq<Event>): Editor
    decreases |evs|
  {
    if |evs| == 0 then e else Step(Run(e, evs[..|evs| - 1]), evs[|evs| - 1])
  }

  /** Every event keeps the held channel equal to the wanted one. */
  lemma StepKeepsSubscribed(e: Editor, ev: Event)
    requires Subscribed(e)
    ensures Subscribed(Step(e, ev))
  {
  }

  /**
   * At every point of the component's life, the only channel held is the
   * current sheet's, and none is held for an empty sheet id, before the editor
   * exists or after unmount.
   */
  lemma {:induction false} AlwaysSubscribed(sheetId: string, initial: string, evs: seq<Event>)
    ensures Subscribed(Run(Mount(sheetId, initial), evs))
    decreases |evs|
  {
    if |evs| > 0 {
      AlwaysSubscribed(sheetId, initial, evs[..|evs| - 1]);
      StepKeepsSubscribed(Run(Mount(sheetId, initial), evs[..|evs| - 1]), evs[|evs| - 1]);
    }
  }

  /** Only the current sheet's updates are applied, and only with an editor and a non-empty sheet id. */
  lemma OnlyCurrentSheetApplies(e: Editor, sheet: string, content: string)
    requires Subscribed(e)
    requires OnRemote(e, sheet, content) != e
    ensures sheet == e.sheetId && sheet != "" && e.ready && e.mounted
    ensures OnRemote(e, sheet, content).markdown == content != e.markdown
  {
  }

  /** The autosave's view of a trace: edits become changes, ticks stay ticks, the rest is invisible to it. */
  function Saves(evs: seq<Event>): seq<Debounce.Event>
    decreases |evs|
  {
    if |evs| == 0 then []
    else
      var last := evs[|evs| - 1];
      Saves(evs[..|evs| - 1])
      + match last
        case Update(md, at) => [Debounce.Change(md, at)]
        case Tick(at) => [Debounce.Tick(at)]
        case _ => []
  }

  predicate NoUnmount(evs: seq<Event>) {
    forall k :: 0 <= k < |evs| ==> !evs[k].Unmount?
  }

  /**
   * While the component stays mounted with its editor, the autosave behaves
   * exactly as the debounce: re-renders, remote payloads and the editor's
   * arrival never touch it.
   */
  lemma {:induction false} SaverFollowsDebounce(e: Editor, evs: seq<Event>)
    requires e.mounted && e.ready && NoUnmount(evs)
    ensures Run(e, evs).mounted && Run(e, evs).ready
    ensures Run(e, evs).saver == Debounce.Run(e.saver, Saves(evs))
    decreases |evs|
  {
    if |evs| > 0 {
      var init := evs[..|evs| - 1];
      SaverFollowsDebounce(e, init);
      var ev := evs[|evs| - 1];
      match ev
      case Update(md, at) =>
        Debounce.RunSnoc(e.saver, Saves(init), Debounce.Change(md, at));
      case Tick(at) =>
        Debounce.RunSnoc(e.saver, Saves(init), Debounce.Tick(at));
      case Unmount =>
        assert false;
      case _ =>
        assert Saves(evs) == Saves(init) + [];
        assert Saves(init) + [] == Saves(init);
    }
  }

  /** A debounce trace played as editor events: changes are edits. */
  function Edits(devs: seq<Debounce.Event>): (evs: seq<Event>)
    ensures |evs| == |devs| && NoUnmount(evs)
    ensures Saves(evs) == devs
    decreases |devs|
  {
    if |devs| == 0 then []
    else
      var last := devs[|devs| - 1];
      var init := Edits(devs[..|devs| - 1]);
      var ev := match last
                case Change(text, at) => Update(text, at)
                case Tick(at) => Tick(at);
      assert (init + [ev])[..|devs| - 1] == init;
      init + [ev]
  }

  /**
   * A burst of edits each less than a second after the previous one, followed
   * by a second of silence, hands exactly one text to `onContentChange`: the
   * last edit's, which is also what the editor shows.
   */
  lemma TypingBurstSavesOnce(e: Editor, changes: seq<(string, int)>, now: int)
    requires e.mounted && e.ready && e.saver.slot.Idle?
    requires |changes| > 0 && Debounce.Tight(changes)
    requires now >= changes[|changes| - 1].1 + Debounce.SaveDelay
    ensures Run(e, Edits(Debounce.Settled(changes, now))).saver.saved
            == e.saver.saved + [changes[|changes| - 1].0]
  {
    var evs := Edits(Debounce.Settled(changes, now));
    SaverFollowsDebounce(e, evs);
    Debounce.TightBurstSavesOnce(e.saver, changes, now);
  }

  /** After unmount nothing changes any more: in particular no save ever runs. */
  lemma {:induction false} FrozenAfterUnmount(e: Editor, evs: seq<Event>)
    ensures Run(OnUnmount(e), evs) == OnUnmount(e)
    decreases |evs|
  {
    if |evs| > 0 {
      FrozenAfterUnmount(e, evs[..|evs| - 1]);
    }
  }

  /**
   * Last writer wins only in the editor: a remote payload that arrives while a
   * save is pending replaces the document, yet the pending save still carries
   * the local text and, when it runs, writes that text back.
   */
  lemma PendingSaveOutlivesRemote(e: Editor, content: string, at: int)
    requires e.saver.slot.Armed? && e.saver.slot.Due(at) && e.channel.Some?
    ensures var after := OnRemote(e, e.channel.value, content);
            after.markdown == content
            && OnTick(after, at).saver.saved == e.saver.saved + [e.saver.slot.payload]
  {
  }

  /** The component with its refs and state as fields; each handler is one event. */
  class LiveMarkdownEditorComponent {
    var editorReady: bool
    var markdown: string
    var sheetId: string
    var initialContent: string
    var channel: Option<string>
    var overwrites: nat
    var debounceTimeout: Slot<string>
    var saved: seq<string>
    var mounted: bool

    function State(): Editor reads this {
      Editor(editorReady, markdown, sheetId, initialContent, channel, overwrites,
             Debounce.Saver(debounceTimeout, saved), mounted)
    }

    ghost predicate Valid() reads this {
      Subscribed(State())
    }

    constructor (sheetId: string, initialContent: string)
      ensures Valid() && State() == Mount(sheetId, initialContent)
    {
      editorReady := false;
      markdown := initialContent;
      this.sheetId := sheetId;
      this.initialContent := initialContent;
      channel := None;
      overwrites := 0;
      debounceTimeout := Idle;
      saved := [];
      mounted := true;
    }

    method EditorCreated()
      requires Valid()
      modifies this
      ensures Valid() && State() == Step(old(State()), Created)
    {
      if mounted && !editorReady {
        editorReady := true;
        markdown := initialContent;
        if sheetId != "" {
          channel := Some(sheetId);
        }
      }
    }

    method Rerender(newSheetId: string, newInitialContent: string)
      requires Valid()
      modifies this
      ensures Valid() && State() == Step(old(State()), Event.Rerender(newSheetId, newInitialContent))
    {
      if !mounted {
        return;
      }
      if newInitialContent != initialContent && editorReady && markdown != newInitialContent {
        markdown := newInitialContent;
        overwrites := overwrites + 1;
      }
      if newSheetId != sheetId {
        channel := None;
        if newSheetId != "" && editorReady {
          channel := Some(newSheetId);
        }
      }
      sheetId := newSheetId;
      initialContent := newInitialContent;
    }

    method OnUpdate(md: string, now: int)
      requires Valid()
      modifies this
      ensures Valid() && State() == Step(old(State()), Update(md, now))
    {
      if mounted && editorReady {
        markdown := md;
        debounceTimeout := Armed(md, now + Debounce.SaveDelay);
      }
    }

    method OnRemoteUpdate(sheet: string, content: string)
      requires Valid()
      modifies this
      ensures Valid() && State() == Step(old(State()), Remote(sheet, content))
    {
      if channel == Some(sheet) && content != markdown {
        markdown := content;
        overwrites := overwrites + 1;
      }
    }

    method TimerFires(now: int)
      requires Valid()
      modifies this
      ensures Valid() && State() == Step(old(State()), Tick(now))
    {
      if debounceTimeout.Due(now) {
        saved := saved + [debounceTimeout.payload];
        debounceTimeout := Idle;
      }
    }

    method Unmount()
      requires Valid()
      modifies this
      ensures Valid() && State() == Step(old(State()), Event.Unmount)
    {
      channel := None;
      debounceTimeout := Idle;
      mounted := false;
    }
  }
}
