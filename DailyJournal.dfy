/**
 * The daily-sheet logic of the journal page: fetch today's sheet for the
 * signed-in user, create it when there is none, and recover when another tab
 * created it first; autosave the editor's text into that sheet; drop the sheet
 * when the user goes away or signs out.
 *
 * `fetchOrCreateDailySheet` is asynchronous: it waits on up to three backend
 * requests, and other tabs can change the table while it waits. The model
 * therefore cuts it at its awaits into steps (`Begin`, `OnFetched`,
 * `OnInserted`, `OnRefetched`), each a function of the component's state and
 * the table at the moment the backend answers. `FetchOrCreate` chains the steps
 * with nothing in between; `RunSchedule` interleaves the steps of several tabs.
 */
module DailyJournal {
  import opened Wrappers
  import opened SheetStore

  datatype Toast = SuccessToast(text: string) | ErrorToast(text: string)

  /** A request sent by `fetchOrCreateDailySheet`. */
  datatype Request = SelectRequest(userId: UserId, title: string)
                   | InsertRequest(userId: UserId, title: string, content: string)

  /** Which reply the suspended `fetchOrCreateDailySheet` waits for, if it is suspended. */
  datatype Await = Settled | AwaitFetch | AwaitInsert | AwaitRefetch

  /**
   * The component's state as far as the daily sheet goes. `userId`/`today` are
   * the arguments of the latest call; `issued` lists the requests that call has
   * sent so far.
   */
  datatype Journal = Journal(loading: bool, sheet: Option<Sheet>, awaiting: Await,
                             userId: UserId, today: string, toasts: seq<Toast>, issued: seq<Request>)

  /** `useState(true)` for loading, `useState(null)` for the sheet. */
  const Mounted: Journal := Journal(true, None, Settled, "", "", [], [])

  /** Lines 28-37: loading on, today's date fixed, the read sent. */
  function Begin(j: Journal, userId: UserId, today: string): (r: Journal)
    ensures r.loading && r.awaiting == AwaitFetch && r.issued == [SelectRequest(userId, today)]
    ensures r.sheet == j.sheet && r.toasts == j.toasts
  {
    j.(loading := true, awaiting := AwaitFetch, userId := userId, today := today,
       issued := [SelectRequest(userId, today)])
  }

  /** Lines 39-54: the read's reply, evaluated against the table as it is when the backend answers. */
  function OnFetched(j: Journal, t: Table, fault: Option<BackendError>): (r: Journal)
    requires j.awaiting == AwaitFetch
    ensures j.toasts <= r.toasts && r.userId == j.userId && r.today == j.today
    ensures fault.Some? && fault.value.code != NoRowsCode ==>
              r.sheet == None && !r.loading && r.awaiting == Settled && r.issued == j.issued
    ensures fault.None? && Find(t.rows, j.userId, j.today).Some? ==>
              r.sheet == Find(t.rows, j.userId, j.today) && !r.loading && r.awaiting == Settled
              && r.issued == j.issued
    ensures FindsNothing(t, j.userId, j.today, fault) ==>
              r == j.(awaiting := AwaitInsert, issued := j.issued + [InsertRequest(j.userId, j.today, "")])
  {
    var reply := SelectOne(t, j.userId, j.today, fault);
    if reply.error.Some? && reply.error.value.code != NoRowsCode then
      j.(sheet := None, loading := false, awaiting := Settled,
         toasts := j.toasts + [ErrorToast("Failed to load daily sheet: " + reply.error.value.message)])
    else if reply.data.Some? then
      j.(sheet := reply.data, loading := false, awaiting := Settled)
    else
      j.(awaiting := AwaitInsert, issued := j.issued + [InsertRequest(j.userId, j.today, "")])
  }

  /** Lines 56-80 (the insert's reply): the insert runs against the table as it is when it arrives. */
  function OnInserted(j: Journal, t: Table, fault: Option<BackendError>, now: int): (r: (Journal, Table))
    requires j.awaiting == AwaitInsert && Consistent(t)
    ensures Consistent(r.1)
    ensures r.1 == InsertOne(t, j.userId, j.today, "", now, fault).1
    ensures j.toasts <= r.0.toasts && r.0.userId == j.userId && r.0.today == j.today
    ensures var reply := InsertOne(t, j.userId, j.today, "", now, fault).0;
            if reply.error.Some? && reply.error.value.code == UniqueViolationCode
            then r.0 == j.(awaiting := AwaitRefetch, issued := j.issued + [SelectRequest(j.userId, j.today)])
            else !r.0.loading && r.0.awaiting == Settled && r.0.issued == j.issued
                 && r.0.sheet == (if reply.error.Some? then None else reply.data)
  {
    var (reply, t') := InsertOne(t, j.userId, j.today, "", now, fault);
    if reply.error.Some? then
      if reply.error.value.code == UniqueViolationCode then
        (j.(awaiting := AwaitRefetch, issued := j.issued + [SelectRequest(j.userId, j.today)]), t')
      else
        (j.(sheet := None, loading := false, awaiting := Settled,
            toasts := j.toasts + [ErrorToast("Failed to create daily sheet: " + reply.error.value.message)]), t')
    else
      (j.(sheet := reply.data, loading := false, awaiting := Settled,
          toasts := j.toasts + [SuccessToast("New daily sheet created for " + j.today + "!")]), t')
  }

  /** Lines 66-72 and 82: the re-read's reply ends the call either way. */
  function OnRefetched(j: Journal, t: Table, fault: Option<BackendError>): (r: Journal)
    requires j.awaiting == AwaitRefetch
    ensures j.toasts <= r.toasts && r.userId == j.userId && r.today == j.today
    ensures !r.loading && r.awaiting == Settled && r.issued == j.issued
    ensures r.sheet == (if fault.Some? then None else Find(t.rows, j.userId, j.today))
  {
    var reply := SelectOne(t, j.userId, j.today, fault);
    if reply.error.Some? then
      j.(sheet := None, loading := false, awaiting := Settled,
         toasts := j.toasts + [ErrorToast("Failed to retrieve daily sheet after concurrent creation: "
                                          + reply.error.value.message)])
    else
      j.(sheet := reply.data, loading := false, awaiting := Settled,
         toasts := j.toasts + [SuccessToast("Daily sheet retrieved after concurrent creation!")])
  }

  /** The faults, one per request, that the backend may answer with. */
  datatype Faults = Faults(fetch: Option<BackendError>, insert: Option<BackendError>,
                           refetch: Option<BackendError>)

  const NoFaults: Faults := Faults(None, None, None)

  /**
   * One whole call of `fetchOrCreateDailySheet` with no other tab acting while
   * it waits. The result is the component state and the table afterwards.
   * Every path, early return or not, switches loading off and leaves nothing
   * pending; what each path does is stated by the lemmas below.
   */
  function FetchOrCreate(j: Journal, t: Table, userId: UserId, today: string, now: int, f: Faults)
    : (r: (Journal, Table))
    requires Consistent(t)
    ensures Consistent(r.1)
    ensures !r.0.loading && r.0.awaiting == Settled
    ensures r.0.userId == userId && r.0.today == today
    ensures j.toasts <= r.0.toasts
  {
    var j1 := OnFetched(Begin(j, userId, today), t, f.fetch);
    if j1.awaiting == AwaitInsert then
      var (j2, t2) := OnInserted(j1, t, f.insert, now);
      if j2.awaiting == AwaitRefetch then (OnRefetched(j2, t2, f.refetch), t2) else (j2, t2)
    else (j1, t)
  }

  /** The call as its three awaits, one step each: how the handler's continuations compose. */
  lemma FetchOrCreateSteps(j: Journal, t: Table, userId: UserId, today: string, now: int, f: Faults)
    requires Consistent(t)
    ensures var j1 := OnFetched(Begin(j, userId, today), t, f.fetch);
            && (j1.awaiting != AwaitInsert ==> FetchOrCreate(j, t, userId, today, now, f) == (j1, t))
            && (j1.awaiting == AwaitInsert ==>
                  var r2 := OnInserted(j1, t, f.insert, now);
                  && (r2.0.awaiting != AwaitRefetch ==> FetchOrCreate(j, t, userId, today, now, f) == r2)
                  && (r2.0.awaiting == AwaitRefetch ==>
                        FetchOrCreate(j, t, userId, today, now, f) == (OnRefetched(r2.0, r2.1, f.refetch), r2.1)))
  {
  }

  /** A failed read other than "no rows": no sheet, nothing written, no insert tried. */
  lemma FetchErrorGivesNoSheet(j: Journal, t: Table, userId: UserId, today: string, now: int, f: Faults)
    requires Consistent(t) && f.fetch.Some? && f.fetch.value.code != NoRowsCode
    ensures var r := FetchOrCreate(j, t, userId, today, now, f);
            r.0.sheet == None && r.1 == t && r.0.issued == [SelectRequest(userId, today)]
  {
    var j1 := OnFetched(Begin(j, userId, today), t, f.fetch);
    assert j1.awaiting == Settled;
  }

  /** An existing sheet is returned as it is and the table is left alone. */
  lemma ExistingSheetReturned(j: Journal, t: Table, userId: UserId, today: string, now: int, f: Faults)
    requires Consistent(t) && f.fetch.None? && Find(t.rows, userId, today).Some?
    ensures var r := FetchOrCreate(j, t, userId, today, now, f);
            r.0.sheet == Find(t.rows, userId, today) && r.1 == t && r.0.issued == [SelectRequest(userId, today)]
  {
    var j1 := OnFetched(Begin(j, userId, today), t, f.fetch);
    assert j1.awaiting == Settled;
  }

  /**
   * No sheet found: exactly one insert, of an empty sheet for (userId, today),
   * and at most one re-read after it.
   */
  lemma MissingSheetInsertedOnce(j: Journal, t: Table, userId: UserId, today: string, now: int, f: Faults)
    requires Consistent(t) && FindsNothing(t, userId, today, f.fetch)
    ensures var r := FetchOrCreate(j, t, userId, today, now, f);
            || r.0.issued == [SelectRequest(userId, today), InsertRequest(userId, today, "")]
            || r.0.issued == [SelectRequest(userId, today), InsertRequest(userId, today, ""), SelectRequest(userId, today)]
  {
    var j1 := OnFetched(Begin(j, userId, today), t, f.fetch);
    assert j1.issued == [SelectRequest(userId, today), InsertRequest(userId, today, "")];
    FetchOrCreateSteps(j, t, userId, today, now, f);
    var r2 := OnInserted(j1, t, f.insert, now);
    if r2.0.awaiting == AwaitRefetch {
      assert OnRefetched(r2.0, r2.1, f.refetch).issued == r2.0.issued;
    }
  }

  /** The insert succeeds: the new empty record is the sheet, appended to the table. */
  lemma MissingSheetCreated(j: Journal, t: Table, userId: UserId, today: string, now: int, f: Faults)
    requires Consistent(t) && FindsNothing(t, userId, today, f.fetch)
    requires Find(t.rows, userId, today).None? && f.insert.None?
    ensures var r := FetchOrCreate(j, t, userId, today, now, f);
            var s := Sheet(t.nextId, userId, today, "", now, now);
            r.0.sheet == Some(s) && r.1.rows == t.rows + [s]
            && r.0.issued == [SelectRequest(userId, today), InsertRequest(userId, today, "")]
  {
    var j1 := OnFetched(Begin(j, userId, today), t, f.fetch);
    assert j1.awaiting == AwaitInsert;
  }

  /**
   * An insert refused as a duplicate, whether the table itself already holds
   * the key or the backend reports 23505 for its own reasons: exactly one
   * re-read, no second insert, nothing written.
   */
  lemma DuplicateInsertRefetches(j: Journal, t: Table, userId: UserId, today: string, now: int, f: Faults)
    requires Consistent(t) && FindsNothing(t, userId, today, f.fetch)
    requires var reply := InsertOne(t, userId, today, "", now, f.insert).0;
             reply.error.Some? && reply.error.value.code == UniqueViolationCode
    ensures var r := FetchOrCreate(j, t, userId, today, now, f);
            && r.0.issued == [SelectRequest(userId, today), InsertRequest(userId, today, ""), SelectRequest(userId, today)]
            && r.1 == t
            && r.0.sheet == (if f.refetch.Some? then None else Find(t.rows, userId, today))
  {
    var j1 := OnFetched(Begin(j, userId, today), t, f.fetch);
    assert j1.awaiting == AwaitInsert;
    var (j2, t2) := OnInserted(j1, t, f.insert, now);
    assert j2.awaiting == AwaitRefetch && t2 == t;
  }

  /** Any other insert failure: no sheet, nothing written, no re-read. */
  lemma OtherInsertErrorGivesNoSheet(j: Journal, t: Table, userId: UserId, today: string, now: int, f: Faults)
    requires Consistent(t) && FindsNothing(t, userId, today, f.fetch)
    requires f.insert.Some? && f.insert.value.code != UniqueViolationCode
    ensures var r := FetchOrCreate(j, t, userId, today, now, f);
            r.0.issued == [SelectRequest(userId, today), InsertRequest(userId, today, "")]
            && r.1 == t && r.0.sheet == None
  {
    var j1 := OnFetched(Begin(j, userId, today), t, f.fetch);
    assert j1.awaiting == AwaitInsert;
    var (j2, t2) := OnInserted(j1, t, f.insert, now);
    assert j2.awaiting == Settled && t2 == t;
  }

  /** The first read yields no sheet without failing outright: the call goes on to insert. */
  predicate FindsNothing(t: Table, userId: UserId, today: string, fault: Option<BackendError>) {
    if fault.Some? then fault.value.code == NoRowsCode else Find(t.rows, userId, today).None?
  }

  /** A call that ends holding a sheet holds the table's row for (userId, today), as it is afterwards. */
  lemma {:induction false} FetchOrCreateHoldsTheRow(j: Journal, t: Table, userId: UserId, today: string,
                                                   now: int, f: Faults)
    requires Consistent(t)
    ensures var (j', t') := FetchOrCreate(j, t, userId, today, now, f);
            j'.sheet.Some? ==> Find(t'.rows, userId, today) == j'.sheet
  {
    var j1 := OnFetched(Begin(j, userId, today), t, f.fetch);
    FetchOrCreateSteps(j, t, userId, today, now, f);
    if j1.awaiting == AwaitInsert {
      var (reply, t2) := InsertOne(t, userId, today, "", now, f.insert);
      if reply.error.None? {
        FindIsTheRow(t2.rows, userId, today, reply.data.value);
      }
    }
  }

  // ---------------------------------------------------------------------------
  // Several tabs at once: each tab is a Journal; they share one table.

  /**
   * One step of one tab: a call of `fetchOrCreateDailySheet` starts, the
   * backend's reply to the request the tab waits on arrives (carrying `fault`
   * if it fails, at clock `now`), or the tab's editor autosaves `content`.
   */
  datatype Move = Start(tab: nat, userId: UserId, today: string)
                | Answer(tab: nat, fault: Option<BackendError>, now: int)
                | Save(tab: nat, content: string, now: int, fault: Option<BackendError>)

  /**
   * A backend reply delivered to a tab: it resumes the continuation of the
   * await the tab is suspended at; a settled tab waits for nothing. Only the
   * insert's reply writes, and the call keeps its (user, day).
   */
  function Deliver(j: Journal, t: Table, fault: Option<BackendError>, now: int): (r: (Journal, Table))
    requires Consistent(t)
    ensures Consistent(r.1)
    ensures j.awaiting == Settled ==> r == (j, t)
    ensures j.awaiting == AwaitFetch ==> r == (OnFetched(j, t, fault), t)
    ensures j.awaiting == AwaitInsert ==> r == OnInserted(j, t, fault, now)
    ensures j.awaiting == AwaitRefetch ==> r == (OnRefetched(j, t, fault), t)
    ensures j.awaiting != AwaitInsert ==> r.1 == t
    ensures r.0.userId == j.userId && r.0.today == j.today
  {
    match j.awaiting
    case Settled => (j, t)
    case AwaitFetch => (OnFetched(j, t, fault), t)
    case AwaitInsert => OnInserted(j, t, fault, now)
    case AwaitRefetch => (OnRefetched(j, t, fault), t)
  }

  /**
   * Apply one move. It changes only the tab it names; a move for a tab that
   * does not exist, a start while a call is pending, or an answer nobody waits
   * for changes nothing; a start sends a read and writes nothing.
   */
  function Apply(tabs: seq<Journal>, t: Table, m: Move): (r: (seq<Journal>, Table))
    requires Consistent(t)
    ensures Consistent(r.1) && |r.0| == |tabs|
    ensures m.tab >= |tabs| ==> r == (tabs, t)
    ensures forall k :: 0 <= k < |tabs| && k != m.tab ==> r.0[k] == tabs[k]
    ensures m.Start? ==> r.1 == t
    ensures m.tab < |tabs| && m.Start? ==>
              r.0[m.tab] == if tabs[m.tab].awaiting == Settled then Begin(tabs[m.tab], m.userId, m.today) else tabs[m.tab]
    ensures m.tab < |tabs| && m.Answer? ==>
              (r.0[m.tab], r.1) == Deliver(tabs[m.tab], t, m.fault, m.now)
    ensures m.tab < |tabs| && m.Save? ==>
              (r.0[m.tab], r.1) == ContentSave(tabs[m.tab], t, m.content, m.now, m.fault)
  {
    if m.tab >= |tabs| then (tabs, t)
    else
      var j := tabs[m.tab];
      match m
      case Start(_, userId, today) =>
        if j.awaiting == Settled then (tabs[m.tab := Begin(j, userId, today)], t) else (tabs, t)
      case Answer(_, fault, now) =>
        var (j', t') := Deliver(j, t, fault, now);
        (tabs[m.tab := j'], t')
      case Save(_, content, now, fault) =>
        var (j', t') := ContentSave(j, t, content, now, fault);
        (tabs[m.tab := j'], t')
  }

  /** No move of `ms` is for tab `k`. */
  predicate Untouched(ms: seq<Move>, k: nat) {
    forall i :: 0 <= i < |ms| ==> ms[i].tab != k
  }

  /** The tabs and the table after a schedule of moves, oldest first; a tab no move names is left as it was. */
  function RunSchedule(tabs: seq<Journal>, t: Table, ms: seq<Move>): (r: (seq<Journal>, Table))
    requires Consistent(t)
    ensures Consistent(r.1) && |r.0| == |tabs|
    ensures forall k :: 0 <= k < |tabs| && Untouched(ms, k) ==> r.0[k] == tabs[k]
    decreases |ms|
  {
    if |ms| == 0 then (tabs, t)
    else
      var (tabs', t') := RunSchedule(tabs, t, ms[..|ms| - 1]);
      assert forall k :: Untouched(ms, k) ==> Untouched(ms[..|ms| - 1], k);
      Apply(tabs', t', ms[|ms| - 1])
  }

  /**
   * What each tab has sent in its latest call: a read, then at most one insert,
   * then at most one re-read, and nothing more. Which prefix it is matches what
   * the tab is waiting for.
   */
  ghost predicate Disciplined(j: Journal) {
    && (j.awaiting == AwaitFetch ==> j.issued == [SelectRequest(j.userId, j.today)])
    && (j.awaiting == AwaitInsert ==>
          j.issued == [SelectRequest(j.userId, j.today), InsertRequest(j.userId, j.today, "")])
    && (j.awaiting == AwaitRefetch ==>
          j.issued == [SelectRequest(j.userId, j.today), InsertRequest(j.userId, j.today, ""),
                       SelectRequest(j.userId, j.today)])
    && (j.awaiting == Settled ==>
          j.issued == [] || j.issued == [SelectRequest(j.userId, j.today)]
          || j.issued == [SelectRequest(j.userId, j.today), InsertRequest(j.userId, j.today, "")]
          || j.issued == [SelectRequest(j.userId, j.today), InsertRequest(j.userId, j.today, ""),
                          SelectRequest(j.userId, j.today)])
  }

  /**
   * A settled tab that holds a sheet holds one with its own key, and the table
   * still has that record: its row for the key carries the sheet's id. The
   * row's content may be newer than the tab's copy, as a save refreshes only
   * the table.
   */
  ghost predicate HoldsRow(j: Journal, t: Table) {
    j.sheet.Some? && j.awaiting == Settled ==>
      && HasKey(j.sheet.value, j.userId, j.today)
      && Find(t.rows, j.userId, j.today).Some?
      && Find(t.rows, j.userId, j.today).value.id == j.sheet.value.id
  }

  /** Every key `t` has a row for still has one in `t'`, with the same id (no move deletes a row or re-keys it). */
  ghost predicate KeepsRows(t: Table, t': Table) {
    forall userId, today :: Find(t.rows, userId, today).Some? ==>
      && Find(t'.rows, userId, today).Some?
      && Find(t'.rows, userId, today).value.id == Find(t.rows, userId, today).value.id
  }

  /** Per tab: a held sheet is the record the table has for the tab's key, and the request discipline holds. */
  ghost predicate TabsOk(tabs: seq<Journal>, t: Table) {
    forall k :: 0 <= k < |tabs| ==> HoldsRow(tabs[k], t) && Disciplined(tabs[k])
  }

  /** A table that only gains rows, under the constraint, keeps every key's row. */
  lemma GrowingKeepsRows(t: Table, t': Table)
    requires UniqueKeys(t'.rows) && forall s :: s in t.rows ==> s in t'.rows
    ensures KeepsRows(t, t')
  {
    forall userId, today | Find(t.rows, userId, today).Some?
      ensures Find(t'.rows, userId, today) == Find(t.rows, userId, today)
    {
      FindIsTheRow(t'.rows, userId, today, Find(t.rows, userId, today).value);
    }
  }

  /** An update of one row's content keeps every key's row and its id. */
  lemma UpdateKeepsRows(t: Table, id: SheetId, content: string, now: int)
    requires Consistent(t)
    ensures KeepsRows(t, UpdateById(t, id, content, now, None).1)
  {
    var rows' := UpdateById(t, id, content, now, None).1.rows;
    forall userId, today | Find(t.rows, userId, today).Some?
      ensures Find(rows', userId, today).Some?
              && Find(rows', userId, today).value.id == Find(t.rows, userId, today).value.id
    {
      var i :| 0 <= i < |t.rows| && t.rows[i] == Find(t.rows, userId, today).value;
      FindIsTheRow(rows', userId, today, rows'[i]);
    }
  }

  /** A delivered reply keeps the tab's discipline and its hold on its row, and keeps every key's row. */
  lemma DeliverKeepsTab(j: Journal, t: Table, fault: Option<BackendError>, now: int)
    requires Consistent(t) && HoldsRow(j, t) && Disciplined(j)
    ensures var (j', t') := Deliver(j, t, fault, now);
            HoldsRow(j', t') && Disciplined(j') && KeepsRows(t, t')
  {
    match j.awaiting
    case Settled =>
    case AwaitFetch => FetchReplyKeepsTab(j, t, fault);
    case AwaitInsert => InsertReplyKeepsTab(j, t, fault, now);
    case AwaitRefetch => RefetchReplyKeepsTab(j, t, fault);
  }

  lemma FetchReplyKeepsTab(j: Journal, t: Table, fault: Option<BackendError>)
    requires j.awaiting == AwaitFetch && Disciplined(j)
    ensures HoldsRow(OnFetched(j, t, fault), t) && Disciplined(OnFetched(j, t, fault))
  {
  }

  lemma InsertReplyKeepsTab(j: Journal, t: Table, fault: Option<BackendError>, now: int)
    requires j.awaiting == AwaitInsert && Consistent(t) && Disciplined(j)
    ensures var (j', t') := OnInserted(j, t, fault, now);
            HoldsRow(j', t') && Disciplined(j') && KeepsRows(t, t')
  {
    var (reply, t') := InsertOne(t, j.userId, j.today, "", now, fault);
    if reply.error.None? {
      GrowingKeepsRows(t, t');
      FindIsTheRow(t'.rows, j.userId, j.today, reply.data.value);
    }
  }

  lemma RefetchReplyKeepsTab(j: Journal, t: Table, fault: Option<BackendError>)
    requires j.awaiting == AwaitRefetch && Disciplined(j)
    ensures HoldsRow(OnRefetched(j, t, fault), t) && Disciplined(OnRefetched(j, t, fault))
  {
  }

  /** An autosave keeps the saving tab's state apart from its toasts, and keeps every key's row and its id. */
  lemma SaveKeepsTab(j: Journal, t: Table, content: string, now: int, fault: Option<BackendError>)
    requires Consistent(t) && HoldsRow(j, t) && Disciplined(j)
    ensures var (j', t') := ContentSave(j, t, content, now, fault);
            HoldsRow(j', t') && Disciplined(j') && KeepsRows(t, t')
  {
    if j.sheet.Some? && fault.None? {
      UpdateKeepsRows(t, j.sheet.value.id, content, now);
    }
  }

  /** A tab's hold on its record survives any table that keeps every key's row. */
  lemma HoldsRowKept(j: Journal, t: Table, t': Table)
    requires HoldsRow(j, t) && KeepsRows(t, t')
    ensures HoldsRow(j, t')
  {
  }

  lemma {:induction false} ApplyKeepsTabsOk(tabs: seq<Journal>, t: Table, m: Move)
    requires Consistent(t) && TabsOk(tabs, t)
    ensures TabsOk(Apply(tabs, t, m).0, Apply(tabs, t, m).1)
    ensures KeepsRows(t, Apply(tabs, t, m).1)
  {
    var (tabs', t') := Apply(tabs, t, m);
    if m.tab < |tabs| && !m.Start? {
      var j := tabs[m.tab];
      assert HoldsRow(j, t) && Disciplined(j);
      if m.Answer? {
        DeliverKeepsTab(j, t, m.fault, m.now);
      } else {
        SaveKeepsTab(j, t, m.content, m.now, m.fault);
      }
      forall k | 0 <= k < |tabs'|
        ensures HoldsRow(tabs'[k], t') && Disciplined(tabs'[k])
      {
        if k != m.tab {
          assert tabs'[k] == tabs[k] && HoldsRow(tabs[k], t) && Disciplined(tabs[k]);
          HoldsRowKept(tabs[k], t, t');
        }
      }
    } else {
      forall k | 0 <= k < |tabs'|
        ensures HoldsRow(tabs'[k], t') && Disciplined(tabs'[k])
      {
        assert HoldsRow(tabs[k], t) && Disciplined(tabs[k]);
      }
    }
  }

  /**
   * Whatever the interleaving of any number of tabs, their autosaves and the
   * backend's failures: the unique constraint holds, every tab sends at most
   * one insert and at most one re-read per call, and every sheet a settled tab
   * holds is the record the table has for that tab's (user, day).
   */
  lemma {:induction false} ScheduleKeepsTabsOk(tabs: seq<Journal>, t: Table, ms: seq<Move>)
    requires Consistent(t) && TabsOk(tabs, t)
    ensures TabsOk(RunSchedule(tabs, t, ms).0, RunSchedule(tabs, t, ms).1)
    decreases |ms|
  {
    if |ms| > 0 {
      ScheduleKeepsTabsOk(tabs, t, ms[..|ms| - 1]);
      var (tabs', t') := RunSchedule(tabs, t, ms[..|ms| - 1]);
      ApplyKeepsTabsOk(tabs', t', ms[|ms| - 1]);
    }
  }

  /**
   * Two tabs racing to create the same day's sheet end, if both end with a
   * sheet, holding the same record: the id of the table's one row for that
   * (user, day). Their copies of its content may differ
   * (`SavedContentIsNotShared`).
   */
  lemma SameRecordForBothTabs(tabs: seq<Journal>, t: Table, ms: seq<Move>, a: nat, b: nat)
    requires Consistent(t) && TabsOk(tabs, t)
    requires a < |tabs| && b < |tabs|
    requires var (tabs', _) := RunSchedule(tabs, t, ms);
             && tabs'[a].awaiting == Settled && tabs'[b].awaiting == Settled
             && tabs'[a].sheet.Some? && tabs'[b].sheet.Some?
             && tabs'[a].userId == tabs'[b].userId && tabs'[a].today == tabs'[b].today
    ensures var (tabs', t') := RunSchedule(tabs, t, ms);
            var row := Find(t'.rows, tabs'[a].userId, tabs'[a].today);
            && tabs'[a].sheet.value.id == tabs'[b].sheet.value.id
            && row.Some? && row.value.id == tabs'[a].sheet.value.id
            && forall i :: 0 <= i < |t'.rows| && HasKey(t'.rows[i], tabs'[a].userId, tabs'[a].today)
                 ==> t'.rows[i] == row.value
  {
    ScheduleKeepsTabsOk(tabs, t, ms);
    var (tabs', t') := RunSchedule(tabs, t, ms);
    assert HoldsRow(tabs'[a], t') && HoldsRow(tabs'[b], t');
    forall i | 0 <= i < |t'.rows| && HasKey(t'.rows[i], tabs'[a].userId, tabs'[a].today)
      ensures t'.rows[i] == Find(t'.rows, tabs'[a].userId, tabs'[a].today).value
    {
      FindIsTheRow(t'.rows, tabs'[a].userId, tabs'[a].today, t'.rows[i]);
    }
  }

  /**
   * The race with an autosave in it: both tabs read nothing, tab 0 creates the
   * sheet and saves "x" into it, tab 1's insert is refused and its re-read
   * returns the saved row.
   */
  const Race: seq<Move> :=
    [Start(0, "u", "d"), Start(1, "u", "d"), Answer(0, None, 0), Answer(1, None, 0),
     Answer(0, None, 1), Save(0, "x", 2, None), Answer(1, None, 3), Answer(1, None, 4)]

  /** The race after its first k + 1 moves is the state after k moves with move k applied. */
  lemma RaceStep(k: nat)
    requires k < |Race|
    ensures var before := RunSchedule([Mounted, Mounted], Empty, Race[..k]);
            RunSchedule([Mounted, Mounted], Empty, Race[..k + 1]) == Apply(before.0, before.1, Race[k])
  {
    assert Race[..k + 1][..k] == Race[..k];
  }

  /** Tab state in `Race`: a call for ("u", "d") waiting for its read. */
  const Reading: Journal := Begin(Mounted, "u", "d")
  /** ... waiting for its insert. */
  const Inserting: Journal := Reading.(awaiting := AwaitInsert, issued := Reading.issued + [InsertRequest("u", "d", "")])
  /** The row tab 0 creates at clock 1. */
  const Created: Sheet := Sheet(0, "u", "d", "", 1, 1)

  lemma RaceStarts()
    ensures RunSchedule([Mounted, Mounted], Empty, Race[..2]).0 == [Reading, Reading]
    ensures RunSchedule([Mounted, Mounted], Empty, Race[..2]).1 == Empty
  {
    assert Race[..0] == [];
    assert RunSchedule([Mounted, Mounted], Empty, Race[..0]) == ([Mounted, Mounted], Empty);
    RaceStep(0);
    assert Apply([Mounted, Mounted], Empty, Start(0, "u", "d")).0 == [Reading, Mounted];
    RaceStep(1);
    assert Apply([Reading, Mounted], Empty, Start(1, "u", "d")).0 == [Reading, Reading];
  }

  lemma RaceReads()
    ensures RunSchedule([Mounted, Mounted], Empty, Race[..4]).0 == [Inserting, Inserting]
    ensures RunSchedule([Mounted, Mounted], Empty, Race[..4]).1 == Empty
  {
    RaceStarts();
    RaceStep(2);
    assert Apply([Reading, Reading], Empty, Answer(0, None, 0)).0 == [Inserting, Reading];
    RaceStep(3);
    assert Apply([Inserting, Reading], Empty, Answer(1, None, 0)).0 == [Inserting, Inserting];
  }

  lemma RaceCreates()
    ensures RunSchedule([Mounted, Mounted], Empty, Race[..5]).0[0].sheet == Some(Created)
    ensures RunSchedule([Mounted, Mounted], Empty, Race[..5]).0[0].awaiting == Settled
    ensures RunSchedule([Mounted, Mounted], Empty, Race[..5]).0[1] == Inserting
    ensures RunSchedule([Mounted, Mounted], Empty, Race[..5]).1 == Table([Created], 1)
  {
    RaceReads();
    RaceStep(4);
    var (reply, t') := InsertOne(Empty, "u", "d", "", 1, None);
    assert reply.data == Some(Created) && t' == Table([Created], 1);
  }

  lemma RaceCreatesAndSaves()
    ensures RunSchedule([Mounted, Mounted], Empty, Race[..6]).0[0].sheet == Some(Created)
    ensures RunSchedule([Mounted, Mounted], Empty, Race[..6]).0[1] == Inserting
    ensures RunSchedule([Mounted, Mounted], Empty, Race[..6]).1 == Table([Created.(content := "x", updatedAt := 2)], 1)
  {
    RaceCreates();
    RaceStep(5);
    var (tabs5, t5) := RunSchedule([Mounted, Mounted], Empty, Race[..5]);
    assert UpdateById(t5, 0, "x", 2, None).1.rows == [Created.(content := "x", updatedAt := 2)];
  }

  lemma RaceRefused()
    ensures RunSchedule([Mounted, Mounted], Empty, Race[..7]).0[0].sheet == Some(Created)
    ensures RunSchedule([Mounted, Mounted], Empty, Race[..7]).0[1].awaiting == AwaitRefetch
    ensures RunSchedule([Mounted, Mounted], Empty, Race[..7]).0[1].userId == "u"
    ensures RunSchedule([Mounted, Mounted], Empty, Race[..7]).0[1].today == "d"
    ensures RunSchedule([Mounted, Mounted], Empty, Race[..7]).1 == Table([Created.(content := "x", updatedAt := 2)], 1)
  {
    RaceCreatesAndSaves();
    RaceStep(6);
  }

  /**
   * In `Race` both tabs end holding record 0, but tab 0's copy still has the
   * empty content it created while tab 1's has "x": a tab's sheet is the
   * table's record, not necessarily its latest content.
   */
  lemma SavedContentIsNotShared()
    ensures RunSchedule([Mounted, Mounted], Empty, Race).0[0].sheet == Some(Sheet(0, "u", "d", "", 1, 1))
    ensures RunSchedule([Mounted, Mounted], Empty, Race).0[1].sheet == Some(Sheet(0, "u", "d", "x", 1, 2))
    ensures RunSchedule([Mounted, Mounted], Empty, Race).1.rows == [Sheet(0, "u", "d", "x", 1, 2)]
  {
    RaceRefused();
    RaceStep(7);
    assert Race[..8] == Race;
  }

  // ---------------------------------------------------------------------------
  // The rest of the component's handlers.

  /** Lines 115-122: the effect run when `user` changes. */
  function UserEffect(j: Journal, t: Table, user: Option<UserId>, today: string, now: int, f: Faults)
    : (r: (Journal, Table))
    requires Consistent(t)
    ensures Consistent(r.1)
    ensures !r.0.loading
    // no user: the sheet is dropped and no request is sent
    ensures user.None? ==> && r.0.sheet == None && r.1 == t
                           && r.0.issued == j.issued && r.0.awaiting == j.awaiting && r.0.toasts == j.toasts
    // a user: a whole call for that user and today
    ensures user.Some? ==> && r.0.awaiting == Settled && r.0.userId == user.value && r.0.today == today
                           && j.toasts <= r.0.toasts
  {
    if user.Some? then FetchOrCreate(j, t, user.value, today, now, f)
    else (j.(sheet := None, loading := false), t)
  }

  /** Lines 141-151: the sheet is dropped only when sign-out succeeds. */
  function SignOut(j: Journal, error: Option<string>): (r: Journal)
    ensures !r.loading
    ensures error.None? ==> r.sheet == None && r.toasts == j.toasts + [SuccessToast("Signed out successfully!")]
    ensures error.Some? ==> r.sheet == j.sheet && r.toasts == j.toasts + [ErrorToast(error.value)]
  {
    if error.Some? then j.(loading := false, toasts := j.toasts + [ErrorToast(error.value)])
    else j.(loading := false, sheet := None, toasts := j.toasts + [SuccessToast("Signed out successfully!")])
  }

  /** Lines 153-166: autosave into the held sheet's row; nothing is sent when no sheet is held. */
  function ContentSave(j: Journal, t: Table, content: string, now: int, fault: Option<BackendError>)
    : (r: (Journal, Table))
    requires Consistent(t)
    ensures Consistent(r.1) && r.1.nextId == t.nextId && |r.1.rows| == |t.rows|
    ensures j.sheet.None? ==> r == (j, t)
    // only the row with the held sheet's id changes, and only its content and updated_at
    ensures j.sheet.Some? && fault.None? ==>
              forall i :: 0 <= i < |t.rows| ==>
                r.1.rows[i] == if t.rows[i].id == j.sheet.value.id
                               then t.rows[i].(content := content, updatedAt := now) else t.rows[i]
    ensures j.sheet.Some? && fault.None? ==> r.0 == j
    ensures j.sheet.Some? && fault.Some? ==>
              r.1 == t && r.0 == j.(toasts := j.toasts + [ErrorToast("Failed to auto-save: " + fault.value.message)])
  {
    if j.sheet.None? then (j, t)
    else
      var (error, t') := UpdateById(t, j.sheet.value.id, content, now, fault);
      if error.Some? then (j.(toasts := j.toasts + [ErrorToast("Failed to auto-save: " + error.value.message)]), t')
      else (j, t')
  }

  /**
   * The component, with its state hooks as fields and the shared backend as
   * `db`. Each handler's body follows the source statement by statement; its
   * postcondition ties the result to the step functions above.
   */
  class DailyJournalComponent {
    const db: Backend
    var loading: bool
    var dailySheet: Option<Sheet>
    var userId: UserId
    var today: string
    var toasts: seq<Toast>
    // where the pending call is suspended and what it has sent: bookkeeping for the proofs
    ghost var awaiting: Await
    ghost var issued: seq<Request>

    ghost function State(): Journal reads this {
      Journal(loading, dailySheet, awaiting, userId, today, toasts, issued)
    }

    constructor (db: Backend)
      ensures this.db == db && State() == Mounted
    {
      this.db := db;
      loading, dailySheet, userId, today, toasts := true, None, "", "", [];
      awaiting, issued := Settled, [];
    }

    /** `fetchOrCreateDailySheet(userId)`, with no other tab acting while it waits. */
    method FetchOrCreateDailySheet(uid: UserId, day: string, now: int, f: Faults)
      requires db.Valid()
      modifies this, db
      ensures db.Valid()
      ensures (State(), db.table) == FetchOrCreate(old(State()), old(db.table), uid, day, now, f)
    {
      ghost var t0 := db.table;
      FetchOrCreateSteps(old(State()), t0, uid, day, now, f);
      loading, userId, today := true, uid, day;
      awaiting, issued := AwaitFetch, [SelectRequest(uid, day)];
      assert State() == Begin(old(State()), uid, day);
      var fetched := db.Select(uid, day, f.fetch);
      var insert := AfterFetch(fetched, t0, f.fetch);
      if insert {
        var created := db.Insert(uid, day, "", now, f.insert);
        var refetch := AfterInsert(created, t0, f.insert, now);
        if refetch {
          ghost var t2 := db.table;
          var refetched := db.Select(uid, day, f.refetch);
          AfterRefetch(refetched, t2, f.refetch);
        }
      }
    }

    /** Lines 39-54: what runs once the read has answered `fetched`. */
    method AfterFetch(fetched: Reply, ghost t: Table, ghost fault: Option<BackendError>) returns (insert: bool)
      requires awaiting == AwaitFetch && fetched == SelectOne(t, userId, today, fault)
      modifies this
      ensures State() == OnFetched(old(State()), t, fault)
      ensures insert <==> awaiting == AwaitInsert
    {
      insert := false;
      if fetched.error.Some? && fetched.error.value.code != NoRowsCode {
        toasts := toasts + [ErrorToast("Failed to load daily sheet: " + fetched.error.value.message)];
        dailySheet, loading, awaiting := None, false, Settled;
        return;
      }
      if fetched.data.Some? {
        dailySheet := fetched.data;
        loading, awaiting := false, Settled;
      } else {
        awaiting, issued := AwaitInsert, issued + [InsertRequest(userId, today, "")];
        insert := true;
      }
    }

    /** Lines 56-80: what runs once the insert has answered `created`. */
    method AfterInsert(created: Reply, ghost t: Table, ghost fault: Option<BackendError>, ghost now: int)
      returns (refetch: bool)
      requires awaiting == AwaitInsert && Consistent(t)
      requires created == InsertOne(t, userId, today, "", now, fault).0
      modifies this
      ensures State() == OnInserted(old(State()), t, fault, now).0
      ensures refetch <==> awaiting == AwaitRefetch
    {
      refetch := false;
      if created.error.Some? {
        if created.error.value.code == UniqueViolationCode {
          awaiting, issued := AwaitRefetch, issued + [SelectRequest(userId, today)];
          refetch := true;
        } else {
          toasts := toasts + [ErrorToast("Failed to create daily sheet: " + created.error.value.message)];
          dailySheet, loading, awaiting := None, false, Settled;
        }
      } else {
        toasts := toasts + [SuccessToast("New daily sheet created for " + today + "!")];
        dailySheet, loading, awaiting := created.data, false, Settled;
      }
    }

    /** Lines 66-72 and 82: what runs once the re-read has answered `refetched`. */
    method AfterRefetch(refetched: Reply, ghost t: Table, ghost fault: Option<BackendError>)
      requires awaiting == AwaitRefetch && refetched == SelectOne(t, userId, today, fault)
      modifies this
      ensures State() == OnRefetched(old(State()), t, fault)
    {
      if refetched.error.Some? {
        toasts := toasts + [ErrorToast("Failed to retrieve daily sheet after concurrent creation: "
                                       + refetched.error.value.message)];
        dailySheet := None;
      } else {
        dailySheet := refetched.data;
        toasts := toasts + [SuccessToast("Daily sheet retrieved after concurrent creation!")];
      }
      loading, awaiting := false, Settled;
    }

    /** The effect on `user`: fetch or create for a signed-in user, otherwise clear. */
    method OnUserChange(user: Option<UserId>, day: string, now: int, f: Faults)
      requires db.Valid()
      modifies this, db
      ensures db.Valid()
      ensures (State(), db.table) == UserEffect(old(State()), old(db.table), user, day, now, f)
    {
      if user.Some? {
        FetchOrCreateDailySheet(user.value, day, now, f);
      } else {
        dailySheet := None;
        loading := false;
      }
    }

    /** `handleSignOut`, given what `auth.signOut()` answered. */
    method HandleSignOut(error: Option<string>)
      modifies this
      ensures State() == SignOut(old(State()), error)
    {
      loading := true;
      if error.Some? {
        toasts := toasts + [ErrorToast(error.value)];
      } else {
        toasts := toasts + [SuccessToast("Signed out successfully!")];
        dailySheet := None;
      }
      loading := false;
    }

    /** `handleContentSave(newContent)`, the editor's autosave callback. */
    method HandleContentSave(newContent: string, now: int, fault: Option<BackendError>)
      requires db.Valid()
      modifies this, db
      ensures db.Valid()
      ensures (State(), db.table) == ContentSave(old(State()), old(db.table), newContent, now, fault)
    {
      if dailySheet.None? {
        return;
      }
      var error := db.Update(dailySheet.value.id, newContent, now, fault);
      if error.Some? {
        toasts := toasts + [ErrorToast("Failed to auto-save: " + error.value.message)];
      }
    }
  }
}
