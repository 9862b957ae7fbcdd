# Juday daily journal — a Dafny model of its core

Juday is a journal app with one markdown sheet per user per day. This project
models the part of it that decides what gets stored and shown:

- **Today's sheet** (`DailyJournal.tsx`).
  - Fetch the signed-in user's sheet for today, or create it when there is none.
  - When the insert hits the unique constraint because another tab created the sheet first, read it again.
  - Autosave the editor's text into that sheet.
  - Drop the sheet on sign-out or when the user goes away.
  - The fetch is asynchronous, so it is cut at its awaits into steps. Any number of tabs can interleave those steps, and their autosaves, over one shared table.
- **The export action** (`actions.ts`). It returns an error for each of the three guards. Otherwise it returns one markdown document:
  - Each sheet becomes a block: `---<title>`, a blank line, then the content.
  - Blocks are joined by three newlines.
  - The filename is `juday-data-<timestamp>.md`.
- **The two editors** (`LiveMarkdownEditor.tsx`, `DailySheetEditor.tsx`).
  - Both autosave with a 1000 ms trailing-edge debounce.
  - The rich editor also syncs the `initialContent` prop and holds one realtime channel per sheet. Remote updates apply last-writer-wins.
  - The textarea editor resets its content on a prop change.
- **The idle detector** (`use-user-activity.tsx`). A flag turns false after 2000 ms without one of five window events.

Module layout:

- `Wrappers` holds `Option`.
- `Timers` is a single-slot timer (`Slot`).
- `Debounce` is the save debouncer both editors share, with its trace lemmas.
- `SheetStore` is the `sheets` table with its (user, title) constraint and the three requests the journal sends. Its class `Backend` is the table as shared mutable state.
- `DailyJournal`, `Export`, `LiveMarkdownEditor`, `DailySheetEditor` and `UserActivity` follow the source files of the same names.

Every component is modelled twice:

- A pure state datatype with one step function per handler or effect, and the lemmas about traces of steps.
- A class whose fields are the component's state hooks and refs. Each method is one handler, proved to produce exactly the step function's new state.

Clock readings, today's date, the export timestamp and backend failures are parameters. Timers fire through explicit `Tick` events.

## Model

| member | source | states |
|---|---|---|
| `Timers.Rearm` | src/components/LiveMarkdownEditor.tsx:51-56 | Clearing the held timer and setting a new one leaves exactly one pending timer with the new payload. It is not due at `now + delay - 1` (so not before) and is due at `now + delay`. |
| `Debounce.Step` | src/components/LiveMarkdownEditor.tsx:49-57 | A change replaces any pending save with one of its own text, due 1000 ms later, and saves nothing. A tick at or after the deadline saves the pending text once and empties the slot. An earlier tick changes nothing. |
| `Debounce.Cancel` | src/components/LiveMarkdownEditor.tsx:112-118 | Unmount clears the pending save without running it. |
| `Debounce.SavedOnlyGrows` | src/components/LiveMarkdownEditor.tsx:54-56 | Over any trace, what has been handed to `onContentChange` is only ever extended. |
| `Debounce.PendingCarriesLastChange` | src/components/LiveMarkdownEditor.tsx:49-57 | After any trace containing a change, the only save that can be pending carries the most recent change's text and is due 1000 ms after it. |
| `Debounce.SaveIsLastChange` | src/components/LiveMarkdownEditor.tsx:50-56 | Starting from no pending save, a save that runs carries the text of the most recent change. It runs only once the clock is 1000 ms past that change, and some change must have happened. |
| `Debounce.IdleWithoutChange` | src/components/DailySheetEditor.tsx:28-33 | With no change in the trace, nothing is ever scheduled or saved. |
| `Debounce.NothingAfterCancel` | src/components/DailySheetEditor.tsx:36-43 | After the cleanup, no later tick saves anything. |
| `Debounce.TightBurstSavesNothing` | src/components/DailySheetEditor.tsx:28-33 | While changes keep coming less than 1000 ms apart, no save runs. |
| `Debounce.TightBurstSavesOnce` | src/components/DailySheetEditor.tsx:28-33 | A burst of changes less than 1000 ms apart, then 1000 ms of silence, makes exactly one save. That save carries the burst's last text. |
| `Debounce.LooseBurstSavesTwice` | src/components/LiveMarkdownEditor.tsx:49-57 | The converse: if any gap in the burst reaches 1000 ms, the settled burst saves at least twice. |
| `SheetStore.Find` | src/components/DailyJournal.tsx:32-37 | The row found has the requested user and title. When none is found, no row has that key. |
| `SheetStore.FindIsTheRow` | src/components/DailyJournal.tsx:56-58 | Under the unique (user_id, title) constraint, any row with a key is the one `Find` returns. |
| `SheetStore.SelectOne` | src/components/DailyJournal.tsx:32-37 | A `.single()` read returns the failure, the one matching row, or the "no rows" error PGRST116. |
| `SheetStore.InsertOne` | src/components/DailyJournal.tsx:50-54 | An insert succeeds with a fresh row appended exactly when there is no failure and no row with the key. Otherwise it reports unique violation 23505 or the failure and leaves the table unchanged. Uniqueness and fresh ids are kept. |
| `SheetStore.SetContent` | src/components/DailyJournal.tsx:155-158 | Only the row with the given id gets the new content and updated_at. Every other row is unchanged. |
| `SheetStore.UpdateById` | src/components/DailyJournal.tsx:155-158 | An update returns the backend's failure and leaves the table alone, or applies `SetContent`. The constraint is kept. |
| `SheetStore.Backend.Select` | src/components/DailyJournal.tsx:32-37 | The request method answers as `SelectOne` on the current table. |
| `SheetStore.Backend.Insert` | src/components/DailyJournal.tsx:50-54 | The request method changes the shared table as `InsertOne` does and keeps it consistent. |
| `SheetStore.Backend.Update` | src/components/DailyJournal.tsx:155-158 | The request method changes the shared table as `UpdateById` does and keeps it consistent. |
| `DailyJournal.Begin` | src/components/DailyJournal.tsx:28-37 | The call switches loading on and sends exactly one read for (user, today). |
| `DailyJournal.OnFetched` | src/components/DailyJournal.tsx:39-54 | A read error other than PGRST116 ends the call with no sheet and loading off. An existing row is taken as it is. Finding nothing sends exactly one insert of an empty sheet. |
| `DailyJournal.OnInserted` | src/components/DailyJournal.tsx:56-80 | A 23505 refusal sends exactly one re-read. Any other error ends with no sheet. Success holds the inserted row. Loading is off unless a re-read follows. |
| `DailyJournal.OnRefetched` | src/components/DailyJournal.tsx:59-72 | The re-read ends the call with loading off, holding the row found, or no sheet if the re-read failed. |
| `DailyJournal.FetchOrCreate` | src/components/DailyJournal.tsx:27-83 | Every path, whether it returns early or falls through, ends with loading off and nothing pending. The call keeps its user and today. The unique constraint is kept and toasts are only added. |
| `DailyJournal.FetchErrorGivesNoSheet` | src/components/DailyJournal.tsx:39-44 | A read error other than PGRST116 gives no sheet. The only request sent is the read, so no insert is tried, and the table is unchanged. |
| `DailyJournal.ExistingSheetReturned` | src/components/DailyJournal.tsx:46-47 | An existing sheet for (user, today) comes back unchanged. Only the read is sent and the table is unchanged. |
| `DailyJournal.MissingSheetInsertedOnce` | src/components/DailyJournal.tsx:49-72 | When the read finds nothing, the call sends the read, exactly one insert of an empty sheet for (user, today), and at most one re-read after it. |
| `DailyJournal.MissingSheetCreated` | src/components/DailyJournal.tsx:49-54 | A successful insert: the sheet is the new record (user, today, "") appended to the table. |
| `DailyJournal.DuplicateInsertRefetches` | src/components/DailyJournal.tsx:56-72 | An insert refused with 23505 leads to exactly one re-read and no second insert. This holds whether the table itself already has the key or the backend reports the code for its own reasons. Nothing is written. The sheet is the re-read row, or none if the re-read failed. |
| `DailyJournal.OtherInsertErrorGivesNoSheet` | src/components/DailyJournal.tsx:73-76 | Any other insert error gives no sheet, no re-read and no write. |
| `DailyJournal.FetchOrCreateHoldsTheRow` | src/components/DailyJournal.tsx:46-79 | Whenever a call ends holding a sheet, it is the table's row for (user, today). |
| `DailyJournal.Deliver` | src/components/DailyJournal.tsx:32-76 | A reply resumes the continuation of the await the tab is suspended at: the read's reply runs `OnFetched`, the insert's `OnInserted`, the re-read's `OnRefetched`. A settled tab ignores it. Only the insert's reply writes, and the call keeps its user and day. |
| `DailyJournal.Apply` | src/components/DailyJournal.tsx:27-166 | One move of one tab. A start begins a call if the tab is settled and writes nothing. A reply is `Deliver`ed to the tab. An autosave runs `ContentSave` for the tab against the shared table. Every other tab is unchanged, and a move for a missing tab changes nothing. |
| `DailyJournal.RunSchedule` | src/components/DailyJournal.tsx:27-166 | Moves are applied oldest first. The constraint is kept, and a tab that no move names is left as it was. |
| `DailyJournal.FetchReplyKeepsTab` | src/components/DailyJournal.tsx:39-54 | After the read's reply, a tab holding a sheet holds a row with its own key. Its requests stay within the read, insert, re-read discipline. |
| `DailyJournal.InsertReplyKeepsTab` | src/components/DailyJournal.tsx:50-80 | After the insert's reply, the same holds. Every key that had a row still has it, with the same id. |
| `DailyJournal.RefetchReplyKeepsTab` | src/components/DailyJournal.tsx:59-72 | After the re-read's reply, the same holds. |
| `DailyJournal.SaveKeepsTab` | src/components/DailyJournal.tsx:153-158 | An autosave keeps the saving tab's hold and discipline, and every key keeps its row and id. |
| `DailyJournal.GrowingKeepsRows` | src/components/DailyJournal.tsx:50-54 | A table that only gains rows, under the constraint, keeps every key's row. |
| `DailyJournal.UpdateKeepsRows` | src/components/DailyJournal.tsx:155-158 | Updating one row's content keeps every key's row and its id. |
| `DailyJournal.HoldsRowKept` | src/components/DailyJournal.tsx:153-158 | A tab's hold on its record survives any move that keeps every key's row and id. |
| `DailyJournal.DeliverKeepsTab` | src/components/DailyJournal.tsx:32-76 | Whatever reply a tab receives keeps its discipline and its hold on its record. Every key keeps its row and that row's id. |
| `DailyJournal.ApplyKeepsTabsOk` | src/components/DailyJournal.tsx:50-158 | One move of any tab keeps the constraint and the request discipline (at most one insert, at most one re-read). The move is a start, a reply, or an autosave. Every settled tab still holds the id of its key's row. |
| `DailyJournal.ScheduleKeepsTabsOk` | src/components/DailyJournal.tsx:50-158 | The same holds for any interleaving of any number of tabs, their autosaves and any backend failures. |
| `DailyJournal.SameRecordForBothTabs` | src/components/DailyJournal.tsx:56-72 | Two tabs that race to create the same day's sheet, if both end with a sheet, hold the same record: the id of the table's one row for that key. Autosaves may interleave. The table holds exactly that one row for the key. |
| `DailyJournal.SavedContentIsNotShared` | src/components/DailyJournal.tsx:56-158 | In a race where tab 0 creates the sheet and saves "x" before tab 1 re-reads, both tabs hold record 0. Tab 0's copy still has the empty content it created, and tab 1's has "x": a tab's sheet is the table's record, not necessarily its latest content. |
| `DailyJournal.UserEffect` | src/components/DailyJournal.tsx:115-122 | A null user means no sheet, loading off and no request: the table, the sent requests, the pending await and the toasts stay as they were. A signed-in user gets a whole call for that user and today, which ends settled with loading off. |
| `DailyJournal.SignOut` | src/components/DailyJournal.tsx:141-151 | A successful sign-out clears the sheet with a success toast. A failed one keeps the sheet and shows the error. Loading ends off. |
| `DailyJournal.ContentSave` | src/components/DailyJournal.tsx:153-166 | With no sheet nothing happens. Otherwise only the row with the held sheet's id changes, in content and updated_at, and the component state stays as it was. A failure leaves the table alone and only adds an "auto-save" error toast. |
| `DailyJournal.DailyJournalComponent.constructor` | src/components/DailyJournal.tsx:23-24 | The component starts loading with no sheet. |
| `DailyJournal.DailyJournalComponent.FetchOrCreateDailySheet` | src/components/DailyJournal.tsx:27-83 | The handler sends its requests to the shared backend and runs each continuation after the matching await. It yields exactly `FetchOrCreate`'s state and table. |
| `DailyJournal.DailyJournalComponent.AfterFetch` | src/components/DailyJournal.tsx:39-54 | The code after the read's await, statement by statement, yields exactly `OnFetched`'s state. It reports whether the handler goes on to insert. |
| `DailyJournal.DailyJournalComponent.AfterInsert` | src/components/DailyJournal.tsx:56-80 | The code after the insert's await yields exactly `OnInserted`'s state. It reports whether the handler goes on to re-read. |
| `DailyJournal.DailyJournalComponent.AfterRefetch` | src/components/DailyJournal.tsx:66-72 | The code after the re-read's await yields exactly `OnRefetched`'s state, with loading switched off as at line 82. |
| `DailyJournal.DailyJournalComponent.OnUserChange` | src/components/DailyJournal.tsx:115-122 | The effect yields exactly `UserEffect`'s state and table. |
| `DailyJournal.DailyJournalComponent.HandleSignOut` | src/components/DailyJournal.tsx:141-151 | The handler yields exactly `SignOut`'s state. |
| `DailyJournal.DailyJournalComponent.HandleContentSave` | src/components/DailyJournal.tsx:153-166 | The handler yields exactly `ContentSave`'s state and table. |
| `Export.ContentText` | src/app/actions.ts:39 | Null content gives "". Otherwise the content is kept as is. |
| `Export.Block` | src/app/actions.ts:39 | A block starts with "---", the title and a blank line, and is exactly as long as that header plus the content. |
| `Export.BlockLayout` | src/app/actions.ts:39 | Slice by slice, a block is "---", the title, "\n\n", and then exactly the content ("" for null). |
| `Export.Blocks` | src/app/actions.ts:38-39 | One block per sheet, in the order given. |
| `Export.Join` | src/app/actions.ts:40 | Joining no parts gives "". Otherwise the join begins with the first part. |
| `Export.Document` | src/app/actions.ts:38-40 | No sheets give the empty document. Otherwise the document begins with the first sheet's block. |
| `Export.Filename` | src/app/actions.ts:42-43 | The name is "juday-data-", the timestamp, then ".md", and nothing else. |
| `Export.ExportAllData` | src/app/actions.ts:13-50 | No user gives the login error. A fetch error gives the message-carrying error. No or zero sheets gives "No data found to export.". A success result happens exactly when none of these apply, and carries the filename and the document. |
| `Export.DocumentBlockAt` | src/app/actions.ts:38-40 | Block i sits at its offset, in order: "---", the i-th title, "\n\n", then the i-th content. |
| `Export.DocumentSeparatorAt` | src/app/actions.ts:40 | Exactly the separator "\n\n\n" lies between block i and block i+1. |
| `Export.DocumentEnds` | src/app/actions.ts:38-40 | The document starts with the first block and ends with the last, with no padding. |
| `Export.DocumentSnoc` | src/app/actions.ts:38-40 | One more sheet appends exactly one separator and its block, so n sheets give n - 1 separators. |
| `Export.TwoSheetsExample` | src/app/actions.ts:38-40 | The sheets ("2024-01-02","World") and ("2024-01-01","Hello") serialise to "---2024-01-02\n\nWorld\n\n\n---2024-01-01\n\nHello". |
| `Export.NullContentIsEmpty` | src/app/actions.ts:39 | Null content and empty content export identically. |
| `Export.JoinLength` | src/app/actions.ts:40 | A join is as long as its parts plus one separator per neighbouring pair. |
| `Export.JoinPartAt` | src/app/actions.ts:40 | Each part appears unchanged at its offset in the join. |
| `Export.JoinSeparatorAt` | src/app/actions.ts:40 | Exactly one separator lies between neighbouring parts. |
| `Export.JoinSnoc` | src/app/actions.ts:40 | Joining one more part appends the separator and that part. |
| `LiveMarkdownEditor.Mount` | src/components/LiveMarkdownEditor.tsx:27-43 | Before the editor exists, no channel is held, nothing is pending and nothing is saved. |
| `LiveMarkdownEditor.OnCreated` | src/components/LiveMarkdownEditor.tsx:68-109 | The editor arrives holding the prop content without an overwrite. It subscribes to its sheet's channel exactly when the sheet id is non-empty. |
| `LiveMarkdownEditor.OnRerender` | src/components/LiveMarkdownEditor.tsx:68-109 | A changed prop replaces the document exactly when the editor exists and the markdown differs from the prop. An unchanged prop, or equal content, overwrites nothing. A new sheet id drops the old channel and subscribes to the new one unless the id is empty or the editor is missing. The timer is untouched. |
| `LiveMarkdownEditor.OnUpdate` | src/components/LiveMarkdownEditor.tsx:49-57 | An edit is in the document, and the single pending save becomes one of this markdown due 1000 ms later. |
| `LiveMarkdownEditor.OnRemote` | src/components/LiveMarkdownEditor.tsx:88-101 | A payload on the held channel with different content overwrites the document (last writer wins). Equal content, or another channel's payload, changes nothing. The pending save is untouched. |
| `LiveMarkdownEditor.OnTick` | src/components/LiveMarkdownEditor.tsx:54-56 | The clock only affects the debounce. |
| `LiveMarkdownEditor.OnUnmount` | src/components/LiveMarkdownEditor.tsx:106-118 | Unmount removes the channel and clears the pending save without running it. |
| `LiveMarkdownEditor.AlwaysSubscribed` | src/components/LiveMarkdownEditor.tsx:75-109 | Throughout any trace, the held channel is exactly the current sheet's. None is held for an empty id, before the editor exists, or after unmount. |
| `LiveMarkdownEditor.OnlyCurrentSheetApplies` | src/components/LiveMarkdownEditor.tsx:76-92 | A payload that changes anything is for the current, non-empty sheet id of a live editor. |
| `LiveMarkdownEditor.SaverFollowsDebounce` | src/components/LiveMarkdownEditor.tsx:49-57 | While mounted, the editor's autosave is exactly the debounce over its edits and ticks. Re-renders and remote payloads never touch it. |
| `LiveMarkdownEditor.TypingBurstSavesOnce` | src/components/LiveMarkdownEditor.tsx:49-57 | Edits less than 1000 ms apart, then 1000 ms of silence, call `onContentChange` exactly once, with the last markdown. |
| `LiveMarkdownEditor.FrozenAfterUnmount` | src/components/LiveMarkdownEditor.tsx:112-118 | After unmount no event changes anything. In particular no save runs. |
| `LiveMarkdownEditor.PendingSaveOutlivesRemote` | src/components/LiveMarkdownEditor.tsx:88-101 | A remote payload that arrives while a save is pending replaces the document. The pending save still writes the older local text when it runs. |
| `LiveMarkdownEditor.LiveMarkdownEditorComponent.constructor` | src/components/LiveMarkdownEditor.tsx:18-43 | The component starts as `Mount`, with the channel invariant. |
| `LiveMarkdownEditor.LiveMarkdownEditorComponent.EditorCreated` | src/components/LiveMarkdownEditor.tsx:68-109 | Yields exactly `OnCreated`'s state and keeps the channel invariant. |
| `LiveMarkdownEditor.LiveMarkdownEditorComponent.Rerender` | src/components/LiveMarkdownEditor.tsx:68-109 | Yields exactly `OnRerender`'s state and keeps the channel invariant. |
| `LiveMarkdownEditor.LiveMarkdownEditorComponent.OnUpdate` | src/components/LiveMarkdownEditor.tsx:49-57 | Yields exactly `OnUpdate`'s state. |
| `LiveMarkdownEditor.LiveMarkdownEditorComponent.OnRemoteUpdate` | src/components/LiveMarkdownEditor.tsx:88-101 | Yields exactly `OnRemote`'s state. |
| `LiveMarkdownEditor.LiveMarkdownEditorComponent.TimerFires` | src/components/LiveMarkdownEditor.tsx:54-56 | Yields exactly `OnTick`'s state. |
| `LiveMarkdownEditor.LiveMarkdownEditorComponent.Unmount` | src/components/LiveMarkdownEditor.tsx:106-118 | Yields exactly `OnUnmount`'s state. |
| `DailySheetEditor.Mount` | src/components/DailySheetEditor.tsx:16-17 | Content starts equal to `initialContent`, with nothing pending. |
| `DailySheetEditor.OnInput` | src/components/DailySheetEditor.tsx:23-34 | The content becomes the new value at once. The single pending save becomes one of that value due 1000 ms later. |
| `DailySheetEditor.OnRerender` | src/components/DailySheetEditor.tsx:19-21 | A changed prop resets the content whatever was typed. An unchanged prop changes nothing. The timer is untouched. |
| `DailySheetEditor.OnTick` | src/components/DailySheetEditor.tsx:31-33 | The clock only affects the debounce. |
| `DailySheetEditor.OnUnmount` | src/components/DailySheetEditor.tsx:36-43 | Unmount clears the pending save without running it. |
| `DailySheetEditor.SaverFollowsDebounce` | src/components/DailySheetEditor.tsx:23-34 | While mounted, the autosave is exactly the debounce over inputs and ticks. Prop changes never touch it. |
| `DailySheetEditor.ContentIsLastInput` | src/components/DailySheetEditor.tsx:24-25 | After a trace of inputs and ticks, the textarea shows the last input. |
| `DailySheetEditor.TypingBurstSavesOnce` | src/components/DailySheetEditor.tsx:28-33 | Inputs less than 1000 ms apart, then 1000 ms of silence, make exactly one save, of the last value. |
| `DailySheetEditor.FrozenAfterUnmount` | src/components/DailySheetEditor.tsx:36-43 | After unmount no event changes anything. In particular no save runs. |
| `DailySheetEditor.DailySheetEditorComponent.constructor` | src/components/DailySheetEditor.tsx:15-17 | The component starts as `Mount`. |
| `DailySheetEditor.DailySheetEditorComponent.HandleInputChange` | src/components/DailySheetEditor.tsx:23-34 | Yields exactly `OnInput`'s state. |
| `DailySheetEditor.DailySheetEditorComponent.Rerender` | src/components/DailySheetEditor.tsx:19-21 | Yields exactly `OnRerender`'s state. |
| `DailySheetEditor.DailySheetEditorComponent.TimerFires` | src/components/DailySheetEditor.tsx:31-33 | Yields exactly `OnTick`'s state. |
| `DailySheetEditor.DailySheetEditorComponent.Unmount` | src/components/DailySheetEditor.tsx:36-43 | Yields exactly `OnUnmount`'s state. |
| `UserActivity.Reset` | src/hooks/use-user-activity.tsx:9-17 | Active again, with exactly one timer pending. It is due 2000 ms after the reset and not before. |
| `UserActivity.OnMount` | src/hooks/use-user-activity.tsx:19-27 | Mount makes the user active, arms the timer for 2000 ms, and listens to exactly mousemove, mousedown, scroll, keydown and touchstart. |
| `UserActivity.OnActivity` | src/hooks/use-user-activity.tsx:25-27 | A window event resets the timer exactly when the hook listens to it. Otherwise nothing changes. |
| `UserActivity.OnTick` | src/hooks/use-user-activity.tsx:14-16 | A due timer makes the user idle. An earlier tick changes nothing. |
| `UserActivity.OnCleanup` | src/hooks/use-user-activity.tsx:29-35 | Cleanup clears the timer and removes every listener. The flag keeps its value. |
| `UserActivity.ResetsExactlyOnActivityEvents` | src/hooks/use-user-activity.tsx:23-27 | Once mounted, an event resets the timer if and only if it is one of the five activity events. |
| `UserActivity.IdleIffTimedOut` | src/hooks/use-user-activity.tsx:3-17 | For any trace after mount, the user is idle if and only if some clock reading after the last reset is 2000 ms past it. While active, exactly one timer is pending, due 2000 ms after the last reset. |
| `UserActivity.FrozenAfterCleanup` | src/hooks/use-user-activity.tsx:29-35 | After cleanup, no activity and no clock reading changes the flag or anything else. |
| `UserActivity.UserActivityHook.constructor` | src/hooks/use-user-activity.tsx:6-7 | The hook starts active, with no timer and no listeners. |
| `UserActivity.UserActivityHook.ResetTimer` | src/hooks/use-user-activity.tsx:9-17 | Yields exactly `Reset`'s state. |
| `UserActivity.UserActivityHook.Mount` | src/hooks/use-user-activity.tsx:19-27 | Adding the listeners one event at a time yields exactly `OnMount`'s state. |
| `UserActivity.UserActivityHook.OnWindowEvent` | src/hooks/use-user-activity.tsx:9-17 | Yields exactly `OnActivity`'s state. |
| `UserActivity.UserActivityHook.TimerFires` | src/hooks/use-user-activity.tsx:14-16 | Yields exactly `OnTick`'s state. |
| `UserActivity.UserActivityHook.Cleanup` | src/hooks/use-user-activity.tsx:29-35 | Yields exactly `OnCleanup`'s state. |

## Left out

- Authentication is not modelled:
  - sign-in and the one-time-password link;
  - the auth-state subscription effect (src/components/DailyJournal.tsx:86-112, 124-139);
  - the auth callback pages and the server-side cookie adapter.
  - The user is a parameter: `Option<UserId>`.
- The backend client's internals are not modelled: network, permissions and PostgREST parsing.
  - Any request may fail. The failure is passed in as a `BackendError`, carrying the codes the journal branches on ("PGRST116", "23505").
  - The export's ordering by title descending is the backend's job. The model formats the rows in the order it receives them.
- Clocks and dates are not modelled: `new Date()`, `format(...)` and `setTimeout`.
  - Today's date, the export timestamp and the current time are parameters.
  - Timers fire through explicit `Tick` events.
- The tiptap editor's internals are not modelled.
  - `getMarkdown` is the identity on the stored markdown.
  - `setContent` replaces it and is counted.
  - Restoring the selection after a remote update is left out.
  - Focus and blur callbacks only forward to the parent and are left out.
- `Export.ExportAllData`: the `console.error` log of a failed fetch (src/app/actions.ts:29) is not modelled; only the returned error is.
- Rendering, toasts as UI, ReactMarkdown, the loading screen and the historical list are not modelled. Toasts are kept only as a list of messages.
- The component's intermediate `loading = true` state is observable only between awaits. It is modelled through the stepwise functions, not through rendering.
- Re-entrant calls are not modelled.
  - A tab starts a new `fetchOrCreateDailySheet` only when its previous call has settled.
  - The effect on `user` does not cancel an in-flight call, so a second call could overlap a first one in the real component.
- The backend client from `createClient()` is treated as a stable singleton. The realtime effect therefore reruns only when the editor appears or `sheetId` changes.
- Events for an editor that does not exist yet, or is already unmounted, are modelled as ignored. React does not deliver them.
- `SheetStore.InsertOne`: row ids come from a counter (`nextId`) that hands out a fresh id per insert. The backend assigns ids in the real system, and nothing in the journal depends on their order, only on their equality.
- `SheetStore.Backend.Select`, `Insert` and `Update`: each request is atomic against the table. Row-level concurrency inside the database is not modelled.
- `UserActivity.UserActivityHook.Mount` requires that no listener is registered yet. The effect has no dependencies and runs once, after the first render.
