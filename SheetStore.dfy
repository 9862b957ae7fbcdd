/**
 * The `sheets` table as the journal sees it through the backend client: rows
 * with an id, an owner, a title (the `yyyy-MM-dd` day) and markdown content,
 * and a uniqueness constraint on (user_id, title). The table is a sequence of
 * rows so that "no two rows share a key" is a property to keep, not a
 * consequence of the representation.
 *
 * Every request may fail for reasons outside the model (network, permissions);
 * such a failure is passed in as `fault`. The codes the journal branches on are
 * the backend's own: "PGRST116" when `.single()` finds no row, "23505" when an
 * insert breaks the unique constraint.
 */
module SheetStore {
  import opened Wrappers

  type UserId = string
  type SheetId = nat

  /** One row of `sheets`; `createdAt`/`updatedAt` are clock readings. */
  datatype Sheet = Sheet(id: SheetId, userId: UserId, title: string, content: string,
                         createdAt: int, updatedAt: int)

  datatype BackendError = BackendError(code: string, message: string)

  /** PostgREST: `.single()` matched no row. */
  const NoRowsCode: string := "PGRST116"
  /** PostgreSQL: unique_violation. */
  const UniqueViolationCode: string := "23505"

  const NoRows: BackendError := BackendError(NoRowsCode, "JSON object requested, multiple (or no) rows returned")
  const Duplicate: BackendError := BackendError(UniqueViolationCode, "duplicate key value violates unique constraint")

  /** The `{ data, error }` pair a single-row request resolves to. */
  datatype Reply = Reply(data: Option<Sheet>, error: Option<BackendError>)

  /** The table and the id the next insert receives. */
  datatype Table = Table(rows: seq<Sheet>, nextId: SheetId)

  predicate HasKey(s: Sheet, userId: UserId, title: string) {
    s.userId == userId && s.title == title
  }

  /** The (user_id, title) constraint. */
  predicate UniqueKeys(rows: seq<Sheet>) {
    forall i, j :: 0 <= i < j < |rows| ==> !HasKey(rows[j], rows[i].userId, rows[i].title)
  }

  /** Ids are distinct and below the next id to hand out. */
  predicate FreshIds(t: Table) {
    && (forall i :: 0 <= i < |t.rows| ==> t.rows[i].id < t.nextId)
    && (forall i, j :: 0 <= i < j < |t.rows| ==> t.rows[i].id != t.rows[j].id)
  }

  predicate Consistent(t: Table) {
    UniqueKeys(t.rows) && FreshIds(t)
  }

  const Empty: Table := Table([], 0)

  /** The row with key (userId, title), if any. */
  function Find(rows: seq<Sheet>, userId: UserId, title: string): (r: Option<Sheet>)
    ensures r.Some? ==> r.value in rows && HasKey(r.value, userId, title)
    ensures r.None? ==> forall i :: 0 <= i < |rows| ==> !HasKey(rows[i], userId, title)
    decreases |rows|
  {
    if |rows| == 0 then None
    else if HasKey(rows[0], userId, title) then Some(rows[0])
    else Find(rows[1..], userId, title)
  }

  /** Under the constraint, the row with a key is the only one: any row carrying that key is it. */
  lemma FindIsTheRow(rows: seq<Sheet>, userId: UserId, title: string, s: Sheet)
    requires UniqueKeys(rows) && s in rows && HasKey(s, userId, title)
    ensures Find(rows, userId, title) == Some(s)
  {
    var r := Find(rows, userId, title);
    var k :| 0 <= k < |rows| && rows[k] == s;
    assert r.Some?;
    var m :| 0 <= m < |rows| && rows[m] == r.value;
    assert k == m;
  }

  /** `select … .eq("user_id", userId).eq("title", title).single()`. */
  function SelectOne(t: Table, userId: UserId, title: string, fault: Option<BackendError>): (r: Reply)
    ensures fault.Some? ==> r == Reply(None, fault)
    ensures fault.None? && Find(t.rows, userId, title).Some? ==> r == Reply(Find(t.rows, userId, title), None)
    ensures fault.None? && Find(t.rows, userId, title).None? ==> r == Reply(None, Some(NoRows))
  {
    if fault.Some? then Reply(None, fault)
    else
      match Find(t.rows, userId, title)
      case Some(s) => Reply(Some(s), None)
      case None => Reply(None, Some(NoRows))
  }

  /** `insert({ user_id, title, content }).select().single()`: the new row, or an error and no change. */
  function InsertOne(t: Table, userId: UserId, title: string, content: string, now: int,
                     fault: Option<BackendError>): (r: (Reply, Table))
    requires Consistent(t)
    ensures Consistent(r.1)
    ensures r.0.error.Some? <==> r.1 == t
    ensures fault.Some? ==> r.0 == Reply(None, fault)
    ensures fault.None? && Find(t.rows, userId, title).Some? ==> r.0 == Reply(None, Some(Duplicate))
    ensures fault.None? && Find(t.rows, userId, title).None? ==>
              var s := Sheet(t.nextId, userId, title, content, now, now);
              r.0 == Reply(Some(s), None) && r.1.rows == t.rows + [s] && r.1.nextId > t.nextId
  {
    if fault.Some? then (Reply(None, fault), t)
    else if Find(t.rows, userId, title).Some? then (Reply(None, Some(Duplicate)), t)
    else
      var s := Sheet(t.nextId, userId, title, content, now, now);
      (Reply(Some(s), None), Table(t.rows + [s], t.nextId + 1))
  }

  /** The rows after setting `content` and `updatedAt` of the row with the given id. */
  function SetContent(rows: seq<Sheet>, id: SheetId, content: string, now: int): (r: seq<Sheet>)
    ensures |r| == |rows|
    ensures forall i :: 0 <= i < |rows| ==>
              r[i] == if rows[i].id == id then rows[i].(content := content, updatedAt := now) else rows[i]
    decreases |rows|
  {
    if |rows| == 0 then []
    else
      var head := if rows[0].id == id then rows[0].(content := content, updatedAt := now) else rows[0];
      [head] + SetContent(rows[1..], id, content, now)
  }

  /** `update({ content, updated_at }).eq("id", id)`: an error and no change, or the updated table. */
  function UpdateById(t: Table, id: SheetId, content: string, now: int, fault: Option<BackendError>): (r: (Option<BackendError>, Table))
    requires Consistent(t)
    ensures Consistent(r.1)
    ensures r.0 == fault
    ensures fault.Some? ==> r.1 == t
    ensures fault.None? ==> r.1 == Table(SetContent(t.rows, id, content, now), t.nextId)
  {
    if fault.Some? then (fault, t)
    else
      var rows := SetContent(t.rows, id, content, now);
      assert forall i :: 0 <= i < |rows| ==>
        rows[i].id == t.rows[i].id && rows[i].userId == t.rows[i].userId && rows[i].title == t.rows[i].title;
      (None, Table(rows, t.nextId))
  }

  /** The backend's table as mutable state shared by every open tab. */
  class Backend {
    var table: Table

    ghost predicate Valid() reads this {
      Consistent(table)
    }

    constructor ()
      ensures Valid() && table == Empty
    {
      table := Empty;
    }

    method Select(userId: UserId, title: string, fault: Option<BackendError>) returns (r: Reply)
      ensures r == SelectOne(table, userId, title, fault)
    {
      if fault.Some? {
        r := Reply(None, fault);
      } else {
        var found := Find(table.rows, userId, title);
        r := if found.Some? then Reply(found, None) else Reply(None, Some(NoRows));
      }
    }

    method Insert(userId: UserId, title: string, content: string, now: int, fault: Option<BackendError>)
      returns (r: Reply)
      requires Valid()
      modifies this
      ensures Valid()
      ensures (r, table) == InsertOne(old(table), userId, title, content, now, fault)
    {
      if fault.Some? {
        r := Reply(None, fault);
      } else if Find(table.rows, userId, title).Some? {
        r := Reply(None, Some(Duplicate));
      } else {
        var s := Sheet(table.nextId, userId, title, content, now, now);
        table := Table(table.rows + [s], table.nextId + 1);
        r := Reply(Some(s), None);
      }
    }

    method Update(id: SheetId, content: string, now: int, fault: Option<BackendError>)
      returns (error: Option<BackendError>)
      requires Valid()
      modifies this
      ensures Valid()
      ensures (error, table) == UpdateById(old(table), id, content, now, fault)
    {
      error := fault;
      if fault.None? {
        table := UpdateById(table, id, content, now, fault).1;
      }
    }
  }
}
