/**
 * The export server action: all of the signed-in user's sheets, newest title
 * first, written as one markdown document. Each sheet becomes a block
 * `---<title>` + blank line + content; blocks are separated by two blank lines.
 *
 * The query itself (rows of this user, ordered by title descending) is the
 * backend's; the action receives its `{ data, error }` reply, the user (if
 * any) and the formatted export time.
 */
module Export {
  import opened Wrappers

  /** A row as the export query selects it: `title` and a `content` that may be null. */
  datatype ExportRow = ExportRow(title: string, content: Option<string>)

  /** `{ success: true, filename, content }` or `{ error }`. */
  datatype ExportResult = Exported(filename: string, content: string) | ExportError(error: string)

  const NotLoggedIn: string := "You must be logged in to export data."
  const NothingToExport: string := "No data found to export."
  const FetchFailedPrefix: string := "Failed to fetch your data: "
  const BlockSeparator: string := "\n\n\n"

  /** `sheet.content || ''`: null and empty content both give the empty string. */
  function ContentText(c: Option<string>): (s: string)
    ensures c.None? ==> s == ""
    ensures c.Some? ==> s == c.value
  {
    if c.Some? then c.value else ""
  }

  /** One sheet's block: the separator line `---<title>`, an empty line, then the content. */
  function Block(row: ExportRow): (b: string)
    ensures |b| == |row.title| + 5 + |ContentText(row.content)|
    ensures "---" + row.title + "\n\n" <= b
  {
    "---" + row.title + "\n\n" + ContentText(row.content)
  }

  /** After its header, a block is exactly the content: null content leaves the header alone. */
  lemma BlockLayout(row: ExportRow)
    ensures var b := Block(row);
            var n := |row.title|;
            && b[..3] == "---" && b[3..n + 3] == row.title && b[n + 3..n + 5] == "\n\n"
            && b[n + 5..] == ContentText(row.content)
  {
  }

  /** `sheets.map(...)`: one block per row, in the same order. */
  function Blocks(rows: seq<ExportRow>): (bs: seq<string>)
    ensures |bs| == |rows|
    ensures forall i :: 0 <= i < |rows| ==> bs[i] == Block(rows[i])
  {
    seq(|rows|, k requires 0 <= k < |rows| => Block(rows[k]))
  }

  /** `Array.prototype.join(sep)`. */
  function Join(parts: seq<string>, sep: string): (r: string)
    ensures |parts| == 0 ==> r == ""
    ensures |parts| > 0 ==> parts[0] <= r
    decreases |parts|
  {
    if |parts| == 0 then ""
    else if |parts| == 1 then parts[0]
    else parts[0] + sep + Join(parts[1..], sep)
  }

  /** The exported document for the fetched rows, in the order given. */
  function Document(rows: seq<ExportRow>): (d: string)
    ensures |rows| == 0 ==> d == ""
    ensures |rows| > 0 ==> Block(rows[0]) <= d
  {
    Join(Blocks(rows), BlockSeparator)
  }

  /** `juday-data-<yyyyMMdd-HHmm>.md`. */
  function Filename(timestamp: string): (name: string)
    ensures |name| == |timestamp| + 14
    ensures name[..11] == "juday-data-" && name[11..|name| - 3] == timestamp && name[|name| - 3..] == ".md"
  {
    "juday-data-" + timestamp + ".md"
  }

  /**
   * `exportAllData`, given the signed-in user (if any), the query's error
   * message and data, and the formatted time of the export.
   */
  function ExportAllData(user: Option<string>, error: Option<string>, data: Option<seq<ExportRow>>,
                         timestamp: string): (r: ExportResult)
    ensures user.None? ==> r == ExportError(NotLoggedIn)
    ensures user.Some? && error.Some? ==> r == ExportError(FetchFailedPrefix + error.value)
    ensures user.Some? && error.None? && (data.None? || |data.value| == 0) ==> r == ExportError(NothingToExport)
    ensures r.Exported? <==> user.Some? && error.None? && data.Some? && |data.value| > 0
    ensures r.Exported? ==> r.filename == Filename(timestamp) && r.content == Document(data.value)
  {
    if user.None? then ExportError(NotLoggedIn)
    else if error.Some? then ExportError(FetchFailedPrefix + error.value)
    else if data.None? || |data.value| == 0 then ExportError(NothingToExport)
    else Exported(Filename(timestamp), Document(data.value))
  }

  /** Where the `i`-th part starts in `Join(parts, sep)`: the lengths of the parts before it, each with its separator. */
  function Offset(parts: seq<string>, sep: string, i: nat): nat
    requires i <= |parts|
    decreases i
  {
    if i == 0 then 0 else Offset(parts, sep, i - 1) + |parts[i - 1]| + |sep|
  }

  lemma {:induction false} OffsetOfTail(parts: seq<string>, sep: string, i: nat)
    requires 0 < i <= |parts|
    ensures Offset(parts, sep, i) == |parts[0]| + |sep| + Offset(parts[1..], sep, i - 1)
    decreases i
  {
    if i > 1 {
      OffsetOfTail(parts, sep, i - 1);
      assert parts[1..][i - 2] == parts[i - 1];
    }
  }

  /** A slice of the right operand of a concatenation, seen through the concatenation. */
  lemma SliceOfRight(a: string, b: string, x: nat, y: nat)
    requires x <= y <= |b|
    ensures (a + b)[|a| + x..|a| + y] == b[x..y]
  {
  }

  /** Offsets grow by at least a part and a separator from one part to any later one. */
  lemma {:induction false} OffsetGrows(parts: seq<string>, sep: string, i: nat, j: nat)
    requires i < j <= |parts|
    ensures Offset(parts, sep, i) + |parts[i]| + |sep| <= Offset(parts, sep, j)
    decreases j
  {
    if j > i + 1 {
      OffsetGrows(parts, sep, i, j - 1);
    }
  }

  /** A join is as long as the parts plus one separator between each neighbouring pair. */
  lemma {:induction false} JoinLength(parts: seq<string>, sep: string)
    requires |parts| > 0
    ensures |Join(parts, sep)| == Offset(parts, sep, |parts| - 1) + |parts[|parts| - 1]|
    decreases |parts|
  {
    var n := |parts|;
    if n > 1 {
      JoinLength(parts[1..], sep);
      OffsetOfTail(parts, sep, n - 1);
      assert parts[1..][n - 2] == parts[n - 1];
    }
  }

  /** Each part sits, unchanged, at its offset in the join. */
  lemma {:induction false} JoinPartAt(parts: seq<string>, sep: string, i: nat)
    requires i < |parts|
    ensures Offset(parts, sep, i) + |parts[i]| <= |Join(parts, sep)|
            && Join(parts, sep)[Offset(parts, sep, i)..Offset(parts, sep, i) + |parts[i]|] == parts[i]
    decreases |parts|
  {
    if |parts| > 1 {
      var tail := parts[1..];
      var lead := parts[0] + sep;
      assert Join(parts, sep) == lead + Join(tail, sep);
      if i > 0 {
        JoinPartAt(tail, sep, i - 1);
        OffsetOfTail(parts, sep, i);
        assert tail[i - 1] == parts[i];
        var o := Offset(tail, sep, i - 1);
        assert Offset(parts, sep, i) == |lead| + o;
        SliceOfRight(lead, Join(tail, sep), o, o + |parts[i]|);
      } else {
        assert (lead + Join(tail, sep))[..|parts[0]|] == parts[0];
      }
    }
  }

  /** Between each part and the next, the join holds exactly one separator. */
  lemma {:induction false} JoinSeparatorAt(parts: seq<string>, sep: string, i: nat)
    requires i + 1 < |parts|
    ensures Offset(parts, sep, i + 1) <= |Join(parts, sep)|
            && Join(parts, sep)[Offset(parts, sep, i) + |parts[i]|..Offset(parts, sep, i + 1)] == sep
    decreases |parts|
  {
    JoinLength(parts, sep);
    OffsetGrows(parts, sep, i + 1, |parts|);
    assert Offset(parts, sep, |parts|) == Offset(parts, sep, |parts| - 1) + |parts[|parts| - 1]| + |sep|;
    var tail := parts[1..];
    if i > 0 {
      JoinSeparatorAt(tail, sep, i - 1);
      OffsetOfTail(parts, sep, i);
      OffsetOfTail(parts, sep, i + 1);
      assert tail[i - 1] == parts[i];
      var o := Offset(tail, sep, i - 1) + |parts[i]|;
      SliceOfRight(parts[0] + sep, Join(tail, sep), o, Offset(tail, sep, i));
    } else {
      assert Join(parts, sep) == (parts[0] + sep) + Join(tail, sep);
      assert (parts[0] + sep)[|parts[0]|..] == sep;
    }
  }

  /** Left-to-right reading of the same join: appending a part appends one separator and that part. */
  lemma {:induction false} JoinSnoc(parts: seq<string>, sep: string, last: string)
    requires |parts| > 0
    ensures Join(parts + [last], sep) == Join(parts, sep) + sep + last
    decreases |parts|
  {
    if |parts| == 1 {
      assert parts + [last] == [parts[0], last];
      assert [parts[0], last][1..] == [last];
    } else {
      assert (parts + [last])[1..] == parts[1..] + [last];
      JoinSnoc(parts[1..], sep, last);
    }
  }

  /**
   * The document for n sheets, block by block: block i sits at its offset,
   * unchanged and in the order supplied, beginning with "---" and the i-th
   * title, then a blank line and the i-th content.
   */
  lemma DocumentBlockAt(rows: seq<ExportRow>, i: nat)
    requires 0 <= i < |rows|
    ensures var doc := Document(rows);
            var at := Offset(Blocks(rows), BlockSeparator, i);
            var b := "---" + rows[i].title + "\n\n" + ContentText(rows[i].content);
            at + |b| <= |doc| && doc[at..at + |b|] == b
  {
    var bs := Blocks(rows);
    assert bs[i] == "---" + rows[i].title + "\n\n" + ContentText(rows[i].content);
    JoinPartAt(bs, BlockSeparator, i);
  }

  /** Block i and block i+1 are separated by exactly the separator, three newlines. */
  lemma DocumentSeparatorAt(rows: seq<ExportRow>, i: nat)
    requires i + 1 < |rows|
    ensures var doc := Document(rows);
            var bs := Blocks(rows);
            var end := Offset(bs, BlockSeparator, i) + |bs[i]|;
            end + |BlockSeparator| <= |doc| && doc[end..end + |BlockSeparator|] == BlockSeparator
  {
    JoinSeparatorAt(Blocks(rows), BlockSeparator, i);
  }

  /** The document starts with the first block and ends with the last. */
  lemma DocumentEnds(rows: seq<ExportRow>)
    requires |rows| > 0
    ensures Offset(Blocks(rows), BlockSeparator, 0) == 0
    ensures Offset(Blocks(rows), BlockSeparator, |rows| - 1) + |Block(rows[|rows| - 1])| == |Document(rows)|
  {
    JoinLength(Blocks(rows), BlockSeparator);
  }

  /**
   * Read left to right: one more sheet adds exactly one separator and its
   * block at the end, so n sheets give n blocks and n - 1 separators.
   */
  lemma DocumentSnoc(rows: seq<ExportRow>, row: ExportRow)
    requires |rows| > 0
    ensures Document(rows + [row]) == Document(rows) + "\n\n\n" + Block(row)
  {
    assert Blocks(rows + [row]) == Blocks(rows) + [Block(row)];
    JoinSnoc(Blocks(rows), BlockSeparator, Block(row));
  }

  /** The concrete case: two sheets, newest first. */
  lemma TwoSheetsExample()
    ensures Document([ExportRow("2024-01-02", Some("World")), ExportRow("2024-01-01", Some("Hello"))])
            == "---2024-01-02\n\nWorld\n\n\n---2024-01-01\n\nHello"
  {
    var rows := [ExportRow("2024-01-02", Some("World")), ExportRow("2024-01-01", Some("Hello"))];
    var first, second := "---2024-01-02\n\nWorld", "---2024-01-01\n\nHello";
    ExampleBlocks();
    assert [first, second][1..] == [second];
    assert Document(rows) == first + BlockSeparator + second;
    ExampleText();
  }

  lemma ExampleBlocks()
    ensures Blocks([ExportRow("2024-01-02", Some("World")), ExportRow("2024-01-01", Some("Hello"))])
            == ["---2024-01-02\n\nWorld", "---2024-01-01\n\nHello"]
  {
    var rows := [ExportRow("2024-01-02", Some("World")), ExportRow("2024-01-01", Some("Hello"))];
    ExampleBlock("2024-01-02", "World", "---2024-01-02\n\nWorld");
    ExampleBlock("2024-01-01", "Hello", "---2024-01-01\n\nHello");
    var bs := Blocks(rows);
    assert |bs| == 2 && bs[0] == Block(rows[0]) && bs[1] == Block(rows[1]);
  }

  lemma ExampleBlock(title: string, content: string, text: string)
    requires text == "---" + title + "\n\n" + content
    ensures Block(ExportRow(title, Some(content))) == text
  {
  }

  lemma ExampleText()
    ensures "---2024-01-02\n\nWorld" + BlockSeparator + "---2024-01-01\n\nHello"
            == "---2024-01-02\n\nWorld\n\n\n---2024-01-01\n\nHello"
  {
  }

  /** A null content and an empty content export the same. */
  lemma NullContentIsEmpty(title: string)
    ensures Block(ExportRow(title, None)) == Block(ExportRow(title, Some(""))) == "---" + title + "\n\n"
  {
  }
}
