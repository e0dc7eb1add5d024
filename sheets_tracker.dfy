/**
 * `GoogleSheetsTracker` of src/storage/google_sheets_tracker.py: the six
 * tables live as worksheets of one spreadsheet. A read turns a worksheet
 * into records keyed by its header row; a write deletes every data row
 * and appends the table projected onto the header. Connecting and the
 * Google API itself are not part of this model: the spreadsheet is a map
 * from sheet title to worksheet.
 */
module SheetsTracker {
  import opened Wrappers
  import opened Strings
  import opened TrackerRows
  import opened TrackerStore

  /**
   * A worksheet: its header row, its data rows, the number of rows of its
   * grid (`row_count`) and the widths set for its columns.
   */
  datatype Worksheet = Worksheet(header: seq<string>, cells: seq<seq<string>>, gridRows: nat, widths: seq<nat>)

  type Spreadsheet = map<string, Worksheet>

  const ArticlesSheet: string := "Статьи"
  const ContentSheet: string := "Контент"
  const ReelsSheet: string := "Reels"
  const ScheduleSheet: string := "Планирование"
  const LogsSheet: string := "Логи"
  const MetadataSheet: string := "Метаданные"

  /** The required sheets with their headers, in the order they are checked. */
  const RequiredSheets: seq<(string, seq<string>)> := [
    (ArticlesSheet, ArticleColumns), (ContentSheet, ContentColumns), (ReelsSheet, ReelColumns),
    (ScheduleSheet, ScheduleColumns), (LogsSheet, LogColumns), (MetadataSheet, MetadataColumns)]

  /** The columns that hold long text. */
  const WideColumns: seq<string> := ["content_markdown", "article_content", "script_markdown", "message", "details"]

  /** The grid size of a new worksheet. */
  const NewSheetRows: nat := 1000

  function Width(column: string): nat {
    if column in WideColumns then 400 else 150
  }

  /** The widths of a new worksheet's columns. */
  function Widths(header: seq<string>): seq<nat> {
    seq(|header|, i requires 0 <= i < |header| => Width(header[i]))
  }

  /** The loop of `ensure_sheets_exist` that sets each column's width. */
  method ColumnWidths(header: seq<string>) returns (w: seq<nat>)
    ensures |w| == |header|
    ensures forall i :: 0 <= i < |header| ==> w[i] == (if header[i] in WideColumns then 400 else 150)
  {
    w := [];
    for i := 0 to |header|
      invariant |w| == i
      invariant forall j :: 0 <= j < i ==> w[j] == (if header[j] in WideColumns then 400 else 150)
    {
      if header[i] in WideColumns {
        w := w + [400];
      } else {
        w := w + [150];
      }
    }
  }

  /** `add_worksheet(rows="1000")` followed by `append_row(headers)` and the widths. */
  function NewWorksheet(header: seq<string>): Worksheet {
    Worksheet(header, [], NewSheetRows, Widths(header))
  }

  // ---- reading and writing one worksheet

  /** One data row as a record: each header column with its cell, "" past the row's end. */
  function Record(header: seq<string>, cells: seq<string>): Row
    decreases |header|
  {
    if header == [] then map[]
    else
      var rest := Record(header[1..], if cells == [] then [] else cells[1..]);
      rest[header[0] := if cells == [] then "" else cells[0]]
  }

  /** A record has exactly the header's columns. */
  lemma {:induction false} RecordConforms(header: seq<string>, cells: seq<string>)
    ensures Conforms(Record(header, cells), header)
    decreases |header|
  {
    if header != [] {
      RecordConforms(header[1..], if cells == [] then [] else cells[1..]);
      assert (set c | c in header) == (set c | c in header[1..]) + {header[0]} by {
        forall c | c in header ensures c == header[0] || c in header[1..] {
          var i :| 0 <= i < |header| && header[i] == c;
          if i > 0 {
            assert header[1..][i - 1] == c;
          }
        }
      }
    }
  }

  /** `get_all_records()`: the data rows as records. */
  function Records(ws: Worksheet): seq<Row> {
    seq(|ws.cells|, i requires 0 <= i < |ws.cells| => Record(ws.header, ws.cells[i]))
  }

  /** A table row projected onto a header, missing cells as "" (`df[headers].fillna('')`). */
  function Cells(r: Row, header: seq<string>): seq<string> {
    seq(|header|, j requires 0 <= j < |header| => Get(r, header[j], ""))
  }

  /** Projecting a row that has exactly the header's columns and reading it back gives the row. */
  lemma {:induction false} RecordOfCells(r: Row, header: seq<string>)
    requires forall c :: c in header ==> c in r
    ensures forall c :: c in header ==> c in Record(header, Cells(r, header)) && Record(header, Cells(r, header))[c] == r[c]
    ensures Conforms(r, header) ==> Record(header, Cells(r, header)) == r
    decreases |header|
  {
    RecordConforms(header, Cells(r, header));
    if header != [] {
      assert Cells(r, header)[1..] == Cells(r, header[1..]);
      RecordOfCells(r, header[1..]);
      forall c | c in header
        ensures c in Record(header, Cells(r, header)) && Record(header, Cells(r, header))[c] == r[c]
      {
        if c != header[0] {
          var i :| 0 <= i < |header| && header[i] == c;
          assert header[1..][i - 1] == c;
        }
      }
    }
  }

  /** Some row of the table has the column: pandas builds a frame's columns from its rows. */
  predicate HasColumn(rows: seq<Row>, c: string) {
    exists i :: 0 <= i < |rows| && c in rows[i]
  }

  /** Whether `df[headers]` finds every header column in the table. */
  predicate Projectable(rows: seq<Row>, header: seq<string>) {
    forall c :: c in header ==> HasColumn(rows, c)
  }

  /**
   * `_update_worksheet_from_df`: every data row is deleted first; then a
   * non-empty table is appended projected onto the header. A table lacking
   * a header column raises after the deletion, so the sheet is left with
   * its header only.
   */
  function WriteTable(ws: Worksheet, rows: seq<Row>): Worksheet {
    if rows != [] && Projectable(rows, ws.header) then
      ws.(cells := seq(|rows|, i requires 0 <= i < |rows| => Cells(rows[i], ws.header)), gridRows := 1 + |rows|)
    else ws.(cells := [], gridRows := 1)
  }

  /** Whether the write succeeded (its `True`). */
  predicate WriteSucceeds(ws: Worksheet, rows: seq<Row>) {
    rows == [] || Projectable(rows, ws.header)
  }

  /** Writing rows with exactly the header's columns and reading them back gives those rows. */
  lemma WriteThenRead(ws: Worksheet, rows: seq<Row>)
    requires forall i :: 0 <= i < |rows| ==> Conforms(rows[i], ws.header)
    ensures WriteSucceeds(ws, rows)
    ensures Records(WriteTable(ws, rows)) == rows
    ensures WriteTable(ws, rows).header == ws.header
  {
    if rows != [] {
      forall c | c in ws.header ensures HasColumn(rows, c) {
        assert c in rows[0];
      }
      var w := WriteTable(ws, rows);
      forall i | 0 <= i < |rows| ensures Records(w)[i] == rows[i] {
        RecordOfCells(rows[i], ws.header);
      }
    }
  }

  /** Reading a worksheet gives rows with exactly its header's columns; with data rows, each column is there. */
  lemma RecordsConform(ws: Worksheet)
    ensures forall i :: 0 <= i < |Records(ws)| ==> Conforms(Records(ws)[i], ws.header)
    ensures forall c :: c in ws.header ==> (HasColumn(Records(ws), c) <==> ws.cells != [])
  {
    forall i | 0 <= i < |ws.cells| ensures Conforms(Records(ws)[i], ws.header) {
      RecordConforms(ws.header, ws.cells[i]);
    }
    if ws.cells != [] {
      RecordConforms(ws.header, ws.cells[0]);
      assert forall c :: c in ws.header ==> c in Records(ws)[0];
    }
  }

  // ---- the spreadsheet

  /** `_get_worksheet_as_df`: a missing sheet reads as an empty table. */
  function ReadSheet(s: Spreadsheet, name: string): seq<Row> {
    if name in s then Records(s[name]) else []
  }

  /** `_update_worksheet_from_df` on a sheet by title; a missing sheet is left missing. */
  function WriteSheet(s: Spreadsheet, name: string, rows: seq<Row>): Spreadsheet {
    if name in s then s[name := WriteTable(s[name], rows)] else s
  }

  /** The six tables as the tracker reads them. */
  function ReadAll(s: Spreadsheet): Tables {
    Tables(ReadSheet(s, ContentSheet), ReadSheet(s, ArticlesSheet), ReadSheet(s, ScheduleSheet),
           ReadSheet(s, MetadataSheet), ReadSheet(s, ReelsSheet), ReadSheet(s, LogsSheet))
  }

  /** Every required sheet is there with its declared header. */
  predicate Standard(s: Spreadsheet) {
    forall k :: 0 <= k < |RequiredSheets| ==> RequiredSheets[k].0 in s && s[RequiredSheets[k].0].header == RequiredSheets[k].1
  }

  /** Every row of a table has exactly the given columns. */
  predicate TableConforms(rows: seq<Row>, columns: seq<string>) {
    forall i :: 0 <= i < |rows| ==> Conforms(rows[i], columns)
  }

  /** A required sheet of a standard spreadsheet reads as rows with its declared columns. */
  lemma SheetConforms(s: Spreadsheet, k: nat)
    requires Standard(s) && k < |RequiredSheets|
    ensures TableConforms(ReadSheet(s, RequiredSheets[k].0), RequiredSheets[k].1)
    ensures forall c :: c in RequiredSheets[k].1 ==>
      (HasColumn(ReadSheet(s, RequiredSheets[k].0), c) <==> ReadSheet(s, RequiredSheets[k].0) != [])
  {
    RecordsConform(s[RequiredSheets[k].0]);
  }

  /** The tables read from a standard spreadsheet have their declared columns. */
  lemma StandardReadsConform(s: Spreadsheet)
    requires Standard(s)
    ensures var t := ReadAll(s);
      TableConforms(t.content, ContentColumns) && TableConforms(t.articles, ArticleColumns) &&
      TableConforms(t.schedule, ScheduleColumns) && TableConforms(t.metadata, MetadataColumns) &&
      TableConforms(t.reels, ReelColumns) && TableConforms(t.logs, LogColumns)
    ensures var t := ReadAll(s);
      (HasColumn(t.content, "content_id") <==> t.content != []) &&
      (HasColumn(t.content, "article_id") <==> t.content != []) &&
      (HasColumn(t.metadata, "key") <==> t.metadata != [])
  {
    SheetConforms(s, 0);
    SheetConforms(s, 1);
    SheetConforms(s, 2);
    SheetConforms(s, 3);
    SheetConforms(s, 4);
    SheetConforms(s, 5);
    assert ContentColumns[0] == "content_id" && ContentColumns[1] == "article_id" && MetadataColumns[0] == "key";
  }

  /**
   * Writing conforming rows to one required sheet of a standard spreadsheet
   * keeps it standard, reads back as those rows, and leaves every other
   * sheet as it was.
   */
  lemma ReadAfterWrite(s: Spreadsheet, k: nat, rows: seq<Row>)
    requires Standard(s) && k < |RequiredSheets|
    requires TableConforms(rows, RequiredSheets[k].1)
    ensures var w := WriteSheet(s, RequiredSheets[k].0, rows);
      Standard(w) && ReadSheet(w, RequiredSheets[k].0) == rows &&
      forall n :: n != RequiredSheets[k].0 ==> ReadSheet(w, n) == ReadSheet(s, n)
  {
    WriteThenRead(s[RequiredSheets[k].0], rows);
  }

  // ---- the operations on the spreadsheet

  /** Whether the operation raised: the trackers' methods then end with an exception. */
  datatype Outcome = Outcome(sheets: Spreadsheet, raised: bool)

  /**
   * `update_metadata`: the mask on `key` raises `KeyError` when the table
   * read has no such column, which is the case for a sheet with no data
   * row (its records build a frame without columns).
   */
  function UpdateMetadataSheets(s: Spreadsheet, key: string, value: string): Outcome {
    var m := ReadSheet(s, MetadataSheet);
    if HasColumn(m, "key") then Outcome(WriteSheet(s, MetadataSheet, Upsert(m, key, value)), false)
    else Outcome(s, true)
  }

  /** The last steps of a logged operation past its own writes: `last_update`, then the log row. */
  function Finish(s: Spreadsheet, now: string, log: Row): Outcome {
    var m := UpdateMetadataSheets(s, "last_update", now);
    if m.raised then m
    else Outcome(WriteSheet(m.sheets, LogsSheet, ReadSheet(m.sheets, LogsSheet) + [log]), false)
  }

  /**
   * An operation of the store run against the spreadsheet. `schedule_content`
   * masks the Content table before writing anything and takes the article
   * of the first match after writing Планирование, Контент and the metadata.
   */
  function ApplySheets(s: Spreadsheet, op: Op): Outcome {
    var t := ReadAll(s);
    var w := Written(t, op);
    match op
    case AddArticleOp(_, _, _, _, now) => Finish(WriteSheet(s, ArticlesSheet, w.articles), now, LogOf(w, op))
    case AddContentOp(_, _, _, _, _, now) => Finish(WriteSheet(s, ContentSheet, w.content), now, LogOf(w, op))
    case AddReelOp(_, _, _, _, _, _, now) => Finish(WriteSheet(s, ReelsSheet, w.reels), now, LogOf(w, op))
    case AddLogOp(_, _, _, _, _, _, _) => Outcome(WriteSheet(s, LogsSheet, w.logs), false)
    case UpdateMetadataOp(key, value) => UpdateMetadataSheets(s, key, value)
    case ScheduleOp(_, _, contentId, _, now) =>
      if !HasColumn(t.content, "content_id") then Outcome(s, true)
      else
        var s1 := WriteSheet(WriteSheet(s, ScheduleSheet, w.schedule), ContentSheet, w.content);
        var m := UpdateMetadataSheets(s1, "last_update", now);
        if m.raised then m
        else if AnyMatch(t.content, "content_id", contentId) && !HasColumn(t.content, "article_id") then Outcome(m.sheets, true)
        else Outcome(WriteSheet(m.sheets, LogsSheet, ReadSheet(m.sheets, LogsSheet) + [LogOf(w, op)]), false)
  }

  /** When an operation raises on a standard spreadsheet: it reads an empty Метаданные, or schedules on an empty Контент. */
  predicate Raises(t: Tables, op: Op) {
    (op.ScheduleOp? && t.content == []) || ((Logged(op) || op.UpdateMetadataOp?) && t.metadata == [])
  }

  /** The tables an operation that raised has already written. */
  function WrittenBeforeRaise(t: Tables, op: Op): Tables {
    if op.UpdateMetadataOp? || (op.ScheduleOp? && t.content == []) then t else Written(t, op)
  }

  // ---- the shared contract

  /** Every table has its declared columns. */
  predicate TablesConform(t: Tables) {
    TableConforms(t.content, ContentColumns) && TableConforms(t.articles, ArticleColumns) &&
    TableConforms(t.schedule, ScheduleColumns) && TableConforms(t.metadata, MetadataColumns) &&
    TableConforms(t.reels, ReelColumns) && TableConforms(t.logs, LogColumns)
  }

  /** The upsert keeps Метаданные to its two columns. */
  lemma UpsertConforms(rows: seq<Row>, key: string, value: string)
    requires TableConforms(rows, MetadataColumns)
    ensures TableConforms(Upsert(rows, key, value), MetadataColumns)
  {
    SetWhereChangesMatches(rows, "key", key, map["value" := value], MetadataColumns);
  }

  /** The operations keep every table to its declared columns. */
  lemma WrittenConforms(t: Tables, op: Op)
    requires TablesConform(t)
    ensures TablesConform(Written(t, op))
  {
    match op {
      case AddArticleOp(id, _, data, c, now) => ArticleRowConforms(id, data, c, now);
      case AddContentOp(id, _, data, articleId, md, now) => ContentRowConforms(id, articleId, data, md, now);
      case AddReelOp(id, _, articleId, title, script, notes, now) => ReelRowConforms(id, articleId, title, script, notes, now);
      case AddLogOp(id, logType, message, a, c, d, now) => LogRowConforms(id, logType, message, a, c, d, now);
      case ScheduleOp(id, _, contentId, data, _) =>
        ScheduleRowConforms(id, contentId, data);
        SetWhereChangesMatches(t.content, "content_id", contentId, ScheduleUpdates(data), ContentColumns);
      case UpdateMetadataOp(key, value) => UpsertConforms(t.metadata, key, value);
    }
  }

  /** The log row of a logged operation has the columns of Логи. */
  lemma LogConforms(t: Tables, op: Op)
    requires Logged(op)
    ensures Conforms(LogOf(t, op), LogColumns)
  {
    match op {
      case AddArticleOp(id, logId, data, _, now) =>
        LogRowConforms(logId, "article_added", ArticleMessage(Get(data, "title", "")), Some(id), None, None, now);
      case AddContentOp(id, logId, data, articleId, _, now) =>
        LogRowConforms(logId, "content_added", ContentMessage(Get(data, "content_type", ""), Get(data, "language", "")),
                       Some(articleId), Some(id), None, now);
      case AddReelOp(_, logId, articleId, title, _, _, now) =>
        LogRowConforms(logId, "reel_added", ReelMessage(title), Some(articleId), None, None, now);
      case ScheduleOp(_, logId, contentId, data, now) =>
        LogRowConforms(logId, "content_scheduled", ScheduleMessage(Get(data, "date", ""), Get(data, "time", "")),
                       Some(ScheduledArticle(t.content, contentId)), Some(contentId), None, now);
    }
  }

  /** Writing one table to its sheet of a standard spreadsheet changes that table of the tables read, and nothing else. */
  lemma ReadAllAfterWrite(s: Spreadsheet, k: nat, rows: seq<Row>)
    requires Standard(s) && k < |RequiredSheets|
    requires TableConforms(rows, RequiredSheets[k].1)
    ensures var w := WriteSheet(s, RequiredSheets[k].0, rows);
      var t := ReadAll(s);
      Standard(w) &&
      ReadAll(w) == (if k == 0 then t.(articles := rows) else if k == 1 then t.(content := rows)
                     else if k == 2 then t.(reels := rows) else if k == 3 then t.(schedule := rows)
                     else if k == 4 then t.(logs := rows) else t.(metadata := rows))
  {
    ReadAfterWrite(s, k, rows);
  }

  /**
   * The last steps of a logged operation on a standard spreadsheet raise
   * exactly when Метаданные is empty, and otherwise do to the tables what
   * the store does: set `last_update` and append the log row.
   */
  lemma FinishAgrees(s: Spreadsheet, now: string, log: Row)
    requires Standard(s) && TablesConform(ReadAll(s)) && Conforms(log, LogColumns)
    ensures var o := Finish(s, now, log);
      var t := ReadAll(s);
      Standard(o.sheets) && (o.raised <==> t.metadata == []) && (o.raised ==> o.sheets == s) &&
      (!o.raised ==> ReadAll(o.sheets) == (var m := UpdateMetadata(t, "last_update", now); m.(logs := m.logs + [log])))
  {
    var t := ReadAll(s);
    StandardReadsConform(s);
    if t.metadata != [] {
      var up := Upsert(t.metadata, "last_update", now);
      UpsertConforms(t.metadata, "last_update", now);
      ReadAllAfterWrite(s, 5, up);
      var s2 := WriteSheet(s, MetadataSheet, up);
      var logs := ReadSheet(s2, LogsSheet) + [log];
      ReadAllAfterWrite(s2, 4, logs);
    }
  }

  /** The contract both backends share, for the three `add_*` operations that write one table of their own. */
  lemma AddAgrees(s: Spreadsheet, op: Op)
    requires Standard(s) && (op.AddArticleOp? || op.AddContentOp? || op.AddReelOp?)
    ensures var o := ApplySheets(s, op);
      var t := ReadAll(s);
      Standard(o.sheets) && (o.raised <==> Raises(t, op)) &&
      (o.raised ==> ReadAll(o.sheets) == WrittenBeforeRaise(t, op)) &&
      (!o.raised ==> ReadAll(o.sheets) == Apply(t, op))
  {
    var t := ReadAll(s);
    var w := Written(t, op);
    StandardReadsConform(s);
    WrittenConforms(t, op);
    LogConforms(w, op);
    var k: nat := if op.AddArticleOp? then 0 else if op.AddContentOp? then 1 else 2;
    var rows := if op.AddArticleOp? then w.articles else if op.AddContentOp? then w.content else w.reels;
    ReadAllAfterWrite(s, k, rows);
    var s1 := WriteSheet(s, RequiredSheets[k].0, rows);
    assert ReadAll(s1) == w;
    FinishAgrees(s1, op.now, LogOf(w, op));
  }

  /** The shared contract for `schedule_content`. */
  lemma ScheduleAgrees(s: Spreadsheet, op: Op)
    requires Standard(s) && op.ScheduleOp?
    ensures var o := ApplySheets(s, op);
      var t := ReadAll(s);
      Standard(o.sheets) && (o.raised <==> Raises(t, op)) &&
      (o.raised ==> ReadAll(o.sheets) == WrittenBeforeRaise(t, op)) &&
      (!o.raised ==> ReadAll(o.sheets) == Apply(t, op))
  {
    var t := ReadAll(s);
    var w := Written(t, op);
    StandardReadsConform(s);
    if t.content != [] {
      WrittenConforms(t, op);
      LogConforms(w, op);
      ReadAllAfterWrite(s, 3, w.schedule);
      var s0 := WriteSheet(s, ScheduleSheet, w.schedule);
      ReadAllAfterWrite(s0, 1, w.content);
      var s1 := WriteSheet(s0, ContentSheet, w.content);
      assert ReadAll(s1) == w;
      FinishAgrees(s1, op.now, LogOf(w, op));
    }
  }

  /**
   * The contract both backends share: on a spreadsheet whose sheets have
   * their declared headers, an operation raises exactly when it masks an
   * empty table (Метаданные, or Контент for `schedule_content`); having
   * raised, it has written only its own tables; otherwise the tables read
   * back are those the store's transition gives, and the spreadsheet stays
   * standard.
   */
  lemma SheetsAgreeWithStore(s: Spreadsheet, op: Op)
    requires Standard(s)
    ensures var o := ApplySheets(s, op);
      var t := ReadAll(s);
      Standard(o.sheets) && (o.raised <==> Raises(t, op)) &&
      (o.raised ==> ReadAll(o.sheets) == WrittenBeforeRaise(t, op)) &&
      (!o.raised ==> ReadAll(o.sheets) == Apply(t, op))
  {
    var t := ReadAll(s);
    StandardReadsConform(s);
    match op {
      case AddArticleOp(_, _, _, _, _) => AddAgrees(s, op);
      case AddContentOp(_, _, _, _, _, _) => AddAgrees(s, op);
      case AddReelOp(_, _, _, _, _, _, _) => AddAgrees(s, op);
      case ScheduleOp(_, _, _, _, _) => ScheduleAgrees(s, op);
      case AddLogOp(_, _, _, _, _, _, _) =>
        WrittenConforms(t, op);
        ReadAllAfterWrite(s, 4, Written(t, op).logs);
      case UpdateMetadataOp(key, value) =>
        if t.metadata != [] {
          UpsertConforms(t.metadata, key, value);
          ReadAllAfterWrite(s, 5, Upsert(t.metadata, key, value));
        }
    }
  }

  // ---- ensure_sheets_exist

  /** The spreadsheet after the loop of `ensure_sheets_exist` over `required`: each sheet missing from `s0` is created. */
  function CreateMissing(s0: Spreadsheet, required: seq<(string, seq<string>)>): Spreadsheet
    decreases |required|
  {
    if required == [] then s0
    else
      var s1 := CreateMissing(s0, required[..|required| - 1]);
      var last := required[|required| - 1];
      if last.0 in s0 then s1 else s1[last.0 := NewWorksheet(last.1)]
  }

  /** The titles of a list of sheets. */
  function Titles(required: seq<(string, seq<string>)>): set<string> {
    set k | 0 <= k < |required| :: required[k].0
  }

  /**
   * The loop creates exactly the missing sheets, each with its header, no
   * data and its widths, and leaves every existing sheet as it was.
   */
  lemma {:induction false} CreateMissingShape(s0: Spreadsheet, required: seq<(string, seq<string>)>)
    requires forall i, j :: 0 <= i < j < |required| ==> required[i].0 != required[j].0
    ensures var s := CreateMissing(s0, required);
      s.Keys == s0.Keys + Titles(required) &&
      (forall n :: n in s0 ==> s[n] == s0[n]) &&
      (forall k :: 0 <= k < |required| && required[k].0 !in s0 ==> s[required[k].0] == NewWorksheet(required[k].1))
    decreases |required|
  {
    if required != [] {
      var init := required[..|required| - 1];
      var last := required[|required| - 1];
      CreateMissingShape(s0, init);
      TitlesSnoc(required);
      var s1 := CreateMissing(s0, init);
      var s := CreateMissing(s0, required);
      assert s == if last.0 in s0 then s1 else s1[last.0 := NewWorksheet(last.1)];
      forall k | 0 <= k < |required| && required[k].0 !in s0
        ensures s[required[k].0] == NewWorksheet(required[k].1)
      {
        if k < |required| - 1 {
          assert required[k] == init[k];
          assert required[k].0 != last.0;
        }
      }
    }
  }

  /** The titles of a list are those of all but its last entry, and the last one's. */
  lemma TitlesSnoc(required: seq<(string, seq<string>)>)
    requires required != []
    ensures Titles(required) == Titles(required[..|required| - 1]) + {required[|required| - 1].0}
  {
    var init := required[..|required| - 1];
    forall n | n in Titles(required) ensures n in Titles(init) + {required[|required| - 1].0} {
      var k :| 0 <= k < |required| && required[k].0 == n;
      if k < |required| - 1 {
        assert init[k] == required[k];
      }
    }
    forall n | n in Titles(init) ensures n in Titles(required) {
      var k :| 0 <= k < |init| && init[k].0 == n;
      assert required[k] == init[k];
    }
  }

  /** The seed rows as `append_row` writes them. */
  function SeedCells(now: string): seq<seq<string>> {
    var seed := MetadataSeed(now);
    seq(|seed|, i requires 0 <= i < |seed| => Cells(seed[i], MetadataColumns))
  }

  /** `append_row` of each of `rows`, in order: the grid grows to hold them when it must. */
  function AppendRows(ws: Worksheet, rows: seq<seq<string>>): Worksheet {
    if rows == [] then ws
    else
      var cells := ws.cells + rows;
      ws.(cells := cells, gridRows := if ws.gridRows < 1 + |cells| then 1 + |cells| else ws.gridRows)
  }

  /** The loop of `append_row` calls. */
  method AppendEach(ws: Worksheet, rows: seq<seq<string>>) returns (r: Worksheet)
    ensures r == AppendRows(ws, rows)
  {
    r := ws;
    for j := 0 to |rows|
      invariant r == AppendRows(ws, rows[..j])
    {
      var cells := r.cells + [rows[j]];
      r := r.(cells := cells, gridRows := if r.gridRows < 1 + |cells| then 1 + |cells| else r.gridRows);
      assert rows[..j + 1] == rows[..j] + [rows[j]];
    }
    assert rows[..|rows|] == rows;
  }

  /** The metadata seed appended row by row. */
  function Seeded(ws: Worksheet, now: string): Worksheet {
    AppendRows(ws, SeedCells(now))
  }

  /** The seeding test as written: the grid has one row (`row_count == 1`). */
  predicate SeedsAsWritten(ws: Worksheet) {
    ws.gridRows == 1
  }

  /** The seeding test its comment describes: the sheet holds only its header. */
  predicate SeedsWhenHeaderOnly(ws: Worksheet) {
    ws.cells == []
  }

  /** `ensure_sheets_exist` as written. */
  function EnsureSheetsAsWritten(s: Spreadsheet, now: string): Spreadsheet {
    var created := CreateMissing(s, RequiredSheets);
    if MetadataSheet in created && SeedsAsWritten(created[MetadataSheet]) then
      created[MetadataSheet := Seeded(created[MetadataSheet], now)]
    else created
  }

  /** `ensure_sheets_exist` with the seeding test its comment describes; the tracker of this model uses it. */
  function EnsureSheets(s: Spreadsheet, now: string): Spreadsheet {
    var created := CreateMissing(s, RequiredSheets);
    if MetadataSheet in created && SeedsWhenHeaderOnly(created[MetadataSheet]) then
      created[MetadataSheet := Seeded(created[MetadataSheet], now)]
    else created
  }

  lemma RequiredTitlesDistinct()
    ensures forall i, j :: 0 <= i < j < |RequiredSheets| ==> RequiredSheets[i].0 != RequiredSheets[j].0
    ensures Titles(RequiredSheets) == {ArticlesSheet, ContentSheet, ReelsSheet, ScheduleSheet, LogsSheet, MetadataSheet}
  {
    assert RequiredSheets[0].0 == ArticlesSheet && RequiredSheets[1].0 == ContentSheet && RequiredSheets[2].0 == ReelsSheet;
    assert RequiredSheets[3].0 == ScheduleSheet && RequiredSheets[4].0 == LogsSheet && RequiredSheets[5].0 == MetadataSheet;
  }

  /** The seed reads back as the metadata seed of a new store. */
  lemma SeedReadsBack(ws: Worksheet, now: string)
    requires ws.header == MetadataColumns && ws.cells == []
    ensures Records(Seeded(ws, now)) == MetadataSeed(now)
  {
    var seed := MetadataSeed(now);
    forall i | 0 <= i < |seed| ensures Records(Seeded(ws, now))[i] == seed[i] {
      RecordOfCells(seed[i], MetadataColumns);
    }
  }

  /**
   * `ensure_sheets_exist` adds exactly the missing required sheets, each
   * with its header, no data and its widths, keeps every other sheet but a
   * header-only Метаданные, which it seeds.
   */
  lemma EnsureSheetsShape(s: Spreadsheet, now: string)
    ensures var r := EnsureSheets(s, now);
      r.Keys == s.Keys + Titles(RequiredSheets) &&
      (forall n :: n in s && n != MetadataSheet ==> r[n] == s[n]) &&
      (forall k :: 0 <= k < |RequiredSheets| && RequiredSheets[k].0 !in s && RequiredSheets[k].0 != MetadataSheet ==>
         r[RequiredSheets[k].0] == NewWorksheet(RequiredSheets[k].1)) &&
      (MetadataSheet in s && s[MetadataSheet].cells != [] ==> r[MetadataSheet] == s[MetadataSheet]) &&
      r[MetadataSheet].cells != []
  {
    RequiredTitlesDistinct();
    CreateMissingShape(s, RequiredSheets);
    var created := CreateMissing(s, RequiredSheets);
    assert MetadataSheet in created;
    SeedStep(created, now);
  }

  /** The seeding step of `ensure_sheets_exist` touches only Метаданные and leaves it with data. */
  lemma SeedStep(created: Spreadsheet, now: string)
    requires MetadataSheet in created
    ensures var r := if MetadataSheet in created && SeedsWhenHeaderOnly(created[MetadataSheet])
        then created[MetadataSheet := Seeded(created[MetadataSheet], now)] else created;
      r.Keys == created.Keys &&
      (forall n :: n in created && n != MetadataSheet ==> r[n] == created[n]) &&
      (created[MetadataSheet].cells != [] ==> r[MetadataSheet] == created[MetadataSheet]) &&
      r[MetadataSheet].cells != []
  {
    assert |SeedCells(now)| == 5;
  }

  /** A second `ensure_sheets_exist` changes nothing, whatever the clock says. */
  lemma EnsureSheetsIdempotent(s: Spreadsheet, now: string, later: string)
    ensures EnsureSheets(EnsureSheets(s, now), later) == EnsureSheets(s, now)
  {
    var r := EnsureSheets(s, now);
    EnsureSheetsShape(s, now);
    RequiredTitlesDistinct();
    CreateMissingShape(r, RequiredSheets);
    assert CreateMissing(r, RequiredSheets) == r;
  }

  /** On a new spreadsheet the store starts as a new store does: standard sheets, no rows but the seed. */
  lemma NewSpreadsheetIsNewStore(now: string)
    ensures Standard(EnsureSheets(map[], now))
    ensures ReadAll(EnsureSheets(map[], now)) == NewTables(now)
    ensures forall op: Op :: Raises(ReadAll(EnsureSheets(map[], now)), op) <==> op.ScheduleOp?
  {
    RequiredTitlesDistinct();
    CreateMissingShape(map[], RequiredSheets);
    var created := CreateMissing(map[], RequiredSheets);
    assert created[MetadataSheet] == NewWorksheet(MetadataColumns) by {
      assert RequiredSheets[5] == (MetadataSheet, MetadataColumns);
    }
    SeedReadsBack(created[MetadataSheet], now);
    var r := EnsureSheets(map[], now);
    forall k | 0 <= k < |RequiredSheets| ensures RequiredSheets[k].0 in r && r[RequiredSheets[k].0].header == RequiredSheets[k].1 {
    }
  }

  /**
   * As written, a new spreadsheet is never seeded: a created sheet has a
   * grid of 1000 rows, so Метаданные stays empty and every `add_*` raises
   * at its `update_metadata`.
   */
  lemma NewSpreadsheetUnseededAsWritten(now: string, op: Op)
    requires Logged(op)
    ensures ReadAll(EnsureSheetsAsWritten(map[], now)).metadata == []
    ensures ApplySheets(EnsureSheetsAsWritten(map[], now), op).raised
  {
    RequiredTitlesDistinct();
    CreateMissingShape(map[], RequiredSheets);
    var r := EnsureSheetsAsWritten(map[], now);
    assert RequiredSheets[5] == (MetadataSheet, MetadataColumns);
    assert r == CreateMissing(map[], RequiredSheets);
    forall k | 0 <= k < |RequiredSheets| ensures RequiredSheets[k].0 in r && r[RequiredSheets[k].0].header == RequiredSheets[k].1 {
    }
    SheetsAgreeWithStore(r, op);
  }

  /** A masked update adds columns to the rows it changes and removes none. */
  lemma SetWhereKeepsColumns(rows: seq<Row>, col: string, v: string, u: Row, c: string)
    ensures HasColumn(rows, c) ==> HasColumn(SetWhere(rows, col, v, u), c)
    ensures c !in u ==> (HasColumn(SetWhere(rows, col, v, u), c) ==> HasColumn(rows, c))
  {
    var r := SetWhere(rows, col, v, u);
    if HasColumn(rows, c) {
      var i :| 0 <= i < |rows| && c in rows[i];
      assert c in r[i];
    }
    if c !in u && HasColumn(r, c) {
      var i :| 0 <= i < |r| && c in r[i];
      assert c in rows[i];
    }
  }

  /** The log row of `schedule_content`. */
  lemma ScheduleLog(t: Tables, op: Op)
    requires op.ScheduleOp?
    ensures LogOf(t, op) == LogRow(op.logId, "content_scheduled", ScheduleMessage(Get(op.data, "date", ""), Get(op.data, "time", "")),
                                   Some(ScheduledArticle(t.content, op.contentId)), Some(op.contentId), None, op.now)
  {
  }

  /** The steps of `schedule_content` on the spreadsheet, one outcome per way it can end. */
  lemma ScheduleSteps(s: Spreadsheet, op: Op)
    requires op.ScheduleOp?
    ensures var t := ReadAll(s);
      var w := Written(t, op);
      var s1 := WriteSheet(WriteSheet(s, ScheduleSheet, w.schedule), ContentSheet, w.content);
      var m := UpdateMetadataSheets(s1, "last_update", op.now);
      (!HasColumn(t.content, "content_id") ==> ApplySheets(s, op) == Outcome(s, true)) &&
      (HasColumn(t.content, "content_id") && m.raised ==> ApplySheets(s, op) == m) &&
      ((HasColumn(t.content, "content_id") && !m.raised && AnyMatch(t.content, "content_id", op.contentId) &&
        !HasColumn(t.content, "article_id")) ==> ApplySheets(s, op) == Outcome(m.sheets, true)) &&
      ((HasColumn(t.content, "content_id") && !m.raised &&
        !(AnyMatch(t.content, "content_id", op.contentId) && !HasColumn(t.content, "article_id"))) ==>
         ApplySheets(s, op) == Outcome(WriteSheet(m.sheets, LogsSheet, ReadSheet(m.sheets, LogsSheet) + [LogOf(w, op)]), false))
  {
  }

  // ---- the tracker

  /**
   * `GoogleSheetsTracker`: the spreadsheet it opened and the rest of the
   * file system. Methods that raise in the source return `raised` (or no
   * id) instead, with the writes done before the exception kept.
   */
  class GoogleSheetsTracker {
    var spreadsheet: Spreadsheet
    var files: map<string, string>

    /** `__init__` past `connect`: the spreadsheet opened, then `ensure_sheets_exist`. */
    constructor (connected: Spreadsheet, fileSystem: map<string, string>, now: string)
      ensures spreadsheet == EnsureSheets(connected, now) && files == fileSystem
    {
      spreadsheet := connected;
      files := fileSystem;
      new;
      EnsureSheetsExist(now);
    }

    /** `ensure_sheets_exist`: create the missing sheets in order, then seed a header-only Метаданные. */
    method EnsureSheetsExist(now: string)
      modifies this
      ensures spreadsheet == EnsureSheets(old(spreadsheet), now) && files == old(files)
    {
      ghost var existing := spreadsheet;
      CreateMissingSheets();
      RequiredTitlesDistinct();
      CreateMissingShape(existing, RequiredSheets);
      assert MetadataSheet in spreadsheet;
      var metadata := spreadsheet[MetadataSheet];
      if metadata.cells == [] {
        var seeded := AppendEach(metadata, SeedCells(now));
        assert seeded == Seeded(metadata, now);
        spreadsheet := spreadsheet[MetadataSheet := seeded];
      }
    }

    /** The loop of `ensure_sheets_exist` over the required sheets. */
    method CreateMissingSheets()
      modifies this
      ensures spreadsheet == CreateMissing(old(spreadsheet), RequiredSheets) && files == old(files)
    {
      var existing := spreadsheet;
      for i := 0 to |RequiredSheets|
        invariant spreadsheet == CreateMissing(existing, RequiredSheets[..i])
        invariant files == old(files)
      {
        var name := RequiredSheets[i].0;
        var header := RequiredSheets[i].1;
        if name !in existing {
          var widths := ColumnWidths(header);
          assert widths == Widths(header);
          spreadsheet := spreadsheet[name := Worksheet(header, [], NewSheetRows, widths)];
        }
        assert RequiredSheets[..i + 1][..i] == RequiredSheets[..i];
      }
      assert RequiredSheets[..|RequiredSheets|] == RequiredSheets;
    }

    /** `_get_worksheet_as_df` */
    method GetWorksheetAsDf(name: string) returns (rows: seq<Row>)
      ensures name !in spreadsheet ==> rows == []
      ensures name in spreadsheet ==> (|rows| == |spreadsheet[name].cells| &&
        forall i :: 0 <= i < |rows| ==> Conforms(rows[i], spreadsheet[name].header))
      ensures rows == ReadSheet(spreadsheet, name)
    {
      if name in spreadsheet {
        rows := Records(spreadsheet[name]);
        RecordsConform(spreadsheet[name]);
      } else {
        rows := [];
      }
    }

    /** `_update_worksheet_from_df`: delete the data rows, then append the projected table. */
    method UpdateWorksheetFromDf(name: string, rows: seq<Row>) returns (ok: bool)
      modifies this
      ensures ok <==> name in old(spreadsheet) && WriteSucceeds(old(spreadsheet)[name], rows)
      ensures spreadsheet == WriteSheet(old(spreadsheet), name, rows) && files == old(files)
    {
      if name !in spreadsheet {
        return false;
      }
      var ws := spreadsheet[name];
      var headers := ws.header;
      ws := ws.(cells := [], gridRows := 1);
      spreadsheet := spreadsheet[name := ws];
      ok := true;
      if rows != [] {
        if Projectable(rows, headers) {
          var values := seq(|rows|, i requires 0 <= i < |rows| => Cells(rows[i], headers));
          spreadsheet := spreadsheet[name := ws.(cells := values, gridRows := 1 + |values|)];
        } else {
          ok := false;
        }
      }
    }

    /** `update_metadata`; `raised` when the table read has no `key` column. */
    method UpdateMetadata(key: string, value: string) returns (raised: bool)
      modifies this
      ensures Outcome(spreadsheet, raised) == UpdateMetadataSheets(old(spreadsheet), key, value)
      ensures Outcome(spreadsheet, raised) == ApplySheets(old(spreadsheet), UpdateMetadataOp(key, value))
      ensures files == old(files)
    {
      assert ApplySheets(spreadsheet, UpdateMetadataOp(key, value)) == UpdateMetadataSheets(spreadsheet, key, value);
      var metadata := GetWorksheetAsDf(MetadataSheet);
      if !HasColumn(metadata, "key") {
        return true;
      }
      if AnyMatch(metadata, "key", key) {
        metadata := SetWhere(metadata, "key", key, map["value" := value]);
      } else {
        metadata := metadata + [MetadataRow(key, value)];
      }
      var _ := UpdateWorksheetFromDf(MetadataSheet, metadata);
      raised := false;
    }

    /** `add_log`, drawing the id `logId`. */
    method AddLog(logId: string, logType: string, message: string, articleId: Option<string>,
                  contentId: Option<string>, details: Option<string>, now: string) returns (id: string)
      modifies this
      ensures id == logId
      ensures spreadsheet == WriteSheet(old(spreadsheet), LogsSheet,
        ReadSheet(old(spreadsheet), LogsSheet) + [LogRow(logId, logType, message, articleId, contentId, details, now)])
      ensures spreadsheet == ApplySheets(old(spreadsheet), AddLogOp(logId, logType, message, articleId, contentId, details, now)).sheets
      ensures files == old(files)
    {
      var logs := GetWorksheetAsDf(LogsSheet);
      logs := logs + [LogRow(logId, logType, message, articleId, contentId, details, now)];
      var _ := UpdateWorksheetFromDf(LogsSheet, logs);
      id := logId;
    }

    /** `add_article`; no id when `update_metadata` raised. */
    method AddArticle(articleId: string, logId: string, data: Row, c: ArticleContent, now: string) returns (id: Option<string>)
      modifies this
      ensures var o := ApplySheets(old(spreadsheet), AddArticleOp(articleId, logId, data, c, now));
        spreadsheet == o.sheets && (id.None? <==> o.raised) && (id.Some? ==> id.value == articleId)
      ensures files == old(files)
    {
      var articles := GetWorksheetAsDf(ArticlesSheet);
      articles := articles + [ArticleRow(articleId, data, c, now)];
      var _ := UpdateWorksheetFromDf(ArticlesSheet, articles);
      var raised := UpdateMetadata("last_update", now);
      if raised {
        return None;
      }
      var _ := AddLog(logId, "article_added", ArticleMessage(Get(data, "title", "")), Some(articleId), None, None, now);
      id := Some(articleId);
    }

    /** `add_content`; without markdown the body is read from the file `content_path` names, when it exists. */
    method AddContent(contentId: string, logId: string, data: Row, articleId: string, markdown: Option<string>, now: string)
      returns (id: Option<string>)
      modifies this
      ensures var o := ApplySheets(old(spreadsheet), AddContentOp(contentId, logId, data, articleId,
                                                                 ResolveMarkdown(OrEmpty(markdown), data, old(files)), now));
        spreadsheet == o.sheets && (id.None? <==> o.raised) && (id.Some? ==> id.value == contentId)
      ensures files == old(files)
    {
      var content := GetWorksheetAsDf(ContentSheet);
      var md := OrEmpty(markdown);
      if md == "" && "content_path" in data && data["content_path"] in files {
        md := files[data["content_path"]];
      }
      content := content + [ContentRow(contentId, articleId, data, md, now)];
      var _ := UpdateWorksheetFromDf(ContentSheet, content);
      var raised := UpdateMetadata("last_update", now);
      if raised {
        return None;
      }
      var _ := AddLog(logId, "content_added", ContentMessage(Get(data, "content_type", ""), Get(data, "language", "")),
                      Some(articleId), Some(contentId), None, now);
      id := Some(contentId);
    }

    /** `add_reel` */
    method AddReel(reelId: string, logId: string, articleId: string, title: string, script: string, notes: string, now: string)
      returns (id: Option<string>)
      modifies this
      ensures var o := ApplySheets(old(spreadsheet), AddReelOp(reelId, logId, articleId, title, script, notes, now));
        spreadsheet == o.sheets && (id.None? <==> o.raised) && (id.Some? ==> id.value == reelId)
      ensures files == old(files)
    {
      var reels := GetWorksheetAsDf(ReelsSheet);
      reels := reels + [ReelRow(reelId, articleId, title, script, notes, now)];
      var _ := UpdateWorksheetFromDf(ReelsSheet, reels);
      var raised := UpdateMetadata("last_update", now);
      if raised {
        return None;
      }
      var _ := AddLog(logId, "reel_added", ReelMessage(title), Some(articleId), None, None, now);
      id := Some(reelId);
    }

    /** `schedule_content`: Планирование is written before Контент. */
    method ScheduleContent(scheduleId: string, logId: string, contentId: string, data: Row, now: string)
      returns (id: Option<string>)
      modifies this
      ensures var o := ApplySheets(old(spreadsheet), ScheduleOp(scheduleId, logId, contentId, data, now));
        spreadsheet == o.sheets && (id.None? <==> o.raised) && (id.Some? ==> id.value == scheduleId)
      ensures files == old(files)
    {
      ghost var s0 := spreadsheet;
      ghost var op := ScheduleOp(scheduleId, logId, contentId, data, now);
      ghost var w := Written(ReadAll(s0), op);
      ScheduleSteps(s0, op);
      var raised, matched, content := MarkScheduled(scheduleId, logId, contentId, data, now);
      if raised {
        return None;
      }
      ghost var s1 := spreadsheet;
      raised := UpdateMetadata("last_update", now);
      assert Outcome(spreadsheet, raised) == UpdateMetadataSheets(s1, "last_update", now);
      if raised {
        return None;
      }
      var articleId := "";
      if matched {
        if !HasColumn(content, "article_id") {
          return None;
        }
        var first := FirstMatch(content, "content_id", contentId);
        articleId := Get(first.value, "article_id", "");
      }
      assert articleId == ScheduledArticle(w.content, contentId);
      ScheduleLog(w, op);
      var _ := AddLog(logId, "content_scheduled", ScheduleMessage(Get(data, "date", ""), Get(data, "time", "")),
                      Some(articleId), Some(contentId), None, now);
      id := Some(scheduleId);
    }

    /**
     * The first steps of `schedule_content`: the mask on `content_id` (which
     * raises on a table without that column), then Планирование and Контент
     * written back.
     */
    method MarkScheduled(scheduleId: string, logId: string, contentId: string, data: Row, now: string)
      returns (raised: bool, matched: bool, content: seq<Row>)
      modifies this
      ensures var t := ReadAll(old(spreadsheet));
        var w := Written(t, ScheduleOp(scheduleId, logId, contentId, data, now));
        (raised <==> !HasColumn(t.content, "content_id")) &&
        (raised ==> spreadsheet == old(spreadsheet)) &&
        (!raised ==>
          spreadsheet == WriteSheet(WriteSheet(old(spreadsheet), ScheduleSheet, w.schedule), ContentSheet, w.content) &&
          content == w.content && matched == AnyMatch(t.content, "content_id", contentId) &&
          matched == AnyMatch(content, "content_id", contentId) &&
          (HasColumn(content, "article_id") <==> HasColumn(t.content, "article_id")))
      ensures files == old(files)
    {
      ghost var t := ReadAll(spreadsheet);
      ghost var w := Written(t, ScheduleOp(scheduleId, logId, contentId, data, now));
      var schedule := GetWorksheetAsDf(ScheduleSheet);
      content := GetWorksheetAsDf(ContentSheet);
      schedule := schedule + [ScheduleRow(scheduleId, contentId, data)];
      assert schedule == w.schedule && content == t.content;
      matched := false;
      if !HasColumn(content, "content_id") {
        return true, matched, content;
      }
      matched := AnyMatch(content, "content_id", contentId);
      MarkingKeepsArticle(content, contentId, ScheduleUpdates(data));
      SetWhereKeepsColumns(content, "content_id", contentId, ScheduleUpdates(data), "article_id");
      if matched {
        content := SetWhere(content, "content_id", contentId, ScheduleUpdates(data));
      }
      assert content == w.content;
      var _ := UpdateWorksheetFromDf(ScheduleSheet, schedule);
      var _ := UpdateWorksheetFromDf(ContentSheet, content);
      raised := false;
    }

    /**
     * `get_all_articles`: one record per data row of Статьи, each with exactly
     * the sheet's header columns; none when the sheet is missing.
     */
    method GetAllArticles() returns (r: seq<Row>)
      ensures ArticlesSheet !in spreadsheet ==> r == []
      ensures ArticlesSheet in spreadsheet ==> (|r| == |spreadsheet[ArticlesSheet].cells| &&
        forall i :: 0 <= i < |r| ==> Conforms(r[i], spreadsheet[ArticlesSheet].header))
      ensures r == ReadSheet(spreadsheet, ArticlesSheet)
    {
      r := GetWorksheetAsDf(ArticlesSheet);
    }

    /**
     * `get_all_content`: one record per data row of Контент, each with exactly
     * the sheet's header columns; none when the sheet is missing.
     */
    method GetAllContent() returns (r: seq<Row>)
      ensures ContentSheet !in spreadsheet ==> r == []
      ensures ContentSheet in spreadsheet ==> (|r| == |spreadsheet[ContentSheet].cells| &&
        forall i :: 0 <= i < |r| ==> Conforms(r[i], spreadsheet[ContentSheet].header))
      ensures r == ReadSheet(spreadsheet, ContentSheet)
    {
      r := GetWorksheetAsDf(ContentSheet);
    }

    /** `get_content_by_id`: the first Content row of that id, or none (also where the mask raises). */
    method GetContentById(contentId: string) returns (r: Option<Row>)
      ensures r.None? <==> !AnyMatch(ReadSheet(spreadsheet, ContentSheet), "content_id", contentId)
      ensures r == FirstMatch(ReadSheet(spreadsheet, ContentSheet), "content_id", contentId)
    {
      var content := GetWorksheetAsDf(ContentSheet);
      r := FirstMatch(content, "content_id", contentId);
    }

    /** `get_article_by_id`: the first Articles row of that id, or none. */
    method GetArticleById(articleId: string) returns (r: Option<Row>)
      ensures r.None? <==> !AnyMatch(ReadSheet(spreadsheet, ArticlesSheet), "article_id", articleId)
      ensures r == FirstMatch(ReadSheet(spreadsheet, ArticlesSheet), "article_id", articleId)
    {
      var articles := GetWorksheetAsDf(ArticlesSheet);
      r := FirstMatch(articles, "article_id", articleId);
    }

    /** `get_reels_by_article_id`: every Reels row of that article, in sheet order. */
    method GetReelsByArticleId(articleId: string) returns (r: seq<Row>)
      ensures forall x :: x in r <==> x in ReadSheet(spreadsheet, ReelsSheet) && Matches(x, "article_id", articleId)
      ensures r == AllMatches(ReadSheet(spreadsheet, ReelsSheet), "article_id", articleId)
    {
      var reels := GetWorksheetAsDf(ReelsSheet);
      r := AllMatches(reels, "article_id", articleId);
    }

    /** `get_logs_by_article_id`: every Logs row of that article, in sheet order. */
    method GetLogsByArticleId(articleId: string) returns (r: seq<Row>)
      ensures forall x :: x in r <==> x in ReadSheet(spreadsheet, LogsSheet) && Matches(x, "article_id", articleId)
      ensures r == AllMatches(ReadSheet(spreadsheet, LogsSheet), "article_id", articleId)
    {
      var logs := GetWorksheetAsDf(LogsSheet);
      r := AllMatches(logs, "article_id", articleId);
    }

    /** `export_content_to_file` */
    method ExportContentToFile(contentId: string, outputPath: string) returns (ok: bool)
      modifies this
      ensures var e := ExportContent(ReadSheet(old(spreadsheet), ContentSheet), contentId, outputPath, old(files));
        ok == e.ok && files == e.files
      ensures spreadsheet == old(spreadsheet)
    {
      var content := GetContentById(contentId);
      ok := false;
      if content.Some? && Markdown(content.value) != "" {
        if ExportablePath(outputPath) {
          files := files[outputPath := Markdown(content.value)];
          ok := true;
        }
      }
    }

    /** `import_content_from_file`: it answers true once the rows matched, whatever the write gives. */
    method ImportContentFromFile(contentId: string, inputPath: string) returns (ok: bool)
      modifies this
      ensures var i := ImportContent(ReadSheet(old(spreadsheet), ContentSheet), contentId, inputPath, old(files));
        ok == i.ok &&
        spreadsheet == if ok then WriteSheet(old(spreadsheet), ContentSheet, i.content) else old(spreadsheet)
      ensures files == old(files)
    {
      ok := false;
      if inputPath in files {
        var markdown := files[inputPath];
        var content := GetWorksheetAsDf(ContentSheet);
        if AnyMatch(content, "content_id", contentId) {
          content := SetWhere(content, "content_id", contentId, map["content_markdown" := markdown]);
          var _ := UpdateWorksheetFromDf(ContentSheet, content);
          ok := true;
        }
      }
    }
  }
}
