/**
 * The content store both trackers implement (src/storage/excel_tracker.py,
 * src/storage/google_sheets_tracker.py), as transitions of its six tables.
 * Each operation reads whole tables, transforms them and writes them back.
 * Its fresh ids and its clock reading are fields of the operation.
 */
module TrackerStore {
  import opened Wrappers
  import opened Strings
  import opened TrackerRows

  /** The six tables: Контент, Статьи, Планирование, Метаданные, Reels, Логи. */
  datatype Tables = Tables(content: seq<Row>, articles: seq<Row>, schedule: seq<Row>,
                           metadata: seq<Row>, reels: seq<Row>, logs: seq<Row>)

  /** A new store: every table empty but Метаданные, which holds the seed. */
  function NewTables(now: string): Tables {
    Tables([], [], [], MetadataSeed(now), [], [])
  }

  // ---- the log messages

  function ArticleMessage(title: string): string { "Добавлена новая статья: " + title }

  function ContentMessage(contentType: string, language: string): string {
    "Добавлен новый контент типа " + contentType + " на языке " + language
  }

  function ReelMessage(title: string): string { "Добавлен новый скрипт для Instagram Reel: " + title }

  function ScheduleMessage(date: string, time: string): string {
    "Запланирована публикация контента на " + date + " " + time
  }

  // ---- the operations

  /**
   * A call of one of the store's mutating operations, with the ids it draws
   * and the clock reading it takes. The markdown of `AddContentOp` is the
   * one `ResolveMarkdown` settled on.
   */
  datatype Op =
    | AddArticleOp(articleId: string, logId: string, data: Row, articleContent: ArticleContent, now: string)
    | AddContentOp(contentId: string, logId: string, data: Row, articleId: string, markdown: string, now: string)
    | AddReelOp(reelId: string, logId: string, articleId: string, title: string, script: string, notes: string, now: string)
    | AddLogOp(logId: string, logType: string, message: string, logArticle: Option<string>, logContent: Option<string>,
               details: Option<string>, now: string)
    | ScheduleOp(scheduleId: string, logId: string, contentId: string, data: Row, now: string)
    | UpdateMetadataOp(key: string, value: string)

  /** `add_log`: one row appended to Логи. */
  function AddLog(t: Tables, logId: string, logType: string, message: string, articleId: Option<string>,
                  contentId: Option<string>, details: Option<string>, now: string): Tables {
    t.(logs := t.logs + [LogRow(logId, logType, message, articleId, contentId, details, now)])
  }

  /** `update_metadata`: the upsert on Метаданные. */
  function UpdateMetadata(t: Tables, key: string, value: string): Tables {
    t.(metadata := Upsert(t.metadata, key, value))
  }

  /** The cells `schedule_content` writes into each matching Content row. */
  function ScheduleUpdates(data: Row): Row {
    map["status" := "scheduled", "scheduled_date" := Get(data, "date", ""), "scheduled_time" := Get(data, "time", "")]
  }

  /** The article id `schedule_content` logs: that of the first matching Content row, or "". */
  function ScheduledArticle(content: seq<Row>, contentId: string): string {
    match FirstMatch(content, "content_id", contentId)
    case None => ""
    case Some(r) => Get(r, "article_id", "")
  }

  /** The first steps of an operation: the rows it writes to its own tables, before the metadata and the log. */
  function Written(t: Tables, op: Op): Tables {
    match op
    case AddArticleOp(id, _, data, c, now) => t.(articles := t.articles + [ArticleRow(id, data, c, now)])
    case AddContentOp(id, _, data, articleId, md, now) => t.(content := t.content + [ContentRow(id, articleId, data, md, now)])
    case AddReelOp(id, _, articleId, title, script, notes, now) =>
      t.(reels := t.reels + [ReelRow(id, articleId, title, script, notes, now)])
    case AddLogOp(id, logType, message, a, c, d, now) => AddLog(t, id, logType, message, a, c, d, now)
    case ScheduleOp(id, _, contentId, data, _) =>
      t.(schedule := t.schedule + [ScheduleRow(id, contentId, data)],
         content := SetWhere(t.content, "content_id", contentId, ScheduleUpdates(data)))
    case UpdateMetadataOp(key, value) => UpdateMetadata(t, key, value)
  }

  /** Whether an operation goes on to update `last_update` and to write a log row. */
  predicate Logged(op: Op) {
    !op.AddLogOp? && !op.UpdateMetadataOp?
  }

  /** The log row of a logged operation. */
  function LogOf(t: Tables, op: Op): Row
    requires Logged(op)
  {
    match op
    case AddArticleOp(id, logId, data, _, now) =>
      LogRow(logId, "article_added", ArticleMessage(Get(data, "title", "")), Some(id), None, None, now)
    case AddContentOp(id, logId, data, articleId, _, now) =>
      LogRow(logId, "content_added", ContentMessage(Get(data, "content_type", ""), Get(data, "language", "")),
             Some(articleId), Some(id), None, now)
    case AddReelOp(_, logId, articleId, title, _, _, now) =>
      LogRow(logId, "reel_added", ReelMessage(title), Some(articleId), None, None, now)
    case ScheduleOp(_, logId, contentId, data, now) =>
      LogRow(logId, "content_scheduled", ScheduleMessage(Get(data, "date", ""), Get(data, "time", "")),
             Some(ScheduledArticle(t.content, contentId)), Some(contentId), None, now)
  }

  /**
   * The store after an operation: its own rows, then, for the four `add_*`
   * and `schedule_content`, `last_update` set to the clock reading and one
   * log row.
   */
  function Apply(t: Tables, op: Op): Tables {
    var w := Written(t, op);
    if Logged(op) then
      var m := UpdateMetadata(w, "last_update", op.now);
      m.(logs := m.logs + [LogOf(w, op)])
    else w
  }

  // ---- frames

  datatype Table = ContentTable | ArticlesTable | ScheduleTable | MetadataTable | ReelsTable | LogsTable

  function TableOf(t: Tables, n: Table): seq<Row> {
    match n
    case ContentTable => t.content
    case ArticlesTable => t.articles
    case ScheduleTable => t.schedule
    case MetadataTable => t.metadata
    case ReelsTable => t.reels
    case LogsTable => t.logs
  }

  /** The tables an operation writes. */
  function Targets(op: Op): set<Table> {
    match op
    case AddArticleOp(_, _, _, _, _) => {ArticlesTable, MetadataTable, LogsTable}
    case AddContentOp(_, _, _, _, _, _) => {ContentTable, MetadataTable, LogsTable}
    case AddReelOp(_, _, _, _, _, _, _) => {ReelsTable, MetadataTable, LogsTable}
    case AddLogOp(_, _, _, _, _, _, _) => {LogsTable}
    case ScheduleOp(_, _, _, _, _) => {ScheduleTable, ContentTable, MetadataTable, LogsTable}
    case UpdateMetadataOp(_, _) => {MetadataTable}
  }

  /** Table frames: every table an operation does not name is left exactly as it was. */
  lemma OnlyTargetsChange(t: Tables, op: Op, n: Table)
    requires n !in Targets(op)
    ensures TableOf(Apply(t, op), n) == TableOf(t, n)
  {
  }

  /**
   * Append-only tables: an operation keeps every existing row of Статьи,
   * Планирование, Reels and Логи in place and adds at most one row to each;
   * Логи gains exactly one row unless the operation is `update_metadata`.
   */
  lemma AppendOnly(t: Tables, op: Op)
    ensures var r := Apply(t, op);
      (forall n :: n in {ArticlesTable, ScheduleTable, ReelsTable, LogsTable} ==>
         TableOf(t, n) <= TableOf(r, n) && |TableOf(r, n)| <= |TableOf(t, n)| + 1) &&
      (|r.logs| == |t.logs| + 1 <==> !op.UpdateMetadataOp?) &&
      (op.UpdateMetadataOp? ==> r.logs == t.logs)
  {
    var r := Apply(t, op);
    forall n | n in {ArticlesTable, ScheduleTable, ReelsTable, LogsTable}
      ensures TableOf(t, n) <= TableOf(r, n) && |TableOf(r, n)| <= |TableOf(t, n)| + 1
    {
      AppendOnlyAt(t, op, n);
    }
    LogsGrow(t, op);
  }

  /** One append-only table keeps its rows in place and gains at most one. */
  lemma AppendOnlyAt(t: Tables, op: Op, n: Table)
    requires n in {ArticlesTable, ScheduleTable, ReelsTable, LogsTable}
    ensures TableOf(t, n) <= TableOf(Apply(t, op), n) && |TableOf(Apply(t, op), n)| <= |TableOf(t, n)| + 1
  {
    if n == LogsTable {
      LogsGrow(t, op);
    } else {
      WrittenIsFinal(t, op, n);
      WrittenAppends(t, op, n);
    }
  }

  /** Логи keeps its rows and gains exactly one unless the operation is `update_metadata`, which leaves it alone. */
  lemma LogsGrow(t: Tables, op: Op)
    ensures var r := Apply(t, op);
      t.logs <= r.logs &&
      (|r.logs| == |t.logs| + 1 <==> !op.UpdateMetadataOp?) && (op.UpdateMetadataOp? ==> r.logs == t.logs)
  {
  }

  /** The metadata and log steps leave Статьи, Планирование and Reels as the first step wrote them. */
  lemma WrittenIsFinal(t: Tables, op: Op, n: Table)
    requires n in {ArticlesTable, ScheduleTable, ReelsTable}
    ensures TableOf(Apply(t, op), n) == TableOf(Written(t, op), n)
  {
  }

  /** The first step of an operation appends at most one row to Статьи, Планирование or Reels. */
  lemma WrittenAppends(t: Tables, op: Op, n: Table)
    requires n in {ArticlesTable, ScheduleTable, ReelsTable}
    ensures TableOf(t, n) <= TableOf(Written(t, op), n) && |TableOf(Written(t, op), n)| <= |TableOf(t, n)| + 1
  {
  }

  /**
   * Content rows never disappear: only `add_content` adds one, and only
   * `schedule_content` changes existing ones.
   */
  lemma ContentRowsKept(t: Tables, op: Op)
    ensures var r := Apply(t, op);
      (op.AddContentOp? ==> t.content <= r.content && |r.content| == |t.content| + 1) &&
      (!op.AddContentOp? ==> |r.content| == |t.content|) &&
      (!op.AddContentOp? && !op.ScheduleOp? ==> r.content == t.content)
  {
  }

  /** Each logged operation sets `last_update` to its clock reading and logs under the id it was given. */
  lemma LoggedRecords(t: Tables, op: Op)
    requires Logged(op)
    ensures var r := Apply(t, op);
      FirstMatch(r.metadata, "key", "last_update").Some? &&
      Get(FirstMatch(r.metadata, "key", "last_update").value, "value", "") == op.now &&
      r.logs[|r.logs| - 1]["log_id"] == op.logId &&
      r.logs[|r.logs| - 1]["timestamp"] == op.now
  {
    var w := Written(t, op);
    LoggedTables(t, op);
    UpsertSets(w.metadata, "last_update", op.now);
    LogOfStamps(w, op);
  }

  /** A logged operation upserts `last_update` into the written tables and appends its log row. */
  lemma LoggedTables(t: Tables, op: Op)
    requires Logged(op)
    ensures var w, r := Written(t, op), Apply(t, op);
      r.metadata == Upsert(w.metadata, "last_update", op.now) && r.logs == w.logs + [LogOf(w, op)]
  {
  }

  /** The log row of a logged operation carries the operation's log id and clock reading. */
  lemma LogOfStamps(t: Tables, op: Op)
    requires Logged(op)
    ensures LogOf(t, op)["log_id"] == op.logId && LogOf(t, op)["timestamp"] == op.now
  {
  }

  // ---- what each operation promises

  /**
   * `schedule_content` appends one pending Schedule row for the content id,
   * with the UTC+3 and medium defaults unless the data says otherwise.
   */
  lemma ScheduleAppendsPending(t: Tables, scheduleId: string, logId: string, contentId: string, data: Row, now: string)
    ensures var r := Apply(t, ScheduleOp(scheduleId, logId, contentId, data, now));
      var s := r.schedule[|r.schedule| - 1];
      r.schedule == t.schedule + [s] &&
      s["schedule_id"] == scheduleId && s["content_id"] == contentId && s["posting_status"] == "pending" &&
      s["timezone"] == Get(data, "timezone", "UTC+3") && s["priority"] == Get(data, "priority", "medium")
  {
    ScheduledTables(t, scheduleId, logId, contentId, data, now);
    ScheduleRowFields(scheduleId, contentId, data);
  }

  /** The cells of a new Schedule row that `schedule_content` promises. */
  lemma ScheduleRowFields(id: string, contentId: string, data: Row)
    ensures var s := ScheduleRow(id, contentId, data);
      s["schedule_id"] == id && s["content_id"] == contentId && s["posting_status"] == "pending" &&
      s["timezone"] == Get(data, "timezone", "UTC+3") && s["priority"] == Get(data, "priority", "medium")
  {
  }

  /** The Schedule and Log tables after `schedule_content`: one row appended to each. */
  lemma ScheduledTables(t: Tables, scheduleId: string, logId: string, contentId: string, data: Row, now: string)
    ensures var r := Apply(t, ScheduleOp(scheduleId, logId, contentId, data, now));
      r.schedule == t.schedule + [ScheduleRow(scheduleId, contentId, data)] &&
      r.logs == t.logs + [LogRow(logId, "content_scheduled", ScheduleMessage(Get(data, "date", ""), Get(data, "time", "")),
        Some(ScheduledArticle(SetWhere(t.content, "content_id", contentId, ScheduleUpdates(data)), contentId)),
        Some(contentId), None, now)]
  {
  }

  /**
   * `schedule_content` gives every Content row of that id the status
   * "scheduled" and the date and time while keeping its other cells, and
   * leaves every other Content row unchanged.
   */
  lemma ScheduleMarksMatches(t: Tables, scheduleId: string, logId: string, contentId: string, data: Row, now: string)
    ensures var r := Apply(t, ScheduleOp(scheduleId, logId, contentId, data, now));
      |r.content| == |t.content| &&
      (forall i :: 0 <= i < |t.content| && Matches(t.content[i], "content_id", contentId) ==>
         r.content[i]["status"] == "scheduled" &&
         r.content[i]["scheduled_date"] == Get(data, "date", "") &&
         r.content[i]["scheduled_time"] == Get(data, "time", "") &&
         Matches(r.content[i], "content_id", contentId) &&
         forall c :: c in t.content[i] && c !in {"status", "scheduled_date", "scheduled_time"} ==>
           c in r.content[i] && r.content[i][c] == t.content[i][c]) &&
      (forall i :: 0 <= i < |t.content| && !Matches(t.content[i], "content_id", contentId) ==> r.content[i] == t.content[i])
  {
    ScheduledContent(t, scheduleId, logId, contentId, data, now);
    MarkedRows(t.content, contentId, data);
  }

  /** The Content table after `schedule_content` is the masked update of the old one. */
  lemma ScheduledContent(t: Tables, scheduleId: string, logId: string, contentId: string, data: Row, now: string)
    ensures Apply(t, ScheduleOp(scheduleId, logId, contentId, data, now)).content ==
      SetWhere(t.content, "content_id", contentId, ScheduleUpdates(data))
  {
  }

  /** The masked update of `schedule_content`, row by row. */
  lemma MarkedRows(rows: seq<Row>, contentId: string, data: Row)
    ensures var marked := SetWhere(rows, "content_id", contentId, ScheduleUpdates(data));
      |marked| == |rows| &&
      (forall i :: 0 <= i < |rows| && Matches(rows[i], "content_id", contentId) ==>
         marked[i]["status"] == "scheduled" &&
         marked[i]["scheduled_date"] == Get(data, "date", "") &&
         marked[i]["scheduled_time"] == Get(data, "time", "") &&
         Matches(marked[i], "content_id", contentId) &&
         forall c :: c in rows[i] && c !in {"status", "scheduled_date", "scheduled_time"} ==>
           c in marked[i] && marked[i][c] == rows[i][c]) &&
      (forall i :: 0 <= i < |rows| && !Matches(rows[i], "content_id", contentId) ==> marked[i] == rows[i])
  {
    var u := ScheduleUpdates(data);
    var marked := SetWhere(rows, "content_id", contentId, u);
    forall i | 0 <= i < |rows| && Matches(rows[i], "content_id", contentId)
      ensures marked[i]["status"] == "scheduled" &&
        marked[i]["scheduled_date"] == Get(data, "date", "") &&
        marked[i]["scheduled_time"] == Get(data, "time", "") &&
        Matches(marked[i], "content_id", contentId) &&
        forall c :: c in rows[i] && c !in {"status", "scheduled_date", "scheduled_time"} ==>
          c in marked[i] && marked[i][c] == rows[i][c]
    {
      assert marked[i] == rows[i] + u;
      assert u.Keys == {"status", "scheduled_date", "scheduled_time"};
    }
  }

  /**
   * `schedule_content` logs the article of the first Content row of that
   * id; when no row has it, the Content table is unchanged and the logged
   * article is "".
   */
  lemma ScheduleLogsArticle(t: Tables, scheduleId: string, logId: string, contentId: string, data: Row, now: string)
    ensures var r := Apply(t, ScheduleOp(scheduleId, logId, contentId, data, now));
      var log := r.logs[|r.logs| - 1];
      var first := FirstMatch(t.content, "content_id", contentId);
      log["content_id"] == contentId && log["log_type"] == "content_scheduled" &&
      (first.Some? ==> log["article_id"] == Get(first.value, "article_id", "")) &&
      (first.None? ==> r.content == t.content && log["article_id"] == "")
  {
    ScheduledTables(t, scheduleId, logId, contentId, data, now);
    ScheduledContent(t, scheduleId, logId, contentId, data, now);
    MarkingKeepsArticle(t.content, contentId, ScheduleUpdates(data));
  }

  /** A masked update that leaves the id and article columns alone keeps the article of the first match. */
  lemma MarkingKeepsArticle(content: seq<Row>, contentId: string, u: Row)
    requires "content_id" !in u && "article_id" !in u
    ensures ScheduledArticle(SetWhere(content, "content_id", contentId, u), contentId) == ScheduledArticle(content, contentId)
    ensures !AnyMatch(content, "content_id", contentId) ==> SetWhere(content, "content_id", contentId, u) == content
  {
    var marked := SetWhere(content, "content_id", contentId, u);
    SetWhereChangesMatches(content, "content_id", contentId, u, ContentColumns);
    SameMatchIndex(content, marked, "content_id", contentId, 0);
    var k := MatchIndex(content, "content_id", contentId, 0);
    if k < |content| {
      assert Get(marked[k], "article_id", "") == Get(content[k], "article_id", "");
    }
  }

  /** A row added under an id no row had yet is what the lookup by that id returns afterwards. */
  lemma AddThenGet(t: Tables, op: Op)
    requires op.AddArticleOp? ==> !AnyMatch(t.articles, "article_id", op.articleId)
    requires op.AddContentOp? ==> !AnyMatch(t.content, "content_id", op.contentId)
    ensures op.AddArticleOp? ==>
      FirstMatch(Apply(t, op).articles, "article_id", op.articleId) == Some(ArticleRow(op.articleId, op.data, op.articleContent, op.now))
    ensures op.AddContentOp? ==>
      FirstMatch(Apply(t, op).content, "content_id", op.contentId) == Some(ContentRow(op.contentId, op.articleId, op.data, op.markdown, op.now))
    ensures op.AddReelOp? ==> (ReelRow(op.reelId, op.articleId, op.title, op.script, op.notes, op.now) in
      AllMatches(Apply(t, op).reels, "article_id", op.articleId))
  {
    if op.AddArticleOp? {
      AppendFresh(t.articles, ArticleRow(op.articleId, op.data, op.articleContent, op.now), "article_id", op.articleId);
    } else if op.AddContentOp? {
      AppendFresh(t.content, ContentRow(op.contentId, op.articleId, op.data, op.markdown, op.now), "content_id", op.contentId);
    }
  }

  /** Appending a matching row to a table without a match makes it the first match. */
  lemma AppendFresh(rows: seq<Row>, r: Row, col: string, v: string)
    requires !AnyMatch(rows, col, v) && Matches(r, col, v)
    ensures FirstMatch(rows + [r], col, v) == Some(r)
  {
    var all := rows + [r];
    assert Matches(all[|rows|], col, v);
    assert forall j :: 0 <= j < |rows| ==> all[j] == rows[j];
  }

  // ---- export and import

  /** `os.path.dirname(path)` is not empty exactly when the path has a separator. */
  predicate HasDirectory(path: string) {
    '/' in path
  }

  /**
   * A path `export_content_to_file` can write: it has a directory, and it
   * does not end in '/', where `open` would meet a directory and raise.
   */
  predicate ExportablePath(path: string) {
    HasDirectory(path) && path[|path| - 1] != '/'
  }

  /** The markdown of a Content row, "" when the cell is missing. */
  function Markdown(r: Row): string {
    Get(r, "content_markdown", "")
  }

  datatype Exported = Exported(ok: bool, files: map<string, string>)

  /**
   * `export_content_to_file`: the first row of that id, when its markdown
   * is not empty, is written to `path`. `os.makedirs` of an empty directory
   * name raises, so a path without a directory fails and writes nothing,
   * and so does a path ending in '/'.
   */
  function ExportContent(content: seq<Row>, contentId: string, path: string, files: map<string, string>): (r: Exported)
    ensures r.ok <==> (FirstMatch(content, "content_id", contentId).Some? &&
      Markdown(FirstMatch(content, "content_id", contentId).value) != "" && ExportablePath(path))
    ensures r.ok ==> r.files == files[path := Markdown(FirstMatch(content, "content_id", contentId).value)]
    ensures !r.ok ==> r.files == files
  {
    var found := FirstMatch(content, "content_id", contentId);
    if found.Some? && Markdown(found.value) != "" && ExportablePath(path) then
      Exported(true, files[path := Markdown(found.value)])
    else Exported(false, files)
  }

  datatype Imported = Imported(ok: bool, content: seq<Row>)

  /** `import_content_from_file`: the file's text replaces the markdown of every row of that id. */
  function ImportContent(content: seq<Row>, contentId: string, path: string, files: map<string, string>): (r: Imported)
    ensures r.ok <==> path in files && AnyMatch(content, "content_id", contentId)
    ensures r.ok ==> r.content == SetWhere(content, "content_id", contentId, map["content_markdown" := files[path]])
    ensures !r.ok ==> r.content == content
  {
    if path in files && AnyMatch(content, "content_id", contentId) then
      Imported(true, SetWhere(content, "content_id", contentId, map["content_markdown" := files[path]]))
    else Imported(false, content)
  }

  /** At most one row has that id. */
  predicate UniqueIn(rows: seq<Row>, col: string, v: string) {
    forall i, j :: 0 <= i < |rows| && 0 <= j < |rows| && Matches(rows[i], col, v) && Matches(rows[j], col, v) ==> i == j
  }

  /** Two tables whose rows match at the same positions have their first match at the same position. */
  lemma {:induction false} SameMatchIndex(a: seq<Row>, b: seq<Row>, col: string, v: string, i: nat)
    requires |a| == |b| && i <= |a|
    requires forall j :: 0 <= j < |a| ==> (Matches(a[j], col, v) <==> Matches(b[j], col, v))
    ensures MatchIndex(a, col, v, i) == MatchIndex(b, col, v, i)
    decreases |a| - i
  {
    if i < |a| && !Matches(a[i], col, v) {
      SameMatchIndex(a, b, col, v, i + 1);
    }
  }

  /**
   * Export then import is a round trip: the import succeeds, the row the
   * export read keeps its markdown, every row of that id ends up with it,
   * rows of other ids are untouched, and with a unique id the table is
   * exactly as before.
   */
  lemma ExportThenImport(content: seq<Row>, contentId: string, path: string, files: map<string, string>)
    requires ExportContent(content, contentId, path, files).ok
    ensures var md := Markdown(FirstMatch(content, "content_id", contentId).value);
      var im := ImportContent(content, contentId, path, ExportContent(content, contentId, path, files).files);
      im.ok &&
      FirstMatch(im.content, "content_id", contentId) == FirstMatch(content, "content_id", contentId) &&
      (forall i :: 0 <= i < |content| && Matches(content[i], "content_id", contentId) ==> Markdown(im.content[i]) == md) &&
      (forall i :: 0 <= i < |content| && !Matches(content[i], "content_id", contentId) ==> im.content[i] == content[i]) &&
      (UniqueIn(content, "content_id", contentId) ==> im.content == content)
  {
    var col := "content_id";
    var md := Markdown(FirstMatch(content, col, contentId).value);
    var out := ExportContent(content, contentId, path, files).files;
    assert out[path] == md;
    var u := map["content_markdown" := md];
    var im := SetWhere(content, col, contentId, u);
    SetWhereChangesMatches(content, col, contentId, u, ContentColumns);
    SameMatchIndex(content, im, col, contentId, 0);
    var k := MatchIndex(content, col, contentId, 0);
    assert content[k] + u == content[k];
    if UniqueIn(content, col, contentId) {
      forall i | 0 <= i < |content|
        ensures im[i] == content[i]
      {
        if Matches(content[i], col, contentId) {
          assert i == k;
        }
      }
    }
  }
}
