/**
 * The rows of the six-table content store shared by src/storage/excel_tracker.py
 * and src/storage/google_sheets_tracker.py: the columns of each table, the
 * row each `add_*` operation builds with its defaults, and the masked
 * updates and lookups both backends apply to a table read whole. A row is a
 * map from column name to cell text, a table the sequence of its rows.
 */
module TrackerRows {
  import opened Wrappers
  import opened Strings

  type Row = map<string, string>

  const ContentColumns: seq<string> := [
    "content_id", "article_id", "title", "source_url", "category",
    "content_type", "language", "content_markdown", "creation_date",
    "status", "scheduled_date", "scheduled_time", "platform",
    "published_date", "published_url", "engagement_stats",
    "tags", "dubskiy_rating", "notes"]

  const ArticleColumns: seq<string> := [
    "article_id", "title", "source_url", "category",
    "publication_date", "company_name", "funding_amount",
    "article_content", "processing_date", "processing_status"]

  const ScheduleColumns: seq<string> := [
    "schedule_id", "content_id", "platform", "scheduled_date",
    "scheduled_time", "timezone", "posting_status", "priority",
    "campaign_id", "posting_account"]

  const MetadataColumns: seq<string> := ["key", "value"]

  const ReelColumns: seq<string> := [
    "reel_id", "article_id", "title", "script_markdown",
    "creation_date", "status", "video_url", "notes"]

  const LogColumns: seq<string> := [
    "log_id", "article_id", "content_id", "log_type",
    "timestamp", "message", "details"]

  /** A row has exactly the columns of its table. */
  predicate Conforms(r: Row, columns: seq<string>) {
    r.Keys == set c | c in columns
  }

  /** `d.get(k, default)` */
  function Get(d: Row, k: string, default: string): string {
    if k in d then d[k] else default
  }

  /** `x or ''` for an optional text: a missing or empty one is stored as "". */
  function OrEmpty(x: Option<string>): string {
    if x.Some? then x.value else ""
  }

  // ---- the rows the operations build

  /**
   * The `article_content` argument of `add_article`: absent, a text, a list
   * of paragraphs, or a non-empty dictionary given as its JSON text (the
   * serialisation itself is not modelled; an empty dictionary is falsy and
   * behaves as an absent argument).
   */
  datatype ArticleContent = NoContent | Text(text: string) | Parts(parts: seq<string>) | Document(json: string)

  /** The argument after the two conversions: a list joined with blank lines, a dictionary as JSON. */
  function ContentText(c: ArticleContent): string {
    match c
    case NoContent => ""
    case Text(t) => t
    case Parts(ps) => Join("\n\n", ps)
    case Document(j) => j
  }

  /** `article_content or article_data.get('content', '')` */
  function ArticleContentCell(data: Row, c: ArticleContent): (cell: string)
    ensures ContentText(c) != "" ==> cell == ContentText(c)
    ensures ContentText(c) == "" ==> cell == Get(data, "content", "")
  {
    if ContentText(c) != "" then ContentText(c) else Get(data, "content", "")
  }

  /** The Articles row of `add_article`; `now` is the formatted clock reading. */
  function ArticleRow(id: string, data: Row, c: ArticleContent, now: string): Row {
    map[
      "article_id" := id,
      "title" := Get(data, "title", ""),
      "source_url" := Get(data, "link", ""),
      "category" := Get(data, "category", ""),
      "publication_date" := Get(data, "date", ""),
      "company_name" := Get(data, "company_name", ""),
      "funding_amount" := Get(data, "funding_amount", ""),
      "article_content" := ArticleContentCell(data, c),
      "processing_date" := now,
      "processing_status" := "processed"]
  }

  /**
   * The markdown `add_content` stores: the argument, or, when that is empty
   * and `content_path` names an existing file, that file's text.
   */
  function ResolveMarkdown(markdown: string, data: Row, files: map<string, string>): (md: string)
    ensures markdown != "" ==> md == markdown
    ensures markdown == "" && "content_path" in data && data["content_path"] in files ==> md == files[data["content_path"]]
    ensures markdown == "" && !("content_path" in data && data["content_path"] in files) ==> md == ""
  {
    if markdown == "" && "content_path" in data && data["content_path"] in files then files[data["content_path"]]
    else markdown
  }

  /** The Content row of `add_content`: a draft, not scheduled, not published. */
  function ContentRow(id: string, articleId: string, data: Row, markdown: string, now: string): Row {
    map[
      "content_id" := id,
      "article_id" := articleId,
      "title" := Get(data, "title", ""),
      "source_url" := Get(data, "source_url", ""),
      "category" := Get(data, "category", ""),
      "content_type" := Get(data, "content_type", ""),
      "language" := Get(data, "language", ""),
      "content_markdown" := markdown,
      "creation_date" := now,
      "status" := "draft",
      "scheduled_date" := "",
      "scheduled_time" := "",
      "platform" := Get(data, "platform", ""),
      "published_date" := "",
      "published_url" := "",
      "engagement_stats" := "",
      "tags" := Get(data, "tags", ""),
      "dubskiy_rating" := Get(data, "dubskiy_rating", ""),
      "notes" := Get(data, "notes", "")]
  }

  /** The Reels row of `add_reel`: a draft without a video. */
  function ReelRow(id: string, articleId: string, title: string, script: string, notes: string, now: string): Row {
    map[
      "reel_id" := id,
      "article_id" := articleId,
      "title" := title,
      "script_markdown" := script,
      "creation_date" := now,
      "status" := "draft",
      "video_url" := "",
      "notes" := notes]
  }

  /** The Logs row of `add_log`; `details` is the JSON text of the details, if any. */
  function LogRow(id: string, logType: string, message: string, articleId: Option<string>, contentId: Option<string>,
                  details: Option<string>, now: string): Row {
    map[
      "log_id" := id,
      "article_id" := OrEmpty(articleId),
      "content_id" := OrEmpty(contentId),
      "log_type" := logType,
      "timestamp" := now,
      "message" := message,
      "details" := OrEmpty(details)]
  }

  /** The Schedule row of `schedule_content`: pending, in UTC+3 and of medium priority unless said otherwise. */
  function ScheduleRow(id: string, contentId: string, data: Row): Row {
    map[
      "schedule_id" := id,
      "content_id" := contentId,
      "platform" := Get(data, "platform", ""),
      "scheduled_date" := Get(data, "date", ""),
      "scheduled_time" := Get(data, "time", ""),
      "timezone" := Get(data, "timezone", "UTC+3"),
      "posting_status" := "pending",
      "priority" := Get(data, "priority", "medium"),
      "campaign_id" := Get(data, "campaign_id", ""),
      "posting_account" := Get(data, "account", "")]
  }

  /** A Metadata row. */
  function MetadataRow(key: string, value: string): Row {
    map["key" := key, "value" := value]
  }

  /** The initial Metadata table; `now` is the formatted clock reading. */
  function MetadataSeed(now: string): seq<Row> {
    [MetadataRow("last_update", now),
     MetadataRow("version", "1.0"),
     MetadataRow("api_keys", "{}"),
     MetadataRow("default_settings", "{\"default_time\": \"10:00\", \"default_timezone\": \"UTC+3\"}"),
     MetadataRow("platform_settings", "{}")]
  }

  /** The rows the operations build have exactly the columns of their tables. */
  lemma ArticleRowConforms(id: string, data: Row, c: ArticleContent, now: string)
    ensures Conforms(ArticleRow(id, data, c, now), ArticleColumns)
  {
  }

  lemma ContentRowConforms(id: string, articleId: string, data: Row, markdown: string, now: string)
    ensures Conforms(ContentRow(id, articleId, data, markdown, now), ContentColumns)
  {
  }

  lemma ReelRowConforms(id: string, articleId: string, title: string, script: string, notes: string, now: string)
    ensures Conforms(ReelRow(id, articleId, title, script, notes, now), ReelColumns)
  {
  }

  lemma LogRowConforms(id: string, logType: string, message: string, articleId: Option<string>,
                       contentId: Option<string>, details: Option<string>, now: string)
    ensures Conforms(LogRow(id, logType, message, articleId, contentId, details, now), LogColumns)
  {
  }

  lemma ScheduleRowConforms(id: string, contentId: string, data: Row)
    ensures Conforms(ScheduleRow(id, contentId, data), ScheduleColumns)
  {
  }

  /** The seed names five distinct keys, each once, and version "1.0". */
  lemma SeedShape(now: string)
    ensures |MetadataSeed(now)| == 5
    ensures forall i :: 0 <= i < 5 ==> Conforms(MetadataSeed(now)[i], MetadataColumns)
    ensures forall i, j :: 0 <= i < j < 5 ==> MetadataSeed(now)[i]["key"] != MetadataSeed(now)[j]["key"]
    ensures MetadataSeed(now)[1] == MetadataRow("version", "1.0")
  {
  }

  // ---- masks

  /** `df[col] == v` at a row. */
  predicate Matches(r: Row, col: string, v: string) {
    col in r && r[col] == v
  }

  /** `any(df[col] == v)` */
  predicate AnyMatch(rows: seq<Row>, col: string, v: string) {
    exists i :: 0 <= i < |rows| && Matches(rows[i], col, v)
  }

  /** `df.loc[df[col] == v, c] = updates[c]` for every column `c` of `updates`. */
  function SetWhere(rows: seq<Row>, col: string, v: string, updates: Row): (r: seq<Row>)
    ensures |r| == |rows|
    ensures forall i :: 0 <= i < |rows| ==> r[i] == if Matches(rows[i], col, v) then rows[i] + updates else rows[i]
  {
    seq(|rows|, i requires 0 <= i < |rows| => if Matches(rows[i], col, v) then rows[i] + updates else rows[i])
  }

  /**
   * A masked update changes exactly the matching rows: each gets the new
   * cells and keeps the others, every other row is untouched, and a table
   * whose rows conform keeps conforming when the updated columns are its own.
   */
  lemma SetWhereChangesMatches(rows: seq<Row>, col: string, v: string, updates: Row, columns: seq<string>)
    ensures var r := SetWhere(rows, col, v, updates);
      forall i :: 0 <= i < |rows| ==>
        (Matches(rows[i], col, v) ==>
           (forall c :: c in updates ==> c in r[i] && r[i][c] == updates[c]) &&
           (forall c :: c in rows[i] && c !in updates ==> c in r[i] && r[i][c] == rows[i][c])) &&
        (!Matches(rows[i], col, v) ==> r[i] == rows[i])
    ensures col !in updates ==> forall i :: 0 <= i < |rows| ==> (Matches(SetWhere(rows, col, v, updates)[i], col, v) <==> Matches(rows[i], col, v))
    ensures (forall i :: 0 <= i < |rows| ==> Conforms(rows[i], columns)) && (forall c :: c in updates ==> c in columns) ==>
      forall i :: 0 <= i < |rows| ==> Conforms(SetWhere(rows, col, v, updates)[i], columns)
  {
  }

  /** Applying the same masked update twice is applying it once, when it leaves the mask's column alone. */
  lemma SetWhereIdempotent(rows: seq<Row>, col: string, v: string, updates: Row)
    requires col !in updates
    ensures SetWhere(SetWhere(rows, col, v, updates), col, v, updates) == SetWhere(rows, col, v, updates)
  {
    var once := SetWhere(rows, col, v, updates);
    forall i | 0 <= i < |rows|
      ensures SetWhere(once, col, v, updates)[i] == once[i]
    {
      if Matches(rows[i], col, v) {
        assert once[i] + updates == once[i];
      }
    }
  }

  // ---- metadata

  /** `update_metadata(key, value)` on the Metadata table: all rows keyed `key` get `value`, or one row is appended. */
  function Upsert(rows: seq<Row>, key: string, value: string): seq<Row> {
    if AnyMatch(rows, "key", key) then SetWhere(rows, "key", key, map["value" := value])
    else rows + [MetadataRow(key, value)]
  }

  /**
   * After the upsert the key reads back as `value` at every row keyed by it,
   * there is at least one such row, rows of other keys are unchanged, and
   * the table grows by one row exactly when the key was absent.
   */
  lemma UpsertSets(rows: seq<Row>, key: string, value: string)
    ensures var r := Upsert(rows, key, value);
      AnyMatch(r, "key", key) &&
      (forall i :: 0 <= i < |r| && Matches(r[i], "key", key) ==> "value" in r[i] && r[i]["value"] == value) &&
      (forall i :: 0 <= i < |rows| && !Matches(rows[i], "key", key) ==> r[i] == rows[i]) &&
      (AnyMatch(rows, "key", key) ==> |r| == |rows|) &&
      (!AnyMatch(rows, "key", key) ==> r == rows + [MetadataRow(key, value)])
  {
    var r := Upsert(rows, key, value);
    if AnyMatch(rows, "key", key) {
      var i :| 0 <= i < |rows| && Matches(rows[i], "key", key);
      assert Matches(r[i], "key", key);
    } else {
      assert Matches(r[|rows|], "key", key);
    }
  }

  /** Upserting the same pair twice is upserting it once. */
  lemma UpsertIdempotent(rows: seq<Row>, key: string, value: string)
    ensures Upsert(Upsert(rows, key, value), key, value) == Upsert(rows, key, value)
  {
    var once := Upsert(rows, key, value);
    UpsertSets(rows, key, value);
    SetWhereIdempotent(rows, "key", key, map["value" := value]);
    if !AnyMatch(rows, "key", key) {
      var u := map["value" := value];
      forall i | 0 <= i < |once|
        ensures SetWhere(once, "key", key, u)[i] == once[i]
      {
        if Matches(once[i], "key", key) {
          assert once[i] + u == once[i];
        }
      }
    }
  }

  // ---- lookups

  /** The first position from `i` on whose row matches, or `|rows|`. */
  function MatchIndex(rows: seq<Row>, col: string, v: string, i: nat): (k: nat)
    requires i <= |rows|
    ensures i <= k <= |rows|
    ensures k < |rows| ==> Matches(rows[k], col, v)
    ensures forall j :: i <= j < k ==> !Matches(rows[j], col, v)
    decreases |rows| - i
  {
    if i == |rows| || Matches(rows[i], col, v) then i else MatchIndex(rows, col, v, i + 1)
  }

  /** `df[df[col] == v].to_dict(orient='records')[0]`, or `None` when no row matches. */
  function FirstMatch(rows: seq<Row>, col: string, v: string): (r: Option<Row>)
    ensures r.None? <==> !AnyMatch(rows, col, v)
    ensures r.Some? ==> exists k :: (0 <= k < |rows| && r.value == rows[k] && Matches(rows[k], col, v) &&
      forall j :: 0 <= j < k ==> !Matches(rows[j], col, v))
  {
    var k := MatchIndex(rows, col, v, 0);
    if k < |rows| then Some(rows[k]) else None
  }

  /** `df[df[col] == v].to_dict(orient='records')`: the matching rows in table order. */
  function AllMatches(rows: seq<Row>, col: string, v: string): (r: seq<Row>)
    ensures |r| <= |rows|
    ensures forall x :: x in r <==> x in rows && Matches(x, col, v)
    ensures r == [] <==> !AnyMatch(rows, col, v)
  {
    if rows == [] then []
    else
      var rest := AllMatches(rows[1..], col, v);
      assert AnyMatch(rows[1..], col, v) ==> AnyMatch(rows, col, v) by {
        if AnyMatch(rows[1..], col, v) {
          var i :| 0 <= i < |rows[1..]| && Matches(rows[1..][i], col, v);
          assert rows[i + 1] == rows[1..][i];
        }
      }
      assert AnyMatch(rows, col, v) && !Matches(rows[0], col, v) ==> AnyMatch(rows[1..], col, v) by {
        if AnyMatch(rows, col, v) && !Matches(rows[0], col, v) {
          var i :| 0 <= i < |rows| && Matches(rows[i], col, v);
          assert rows[1..][i - 1] == rows[i];
        }
      }
      (if Matches(rows[0], col, v) then [rows[0]] else []) + rest
  }

  /** The first match is the first of all matches. */
  lemma {:induction false} FirstOfAll(rows: seq<Row>, col: string, v: string)
    ensures FirstMatch(rows, col, v).Some? <==> AllMatches(rows, col, v) != []
    ensures FirstMatch(rows, col, v).Some? ==> FirstMatch(rows, col, v).value == AllMatches(rows, col, v)[0]
  {
    if rows != [] && !Matches(rows[0], col, v) {
      FirstOfAll(rows[1..], col, v);
      MatchesShift(rows, col, v);
    }
  }

  /** Past a first row that does not match, lookups start one row later. */
  lemma MatchesShift(rows: seq<Row>, col: string, v: string)
    requires rows != [] && !Matches(rows[0], col, v)
    ensures FirstMatch(rows, col, v) == FirstMatch(rows[1..], col, v)
  {
    var k := MatchIndex(rows, col, v, 0);
    var k1 := MatchIndex(rows[1..], col, v, 0);
    if k < |rows| {
      assert rows[1..][k - 1] == rows[k];
    }
  }
}
