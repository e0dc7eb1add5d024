/**
 * `ExcelContentTracker` of src/storage/excel_tracker.py: the six tables
 * live as sheets of one workbook file, and each method reads the sheets it
 * needs, changes them and writes them back. The workbook is the field
 * `book`; the rest of the file system is the field `files`.
 */
module ExcelTracker {
  import opened Wrappers
  import opened TrackerRows
  import opened TrackerStore

  /** The workbook's default location. */
  const DefaultExcelPath: string := "data/content_tracker.xlsx"

  class ExcelContentTracker {
    const excelPath: string
    var book: Tables
    var files: map<string, string>

    /**
     * `__init__` with `ensure_excel_exists`: an existing workbook is used as
     * it is; otherwise a new one is made, empty but for the metadata seed.
     */
    constructor (path: string, existing: Option<Tables>, fileSystem: map<string, string>, now: string)
      ensures excelPath == path && files == fileSystem
      ensures existing.Some? ==> book == existing.value
      ensures existing.None? ==> book == NewTables(now)
    {
      excelPath := path;
      files := fileSystem;
      if existing.Some? {
        book := existing.value;
      } else {
        book := NewTables(now);
      }
    }

    /** `update_metadata(key, value)` */
    method UpdateMetadata(key: string, value: string)
      modifies this
      ensures book == Apply(old(book), UpdateMetadataOp(key, value)) && files == old(files)
    {
      var metadata := book.metadata;
      if AnyMatch(metadata, "key", key) {
        metadata := SetWhere(metadata, "key", key, map["value" := value]);
      } else {
        metadata := metadata + [MetadataRow(key, value)];
      }
      book := book.(metadata := metadata);
    }

    /** `add_log`, drawing the id `logId`; it returns that id. */
    method AddLog(logId: string, logType: string, message: string, articleId: Option<string>,
                  contentId: Option<string>, details: Option<string>, now: string) returns (id: string)
      modifies this
      ensures id == logId
      ensures book == Apply(old(book), AddLogOp(logId, logType, message, articleId, contentId, details, now))
      ensures files == old(files)
    {
      var logs := book.logs;
      logs := logs + [LogRow(logId, logType, message, articleId, contentId, details, now)];
      book := book.(logs := logs);
      id := logId;
    }

    /** `add_article`, drawing the ids `articleId` and `logId`; it returns the article's id. */
    method AddArticle(articleId: string, logId: string, data: Row, c: ArticleContent, now: string) returns (id: string)
      modifies this
      ensures id == articleId
      ensures book == Apply(old(book), AddArticleOp(articleId, logId, data, c, now)) && files == old(files)
    {
      var articles := book.articles;
      articles := articles + [ArticleRow(articleId, data, c, now)];
      book := book.(articles := articles);
      UpdateMetadata("last_update", now);
      var _ := AddLog(logId, "article_added", ArticleMessage(Get(data, "title", "")), Some(articleId), None, None, now);
      id := articleId;
    }

    /**
     * `add_content`, drawing the ids `contentId` and `logId`: without
     * markdown the body is read from the file `content_path` names, when it
     * exists.
     */
    method AddContent(contentId: string, logId: string, data: Row, articleId: string, markdown: Option<string>, now: string)
      returns (id: string)
      modifies this
      ensures id == contentId
      ensures book == Apply(old(book), AddContentOp(contentId, logId, data, articleId,
                                                     ResolveMarkdown(OrEmpty(markdown), data, old(files)), now))
      ensures files == old(files)
    {
      var md := OrEmpty(markdown);
      if md == "" && "content_path" in data && data["content_path"] in files {
        md := files[data["content_path"]];
      }
      var content := book.content;
      content := content + [ContentRow(contentId, articleId, data, md, now)];
      book := book.(content := content);
      UpdateMetadata("last_update", now);
      var _ := AddLog(logId, "content_added", ContentMessage(Get(data, "content_type", ""), Get(data, "language", "")),
                      Some(articleId), Some(contentId), None, now);
      id := contentId;
    }

    /** `add_reel`, drawing the ids `reelId` and `logId`. */
    method AddReel(reelId: string, logId: string, articleId: string, title: string, script: string, notes: string, now: string)
      returns (id: string)
      modifies this
      ensures id == reelId
      ensures book == Apply(old(book), AddReelOp(reelId, logId, articleId, title, script, notes, now)) && files == old(files)
    {
      var reels := book.reels;
      reels := reels + [ReelRow(reelId, articleId, title, script, notes, now)];
      book := book.(reels := reels);
      UpdateMetadata("last_update", now);
      var _ := AddLog(logId, "reel_added", ReelMessage(title), Some(articleId), None, None, now);
      id := reelId;
    }

    /** `schedule_content`, drawing the ids `scheduleId` and `logId`; both sheets are written together. */
    method ScheduleContent(scheduleId: string, logId: string, contentId: string, data: Row, now: string) returns (id: string)
      modifies this
      ensures id == scheduleId
      ensures book == Apply(old(book), ScheduleOp(scheduleId, logId, contentId, data, now)) && files == old(files)
    {
      var schedule := book.schedule;
      var content := book.content;
      schedule := schedule + [ScheduleRow(scheduleId, contentId, data)];
      var matched := AnyMatch(content, "content_id", contentId);
      MarkingKeepsArticle(content, contentId, ScheduleUpdates(data));
      if matched {
        content := SetWhere(content, "content_id", contentId, ScheduleUpdates(data));
      }
      book := book.(schedule := schedule, content := content);
      UpdateMetadata("last_update", now);
      var articleId := "";
      if matched {
        var first := FirstMatch(content, "content_id", contentId);
        articleId := Get(first.value, "article_id", "");
      }
      var _ := AddLog(logId, "content_scheduled", ScheduleMessage(Get(data, "date", ""), Get(data, "time", "")),
                      Some(articleId), Some(contentId), None, now);
      id := scheduleId;
    }

    /** `get_all_articles`: every Articles row, in table order. */
    method GetAllArticles() returns (r: seq<Row>)
      ensures r == book.articles
    {
      r := book.articles;
    }

    /** `get_all_content`: every Content row, in table order. */
    method GetAllContent() returns (r: seq<Row>)
      ensures r == book.content
    {
      r := book.content;
    }

    /** `get_content_by_id`: the first Content row of that id, or none. */
    method GetContentById(contentId: string) returns (r: Option<Row>)
      ensures r.None? <==> !AnyMatch(book.content, "content_id", contentId)
      ensures r.Some? ==> r.value in book.content && Matches(r.value, "content_id", contentId)
      ensures r == FirstMatch(book.content, "content_id", contentId)
    {
      r := FirstMatch(book.content, "content_id", contentId);
    }

    /** `get_article_by_id`: the first Articles row of that id, or none. */
    method GetArticleById(articleId: string) returns (r: Option<Row>)
      ensures r.None? <==> !AnyMatch(book.articles, "article_id", articleId)
      ensures r.Some? ==> r.value in book.articles && Matches(r.value, "article_id", articleId)
      ensures r == FirstMatch(book.articles, "article_id", articleId)
    {
      r := FirstMatch(book.articles, "article_id", articleId);
    }

    /** `get_reels_by_article_id`: every Reels row of that article, in table order. */
    method GetReelsByArticleId(articleId: string) returns (r: seq<Row>)
      ensures forall x :: x in r <==> x in book.reels && Matches(x, "article_id", articleId)
      ensures r == AllMatches(book.reels, "article_id", articleId)
    {
      r := AllMatches(book.reels, "article_id", articleId);
    }

    /** `get_logs_by_article_id`: every Logs row of that article, in table order. */
    method GetLogsByArticleId(articleId: string) returns (r: seq<Row>)
      ensures forall x :: x in r <==> x in book.logs && Matches(x, "article_id", articleId)
      ensures r == AllMatches(book.logs, "article_id", articleId)
    {
      r := AllMatches(book.logs, "article_id", articleId);
    }

    /** `export_content_to_file` */
    method ExportContentToFile(contentId: string, outputPath: string) returns (ok: bool)
      modifies this
      ensures var e := ExportContent(old(book.content), contentId, outputPath, old(files));
        ok == e.ok && files == e.files
      ensures book == old(book)
    {
      var content := GetContentById(contentId);
      ok := false;
      if content.Some? && Markdown(content.value) != "" {
        if ExportablePath(outputPath) {
          files := files[outputPath := Markdown(content.value)];
          ok := true;
        }
      }
    }

    /** `import_content_from_file` */
    method ImportContentFromFile(contentId: string, inputPath: string) returns (ok: bool)
      modifies this
      ensures var i := ImportContent(old(book.content), contentId, inputPath, old(files));
        ok == i.ok && book == old(book).(content := i.content)
      ensures files == old(files)
    {
      ok := false;
      if inputPath in files {
        var markdown := files[inputPath];
        var content := book.content;
        if AnyMatch(content, "content_id", contentId) {
          content := SetWhere(content, "content_id", contentId, map["content_markdown" := markdown]);
          book := book.(content := content);
          ok := true;
        }
      }
    }
  }
}
