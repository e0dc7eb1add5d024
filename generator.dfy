/**
 * The post generator of src/core/generator.py: key information of the chosen
 * article, and the order of the steps of `run`. Generating the text (by the
 * language model or by the template fallback) is a parameter `generate`; the
 * JSON text of the saved article is a parameter `articleJson`.
 */
module Generator {
  import opened Wrappers
  import opened Strings
  import opened Articles
  import opened ArticleLedger
  import opened Selection
  import opened KeyInfo
  import opened Naming

  /** `extract_key_info(article)`; the title must be present (the source indexes `article['title']`). */
  method ExtractKeyInfo(a: Article) returns (info: PostInfo)
    requires a.title.Some?
    ensures info == PostInfoOf(a.title.value, Paragraphs(a))
  {
    var title := a.title.value;
    var content := Paragraphs(a);
    var company := FindCompanyName(title, content);
    var funding := FindFundingAmount(title, PostSuffix);
    var location := FindLocation(Words(title));
    info := PostInfo(title, company, funding, location, Summary(content));
  }

  /** The names of the files `run` writes into the article's directory. */
  const RussianPostFile: string := "telegram_post_ru.md"
  const EnglishPostFile: string := "linkedin_post_en.md"
  const ArticleInfoFile: string := "article_info.json"

  /**
   * The files after the writing steps of `run`: the Russian post and the
   * English post, each only when it is not empty, then the article itself.
   */
  function RunOutputs(files: map<string, string>, dir: string, russian: string, english: string, json: string)
    : map<string, string>
  {
    var afterRussian := SaveContent(files, dir, russian, RussianPostFile).files;
    var afterEnglish := SaveContent(afterRussian, dir, english, EnglishPostFile).files;
    afterEnglish[PathJoin(dir, ArticleInfoFile) := json]
  }

  /**
   * The writing steps keep every file outside the three they name, always
   * write the article, and write each post exactly when it has text.
   */
  lemma RunOutputsWrite(files: map<string, string>, dir: string, russian: string, english: string, json: string)
    ensures var out := RunOutputs(files, dir, russian, english, json);
      var ru, en, info := PathJoin(dir, RussianPostFile), PathJoin(dir, EnglishPostFile), PathJoin(dir, ArticleInfoFile);
      (info in out && out[info] == json) &&
      (russian != "" ==> ru in out && out[ru] == russian) &&
      (russian == "" ==> (ru in out <==> ru in files)) &&
      (russian == "" && ru in files ==> out[ru] == files[ru]) &&
      (english != "" ==> en in out && out[en] == english) &&
      (english == "" ==> (en in out <==> en in files)) &&
      (english == "" && en in files ==> out[en] == files[en]) &&
      (forall p :: p in files && p != ru && p != en && p != info ==> p in out && out[p] == files[p])
  {
    var ru, en, info := PathJoin(dir, RussianPostFile), PathJoin(dir, EnglishPostFile), PathJoin(dir, ArticleInfoFile);
    assert ru != info && en != info && ru != en by {
      assert ru[|dir| + 1..] == RussianPostFile;
      assert en[|dir| + 1..] == EnglishPostFile;
      assert info[|dir| + 1..] == ArticleInfoFile;
    }
  }

  /** `ContentGenerator`: the ledger it consults and marks, and the files it writes. */
  class ContentGenerator {
    const outputDir: string
    const tracker: ArticleTracker
    var files: map<string, string>

    /** The generator with the ledger loaded from `stored` (absent or unreadable: empty). */
    constructor (stored: Option<seq<Entry>>, existing: map<string, string>)
      ensures outputDir == "output" && tracker.processed == stored.GetOr([]) && files == existing
      ensures fresh(tracker)
    {
      outputDir := "output";
      tracker := new ArticleTracker(stored);
      files := existing;
    }

    /**
     * `run`: nothing happens without articles or without a candidate;
     * otherwise the best candidate's posts and record are written to its
     * directory and, as the last step, the ledger is marked with that
     * directory.
     */
    method Run(articles: Option<seq<Article>>, today: string, now: string,
               generate: (PostInfo, string) -> string, articleJson: Article -> string)
      returns (articleDir: Option<string>, chosen: Option<Article>)
      requires articles.Some? ==>
        forall i :: 0 <= i < |articles.value| && Eligible(tracker.processed, articles.value[i]) ==> articles.value[i].title.Some?
      modifies this, tracker
      ensures var c := Candidates(old(tracker.processed), articles.GetOr([]));
        articleDir.None? <==> c == []
      ensures articleDir.None? ==> chosen.None? && tracker.processed == old(tracker.processed) && files == old(files)
      ensures articleDir.Some? ==> chosen.Some? && chosen.value.title.Some?
      ensures articleDir.Some? ==> !IsProcessed(old(tracker.processed), chosen.value) && IsProcessed(tracker.processed, chosen.value)
      ensures articleDir.Some? ==>
        (var c := Candidates(old(tracker.processed), articles.GetOr([]));
         var best := chosen.value;
         var title := best.title.value;
         var info := PostInfoOf(title, Paragraphs(best));
         (exists k :: IsFirstBest(c, k) && best == c[k]) &&
         articleDir.value == ArticleDirectory(outputDir, today, title) &&
         files == RunOutputs(old(files), articleDir.value, generate(info, "russian"), generate(info, "english"), articleJson(best)) &&
         tracker.processed == old(tracker.processed) + [EntryFor(best, articleDir.value, now)])
    {
      chosen := SelectLoaded(tracker.processed, articles);
      articleDir := None;
      if chosen.Some? {
        var article := chosen.value;
        var dir := WritePosts(article, today, generate, articleJson);
        MarkMakesProcessed(tracker.processed, article, article, dir, now);
        tracker.MarkArticleProcessed(article, dir, now);
        articleDir := Some(dir);
      }
    }

    /** The writing steps of `run` for the chosen article: its directory, its two posts and its record. */
    method WritePosts(best: Article, today: string, generate: (PostInfo, string) -> string, articleJson: Article -> string)
      returns (dir: string)
      requires best.title.Some?
      modifies this
      ensures var info := PostInfoOf(best.title.value, Paragraphs(best));
        dir == ArticleDirectory(outputDir, today, best.title.value) &&
        files == RunOutputs(old(files), dir, generate(info, "russian"), generate(info, "english"), articleJson(best))
    {
      var info := ExtractKeyInfo(best);
      dir := ArticleDirectory(outputDir, today, best.title.value);
      var russian := generate(info, "russian");
      files := SaveContent(files, dir, russian, RussianPostFile).files;
      var english := generate(info, "english");
      files := SaveContent(files, dir, english, EnglishPostFile).files;
      files := files[PathJoin(dir, ArticleInfoFile) := articleJson(best)];
    }
  }
}
