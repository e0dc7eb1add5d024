/**
 * The first post generator, content_generator.py at the repository root:
 * the best article without a ledger, its key information with the one-step
 * company rule, and the order of the files `run` writes. Generating the
 * posts (by the language model or the template fallback) is a parameter
 * `generate`; the JSON text of the saved article is a parameter
 * `articleJson`.
 */
module ContentScript {
  import opened Wrappers
  import opened Strings
  import opened Articles
  import opened Selection
  import opened KeyInfo
  import opened Naming

  /**
   * `select_best_article`: `None` exactly when no article has content,
   * otherwise the article with content a stable sort by descending score
   * puts first. No ledger is consulted. The titles of the articles with
   * content must be present (the source indexes `article['title']`).
   */
  method SelectBestArticle(articles: seq<Article>) returns (best: Option<Article>)
    requires forall i :: 0 <= i < |articles| && HasContent(articles[i]) ==> articles[i].title.Some?
    ensures best.None? <==> WithContent(articles) == []
    ensures best.Some? ==> best.value in articles && HasContent(best.value)
    ensures best.Some? ==> exists k :: IsFirstBest(WithContent(articles), k) && best.value == WithContent(articles)[k]
  {
    EmptyLedgerKeepsAll(WithContent(articles));
    best := Selection.SelectBest([], articles);
  }

  /** `extract_key_info(article)`; the title must be present. */
  method ExtractKeyInfo(a: Article) returns (info: PostInfo)
    requires a.title.Some?
    ensures info == SimplePostInfoOf(a.title.value, Paragraphs(a))
  {
    var title := a.title.value;
    var content := Paragraphs(a);
    var company := FindFirstCapitalisedName(Words(title), SimpleStopwords);
    var funding := FindFundingAmount(title, PostSuffix);
    var location := FindLocation(Words(title));
    info := PostInfo(title, company, funding, location, Summary(content));
  }

  /** The names of the files `run` writes into the article's directory. */
  const ArticleInfoFile: string := "article_info.json"
  const RussianFile: string := "russian.md"
  const EnglishFile: string := "english.md"

  /**
   * The files after the writing steps of `run`: the article first, then the
   * Russian post and the English post, each only when it is not empty.
   */
  function RunOutputs(files: map<string, string>, dir: string, json: string, russian: string, english: string)
    : map<string, string>
  {
    var afterInfo := files[PathJoin(dir, ArticleInfoFile) := json];
    var afterRussian := SaveContent(afterInfo, dir, russian, RussianFile).files;
    SaveContent(afterRussian, dir, english, EnglishFile).files
  }

  /**
   * The writing steps keep every file outside the three they name, always
   * write the article, and write each post exactly when it has text.
   */
  lemma RunOutputsWrite(files: map<string, string>, dir: string, json: string, russian: string, english: string)
    ensures var out := RunOutputs(files, dir, json, russian, english);
      var info, ru, en := PathJoin(dir, ArticleInfoFile), PathJoin(dir, RussianFile), PathJoin(dir, EnglishFile);
      (info in out && out[info] == json) &&
      (russian != "" ==> ru in out && out[ru] == russian) &&
      (russian == "" ==> (ru in out <==> ru in files)) &&
      (russian == "" && ru in files ==> out[ru] == files[ru]) &&
      (english != "" ==> en in out && out[en] == english) &&
      (english == "" ==> (en in out <==> en in files)) &&
      (english == "" && en in files ==> out[en] == files[en]) &&
      (forall p :: p in files && p != ru && p != en && p != info ==> p in out && out[p] == files[p])
  {
    var info, ru, en := PathJoin(dir, ArticleInfoFile), PathJoin(dir, RussianFile), PathJoin(dir, EnglishFile);
    assert ru != info && en != info && ru != en by {
      assert ru[|dir| + 1..] == RussianFile;
      assert en[|dir| + 1..] == EnglishFile;
      assert info[|dir| + 1..] == ArticleInfoFile;
    }
  }

  /** `ContentGenerator` of content_generator.py: the files it writes. */
  class ContentGenerator {
    const outputDir: string
    var files: map<string, string>

    constructor (existing: map<string, string>)
      ensures outputDir == "output" && files == existing
    {
      outputDir := "output";
      files := existing;
    }

    /**
     * `run`: nothing happens without articles or without an article with
     * content; otherwise the best one's record and posts are written to its
     * directory, whose path is returned.
     */
    method Run(articles: Option<seq<Article>>, today: string,
               generate: (PostInfo, string) -> string, articleJson: Article -> string)
      returns (articleDir: Option<string>, chosen: Option<Article>)
      requires articles.Some? ==>
        forall i :: 0 <= i < |articles.value| && HasContent(articles.value[i]) ==> articles.value[i].title.Some?
      modifies this
      ensures articleDir.None? <==> WithContent(articles.GetOr([])) == []
      ensures articleDir.None? ==> chosen.None? && files == old(files)
      ensures articleDir.Some? ==>
        (var c := WithContent(articles.GetOr([]));
         chosen.Some? && chosen.value.title.Some? &&
         (var best := chosen.value;
          var title := best.title.value;
          var info := SimplePostInfoOf(title, Paragraphs(best));
          (exists k :: IsFirstBest(c, k) && best == c[k]) &&
          articleDir.value == ArticleDirectory(outputDir, today, title) &&
          files == RunOutputs(old(files), articleDir.value, articleJson(best),
                              generate(info, "russian"), generate(info, "english"))))
    {
      articleDir, chosen := None, None;
      if articles.None? || articles.value == [] {
        return;
      }
      var best := SelectBestArticle(articles.value);
      if best.None? {
        return;
      }
      var article := best.value;
      WithContentMembers(articles.value);
      var dir := ArticleDirectory(outputDir, today, article.title.value);
      ghost var before := files;
      var json := articleJson(article);
      files := files[PathJoin(dir, ArticleInfoFile) := json];
      var info := ExtractKeyInfo(article);
      var russian := generate(info, "russian");
      files := SaveContent(files, dir, russian, RussianFile).files;
      var english := generate(info, "english");
      files := SaveContent(files, dir, english, EnglishFile).files;
      assert files == RunOutputs(before, dir, json, russian, english);
      articleDir, chosen := Some(dir), Some(article);
    }
  }
}
