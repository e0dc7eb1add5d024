/**
 * Choosing the article to write about (`select_best_article` in
 * src/core/generator.py and src/content/reel_generator.py): among the articles
 * with content that the ledger does not know, the one with the highest score,
 * the earliest one among equal scores.
 */
module Selection {
  import opened Wrappers
  import opened Strings
  import opened Articles
  import opened ArticleLedger

  /** The title words that each add one point. */
  const TitleKeywords: seq<string> := ["million", "funding", "investment", "launch", "startup", "innovation", "technology"]

  /** `sum(len(p) for p in content)` */
  function ContentLength(paras: seq<string>): nat {
    if paras == [] then 0 else ContentLength(paras[..|paras| - 1]) + |paras[|paras| - 1]|
  }

  /** Points for the amount of text: 3 above 2000 characters, 2 above 1000, 1 otherwise. */
  function LengthPoints(n: nat): int {
    if n > 2000 then 3 else if n > 1000 then 2 else 1
  }

  /** How many of the keywords occur in `text`. */
  function KeywordHits(text: string, keywords: seq<string>): (n: nat)
    ensures n <= |keywords|
  {
    if keywords == [] then 0
    else KeywordHits(text, keywords[..|keywords| - 1]) + (if Contains(text, keywords[|keywords| - 1]) then 1 else 0)
  }

  /** The score of an article: length points plus one point per keyword in the lower-cased title. */
  function Score(a: Article): (score: int)
    ensures 1 <= score <= 3 + |TitleKeywords|
  {
    LengthPoints(ContentLength(Paragraphs(a))) + KeywordHits(Lower(TitleKey(a)), TitleKeywords)
  }

  /** More text never lowers the score of an article with the same title. */
  lemma LongerNeverScoresLower(a: Article, b: Article)
    requires TitleKey(a) == TitleKey(b)
    requires ContentLength(Paragraphs(a)) >= ContentLength(Paragraphs(b))
    ensures Score(a) >= Score(b)
  {
  }

  /** Every keyword of the title counts once, so a title with all of them gets the full seven points. */
  lemma {:induction false} AllKeywordsCount(text: string, keywords: seq<string>)
    requires forall k :: 0 <= k < |keywords| ==> Contains(text, keywords[k])
    ensures KeywordHits(text, keywords) == |keywords|
  {
    if keywords != [] {
      AllKeywordsCount(text, keywords[..|keywords| - 1]);
    }
  }

  /** Articles that are candidates: with content and unknown to the ledger. */
  predicate Eligible(entries: seq<Entry>, a: Article) {
    HasContent(a) && !IsProcessed(entries, a)
  }

  /** `[a for a in articles if 'content' in a and a['content']]` */
  function WithContent(articles: seq<Article>): seq<Article> {
    if articles == [] then []
    else (if HasContent(articles[0]) then [articles[0]] else []) + WithContent(articles[1..])
  }

  /** `[a for a in articles if not tracker.is_article_processed(a)]` */
  function Unprocessed(entries: seq<Entry>, articles: seq<Article>): seq<Article> {
    if articles == [] then []
    else (if IsProcessed(entries, articles[0]) then [] else [articles[0]]) + Unprocessed(entries, articles[1..])
  }

  /** The candidates, in input order. */
  function Candidates(entries: seq<Entry>, articles: seq<Article>): seq<Article> {
    Unprocessed(entries, WithContent(articles))
  }

  /** `WithContent` keeps exactly the articles with content. */
  lemma {:induction false} WithContentMembers(articles: seq<Article>)
    ensures forall x :: x in WithContent(articles) <==> x in articles && HasContent(x)
  {
    if articles != [] {
      WithContentMembers(articles[1..]);
      assert articles == [articles[0]] + articles[1..];
    }
  }

  /** `Unprocessed` keeps exactly the articles the ledger does not know. */
  lemma {:induction false} UnprocessedMembers(entries: seq<Entry>, articles: seq<Article>)
    ensures forall x :: x in Unprocessed(entries, articles) <==> x in articles && !IsProcessed(entries, x)
  {
    if articles != [] {
      UnprocessedMembers(entries, articles[1..]);
      assert articles == [articles[0]] + articles[1..];
    }
  }

  /** The candidates are exactly the eligible articles of the input. */
  lemma CandidatesAreEligible(entries: seq<Entry>, articles: seq<Article>)
    ensures forall x :: x in Candidates(entries, articles) <==> x in articles && Eligible(entries, x)
  {
    WithContentMembers(articles);
    UnprocessedMembers(entries, WithContent(articles));
  }

  /** With an empty ledger nothing is filtered out. */
  lemma {:induction false} EmptyLedgerKeepsAll(articles: seq<Article>)
    ensures Unprocessed([], articles) == articles
  {
    if articles != [] {
      EmptyLedgerKeepsAll(articles[1..]);
    }
  }

  /** Position `k` holds a top score, and every earlier position scores strictly less. */
  ghost predicate IsFirstBest(c: seq<Article>, k: int) {
    0 <= k < |c| &&
    (forall j :: 0 <= j < |c| ==> Score(c[j]) <= Score(c[k])) &&
    (forall j :: 0 <= j < k ==> Score(c[j]) < Score(c[k]))
  }

  /** The score, computed the way the source does: length points, then a point per keyword in the title. */
  method ScoreArticle(a: Article) returns (score: int)
    ensures score == Score(a)
  {
    var length := ContentLength(Paragraphs(a));
    score := 0;
    if length > 2000 {
      score := score + 3;
    } else if length > 1000 {
      score := score + 2;
    } else {
      score := score + 1;
    }
    var title := Lower(TitleKey(a));
    for k := 0 to |TitleKeywords|
      invariant score == LengthPoints(length) + KeywordHits(title, TitleKeywords[..k])
    {
      assert TitleKeywords[..k + 1][..k] == TitleKeywords[..k];
      if Contains(title, TitleKeywords[k]) {
        score := score + 1;
      }
    }
    assert TitleKeywords[..|TitleKeywords|] == TitleKeywords;
  }

  /**
   * `select_best_article`: `None` when no candidate is left, otherwise the
   * candidate a stable sort by descending score puts first. The titles of the
   * candidates must be present (the source indexes `article['title']`).
   */
  method SelectBest(entries: seq<Entry>, articles: seq<Article>) returns (best: Option<Article>)
    requires forall i :: 0 <= i < |articles| && Eligible(entries, articles[i]) ==> articles[i].title.Some?
    ensures best.None? <==> Candidates(entries, articles) == []
    ensures best.Some? ==> best.value in articles && Eligible(entries, best.value)
    ensures best.Some? ==> exists k :: IsFirstBest(Candidates(entries, articles), k) && best.value == Candidates(entries, articles)[k]
  {
    if articles == [] {
      return None;
    }
    var withContent := WithContent(articles);
    if withContent == [] {
      return None;
    }
    var unprocessed := Unprocessed(entries, withContent);
    if unprocessed == [] {
      return None;
    }
    var bestIndex := 0;
    var bestScore := ScoreArticle(unprocessed[0]);
    for i := 1 to |unprocessed|
      invariant 0 <= bestIndex < i
      invariant bestScore == Score(unprocessed[bestIndex])
      invariant forall j :: 0 <= j < i ==> Score(unprocessed[j]) <= bestScore
      invariant forall j :: 0 <= j < bestIndex ==> Score(unprocessed[j]) < bestScore
    {
      var s := ScoreArticle(unprocessed[i]);
      if s > bestScore {
        bestIndex, bestScore := i, s;
      }
    }
    CandidatesAreEligible(entries, articles);
    assert IsFirstBest(unprocessed, bestIndex);
    best := Some(unprocessed[bestIndex]);
  }

  /**
   * The article a generator's `run` works on: none when nothing was loaded,
   * otherwise the one `SelectBest` picks, whose title is present.
   */
  method SelectLoaded(entries: seq<Entry>, articles: Option<seq<Article>>) returns (best: Option<Article>)
    requires articles.Some? ==>
      forall i :: 0 <= i < |articles.value| && Eligible(entries, articles.value[i]) ==> articles.value[i].title.Some?
    ensures best.None? <==> Candidates(entries, articles.GetOr([])) == []
    ensures best.Some? ==> best.value.title.Some? && Eligible(entries, best.value)
    ensures best.Some? ==>
      exists k :: IsFirstBest(Candidates(entries, articles.GetOr([])), k) && best.value == Candidates(entries, articles.GetOr([]))[k]
  {
    if articles.None? || articles.value == [] {
      return None;
    }
    best := SelectBest(entries, articles.value);
  }
}
