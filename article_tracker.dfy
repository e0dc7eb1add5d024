/**
 * The ledger of processed articles (src/utils/article_tracker.py): an
 * append-mostly list of records remembering which articles already produced
 * output, so that the generator never picks the same article twice.
 */
module ArticleLedger {
  import opened Wrappers
  import opened Articles

  /** One ledger record: the article's URL and title, when it was processed, where its output went. */
  datatype Entry = Entry(url: string, title: string, dateProcessed: string, outputPath: string)

  /** `article.get('link', '')` */
  function LinkKey(a: Article): string {
    a.link.GetOr("")
  }

  /** `article.get('title', '')` */
  function TitleKey(a: Article): string {
    a.title.GetOr("")
  }

  /** A record stands for the article when either its URL or its title agrees. */
  predicate Matches(e: Entry, a: Article) {
    e.url == LinkKey(a) || e.title == TitleKey(a)
  }

  /** Some record of the ledger stands for the article. */
  predicate IsProcessed(entries: seq<Entry>, a: Article) {
    exists i :: 0 <= i < |entries| && Matches(entries[i], a)
  }

  /** The record `mark_article_processed` appends; `now` is the formatted clock reading. */
  function EntryFor(a: Article, outputPath: string, now: string): Entry {
    Entry(LinkKey(a), TitleKey(a), now, outputPath)
  }

  /** The position of the first record with this URL, or `|entries|` when there is none. */
  function FirstUrlIndex(entries: seq<Entry>, url: string): (k: nat)
    ensures k <= |entries|
    ensures k < |entries| ==> entries[k].url == url
    ensures forall j :: 0 <= j < k ==> entries[j].url != url
  {
    if entries == [] then 0
    else if entries[0].url == url then 0
    else 1 + FirstUrlIndex(entries[1..], url)
  }

  /** The position of the first record with this title, or `|entries|` when there is none. */
  function FirstTitleIndex(entries: seq<Entry>, title: string): (k: nat)
    ensures k <= |entries|
    ensures k < |entries| ==> entries[k].title == title
    ensures forall j :: 0 <= j < k ==> entries[j].title != title
  {
    if entries == [] then 0
    else if entries[0].title == title then 0
    else 1 + FirstTitleIndex(entries[1..], title)
  }

  /** The ledger without its first record of this title (unchanged when there is none). */
  function WithoutFirstTitle(entries: seq<Entry>, title: string): seq<Entry> {
    var k := FirstTitleIndex(entries, title);
    if k < |entries| then entries[..k] + entries[k + 1..] else entries
  }

  /** Appending a record never makes a processed article unprocessed, and it marks its own article. */
  lemma MarkMakesProcessed(entries: seq<Entry>, a: Article, b: Article, outputPath: string, now: string)
    ensures IsProcessed(entries + [EntryFor(a, outputPath, now)], a)
    ensures IsProcessed(entries, b) ==> IsProcessed(entries + [EntryFor(a, outputPath, now)], b)
  {
    var grown := entries + [EntryFor(a, outputPath, now)];
    assert Matches(grown[|entries|], a);
    if IsProcessed(entries, b) {
      var i :| 0 <= i < |entries| && Matches(entries[i], b);
      assert Matches(grown[i], b);
    }
  }

  /** Resetting touches exactly one record when the title is present and none otherwise; order is kept. */
  lemma ResetRemovesOne(entries: seq<Entry>, title: string)
    ensures var k := FirstTitleIndex(entries, title);
      var r := WithoutFirstTitle(entries, title);
      (k < |entries| ==> |r| == |entries| - 1 && forall j :: 0 <= j < |r| ==> r[j] == (if j < k then entries[j] else entries[j + 1])) &&
      (k == |entries| ==> r == entries)
  {
  }

  /**
   * Marking an article that was not processed and then resetting it by its
   * title gives the ledger back as it was, so the article is unprocessed again.
   */
  lemma {:induction false} MarkThenResetRestores(entries: seq<Entry>, a: Article, outputPath: string, now: string)
    requires !IsProcessed(entries, a)
    ensures WithoutFirstTitle(entries + [EntryFor(a, outputPath, now)], TitleKey(a)) == entries
    ensures !IsProcessed(WithoutFirstTitle(entries + [EntryFor(a, outputPath, now)], TitleKey(a)), a)
  {
    var grown := entries + [EntryFor(a, outputPath, now)];
    var k := FirstTitleIndex(grown, TitleKey(a));
    forall j | 0 <= j < |entries|
      ensures grown[j].title != TitleKey(a)
    {
      assert grown[j] == entries[j];
      assert !Matches(entries[j], a);
    }
    assert grown[|entries|].title == TitleKey(a);
    assert k == |entries|;
    assert grown[..k] == entries;
  }

  /**
   * The reset undoes only one mark: an article marked twice is still
   * processed after one reset of its title.
   */
  lemma {:induction false} DoubleMarkSurvivesOneReset(entries: seq<Entry>, a: Article, p1: string, n1: string, p2: string, n2: string)
    ensures IsProcessed(WithoutFirstTitle(entries + [EntryFor(a, p1, n1)] + [EntryFor(a, p2, n2)], TitleKey(a)), a)
  {
    var grown := entries + [EntryFor(a, p1, n1)] + [EntryFor(a, p2, n2)];
    var k := FirstTitleIndex(grown, TitleKey(a));
    assert grown[|entries|].title == TitleKey(a);
    assert grown[|grown| - 1].title == TitleKey(a);
    var r := WithoutFirstTitle(grown, TitleKey(a));
    assert k < |grown| - 1;
    assert r[|r| - 1] == grown[|grown| - 1];
    assert Matches(r[|r| - 1], a);
  }

  /** The ledger kept in memory by the article tracker; the JSON file behind it is not modelled. */
  class ArticleTracker {
    var processed: seq<Entry>

    /** `_load_db`: the stored list, or an empty ledger when the file is missing or unreadable (`None`). */
    constructor (stored: Option<seq<Entry>>)
      ensures processed == stored.GetOr([])
    {
      processed := stored.GetOr([]);
    }

    /** `is_article_processed`: a record with the article's URL or its title exists. */
    method IsArticleProcessed(a: Article) returns (found: bool)
      ensures found <==> IsProcessed(processed, a)
    {
      var url := LinkKey(a);
      var title := TitleKey(a);
      for i := 0 to |processed|
        invariant forall j :: 0 <= j < i ==> !Matches(processed[j], a)
      {
        if processed[i].url == url || processed[i].title == title {
          return true;
        }
      }
      return false;
    }

    /** `mark_article_processed`: one record appended at the end, nothing else changed. */
    method MarkArticleProcessed(a: Article, outputPath: string, now: string)
      modifies this
      ensures processed == old(processed) + [EntryFor(a, outputPath, now)]
    {
      processed := processed + [EntryFor(a, outputPath, now)];
    }

    /** `get_processed_articles` */
    method GetProcessedArticles() returns (all: seq<Entry>)
      ensures all == processed
    {
      all := processed;
    }

    /** `get_processed_article_by_url`: the first record with this URL, or `None`. */
    method GetProcessedArticleByUrl(url: string) returns (r: Option<Entry>)
      ensures var k := FirstUrlIndex(processed, url);
        r == if k < |processed| then Some(processed[k]) else None
    {
      for i := 0 to |processed|
        invariant forall j :: 0 <= j < i ==> processed[j].url != url
      {
        if processed[i].url == url {
          return Some(processed[i]);
        }
      }
      return None;
    }

    /** `get_processed_article_by_title`: the first record with this title, or `None`. */
    method GetProcessedArticleByTitle(title: string) returns (r: Option<Entry>)
      ensures var k := FirstTitleIndex(processed, title);
        r == if k < |processed| then Some(processed[k]) else None
    {
      for i := 0 to |processed|
        invariant forall j :: 0 <= j < i ==> processed[j].title != title
      {
        if processed[i].title == title {
          return Some(processed[i]);
        }
      }
      return None;
    }

    /**
     * `reset_article_processed`: the first record with this title is removed
     * and `true` returned; without such a record nothing changes and `false`
     * is returned.
     */
    method ResetArticleProcessed(title: string) returns (found: bool)
      modifies this
      ensures found <==> exists i :: 0 <= i < |old(processed)| && old(processed)[i].title == title
      ensures processed == WithoutFirstTitle(old(processed), title)
    {
      for i := 0 to |processed|
        invariant processed == old(processed)
        invariant forall j :: 0 <= j < i ==> processed[j].title != title
      {
        if processed[i].title == title {
          processed := processed[..i] + processed[i + 1..];
          return true;
        }
      }
      return false;
    }
  }
}
