/**
 * The record logic of startup_news_scraper.py: which entries of a news page
 * become articles and with what fields, the relevance test, the cleaning of
 * an article's paragraphs, and the merge that appends only unseen links to
 * the day's file. Fetching pages and selecting HTML elements are not
 * modelled: a page is the list of what the selectors found in each entry.
 */
module NewsScraper {
  import opened Wrappers
  import opened Strings
  import opened Articles

  /** The site the scraper reads; relative links are resolved against it. */
  const BaseUrl: string := "https://www.menabytes.com"

  /** The seventeen words that make an article startup-related. */
  const StartupKeywords: seq<string> := [
    "startup", "funding", "investment", "seed", "series", "venture", "raised",
    "million", "fintech", "techstars", "accelerator", "incubator", "founder",
    "entrepreneur", "launch", "acquisition", "exit"]

  /** The category of an entry without a category element. */
  const DefaultCategory: string := "Startup"

  // ---- relevance

  predicate KeywordIn(title: string, category: string, keyword: string) {
    Contains(Lower(title), keyword) || Contains(Lower(category), keyword)
  }

  /** Some keyword of `keywords` occurs in the lower-cased title or category. */
  function AnyKeyword(title: string, category: string, keywords: seq<string>): (r: bool)
    ensures r <==> exists i :: 0 <= i < |keywords| && KeywordIn(title, category, keywords[i])
  {
    if keywords == [] then false
    else KeywordIn(title, category, keywords[0]) || AnyKeyword(title, category, keywords[1..])
  }

  /** `is_startup_related(title, category)` */
  function IsStartupRelated(title: string, category: string): (r: bool)
    ensures r <==> exists i :: 0 <= i < |StartupKeywords| && KeywordIn(title, category, StartupKeywords[i])
  {
    AnyKeyword(title, category, StartupKeywords)
  }

  /** The test ignores case: lower-casing the title or the category first changes nothing. */
  lemma RelatedIgnoresCase(title: string, category: string)
    ensures IsStartupRelated(Lower(title), Lower(category)) == IsStartupRelated(title, category)
  {
    LowerIdempotent(title);
    LowerIdempotent(category);
  }

  /** An entry without a category element is always kept: "startup" is in its category. */
  lemma DefaultCategoryIsRelated(title: string)
    ensures IsStartupRelated(title, DefaultCategory)
  {
    assert Lower(DefaultCategory) == "startup";
    ContainsAt(Lower(DefaultCategory), StartupKeywords[0], 0);
    assert KeywordIn(title, DefaultCategory, StartupKeywords[0]);
  }

  // ---- links

  /** A link not starting with "http" is taken relative to the site. */
  function NormaliseLink(link: string): (r: string)
    ensures IsPrefix("http", r)
    ensures IsPrefix("http", link) ==> r == link
    ensures !IsPrefix("http", link) ==> r == BaseUrl + link
  {
    if IsPrefix("http", link) then link
    else
      assert (BaseUrl + link)[..4] == "http";
      BaseUrl + link
  }

  /** Normalising a normalised link leaves it as it is. */
  lemma NormaliseIdempotent(link: string)
    ensures NormaliseLink(NormaliseLink(link)) == NormaliseLink(link)
  {
  }

  // ---- entries of a page

  /** The title element of an entry: its text and its `href`, which may be missing. */
  datatype TitleElement = TitleElement(text: string, href: Option<string>)

  /** What the selectors found in one entry of the page: the texts of its elements, each maybe missing. */
  datatype Entry = Entry(titleElement: Option<TitleElement>, category: Option<string>, date: Option<string>)

  /**
   * One entry as `extract_articles` shapes it, `None` when it is skipped:
   * without a title element, without an `href` (the `AttributeError` is
   * caught), or when it is not startup-related. `today` is the formatted
   * clock reading that stands in for a missing date.
   */
  function Shape(e: Entry, today: string): (r: Option<Article>)
    ensures r.Some? <==>
      e.titleElement.Some? && e.titleElement.value.href.Some? &&
      IsStartupRelated(Trim(e.titleElement.value.text), if e.category.Some? then Trim(e.category.value) else DefaultCategory)
    ensures r.Some? ==>
      r.value.title == Some(Trim(e.titleElement.value.text)) &&
      r.value.link == Some(NormaliseLink(e.titleElement.value.href.value)) &&
      r.value.category == Some(if e.category.Some? then Trim(e.category.value) else DefaultCategory) &&
      r.value.date == Some(if e.date.Some? then Trim(e.date.value) else today) &&
      r.value.content.None?
  {
    if e.titleElement.None? || e.titleElement.value.href.None? then None
    else
      var title := Trim(e.titleElement.value.text);
      var link := NormaliseLink(e.titleElement.value.href.value);
      var category := if e.category.Some? then Trim(e.category.value) else DefaultCategory;
      var date := if e.date.Some? then Trim(e.date.value) else today;
      if IsStartupRelated(title, category) then Some(Article(Some(title), Some(link), Some(category), Some(date), None))
      else None
  }

  /** The values `f` gives for the elements of `xs`, skipping its `None`s, in order. */
  function FilterMap<A, B>(xs: seq<A>, f: A -> Option<B>): seq<B> {
    if xs == [] then []
    else
      var last := f(xs[|xs| - 1]);
      FilterMap(xs[..|xs| - 1], f) + (if last.Some? then [last.value] else [])
  }

  /** `FilterMap` keeps exactly the values `f` gives, and no more of them than there are elements. */
  lemma {:induction false} FilterMapMembers<A, B>(xs: seq<A>, f: A -> Option<B>)
    ensures |FilterMap(xs, f)| <= |xs|
    ensures forall b :: b in FilterMap(xs, f) <==> exists i :: 0 <= i < |xs| && f(xs[i]) == Some(b)
  {
    if xs != [] {
      var init := xs[..|xs| - 1];
      FilterMapMembers(init, f);
      forall b ensures b in FilterMap(xs, f) <==> exists i :: 0 <= i < |xs| && f(xs[i]) == Some(b) {
        if b in FilterMap(init, f) {
          var i :| 0 <= i < |init| && f(init[i]) == Some(b);
          assert xs[i] == init[i];
        }
        if exists i :: 0 <= i < |xs| && f(xs[i]) == Some(b) {
          var i :| 0 <= i < |xs| && f(xs[i]) == Some(b);
          if i < |init| {
            assert init[i] == xs[i];
          }
        }
      }
    }
  }

  /** The articles of a page: the shaped entries that are kept, in page order. */
  function ShapeAll(entries: seq<Entry>, today: string): (r: seq<Article>)
    ensures forall i :: 0 <= i < |r| ==> r[i].link.Some?
  {
    var r := FilterMap(entries, e => Shape(e, today));
    FilterMapMembers(entries, e => Shape(e, today));
    assert forall i :: 0 <= i < |r| ==> r[i] in r;
    r
  }

  /** The articles of a page are exactly the shaped entries that are kept, and no more than the entries. */
  lemma ShapeAllMembers(entries: seq<Entry>, today: string)
    ensures |ShapeAll(entries, today)| <= |entries|
    ensures forall a :: a in ShapeAll(entries, today) <==> exists i :: 0 <= i < |entries| && Shape(entries[i], today) == Some(a)
  {
    FilterMapMembers(entries, e => Shape(e, today));
  }

  /** Every article of a page is startup-related and has an absolute link. */
  lemma ShapedArticles(entries: seq<Entry>, today: string)
    ensures forall a :: a in ShapeAll(entries, today) ==>
      a.title.Some? && a.link.Some? && a.category.Some? && IsPrefix("http", a.link.value) &&
      IsStartupRelated(a.title.value, a.category.value)
  {
    ShapeAllMembers(entries, today);
  }

  /** `extract_articles(html)` over the entries of the page: the loop that appends each kept entry. */
  method ExtractArticles(entries: seq<Entry>, today: string) returns (articles: seq<Article>)
    ensures articles == ShapeAll(entries, today)
  {
    articles := [];
    for i := 0 to |entries|
      invariant articles == FilterMap(entries[..i], e => Shape(e, today))
    {
      assert entries[..i + 1][..i] == entries[..i];
      var shaped := Shape(entries[i], today);
      if shaped.Some? {
        articles := articles + [shaped.value];
      }
    }
    assert entries[..|entries|] == entries;
  }

  // ---- article details

  /** `[p.text.strip() for p in paragraphs if p.text.strip()]` */
  function CleanParagraphs(texts: seq<string>): (r: seq<string>)
    ensures |r| <= |texts|
    ensures forall k :: 0 <= k < |r| ==> r[k] != "" && Trim(r[k]) == r[k]
  {
    if texts == [] then []
    else
      StripIdempotent(texts[0], Whitespace);
      (if Trim(texts[0]) != "" then [Trim(texts[0])] else []) + CleanParagraphs(texts[1..])
  }

  /** Cleaning cleaned paragraphs changes nothing. */
  lemma {:induction false} CleanParagraphsIdempotent(texts: seq<string>)
    ensures CleanParagraphs(CleanParagraphs(texts)) == CleanParagraphs(texts)
  {
    if texts != [] {
      var rest := CleanParagraphs(texts[1..]);
      CleanParagraphsIdempotent(texts[1..]);
      var head := Trim(texts[0]);
      if head != "" {
        StripIdempotent(texts[0], Whitespace);
        assert CleanParagraphs(texts) == [head] + rest;
        assert ([head] + rest)[1..] == rest;
        assert CleanParagraphs([head] + rest) == [head] + CleanParagraphs(rest);
      } else {
        assert CleanParagraphs(texts) == rest;
      }
    }
  }

  /**
   * `get_article_details(url)` from the paragraph texts of the page's
   * content element (`None` when the page or the element is missing): the
   * cleaned paragraphs.
   */
  function Details(paragraphTexts: Option<seq<string>>): (r: Option<seq<string>>)
    ensures r.Some? <==> paragraphTexts.Some?
    ensures r.Some? ==> r.value == CleanParagraphs(paragraphTexts.value)
  {
    if paragraphTexts.Some? then Some(CleanParagraphs(paragraphTexts.value)) else None
  }

  /** `article.update(details)`: the paragraphs become the article's content when there are details. */
  function WithDetails(a: Article, details: Option<seq<string>>): (r: Article)
    ensures r.title == a.title && r.link == a.link && r.category == a.category && r.date == a.date
    ensures r.content == if details.Some? then details else a.content
  {
    if details.Some? then a.(content := details) else a
  }

  /** Every article with the details behind its link; `page` gives the paragraph texts of a linked page. */
  function Enriched(articles: seq<Article>, page: string -> Option<seq<string>>): (r: seq<Article>)
    requires forall i :: 0 <= i < |articles| ==> articles[i].link.Some?
    ensures |r| == |articles| && forall i :: 0 <= i < |r| ==> r[i].link == articles[i].link
  {
    seq(|articles|, i requires 0 <= i < |articles| => WithDetails(articles[i], Details(page(articles[i].link.value))))
  }

  /** The loop of `run` that reads each article's page and updates the article in place. */
  method AddDetails(articles: seq<Article>, page: string -> Option<seq<string>>) returns (r: seq<Article>)
    requires forall i :: 0 <= i < |articles| ==> articles[i].link.Some?
    ensures r == Enriched(articles, page)
  {
    r := articles;
    for i := 0 to |articles|
      invariant |r| == |articles|
      invariant forall j :: 0 <= j < i ==> r[j] == WithDetails(articles[j], Details(page(articles[j].link.value)))
      invariant forall j :: i <= j < |articles| ==> r[j] == articles[j]
    {
      var details := Details(page(articles[i].link.value));
      r := r[i := WithDetails(r[i], details)];
    }
  }

  // ---- saving

  /** The links of stored articles. */
  function Links(articles: seq<Article>): (r: seq<string>)
    requires forall i :: 0 <= i < |articles| ==> articles[i].link.Some?
    ensures |r| == |articles| && forall i :: 0 <= i < |articles| ==> r[i] == articles[i].link.value
  {
    if articles == [] then [] else [articles[0].link.value] + Links(articles[1..])
  }

  /** `[a for a in articles if a['link'] not in existing_urls]`, as a filter by a list of links. */
  function Unseen(articles: seq<Article>, links: seq<string>): (r: seq<Article>)
    requires forall i :: 0 <= i < |articles| ==> articles[i].link.Some?
    ensures |r| <= |articles|
    ensures forall a :: a in r <==> a in articles && a.link.value !in links
  {
    if articles == [] then []
    else (if articles[0].link.value in links then [] else [articles[0]]) + Unseen(articles[1..], links)
  }

  predicate HaveLinks(articles: seq<Article>) {
    forall i :: 0 <= i < |articles| ==> articles[i].link.Some?
  }

  /**
   * `save_articles(articles)` against the day's file (`None` when there is
   * none): the list written, or `None` when nothing is written. Every stored
   * and every incoming article must have a link when the file exists (the
   * source indexes `article['link']`).
   */
  function SaveArticles(stored: Option<seq<Article>>, articles: seq<Article>): (r: Option<seq<Article>>)
    requires stored.Some? ==> HaveLinks(stored.value) && HaveLinks(articles)
    ensures articles == [] ==> r.None?
    ensures articles != [] && stored.None? ==> r == Some(articles)
    ensures articles != [] && stored.Some? ==>
      (var unseen := Unseen(articles, Links(stored.value));
       r == if unseen == [] then None else Some(stored.value + unseen))
  {
    if articles == [] then None
    else if stored.None? then Some(articles)
    else
      var unseen := Unseen(articles, Links(stored.value));
      if unseen == [] then None else Some(stored.value + unseen)
  }

  /**
   * A merge keeps the stored list as its prefix and appends only articles
   * of the batch whose link it did not hold, so no stored link is added again.
   */
  lemma MergeAppendsUnseen(stored: seq<Article>, articles: seq<Article>)
    requires HaveLinks(stored) && HaveLinks(articles)
    requires SaveArticles(Some(stored), articles).Some?
    ensures var out := SaveArticles(Some(stored), articles).value;
      |out| > |stored| && out[..|stored|] == stored &&
      forall k :: |stored| <= k < |out| ==> out[k] in articles && out[k].link.value !in Links(stored)
  {
    var unseen := Unseen(articles, Links(stored));
    var out := stored + unseen;
    assert forall k :: |stored| <= k < |out| ==> out[k] == unseen[k - |stored|];
  }

  /** The links of a concatenation are the links of its parts. */
  lemma LinksConcat(a: seq<Article>, b: seq<Article>)
    requires HaveLinks(a) && HaveLinks(b)
    ensures HaveLinks(a + b) && Links(a + b) == Links(a) + Links(b)
  {
    assert HaveLinks(a + b);
  }

  /** A batch whose links are all stored has nothing unseen. */
  lemma AllSeen(articles: seq<Article>, links: seq<string>)
    requires HaveLinks(articles)
    requires forall i :: 0 <= i < |articles| ==> articles[i].link.value in links
    ensures Unseen(articles, links) == []
  {
  }

  /** Saving the same batch again, once it is saved, writes nothing. */
  lemma SaveTwiceWritesNothing(stored: Option<seq<Article>>, articles: seq<Article>)
    requires HaveLinks(articles) && (stored.Some? ==> HaveLinks(stored.value))
    requires SaveArticles(stored, articles).Some?
    ensures var out := SaveArticles(stored, articles).value;
      HaveLinks(out) && SaveArticles(Some(out), articles).None?
  {
    var out := SaveArticles(stored, articles).value;
    if stored.None? {
      assert forall i :: 0 <= i < |articles| ==> Links(articles)[i] == articles[i].link.value;
      AllSeen(articles, Links(out));
    } else {
      var unseen := Unseen(articles, Links(stored.value));
      LinksConcat(stored.value, unseen);
      forall i | 0 <= i < |articles|
        ensures articles[i].link.value in Links(out)
      {
        var a := articles[i];
        if a.link.value !in Links(stored.value) {
          assert a in unseen;
          var k :| 0 <= k < |unseen| && unseen[k] == a;
          assert Links(out)[|stored.value| + k] == a.link.value;
        }
      }
      AllSeen(articles, Links(out));
    }
  }

  /** Duplicates within one batch are all kept when they are new: only stored links filter. */
  lemma BatchDuplicatesKept(stored: seq<Article>, a: Article)
    requires HaveLinks(stored) && a.link.Some? && a.link.value !in Links(stored)
    ensures SaveArticles(Some(stored), [a, a]) == Some(stored + [a, a])
  {
    assert Unseen([a], Links(stored)) == [a];
    assert [a, a][1..] == [a];
    assert Unseen([a, a], Links(stored)) == [a] + Unseen([a], Links(stored)) == [a, a];
  }

  /**
   * `run`: without the home page nothing is written; otherwise the page's
   * articles, each with its details, are saved against the day's file.
   * `home` is what the selectors found on the home page, `page` the
   * paragraph texts behind a link, `stored` the day's file if it exists.
   */
  method Run(home: Option<seq<Entry>>, page: string -> Option<seq<string>>, today: string, stored: Option<seq<Article>>)
    returns (written: Option<seq<Article>>)
    requires stored.Some? ==> HaveLinks(stored.value)
    ensures home.None? ==> written.None?
    ensures home.Some? ==> written == SaveArticles(stored, Enriched(ShapeAll(home.value, today), page))
  {
    if home.None? {
      return None;
    }
    var articles := ExtractArticles(home.value, today);
    articles := AddDetails(articles, page);
    written := SaveArticles(stored, articles);
  }
}
