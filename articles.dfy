/** The article record the scraper produces and the generators consume. */
module Articles {
  import opened Wrappers

  /**
   * A scraped article. Every key of the Python dictionary may be missing, so
   * each field is optional; `content` holds the cleaned paragraphs once the
   * details page has been read.
   */
  datatype Article = Article(
    title: Option<string>,
    link: Option<string>,
    category: Option<string>,
    date: Option<string>,
    content: Option<seq<string>>)

  /** `'content' in article and article['content']` */
  predicate HasContent(a: Article) {
    a.content.Some? && a.content.value != []
  }

  /** `article.get('content', [])` */
  function Paragraphs(a: Article): seq<string> {
    a.content.GetOr([])
  }
}
