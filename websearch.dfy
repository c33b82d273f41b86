/** The pieces both live-web pipelines (the thread-pool version in
    liveweb/trending_live_web.py and the asyncio version in liveweb/liveweb.py)
    share: the search URL, the abstract shape of a search-result block and of a
    fetched page, the default field strings and the final three-way answer. */
module WebSearch {
  import opened Wrappers
  import opened PyStr

  /** The external calls a pipeline makes, in the order it makes them: the LLM
      refinement of the query (its template comes from the prompts file), an HTTP
      GET, and an LLM summarisation of the given input. */
  datatype Call =
    | RefineQuery(query: string)
    | HttpGet(url: string)
    | Summarize(input: string)

  /** The `<a>` element of a result block; `href` is the attribute, if present. */
  datatype Anchor = Anchor(href: Option<string>)

  /** One `div.tF2Cxc` result block as the HTML parser presents it: the text of its
      `<h3>`, its first `<a>` and the text of its `span.aCOpRe`, each possibly absent. */
  datatype Block = Block(title: Option<string>, anchor: Option<Anchor>, snippet: Option<string>)

  /** The `(title, link, snippet)` tuple a result block becomes. */
  datatype SearchResult = SearchResult(title: string, link: string, snippet: string)

  /** The search request's outcome: the request raised, or a page with its HTTP
      status and the result blocks its HTML contains. */
  datatype SearchResponse = SearchRaised | SearchPage(status: int, blocks: seq<Block>)

  /** A page fetch's outcome: the request or the parsing raised, or a page with its
      HTTP status and the text of its `<p>` elements in document order. */
  datatype PageResponse = PageRaised | Page(status: int, paragraphs: seq<string>)

  const NoTitle: string := "No title"
  const NoLink: string := "No link"
  const NoSnippet: string := "No snippet"
  const NoResultsMessage: string := "No search results found."
  const FailureMessage: string := "Failed to get a valid response."

  function SearchUrl(query: string, numResults: int): string {
    "https://www.google.com/search?q=" + query + "&num=" + IntToDecimal(numResults)
  }

  function FieldOr(field: Option<string>, default: string): string {
    match field
    case Some(text) => text
    case None => default
  }

  /** The field extraction of one result block: each missing element is replaced
      by its default string; an `<a>` without an `href` raises KeyError. */
  function ResultOfBlock(b: Block): (r: Result<SearchResult>)
    ensures r.Ok? <==> b.anchor.None? || b.anchor.value.href.Some?
    ensures r.Err? ==> r.error == KeyError("href")
    ensures r.Ok? ==> r.value.title == FieldOr(b.title, NoTitle)
                      && r.value.snippet == FieldOr(b.snippet, NoSnippet)
                      && r.value.link == (if b.anchor.None? then NoLink else b.anchor.value.href.value)
  {
    match b.anchor
    case None => Ok(SearchResult(FieldOr(b.title, NoTitle), NoLink, FieldOr(b.snippet, NoSnippet)))
    case Some(a) =>
      match a.href
      case None => Err(KeyError("href"))
      case Some(url) => Ok(SearchResult(FieldOr(b.title, NoTitle), url, FieldOr(b.snippet, NoSnippet)))
  }

  /** `[link for _, link, _ in search_results]`. */
  function Links(results: seq<SearchResult>): (urls: seq<string>)
    ensures |urls| == |results|
    ensures forall i :: 0 <= i < |results| ==> urls[i] == results[i].link
  {
    seq(|results|, i requires 0 <= i < |results| => results[i].link)
  }

  /** The page text: the paragraphs joined by newlines. */
  function PageText(paragraphs: seq<string>): string {
    Join("\n", paragraphs)
  }

  /** The common tail of `execute_toolkit`: no search results gives the
      no-results message; otherwise the summary of the fetched content is the
      answer when there was content and the summary is not blank, and the failure
      message is the answer in every other case. The answer is never blank. */
  function Answer(anyResults: bool, fetched: seq<string>, summary: string): (r: string)
    ensures r == NoResultsMessage || r == FailureMessage || r == summary
    ensures !anyResults ==> r == NoResultsMessage
    ensures anyResults ==> (r == summary <== fetched != [] && !AllSpace(summary))
    ensures anyResults && (fetched == [] || AllSpace(summary)) ==> r == FailureMessage
    ensures !AllSpace(r)
  {
    assert !IsSpace(NoResultsMessage[0]) && !IsSpace(FailureMessage[0]);
    if !anyResults then NoResultsMessage
    else if fetched != [] && Strip(summary) != "" then summary
    else FailureMessage
  }
}
