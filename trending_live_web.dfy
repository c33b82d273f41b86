/** The thread-pool live-web pipeline `LiveWebToolkit` of
    liveweb/trending_live_web.py: refine the query with the LLM, search, parse the
    result blocks, fetch the linked pages concurrently, summarise the joined page
    text chunk by chunk and pick the answer. The LLM, the search engine, the page
    fetches and the order in which the thread pool completes are parameters. */
module TrendingLiveWeb {
  import opened Wrappers
  import opened PyStr
  import opened WebSearch

  const MaxChunkLength: nat := 16000

  const SummaryTemplateHead: string :=
    "Summarize the following content accurately and comprehensively based on the query. "
    + "Ensure that no key points are omitted, and all important details are included. "
    + "The summary should reflect the full scope of the content:\n        Content: "
  const SummaryTemplateTail: string := "\n        "

  /** The summarisation template with `{content}` filled in. */
  function SummaryPrompt(chunk: string): string {
    SummaryTemplateHead + chunk + SummaryTemplateTail
  }

  function Min(a: int, b: int): int { if a <= b then a else b }

  /** `[contents[i:i + 16000] for i in range(0, len(contents), 16000)]`. */
  function ContentChunks(contents: string): (chunks: seq<string>)
    ensures |chunks| == (|contents| + MaxChunkLength - 1) / MaxChunkLength
    ensures contents == [] <==> chunks == []
    ensures forall i :: 0 <= i < |chunks| ==> 0 < |chunks[i]| <= MaxChunkLength
    ensures forall i :: 0 <= i < |chunks| - 1 ==> |chunks[i]| == MaxChunkLength
  {
    var n := (|contents| + MaxChunkLength - 1) / MaxChunkLength;
    seq(n, i requires 0 <= i < n =>
      contents[i * MaxChunkLength..Min((i + 1) * MaxChunkLength, |contents|)])
  }

  /** The first chunk is the first 16000 characters; the rest are the chunks of
      what follows them. */
  lemma ChunksUnfold(contents: string)
    requires contents != []
    ensures var k := Min(MaxChunkLength, |contents|);
            ContentChunks(contents) == [contents[..k]] + ContentChunks(contents[k..])
  {
    var k := Min(MaxChunkLength, |contents|);
    var all, rest := ContentChunks(contents), ContentChunks(contents[k..]);
    assert |all| == 1 + |rest|;
    forall i | 0 <= i < |rest|
      ensures all[i + 1] == rest[i]
    {
      assert all[i + 1] == contents[(i + 1) * MaxChunkLength..Min((i + 2) * MaxChunkLength, |contents|)];
      assert rest[i] == contents[k..][i * MaxChunkLength..Min((i + 1) * MaxChunkLength, |contents| - k)];
    }
    assert all == [all[0]] + rest;
  }

  /** Concatenating the chunks in order gives back the content exactly. */
  lemma {:induction false} ChunksRoundTrip(contents: string)
    ensures Flatten(ContentChunks(contents)) == contents
    decreases |contents|
  {
    if contents != [] {
      var k := Min(MaxChunkLength, |contents|);
      ChunksUnfold(contents);
      ChunksRoundTrip(contents[k..]);
      assert contents == contents[..k] + contents[k..];
    }
  }

  /** The prompts sent to the LLM: one per chunk, in chunk order. */
  function SummaryPrompts(contents: string): (prompts: seq<string>)
    ensures |prompts| == |ContentChunks(contents)|
    ensures forall i :: 0 <= i < |prompts| ==> prompts[i] == SummaryPrompt(ContentChunks(contents)[i])
  {
    var chunks := ContentChunks(contents);
    seq(|chunks|, i requires 0 <= i < |chunks| => SummaryPrompt(chunks[i]))
  }

  /** The stripped LLM output for each prompt, in order. */
  function StrippedOutputs(prompts: seq<string>, llm: string -> string): (outs: seq<string>)
    ensures |outs| == |prompts|
    ensures forall i :: 0 <= i < |prompts| ==> outs[i] == Strip(llm(prompts[i]))
  {
    seq(|prompts|, i requires 0 <= i < |prompts| => Strip(llm(prompts[i])))
  }

  /** The loop of `process_web_content_with_llm`: for each chunk in order, fill
      in the template and keep what `summarize` (the LLM call followed by
      `strip`) returns for it. */
  method SummarizeChunks(chunks: seq<string>, summarize: string -> string)
    returns (processed: seq<string>, prompts: seq<string>)
    ensures |prompts| == |chunks| && |processed| == |chunks|
    ensures forall k :: 0 <= k < |chunks| ==> prompts[k] == SummaryPrompt(chunks[k])
    ensures forall k :: 0 <= k < |chunks| ==> processed[k] == summarize(prompts[k])
  {
    processed, prompts := [], [];
    var i := 0;
    while i < |chunks|
      invariant 0 <= i <= |chunks|
      invariant |prompts| == i && |processed| == i
      invariant forall k :: 0 <= k < i ==> prompts[k] == SummaryPrompt(chunks[k])
      invariant forall k :: 0 <= k < i ==> processed[k] == summarize(prompts[k])
    {
      var prompt := SummaryPrompt(chunks[i]);
      var result := summarize(prompt);
      prompts := prompts + [prompt];
      processed := processed + [result];
      i := i + 1;
    }
  }

  /** `process_web_content_with_llm`: one LLM call per chunk, in chunk order; the
      answer is the stripped summaries joined by single spaces. */
  method ProcessWebContentWithLlm(contents: string, llm: string -> string)
    returns (summary: string, prompts: seq<string>)
    ensures |prompts| == |ContentChunks(contents)|
    ensures forall i :: 0 <= i < |prompts| ==> prompts[i] == SummaryPrompt(ContentChunks(contents)[i])
    ensures summary == Join(" ", StrippedOutputs(prompts, llm))
  {
    var chunks := ContentChunks(contents);
    var processed;
    processed, prompts := SummarizeChunks(chunks, p => Strip(llm(p)));
    var outs := StrippedOutputs(prompts, llm);
    assert forall k :: 0 <= k < |outs| ==> outs[k] == processed[k];
    assert processed == outs;
    summary := Join(" ", processed);
  }

  /** What `parse_google_results` computes: one record per block with the
      defaults filled in, or the KeyError of a block whose `<a>` has no `href`
      (the exception is not caught, so it escapes the whole pipeline). */
  function ParsedBlocks(blocks: seq<Block>): (r: Result<seq<SearchResult>>)
    ensures r.Ok? <==> forall i :: 0 <= i < |blocks| ==> ResultOfBlock(blocks[i]).Ok?
    ensures r.Err? ==> r.error == KeyError("href")
    ensures r.Ok? ==> |r.value| == |blocks|
                      && forall i :: 0 <= i < |blocks| ==> Ok(r.value[i]) == ResultOfBlock(blocks[i])
  {
    if forall i :: 0 <= i < |blocks| ==> ResultOfBlock(blocks[i]).Ok? then
      Ok(seq(|blocks|, i requires 0 <= i < |blocks| => ResultOfBlock(blocks[i]).value))
    else Err(KeyError("href"))
  }

  method ParseGoogleResults(blocks: seq<Block>) returns (r: Result<seq<SearchResult>>)
    ensures r == ParsedBlocks(blocks)
    ensures r.Ok? ==> |r.value| == |blocks|
    ensures r.Ok? ==> forall i :: 0 <= i < |blocks| ==> Ok(r.value[i]) == ResultOfBlock(blocks[i])
  {
    var results: seq<SearchResult> := [];
    var i := 0;
    while i < |blocks|
      invariant 0 <= i <= |blocks|
      invariant |results| == i
      invariant forall k :: 0 <= k < i ==> Ok(results[k]) == ResultOfBlock(blocks[k])
    {
      var record := ResultOfBlock(blocks[i]);
      if record.Err? {
        assert !ResultOfBlock(blocks[i]).Ok?;
        return Err(record.error);
      }
      results := results + [record.value];
      i := i + 1;
    }
    assert results == seq(|blocks|, k requires 0 <= k < |blocks| => ResultOfBlock(blocks[k]).value);
    r := Ok(results);
  }

  /** What `perform_google_search` returns: an empty list when the request raises
      or `raise_for_status` rejects the status (400 to 599), else the parsed blocks. */
  function GoogleResults(response: SearchResponse): (r: Result<seq<SearchResult>>)
    ensures r.Err? ==> r == Err(KeyError("href"))
    ensures (r.Err? || r.value != []) ==>
              response.SearchPage? && !(400 <= response.status < 600) && r == ParsedBlocks(response.blocks)
    ensures response.SearchPage? && !(400 <= response.status < 600) ==> r == ParsedBlocks(response.blocks)
  {
    match response
    case SearchRaised => Ok([])
    case SearchPage(status, blocks) =>
      if 400 <= status < 600 then Ok([]) else ParsedBlocks(blocks)
  }

  method PerformGoogleSearch(response: SearchResponse) returns (r: Result<seq<SearchResult>>)
    ensures r == GoogleResults(response)
    ensures response.SearchRaised? ==> r == Ok([])
    ensures response.SearchPage? && 400 <= response.status < 600 ==> r == Ok([])
  {
    match response
    case SearchRaised => r := Ok([]);
    case SearchPage(status, blocks) =>
      if 400 <= status < 600 {
        r := Ok([]);
      } else {
        r := ParseGoogleResults(blocks);
      }
  }

  /** `fetch_web_content`: None when the request or the parsing raises or the
      status is rejected by `raise_for_status`; otherwise the page text. */
  function FetchWebContent(page: PageResponse): (r: Option<string>)
    ensures page.Page? && page.status == 403 ==> r == None
    ensures r.Some? <==> page.Page? && !(400 <= page.status < 600)
    ensures r.Some? ==> r.value == PageText(page.paragraphs)
  {
    match page
    case PageRaised => None
    case Page(status, paragraphs) =>
      if 400 <= status < 600 then None else Some(PageText(paragraphs))
  }

  /** The content one URL contributes: its text when that is non-empty. */
  function Kept(url: string, fetch: string -> PageResponse): (kept: seq<string>)
    ensures |kept| <= 1
    ensures forall c :: c in kept ==> c != ""
  {
    match FetchWebContent(fetch(url))
    case Some(text) => if text != "" then [text] else []
    case None => []
  }

  /** The non-empty contents of the URLs, in the order the URLs are visited. */
  function NonEmptyPages(urls: seq<string>, fetch: string -> PageResponse): (pages: seq<string>)
    ensures |pages| <= |urls|
    ensures forall i :: 0 <= i < |pages| ==> pages[i] != ""
  {
    if urls == [] then []
    else NonEmptyPages(urls[..|urls| - 1], fetch) + Kept(urls[|urls| - 1], fetch)
  }

  lemma {:induction false} NonEmptyPagesAppend(a: seq<string>, b: seq<string>, fetch: string -> PageResponse)
    ensures NonEmptyPages(a + b, fetch) == NonEmptyPages(a, fetch) + NonEmptyPages(b, fetch)
    decreases |b|
  {
    if b == [] {
      assert a + b == a;
    } else {
      assert (a + b)[..|a + b| - 1] == a + b[..|b| - 1];
      NonEmptyPagesAppend(a, b[..|b| - 1], fetch);
    }
  }

  lemma NonEmptyPagesAround(u: seq<string>, x: string, v: seq<string>, fetch: string -> PageResponse)
    ensures NonEmptyPages(u + [x] + v, fetch) == NonEmptyPages(u, fetch) + Kept(x, fetch) + NonEmptyPages(v, fetch)
    ensures NonEmptyPages(u + v, fetch) == NonEmptyPages(u, fetch) + NonEmptyPages(v, fetch)
  {
    NonEmptyPagesAppend(u + [x], v, fetch);
    NonEmptyPagesAppend(u, [x], fetch);
    NonEmptyPagesAppend(u, v, fetch);
    assert NonEmptyPages([x], fetch) == Kept(x, fetch) by { assert [x][..0] == []; }
  }

  lemma MultisetRemoveAt<T>(b: seq<T>, j: nat)
    requires j < |b|
    ensures multiset(b[..j] + b[j + 1..]) == multiset(b) - multiset{b[j]}
  {
    assert b == b[..j] + [b[j]] + b[j + 1..];
  }

  /** Visiting the same URLs in another order yields the same contents, up to order. */
  lemma {:induction false} NonEmptyPagesPermutation(a: seq<string>, b: seq<string>, fetch: string -> PageResponse)
    requires multiset(a) == multiset(b)
    ensures multiset(NonEmptyPages(a, fetch)) == multiset(NonEmptyPages(b, fetch))
    decreases |a|
  {
    if a == [] {
      assert |b| == |multiset(b)| == 0;
    } else {
      var x, a' := a[|a| - 1], a[..|a| - 1];
      assert a == a' + [x];
      assert multiset(a') == multiset(a) - multiset{x};
      assert x in multiset(b);
      var j :| 0 <= j < |b| && b[j] == x;
      var u, v := b[..j], b[j + 1..];
      assert b == u + [x] + v;
      MultisetRemoveAt(b, j);
      NonEmptyPagesPermutation(a', u + v, fetch);
      NonEmptyPagesAround(u, x, v, fetch);
    }
  }

  /** `fetch_content_concurrently`: every URL is submitted once and `completion`
      is the order in which the pool finishes them (a permutation of `urls`); the
      non-empty contents are collected in that order. */
  method FetchContentConcurrently(urls: seq<string>, completion: seq<string>, fetch: string -> PageResponse)
    returns (fetched: seq<string>, requested: seq<string>)
    requires multiset(completion) == multiset(urls)
    ensures requested == completion
    ensures fetched == NonEmptyPages(completion, fetch)
    ensures multiset(fetched) == multiset(NonEmptyPages(urls, fetch))
    ensures |fetched| <= |urls|
    ensures forall i :: 0 <= i < |fetched| ==> fetched[i] != ""
  {
    fetched, requested := [], [];
    var i := 0;
    while i < |completion|
      invariant 0 <= i <= |completion|
      invariant requested == completion[..i]
      invariant fetched == NonEmptyPages(completion[..i], fetch)
    {
      var url := completion[i];
      var content := FetchWebContent(fetch(url));
      assert completion[..i + 1][..i] == completion[..i];
      assert NonEmptyPages(completion[..i + 1], fetch) == fetched + Kept(url, fetch);
      if content.Some? && content.value != "" {
        fetched := fetched + [content.value];
      }
      requested := requested + [url];
      i := i + 1;
    }
    assert completion[..i] == completion;
    NonEmptyPagesPermutation(completion, urls, fetch);
    assert |completion| == |multiset(completion)| == |urls|;
  }

  /** The LLM calls and the answer of summarising `contents`. */
  function SummaryOf(contents: string, llm: string -> string): string {
    Join(" ", StrippedOutputs(SummaryPrompts(contents), llm))
  }

  function Fetches(urls: seq<string>): (calls: seq<Call>)
    ensures |calls| == |urls|
    ensures forall i :: 0 <= i < |urls| ==> calls[i] == HttpGet(urls[i])
  {
    seq(|urls|, i requires 0 <= i < |urls| => HttpGet(urls[i]))
  }

  function Summaries(prompts: seq<string>): (calls: seq<Call>)
    ensures |calls| == |prompts|
    ensures forall i :: 0 <= i < |prompts| ==> calls[i] == Summarize(prompts[i])
  {
    seq(|prompts|, i requires 0 <= i < |prompts| => Summarize(prompts[i]))
  }

  /** What `execute_toolkit` returns and the external calls it makes. `schedule`
      gives, for each list of submitted URLs, the order in which the thread pool
      completes them. */
  function Toolkit(initialQuery: string, numResults: int,
                   refine: string -> string, search: string -> SearchResponse,
                   fetch: string -> PageResponse, schedule: seq<string> -> seq<string>,
                   llm: string -> string): (Result<string>, seq<Call>)
  {
    var url := SearchUrl(Strip(refine(initialQuery)), numResults);
    var head := [RefineQuery(initialQuery), HttpGet(url)];
    match GoogleResults(search(url))
    case Err(e) => (Err(e), head)
    case Ok(results) =>
      if results == [] then (Ok(NoResultsMessage), head)
      else
        var order := schedule(Links(results));
        var pages := NonEmptyPages(order, fetch);
        var contents := Join(" ", pages);
        if pages == [] then (Ok(Answer(true, pages, "")), head + Fetches(order))
        else (Ok(Answer(true, pages, SummaryOf(contents, llm))),
              head + Fetches(order) + Summaries(SummaryPrompts(contents)))
  }

  method ExecuteToolkit(initialQuery: string, numResults: int,
                        refine: string -> string, search: string -> SearchResponse,
                        fetch: string -> PageResponse, schedule: seq<string> -> seq<string>,
                        llm: string -> string)
    returns (r: Result<string>, calls: seq<Call>)
    requires forall urls :: multiset(schedule(urls)) == multiset(urls)
    ensures (r, calls) == Toolkit(initialQuery, numResults, refine, search, fetch, schedule, llm)
  {
    var refined := Strip(refine(initialQuery));
    var url := SearchUrl(refined, numResults);
    calls := [RefineQuery(initialQuery), HttpGet(url)];
    var searchResults := PerformGoogleSearch(search(url));
    if searchResults.Err? {
      return Err(searchResults.error), calls;
    }
    if searchResults.value == [] {
      return Ok(NoResultsMessage), calls;
    }
    var urls := Links(searchResults.value);
    var fetched, requested := FetchContentConcurrently(urls, schedule(urls), fetch);
    calls := calls + Fetches(requested);
    var summary := "";
    if fetched != [] {
      var prompts;
      summary, prompts := ProcessWebContentWithLlm(Join(" ", fetched), llm);
      assert prompts == SummaryPrompts(Join(" ", fetched));
      calls := calls + Summaries(prompts);
    }
    r := Ok(Answer(true, fetched, summary));
  }

  /** Taking one URL out of a list takes its one request out of the requests. */
  lemma FetchesWithout(u: seq<string>, x: string, v: seq<string>)
    ensures multiset(Fetches(u + [x] + v)) == multiset(Fetches(u + v)) + multiset{HttpGet(x)}
  {
    var all, rest := Fetches(u + [x] + v), Fetches(u + v);
    assert all == Fetches(u) + [HttpGet(x)] + Fetches(v) by {
      forall k | 0 <= k < |all|
        ensures all[k] == (Fetches(u) + [HttpGet(x)] + Fetches(v))[k]
      {
        if k < |u| {} else if k == |u| {} else { assert (u + [x] + v)[k] == v[k - |u| - 1]; }
      }
    }
    assert rest == Fetches(u) + Fetches(v);
  }

  lemma {:induction false} FetchesPermutation(a: seq<string>, b: seq<string>)
    requires multiset(a) == multiset(b)
    ensures multiset(Fetches(a)) == multiset(Fetches(b))
    decreases |a|
  {
    if a == [] {
      assert |b| == |multiset(b)| == 0;
    } else {
      var x, a' := a[|a| - 1], a[..|a| - 1];
      assert a == a' + [x] + [];
      assert multiset(a') == multiset(a) - multiset{x};
      assert x in multiset(b);
      var j :| 0 <= j < |b| && b[j] == x;
      var u, v := b[..j], b[j + 1..];
      assert b == u + [x] + v;
      MultisetRemoveAt(b, j);
      FetchesPermutation(a', u + v);
      FetchesWithout(u, x, v);
      FetchesWithout(a', x, []);
      assert a' + [] == a';
    }
  }

  /** The calls made once the search has produced results. */
  lemma ToolkitCalls(initialQuery: string, numResults: int,
                     refine: string -> string, search: string -> SearchResponse,
                     fetch: string -> PageResponse, schedule: seq<string> -> seq<string>,
                     llm: string -> string, results: seq<SearchResult>)
    requires GoogleResults(search(SearchUrl(Strip(refine(initialQuery)), numResults))) == Ok(results)
    requires results != []
    ensures var order := schedule(Links(results));
            var pages := NonEmptyPages(order, fetch);
            Toolkit(initialQuery, numResults, refine, search, fetch, schedule, llm).1
            == [RefineQuery(initialQuery), HttpGet(SearchUrl(Strip(refine(initialQuery)), numResults))]
               + Fetches(order) + (if pages == [] then [] else Summaries(SummaryPrompts(Join(" ", pages))))
  {
  }

  /** With search results, the page requests after the search are the result links,
      each requested once, in whatever order the pool completes them. */
  lemma ToolkitFetchesEveryLink(initialQuery: string, numResults: int,
                                refine: string -> string, search: string -> SearchResponse,
                                fetch: string -> PageResponse, schedule: seq<string> -> seq<string>,
                                llm: string -> string, results: seq<SearchResult>)
    requires forall urls :: multiset(schedule(urls)) == multiset(urls)
    requires GoogleResults(search(SearchUrl(Strip(refine(initialQuery)), numResults))) == Ok(results)
    requires results != []
    ensures var calls := Toolkit(initialQuery, numResults, refine, search, fetch, schedule, llm).1;
            |calls| >= 2 + |results|
            && multiset(calls[2..2 + |results|]) == multiset(Fetches(Links(results)))
  {
    var order := schedule(Links(results));
    assert |order| == |multiset(order)| == |Links(results)|;
    ToolkitCalls(initialQuery, numResults, refine, search, fetch, schedule, llm, results);
    var calls := Toolkit(initialQuery, numResults, refine, search, fetch, schedule, llm).1;
    assert calls[2..2 + |results|] == Fetches(order);
    FetchesPermutation(order, Links(results));
  }

  /** When some page had content, the calls after the page requests are the
      summarisation calls: one per 16000-character chunk of the space-joined
      contents, in chunk order; and the chunks put back together are exactly that
      joined content. */
  lemma ToolkitSummarizesEveryChunk(initialQuery: string, numResults: int,
                                    refine: string -> string, search: string -> SearchResponse,
                                    fetch: string -> PageResponse, schedule: seq<string> -> seq<string>,
                                    llm: string -> string, results: seq<SearchResult>)
    requires GoogleResults(search(SearchUrl(Strip(refine(initialQuery)), numResults))) == Ok(results)
    requires results != []
    requires NonEmptyPages(schedule(Links(results)), fetch) != []
    ensures var order := schedule(Links(results));
            var contents := Join(" ", NonEmptyPages(order, fetch));
            var calls := Toolkit(initialQuery, numResults, refine, search, fetch, schedule, llm).1;
            var chunks := ContentChunks(contents);
            && |calls| == 2 + |order| + |chunks|
            && calls[2 + |order|..] == Summaries(SummaryPrompts(contents))
            && Flatten(chunks) == contents
  {
    var order := schedule(Links(results));
    var contents := Join(" ", NonEmptyPages(order, fetch));
    ToolkitCalls(initialQuery, numResults, refine, search, fetch, schedule, llm, results);
    var before := [RefineQuery(initialQuery), HttpGet(SearchUrl(Strip(refine(initialQuery)), numResults))]
                  + Fetches(order);
    var summaries := Summaries(SummaryPrompts(contents));
    assert |before| == 2 + |order|;
    assert (before + summaries)[|before|..] == summaries;
    ChunksRoundTrip(contents);
  }

  /** The outcome rule: a failed parse escapes; no results gives the no-results
      message with no page fetched; otherwise the summary when some page had
      content and the summary is not blank, else the failure message. */
  lemma ToolkitOutcome(initialQuery: string, numResults: int,
                       refine: string -> string, search: string -> SearchResponse,
                       fetch: string -> PageResponse, schedule: seq<string> -> seq<string>,
                       llm: string -> string)
    ensures var url := SearchUrl(Strip(refine(initialQuery)), numResults);
            var (r, calls) := Toolkit(initialQuery, numResults, refine, search, fetch, schedule, llm);
            match GoogleResults(search(url))
            case Err(e) => r == Err(e)
            case Ok(results) =>
              var pages := NonEmptyPages(schedule(Links(results)), fetch);
              var summary := SummaryOf(Join(" ", pages), llm);
              && (results == [] ==> r == Ok(NoResultsMessage) && calls == [RefineQuery(initialQuery), HttpGet(url)])
              && (results != [] && pages != [] && !AllSpace(summary) ==> r == Ok(summary))
              && (results != [] && (pages == [] || AllSpace(summary)) ==> r == Ok(FailureMessage))
  {
    var url := SearchUrl(Strip(refine(initialQuery)), numResults);
    match GoogleResults(search(url))
    case Err(e) =>
    case Ok(results) =>
      var pages := NonEmptyPages(schedule(Links(results)), fetch);
      if results != [] && pages == [] {
        assert AllSpace("");
      }
  }
}
