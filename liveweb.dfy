/** The asyncio live-web pipeline `LiveWebToolkit` of liveweb/liveweb.py: refine
    the query, search, parse the result blocks (skipping a block whose field
    extraction raises), fetch every linked page (results gathered in URL order),
    drop the empty ones and summarise the joined text in one LLM call. */
module LiveWeb {
  import opened Wrappers
  import opened PyStr
  import opened WebSearch

  /** The records of the blocks whose extraction succeeds, in document order. */
  function KeptResults(blocks: seq<Block>): (results: seq<SearchResult>)
    ensures |results| <= |blocks|
    ensures forall i :: 0 <= i < |blocks| && ResultOfBlock(blocks[i]).Ok? ==>
              ResultOfBlock(blocks[i]).value in results
    ensures forall r :: r in results ==> exists i :: 0 <= i < |blocks| && ResultOfBlock(blocks[i]) == Ok(r)
  {
    if blocks == [] then []
    else
      var init := blocks[..|blocks| - 1];
      var last := ResultOfBlock(blocks[|blocks| - 1]);
      var prefix := KeptResults(init);
      assert forall i :: 0 <= i < |init| ==> init[i] == blocks[i];
      prefix + (if last.Ok? then [last.value] else [])
  }

  /** Skipping preserves document order: the records of two runs of blocks are the
      records of the first run followed by those of the second. */
  lemma {:induction false} KeptResultsAppend(a: seq<Block>, b: seq<Block>)
    ensures KeptResults(a + b) == KeptResults(a) + KeptResults(b)
    decreases |b|
  {
    if b == [] {
      assert a + b == a;
    } else {
      assert (a + b)[..|a + b| - 1] == a + b[..|b| - 1];
      KeptResultsAppend(a, b[..|b| - 1]);
    }
  }

  /** A block whose extraction raises contributes no record: the run around it
      gives the same records as the run without it. */
  lemma KeptResultsSkip(a: seq<Block>, b: Block, c: seq<Block>)
    requires ResultOfBlock(b).Err?
    ensures KeptResults(a + [b] + c) == KeptResults(a + c)
  {
    KeptResultsAppend(a + [b], c);
    KeptResultsAppend(a, [b]);
    KeptResultsAppend(a, c);
    assert [b][..0] == [];
    assert KeptResults([b]) == [];
  }

  /** The records of a run are those of all but its last block, then the last
      block's record if its extraction succeeds. */
  lemma KeptResultsSnoc(init: seq<Block>, b: Block)
    ensures KeptResults(init + [b]) ==
            KeptResults(init) + (if ResultOfBlock(b).Ok? then [ResultOfBlock(b).value] else [])
  {
    assert (init + [b])[..|init|] == init;
  }

  /** When no block raises, every block gives exactly one record, in order. */
  lemma {:induction false} KeptResultsNoSkip(blocks: seq<Block>)
    requires forall i :: 0 <= i < |blocks| ==> ResultOfBlock(blocks[i]).Ok?
    ensures |KeptResults(blocks)| == |blocks|
    ensures forall i :: 0 <= i < |blocks| ==> Ok(KeptResults(blocks)[i]) == ResultOfBlock(blocks[i])
  {
    if blocks != [] {
      var n := |blocks| - 1;
      var init, last := blocks[..n], blocks[n];
      assert blocks == init + [last];
      assert forall i :: 0 <= i < n ==> init[i] == blocks[i];
      KeptResultsNoSkip(init);
      KeptResultsSnoc(init, last);
      var prefix, v := KeptResults(init), ResultOfBlock(last).value;
      assert KeptResults(blocks) == prefix + [v];
      forall i | 0 <= i < |blocks|
        ensures Ok((prefix + [v])[i]) == ResultOfBlock(blocks[i])
      {
        if i < n {
          assert (prefix + [v])[i] == prefix[i];
        }
      }
    }
  }

  /** What the async `perform_google_search` returns: an empty list when the
      request raises or the status is not 200, else the kept records. */
  function GoogleResults(response: SearchResponse): (results: seq<SearchResult>)
    ensures results != [] ==>
              response.SearchPage? && response.status == 200 && results == KeptResults(response.blocks)
    ensures response.SearchPage? && response.status == 200 ==> results == KeptResults(response.blocks)
  {
    match response
    case SearchRaised => []
    case SearchPage(status, blocks) => if status != 200 then [] else KeptResults(blocks)
  }

  /** The loop of `perform_google_search` over the result blocks, with the
      `try`/`except: continue` around each block's field extraction. */
  method ParseResults(blocks: seq<Block>) returns (results: seq<SearchResult>)
    ensures results == KeptResults(blocks)
  {
    results := [];
    var i := 0;
    while i < |blocks|
      invariant 0 <= i <= |blocks|
      invariant results == KeptResults(blocks[..i])
    {
      var record := ResultOfBlock(blocks[i]);
      if record.Ok? {
        results := results + [record.value];
      }
      i := i + 1;
      assert blocks[..i][..i - 1] == blocks[..i - 1];
    }
    assert blocks[..i] == blocks;
  }

  method PerformGoogleSearch(response: SearchResponse) returns (results: seq<SearchResult>)
    ensures results == GoogleResults(response)
    ensures response.SearchRaised? || response.status != 200 ==> results == []
  {
    match response
    case SearchRaised => results := [];
    case SearchPage(status, blocks) =>
      if status != 200 {
        results := [];
      } else {
        results := ParseResults(blocks);
      }
  }

  /** The async `fetch_web_content`: None for every status other than 200 and
      when anything raises; otherwise the page text. */
  function FetchWebContent(page: PageResponse): (r: Option<string>)
    ensures r.Some? <==> page.Page? && page.status == 200
    ensures r.Some? ==> r.value == PageText(page.paragraphs)
  {
    match page
    case PageRaised => None
    case Page(status, paragraphs) =>
      if status == 403 || status != 200 then None else Some(PageText(paragraphs))
  }

  /** `fetch_all_content`: `asyncio.gather` gives one entry per URL, in URL order. */
  function FetchAllContent(urls: seq<string>, fetch: string -> PageResponse): (contents: seq<Option<string>>)
    ensures |contents| == |urls|
    ensures forall i :: 0 <= i < |urls| ==> contents[i] == FetchWebContent(fetch(urls[i]))
  {
    seq(|urls|, i requires 0 <= i < |urls| => FetchWebContent(fetch(urls[i])))
  }

  /** `[content for content in fetched_content if content]`. */
  function NonEmptyContents(fetched: seq<Option<string>>): (kept: seq<string>)
    ensures |kept| <= |fetched|
    ensures forall i :: 0 <= i < |kept| ==> kept[i] != ""
    ensures forall c :: c in kept <==> Some(c) in fetched && c != ""
  {
    if fetched == [] then []
    else
      var init := NonEmptyContents(fetched[..|fetched| - 1]);
      match fetched[|fetched| - 1]
      case Some(c) =>
        assert fetched == fetched[..|fetched| - 1] + [Some(c)];
        init + (if c != "" then [c] else [])
      case None =>
        assert fetched == fetched[..|fetched| - 1] + [None];
        init
  }

  /** The filter keeps order: filtering two runs is filtering each in turn. */
  lemma {:induction false} NonEmptyContentsAppend(a: seq<Option<string>>, b: seq<Option<string>>)
    ensures NonEmptyContents(a + b) == NonEmptyContents(a) + NonEmptyContents(b)
    decreases |b|
  {
    if b == [] {
      assert a + b == a;
    } else {
      assert (a + b)[..|a + b| - 1] == a + b[..|b| - 1];
      NonEmptyContentsAppend(a, b[..|b| - 1]);
    }
  }

  /** What `execute_toolkit` returns and the calls it makes. The refinement and
      summarisation templates come from the prompts file, so `refine` and
      `summarize` stand for "the LLM's reply to the filled-in template". */
  function Toolkit(initialQuery: string, numResults: int,
                   refine: string -> string, search: string -> SearchResponse,
                   fetch: string -> PageResponse, summarize: string -> string): (string, seq<Call>)
  {
    var url := SearchUrl(Strip(refine(initialQuery)), numResults);
    var head := [RefineQuery(initialQuery), HttpGet(url)];
    var results := GoogleResults(search(url));
    if results == [] then (NoResultsMessage, head)
    else
      var urls := Links(results);
      var gets := seq(|urls|, i requires 0 <= i < |urls| => HttpGet(urls[i]));
      var contents := NonEmptyContents(FetchAllContent(urls, fetch));
      if contents == [] then (Answer(true, contents, ""), head + gets)
      else
        var joined := Join(" ", contents);
        (Answer(true, contents, Strip(summarize(joined))), head + gets + [Summarize(joined)])
  }

  method ExecuteToolkit(initialQuery: string, numResults: int,
                        refine: string -> string, search: string -> SearchResponse,
                        fetch: string -> PageResponse, summarize: string -> string)
    returns (answer: string, calls: seq<Call>)
    ensures (answer, calls) == Toolkit(initialQuery, numResults, refine, search, fetch, summarize)
  {
    var refined := Strip(refine(initialQuery));
    var url := SearchUrl(refined, numResults);
    calls := [RefineQuery(initialQuery), HttpGet(url)];
    var searchResults := PerformGoogleSearch(search(url));
    if searchResults == [] {
      return NoResultsMessage, calls;
    }
    var urls := Links(searchResults);
    calls := calls + seq(|urls|, i requires 0 <= i < |urls| => HttpGet(urls[i]));
    var fetched := FetchAllContent(urls, fetch);
    var contents := NonEmptyContents(fetched);
    var summary := "";
    if contents != [] {
      var joined := Join(" ", contents);
      summary := Strip(summarize(joined));
      calls := calls + [Summarize(joined)];
    }
    answer := Answer(true, contents, summary);
  }

  /** The outcome rule of this variant: the no-results message exactly when the
      search produced no records (unless the LLM happens to reply with that very
      text), otherwise the stripped summary when some page had content and the
      summary is not empty, else the failure message. Because the summary is already
      stripped, the blank test reduces to an emptiness test. */
  lemma ToolkitOutcome(initialQuery: string, numResults: int,
                       refine: string -> string, search: string -> SearchResponse,
                       fetch: string -> PageResponse, summarize: string -> string)
    ensures var url := SearchUrl(Strip(refine(initialQuery)), numResults);
            var results := GoogleResults(search(url));
            var contents := NonEmptyContents(FetchAllContent(Links(results), fetch));
            var summary := Strip(summarize(Join(" ", contents)));
            var outcome := Toolkit(initialQuery, numResults, refine, search, fetch, summarize);
            var answer := outcome.0;
            && (results == [] ==> answer == NoResultsMessage
                                  && outcome.1 == [RefineQuery(initialQuery), HttpGet(url)])
            && (results != [] && contents != [] && summary != "" ==> answer == summary)
            && (results != [] && (contents == [] || summary == "") ==> answer == FailureMessage)
  {
    var url := SearchUrl(Strip(refine(initialQuery)), numResults);
    var results := GoogleResults(search(url));
    var contents := NonEmptyContents(FetchAllContent(Links(results), fetch));
    var summary := Strip(summarize(Join(" ", contents)));
    StripIdempotent(summarize(Join(" ", contents)));
    assert Strip(summary) == summary;
  }
}
