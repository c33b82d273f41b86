# AI_library decision logic in Dafny

This project models the decision logic of the AI_library Python package. That
package wraps hosted AI services (OpenAI, Together, ElevenLabs, FakeYou, FAL,
FAISS) behind small helper classes. Every call into one of those services is a
parameter of the model: a function the caller supplies (an oracle), or a value
that stands for the response. The model keeps what the package itself decides:
- which request it builds and sends;
- in which order it sends its requests;
- how it parses the responses;
- which error it raises;
- what it returns.

Modules, one per core source file, plus shared helpers:

- `Wrappers`: `Option`, `Result` and `Error`. Python exceptions become `Err`
  values carrying their class and message.
- `PyValue`: Python/JSON values, truthiness, `dict.get` and subscripting.
- `PyStr`: `str.strip`, `str.join`, ASCII `str.lower` and integer rendering.
- `WebSearch`: the parts both live-web pipelines share. These are the search URL,
  a search-result block, the field defaults and the final three-way answer.
- `TrendingLiveWeb` (liveweb/trending_live_web.py): the thread-pool pipeline.
  - Search, then parse, in a loop.
  - Fetch concurrently. The pool's completion order is a permutation oracle.
  - Split the joined page text into chunks of 16000 characters and summarise
    each chunk, in a loop.
- `LiveWeb` (liveweb/liveweb.py): the asyncio pipeline. Its search skips a
  malformed block. Its fetch keeps only status 200, and `gather` keeps URL order.
- `Celeb` (audiotools/celeb.py): the FakeYou client.
  - A class whose `cookie` holds the session token.
  - The `session=([^;]+)` cookie extraction.
  - The TTS job request.
  - The status-polling loop.
  - Logout.
- `Stt` (audiotools/stt.py): the language and task checks. Then the FAL
  submission, after the API key is written into the process environment (a
  class with a `vars` map).
- `Voice` (audiotools/voice.py): the emotion rewrite, the voice id lookup and the
  ElevenLabs call record. The audio chunks are concatenated in order.
- `Meme` (memelora/meme.py): the character table. `str.format` of the prompt
  template. The choice between the LoRA request and the plain Flux request.
- `SocialMediaTables`, `SocialMediaPrompt` (prompts/social_media_prompt.py):
  - the platform/topic/sub-topic content table;
  - the fallback;
  - the exact prompt text and its template variables.
- `ChatTextToText` (chat/text_to_text.py), `ChatModelMap` (chat/__init__.py),
  `ChatLlama3` (chat/llama3.py): the three model dispatchers.
- `ChatWithDoc` (chat/chatwithdoc.py):
  - the `DocumentManager` over a disk that maps paths to pickled memories and
    FAISS index folders;
  - loading documents by file extension;
  - creating or extending the index;
  - the document query.
  Each disk operation appears twice. A pure function on the file map (`MemoryIn`,
  `WithMemory`, `LoadToFaiss`, `Query`, …) is the specification. The
  `DocumentManager` method of the same operation updates the `Disk` object in
  place, and its contract ties it to that function.

## Model

| member | source | states |
|---|---|---|
| PyValue.Truthy | audiotools/celeb.py:44 | Python truthiness, as the `if not response_json.get("success")` tests use it (also lines 79 and 129): `None`, `False`, `0`, `""`, `[]` and `{}` are false. It has no contract of its own. |
| PyValue.TypeName | audiotools/celeb.py:44 | Python's type name of a value (`NoneType`, `bool`, `int`, `str`, `list`, `dict`), as the AttributeError and TypeError messages quote it. It has no contract of its own. |
| PyValue.DictGet | audiotools/celeb.py:44 | Python's `dict.get`: the value of a present key, `None` for a missing one. Any other receiver raises AttributeError("'<type>' object has no attribute 'get'"), with Python's type name. |
| PyValue.Subscript | audiotools/celeb.py:104-105 | Python's `d[key]` with a string key: Ok exactly for a dict holding the key, with its value; KeyError(key) for a dict without it; TypeError for any other receiver. |
| PyStr.Strip | liveweb/trending_live_web.py:108 | Python's `str.strip()`: the result is a slice of the input that starts after the leading whitespace and is followed only by whitespace; it is empty exactly when the input is all whitespace, and otherwise starts and ends with non-whitespace. |
| PyStr.StripOfTrimmed | liveweb/trending_live_web.py:108 | A string that neither starts nor ends with whitespace is its own strip. |
| PyStr.StripIdempotent | liveweb/trending_live_web.py:108 | Stripping twice is stripping once. |
| PyStr.Join | liveweb/trending_live_web.py:122 | Python's `str.join`. It has no contract of its own; `JoinEmptyIsFlatten` relates it to concatenation. |
| PyStr.JoinEmptyIsFlatten | audiotools/voice.py:73 | Joining with the empty separator is plain in-order concatenation. |
| PyStr.Lower | chat/chatwithdoc.py:34 | Python's `str.lower()` on ASCII letters: same length, each character lower-cased. |
| PyStr.IntToDecimal | prompts/social_media_prompt.py:332 | Python's `str()` of an integer. It has no contract of its own; `NatToDecimalRoundTrip` reads the digits back. |
| PyStr.NatToDecimal | prompts/social_media_prompt.py:332 | `str()` of a non-negative integer: a non-empty string of decimal digits. |
| PyStr.NatToDecimalRoundTrip | prompts/social_media_prompt.py:332 | The decimal digits read back as the number, so distinct numbers render differently. |
| WebSearch.FieldOr | liveweb/trending_live_web.py:77-79 | The `x.text if x else 'No …'` conditional: the element's text when present, else the default (also liveweb/liveweb.py:47-49). Its properties are stated by `ResultOfBlock`. |
| WebSearch.PageText | liveweb/trending_live_web.py:91 | The page text is the paragraph texts joined by newlines (also liveweb/liveweb.py:64). It has no contract of its own; `FetchWebContent` of both pipelines states it. |
| WebSearch.ResultOfBlock | liveweb/trending_live_web.py:77-79 | A block becomes `(title, link, snippet)`. Each missing element is replaced by "No title", "No link" or "No snippet". An `<a>` without `href` gives KeyError("href"), and only then. |
| WebSearch.Links | liveweb/trending_live_web.py:119 | One URL per search result, in order: the result's link. |
| WebSearch.Answer | liveweb/trending_live_web.py:116-126 | No results gives "No search results found.". With results, the summary when some content was fetched and the summary is not blank; otherwise "Failed to get a valid response.". The answer is never blank. |
| TrendingLiveWeb.ContentChunks | liveweb/trending_live_web.py:104-105 | ceil(n/16000) chunks. No chunks exactly for empty content. Every chunk is non-empty and at most 16000 long; all but the last are exactly 16000. |
| TrendingLiveWeb.ChunksUnfold | liveweb/trending_live_web.py:105 | The first chunk is the first 16000 characters; the rest are the chunks of the remainder. |
| TrendingLiveWeb.ChunksRoundTrip | liveweb/trending_live_web.py:105 | Concatenating the chunks gives back the content exactly (no overlap, nothing lost). |
| TrendingLiveWeb.SummaryPrompt | liveweb/trending_live_web.py:96-100 | The summarisation template with `{content}` replaced by the chunk, its head and tail text as at lines 96-98. It has no contract of its own; `SummaryPrompts` and `SummarizeChunks` state where it is used. |
| TrendingLiveWeb.SummaryPrompts | liveweb/trending_live_web.py:96-105 | One summarisation prompt per chunk. |
| TrendingLiveWeb.StrippedOutputs | liveweb/trending_live_web.py:108 | One stripped LLM output per prompt. |
| TrendingLiveWeb.SummarizeChunks | liveweb/trending_live_web.py:107-109 | Processes the chunks in order. Prompt k is the template filled with chunk k, and kept output k is the summarising step applied to prompt k. |
| TrendingLiveWeb.ProcessWebContentWithLlm | liveweb/trending_live_web.py:95-111 | Prompt i is the template with chunk i filled in, in chunk order. The answer is the stripped LLM outputs joined by single spaces. |
| TrendingLiveWeb.ParseGoogleResults | liveweb/trending_live_web.py:74-81 | Either one record per block, in document order, each equal to the block's extraction; or the KeyError of a block whose anchor lacks `href`. |
| TrendingLiveWeb.ParsedBlocks | liveweb/trending_live_web.py:74-81 | Ok exactly when every block extracts; then record i is block i's extraction. Otherwise KeyError("href"). |
| TrendingLiveWeb.GoogleResults | liveweb/trending_live_web.py:57-81 | A fetched page whose status is outside 400 to 599 gives exactly what parsing its blocks gives. Conversely, an error or any record comes only from such a page, and the only error is KeyError("href"). |
| TrendingLiveWeb.PerformGoogleSearch | liveweb/trending_live_web.py:57-72 | A request that raises, or a status of 400 to 599 (`raise_for_status`), gives an empty list. Otherwise the parsed blocks, whose KeyError is not caught. |
| TrendingLiveWeb.FetchWebContent | liveweb/trending_live_web.py:83-93 | Some text exactly when the page was fetched and its status is not 400 to 599; a 403 page gives None. The text is the paragraphs joined by newlines. |
| TrendingLiveWeb.Kept | liveweb/trending_live_web.py:133-136 | What one completed future adds: at most one entry, the page text, and only when it is non-empty (`if content:`). |
| TrendingLiveWeb.NonEmptyPages | liveweb/trending_live_web.py:129-139 | At most one entry per URL; every entry is non-empty. |
| TrendingLiveWeb.NonEmptyPagesAppend | liveweb/trending_live_web.py:132-136 | Collecting the non-empty pages distributes over concatenation of the URL list. |
| TrendingLiveWeb.NonEmptyPagesAround | liveweb/trending_live_web.py:132-136 | Collecting around one URL: the pages before it, its own page if kept, then the pages after it. |
| TrendingLiveWeb.NonEmptyPagesPermutation | liveweb/trending_live_web.py:131-132 | Visiting the URLs in any permuted order yields the same contents up to order. |
| TrendingLiveWeb.FetchContentConcurrently | liveweb/trending_live_web.py:128-139 | Each URL is requested once, in the pool's completion order. The result is the non-empty contents in that order. As a multiset it equals the in-order result; it has at most one entry per URL, none empty. |
| TrendingLiveWeb.FetchesPermutation | liveweb/trending_live_web.py:131 | Permuting the URLs permutes the page requests. |
| TrendingLiveWeb.Toolkit | liveweb/trending_live_web.py:113-126 | The pipeline specification: answer and call trace. It has no contract of its own; `ToolkitCalls`, `ToolkitFetchesEveryLink`, `ToolkitSummarizesEveryChunk` and `ToolkitOutcome` state its properties. |
| TrendingLiveWeb.ExecuteToolkit | liveweb/trending_live_web.py:113-126 | The answer and the call trace equal the pipeline specification `Toolkit`: refine, search, fetch each link, then summarise each chunk. |
| TrendingLiveWeb.ToolkitCalls | liveweb/trending_live_web.py:113-126 | With results: refine, then the search request, then one fetch per link in completion order, then one summarisation per chunk, the last only when some page had content. |
| TrendingLiveWeb.ToolkitFetchesEveryLink | liveweb/trending_live_web.py:119 | The page requests after the search are exactly the result links, each once, up to order. |
| TrendingLiveWeb.ToolkitSummarizesEveryChunk | liveweb/trending_live_web.py:104-123 | After the query refinement, the search request and one request per page, the remaining calls are exactly the summarisation calls: one per 16000-character chunk of the space-joined contents, in order; the chunks rejoin to those contents. |
| TrendingLiveWeb.ToolkitOutcome | liveweb/trending_live_web.py:115-126 | A parse error escapes. No results gives the no-results message after just two calls. Otherwise the non-blank summary of the fetched content, else the failure message. |
| LiveWeb.KeptResults | liveweb/liveweb.py:45-54 | At most one record per block. Every block whose extraction succeeds contributes its record, and every record is the extraction of some block that succeeds. |
| LiveWeb.KeptResultsAppend | liveweb/liveweb.py:46-53 | Skipping keeps document order: the records of two runs of blocks are concatenated. |
| LiveWeb.KeptResultsSkip | liveweb/liveweb.py:52-53 | A block whose extraction raises contributes nothing: the records of the run around it are those of the run without it. |
| LiveWeb.KeptResultsSnoc | liveweb/liveweb.py:46-53 | The records of a run are those of all but its last block, then the last block's record if its extraction succeeds. |
| LiveWeb.KeptResultsNoSkip | liveweb/liveweb.py:46-51 | When no block raises, record i is block i's extraction. |
| LiveWeb.GoogleResults | liveweb/liveweb.py:30-54 | A fetched page with status 200 gives its kept records. Conversely, records come only from such a page. |
| LiveWeb.ParseResults | liveweb/liveweb.py:45-54 | The loop collects the records of the blocks that do not raise, skipping the others. |
| LiveWeb.PerformGoogleSearch | liveweb/liveweb.py:30-54 | A raised request, or any status other than 200, gives an empty list; otherwise the kept records. |
| LiveWeb.FetchWebContent | liveweb/liveweb.py:56-67 | Some text exactly when the status is 200; the text is the paragraphs joined by newlines. |
| LiveWeb.FetchAllContent | liveweb/liveweb.py:69-72 | One entry per URL, in URL order, each that URL's fetch result. |
| LiveWeb.NonEmptyContents | liveweb/liveweb.py:88 | Keeps exactly the present, non-empty contents, in order. |
| LiveWeb.NonEmptyContentsAppend | liveweb/liveweb.py:88 | The filter distributes over concatenation. |
| LiveWeb.Toolkit | liveweb/liveweb.py:80-94 | The pipeline specification: answer and call trace of refine, search, gather and one summary. It has no contract of its own; `ToolkitOutcome` states its outcomes. |
| LiveWeb.ExecuteToolkit | liveweb/liveweb.py:80-94 | The answer and the call trace equal the pipeline specification `Toolkit`. |
| LiveWeb.ToolkitOutcome | liveweb/liveweb.py:83-94 | "No search results found." when the search is empty, after just the refinement and the search request. Otherwise the non-blank summary of the non-empty contents, else the failure message. |
| WebSearch.SearchUrl | liveweb/trending_live_web.py:64 | The Google search URL with the query and the result count in decimal, as both pipelines build it (also liveweb/liveweb.py:34). It has no contract of its own. |
| Celeb.MatchAt | audiotools/celeb.py:52 | "session=" followed by at least one character other than ';' starts at the position. |
| Celeb.FirstMatch | audiotools/celeb.py:52 | The leftmost match position at or after the start, or None when there is none. |
| Celeb.UpToSemicolon | audiotools/celeb.py:52 | The longest prefix without ';' (the greedy `[^;]+`). |
| Celeb.SessionToken | audiotools/celeb.py:52 | A token exactly when the pattern matches somewhere. The token is non-empty and free of ';'. |
| Celeb.CookieHeader | audiotools/celeb.py:73 | The header value is "session=" followed by the token. |
| Celeb.UpToSemicolonOf | audiotools/celeb.py:52 | A part without ';' followed by nothing or by ';…' is taken whole. |
| Celeb.SessionTokenRoundTrip | audiotools/celeb.py:52 | "session=" + token + (nothing or ";…") yields the token back. |
| Celeb.CookieHeaderRoundTrip | audiotools/celeb.py:73 | The Cookie header the client sends parses back to its own token. |
| Celeb.FirstMatchReaches | audiotools/celeb.py:52 | The scan stops at the first position where the pattern matches. |
| Celeb.SessionTokenAfterPrefix | audiotools/celeb.py:52 | The search is unanchored: after a prefix with no 's' in it, the token behind "session=" is still found. |
| Celeb.SessionInsideOtherCookieName | audiotools/celeb.py:52 | The unanchored search also matches inside another cookie name: in `mysession=abc; session=tok` the token found is "abc". |
| Celeb.LoginRequest | audiotools/celeb.py:32-41 | A POST to the login URL with the JSON content type and the credentials as the body. |
| Celeb.Authenticate | audiotools/celeb.py:41-53 | A falsy `success` raises "Authentication failed.". A truthy one with a missing or empty set-cookie header raises "Failed to retrieve cookie.". Success exactly when `success` is truthy and the cookie holds a session token; the value returned is that token. |
| Celeb.SessionHeaders | audiotools/celeb.py:71-74 | The headers of every request after login: one given header and `Cookie: session=<token>` (also lines 95-98 and 121-124). It has no contract of its own; `CookieHeaderRoundTrip` reads the cookie back. |
| Celeb.TtsRequest | audiotools/celeb.py:65-76 | A POST to the inference URL carrying the model token, the idempotency token, the text and the session cookie. |
| Celeb.TtsOutcome | audiotools/celeb.py:79-82 | A truthy `success` gives the `inference_job_token` subscript, and only then can it succeed; a falsy one raises "TTS request failed.". |
| Celeb.Render | audiotools/celeb.py:94 | The `{job_token}` of the status-URL f-string: a string as is, an integer in decimal, `None`, `True` and `False` by name. It has no contract of its own; lists and dictionaries are placeholders (see "## Left out"). |
| Celeb.StatusRequest | audiotools/celeb.py:94-101 | A GET to the job's status URL with the Accept and Cookie headers. |
| Celeb.StepOf | audiotools/celeb.py:104-107 | A missing "state" or "status" raises its KeyError. A "failed" status raises "TTS job failed.". "complete_success" returns the path subscript, and the step succeeds exactly when that path is present. It polls again exactly when the status is present and is neither of the two. |
| Celeb.Poll | audiotools/celeb.py:100-109 | The first terminal response decides the outcome. |
| Celeb.PollCount | audiotools/celeb.py:100-109 | The number of status requests sent is at most the number of responses. |
| Celeb.PollFirstTerminal | audiotools/celeb.py:100-109 | If the responses before index i all continue and response i stops, the outcome is response i's and i+1 requests were sent. |
| Celeb.PollNoTerminal | audiotools/celeb.py:100-109 | Without a terminal status the loop is still polling after consuming every response. |
| Celeb.LogoutRequest | audiotools/celeb.py:120-126 | A POST to the logout URL with the session cookie. |
| Celeb.LogoutOutcome | audiotools/celeb.py:129-130 | Succeeds exactly when `success` is truthy; otherwise "Logout failed.". |
| Celeb.FakeYouTTS.WithSession | audiotools/celeb.py:18-19 | The client keeps the session token it was built with. |
| Celeb.FakeYouTTS.MakeTtsRequest | audiotools/celeb.py:55-82 | Sends `TtsRequest` with the client's cookie, and the outcome is `TtsOutcome`. |
| Celeb.FakeYouTTS.CheckTtsStatus | audiotools/celeb.py:84-109 | Sends one status request per poll, stops at the first terminal response and returns its outcome. All earlier responses continued. |
| Celeb.FakeYouTTS.Logout | audiotools/celeb.py:111-130 | Sends `LogoutRequest` with the client's cookie; the outcome is `LogoutOutcome`. |
| Celeb.RunCeleb | audiotools/celeb.py:132-138 | The result and the request trace equal the specification `CelebRun`. |
| Celeb.CelebRun | audiotools/celeb.py:132-138 | The specification of the `celeb` facade: login, job request, polling, logout, with the result and the request trace. It has no contract of its own; `CelebLogsOutOnlyAfterSuccess` states its properties. |
| Celeb.CelebLogsOutOnlyAfterSuccess | audiotools/celeb.py:132-138 | Logout is requested exactly when login, the job request and polling all succeeded. It is then the last of 3 + polls requests. A successful result implies the logout succeeded. |
| Stt.Environment.constructor | audiotools/stt.py:13 | The process environment `os.environ` holds the given variables. |
| Stt.SttTools.constructor | audiotools/stt.py:6-13 | The environment gains FAL_KEY = the API key; nothing else changes. |
| Stt.SttTools.SubmitRequest | audiotools/stt.py:15-44 | Ok exactly when the language maps to a truthy code and the task is "transcribe" or "translate". The language error comes first: "Invalid language selected: …", then "Invalid task selected: …". The submission goes to "fal-ai/wizper" with exactly the keys audio_url, task and language. |
| Stt.RunStt | audiotools/stt.py:46-60 | The environment is updated first. A valid request is submitted once, and the FAL result, or the error the FAL call raises, is passed on. An invalid one submits nothing and raises ValueError. |
| Stt.DefaultIsTranscribe | audiotools/stt.py:15 | Leaving out the task means "transcribe", which is always accepted. |
| Voice.AudioTools.GeneratePrompt | audiotools/voice.py:30-46 | No emotion, or an empty one, returns the text unchanged. Otherwise the stripped LLM rewrite of the text with that emotion. |
| Voice.AudioTools.VoiceId | audiotools/voice.py:64 | The configured id of the voice name, else "21m00Tcm4TlvDq8ikWAM". |
| Voice.AudioTools.TtsCallFor | audiotools/voice.py:48-72 | The ElevenLabs call carries the text, the looked-up voice id and the four settings as given (defaults "Rachel", 0.5, 0.5, 0.5, true). |
| Voice.JoinAudio | audiotools/voice.py:73 | No chunks give empty audio. |
| Voice.AudioInOrder | audiotools/voice.py:72-74 | Each chunk appears whole at its place in the joined audio, after all earlier chunks. |
| Voice.AudioAppend | audiotools/voice.py:73 | Joining one more chunk appends it to the audio. |
| Voice.GenerateAudio | audiotools/voice.py:76-101 | The TTS call speaks the generated prompt with the chosen voice and settings; the audio is its joined chunks. |
| Voice.GenerateAudioText | audiotools/voice.py:98-100 | Without an emotion the original text is spoken. With one, the spoken text is stripped. |
| Meme.ConfigFor | memelora/meme.py:121 | The character's configuration, else the "default" entry ("correct-model-endpoint", no LoRA). |
| Meme.CharactersHaveWeights | memelora/meme.py:20-109 | Every named character has a non-empty LoRA weights URL; "default" has none. |
| Meme.NextBrace | memelora/meme.py:112 | The first '{' or '}' at or after the position, or None when there is none. |
| Meme.Format | memelora/meme.py:112 | `str.format(user_prompt=…)`: the only errors it raises are ValueError, KeyError and IndexError. "unexpected '{' in field name", the empty field's IndexError and a KeyError for any other field name are distinguished. |
| Meme.FormatLiteralStep | memelora/meme.py:112 | A character other than a brace is copied, and a later error is unaffected by it. |
| Meme.FormatLiteralPrefix | memelora/meme.py:112 | Text without braces passes through `str.format` unchanged, and failures are unaffected by it. |
| Meme.FormatBraceFree | memelora/meme.py:112 | A template without braces formats to itself. |
| Meme.FormatPlaceholderStep | memelora/meme.py:112 | `{user_prompt}` is replaced by the value, and formatting goes on after it with the same errors. |
| Meme.FormatSubstitutes | memelora/meme.py:112 | A template with one `{user_prompt}` and no other braces formats to the text with the prompt substituted. |
| Meme.NestedBraceRejected | memelora/meme.py:112 | A '{' inside a field name raises ValueError("unexpected '{' in field name") before any lookup. |
| Meme.GeneratePrompt | memelora/meme.py:111-113 | A formatting error is raised first. Otherwise the LLM call on the formatted template under the OpenAI key, whose own failure is passed on. |
| Meme.RequestImage | memelora/meme.py:115-118 | A LoRA request exactly when the LoRA path is present and non-empty; otherwise the Flux request with only the FAL key and prompt. |
| Meme.GenerateForCharacter | memelora/meme.py:120-123 | Fails exactly when the prompt generation fails, with its error. Otherwise the image request built from the generated prompt and the looked-up character's endpoint and LoRA path. |
| Meme.CharacterRouting | memelora/meme.py:120-123 | Named characters go to the LoRA endpoint with their own weights; unknown ones to the plain Flux request. |
| SocialMediaPrompt.PlatformName | prompts/social_media_prompt.py:316-317 | A name is used as is. A tuple uses its first element; an empty tuple raises IndexError. |
| SocialMediaPrompt.PostContent | prompts/social_media_prompt.py:320-321 | The table entry for platform, topic and sub-topic, or the literal "Default" when any level is missing. |
| SocialMediaPrompt.SocialMediaPromptOf | prompts/social_media_prompt.py:314-343 | Ok exactly when the platform argument is usable. The template text embeds query, summary, post content, platform, tone and words. The input variables are query and summary; the partial variables hold the other four. |
| SocialMediaPrompt.SocialMediaPrompt | prompts/social_media_prompt.py:314-343 | `social_media_prompt` over the module's `SocialMedia` table with the dictionary binding. It has no contract of its own; `SocialMediaPromptOf`, `TupleUsesFirst`, `ToneVerbatim` and `FallbackIsLiteral` state its properties for every table. |
| SocialMediaPrompt.TemplateText | prompts/social_media_prompt.py:324-336 | The f-string text with the six values in place. It has no contract of its own; `SocialMediaPromptOf` states what it embeds. |
| SocialMediaPrompt.TupleUsesFirst | prompts/social_media_prompt.py:316-317 | A tuple argument gives the same prompt as its first element. |
| SocialMediaPrompt.ToneVerbatim | prompts/social_media_prompt.py:331-339 | Different tone strings give different prompts: the tone is inserted verbatim. |
| SocialMediaPrompt.FallbackIsLiteral | prompts/social_media_prompt.py:321 | A missing sub-topic yields the literal "Default", not the topic's "Default" entry. |
| SocialMediaTables.FunnyToneDescribed | prompts/social_media_prompt.py:304-312 | The Tone table maps "Funny" to a description that differs from the word; with ToneVerbatim, the prompt carries the word, never that description. |
| SocialMediaPrompt.SocialMediaPromptAsWritten | prompts/social_media_prompt.py:303-320 | With `SocialMedia` bound as written (a one-element tuple), every call raises. |
| SocialMediaPrompt.AsWrittenNeverBuildsPrompt | prompts/social_media_prompt.py:303-320 | For "TwitterContent" the as-written binding raises the tuple AttributeError. The dictionary binding builds the prompt, and its post content is the table's guidance for that platform, topic and sub-topic when they are present. |
| ChatTextToText.TextToText.CallOpenAiApi | chat/text_to_text.py:28-35 | Dispatches on the instance's own model, to gpt3_5 or gpt4omini with the API key; any other model raises "Model … is not supported.". |
| ChatTextToText.TextToText.CallTogetherApi | chat/text_to_text.py:37-41 | Needs a non-empty Together key, else raises "API key for Together model must be provided."; the call uses that key. |
| ChatTextToText.TextToText.Process | chat/text_to_text.py:12-18 | OpenAI models go to the OpenAI call, "llama3" to Together, anything else raises. The prompt is passed through. |
| ChatTextToText.TextToText.Concat | chat/text_to_text.py:20-26 | Dispatches on the given model name, with the same unsupported-model error. |
| ChatTextToText.ConcatOwnModelIsProcess | chat/text_to_text.py:12-26 | `concat` with the instance's own model is `process`. |
| ChatTextToText.ConcatRedispatches | chat/text_to_text.py:20-35 | The OpenAI branch of `concat` still uses the instance's model. A llama3 instance asked for gpt_3_5 raises; a gpt_3_5 instance asked for gpt_4o_mini calls gpt3_5. |
| ChatTextToText.CallKeys | chat/text_to_text.py:28-41 | A successful OpenAI call uses `api_key`; a successful Together call uses `api_key_for_model`. |
| ChatModelMap.TextToText.ProcessCall | chat/__init__.py:18-19 | Ok exactly for the three model names, calling the mapped function with the prompt, key and stream flag; otherwise KeyError(model). |
| ChatModelMap.TextToText.Process | chat/__init__.py:18-19 | One call and its answer, or the KeyError with no call. |
| ChatModelMap.MakeTextToText | chat/__init__.py:26-27 | The factory stores the four arguments as given. |
| ChatModelMap.TextToText.Concat | chat/__init__.py:21-24 | `concat`: the first output becomes the prompt of a new instance for the next model, which then processes the argument prompt. It has no contract of its own; `ConcatCalls`, `ConcatResultIgnoresFirst` and `ConcatFailures` state its properties. |
| ChatModelMap.ConcatCalls | chat/__init__.py:21-24 | With both models known, exactly two calls, both with the instance's key and stream flag. First the own model on the stored prompt, then the next model on the argument prompt. The result is the second answer. |
| ChatModelMap.ConcatResultIgnoresFirst | chat/__init__.py:21-24 | The result depends neither on the stored prompt nor on which known model the instance has: the first output is only stored on the next instance. |
| ChatModelMap.ConcatFailures | chat/__init__.py:21-24 | An unknown own model fails first with no call; an unknown next model fails after the first call. |
| ChatLlama3.ProcessOutcome | chat/llama3.py:20-31 | An OpenAI model gives the stripped chat answer; llama3 gives the Together answer. Neither gives ValueError("Unsupported model."). |
| ChatLlama3.TextToTextProcessor.Init | chat/llama3.py:8-18 | Stores model, key and prompt. It sets the chat model for the two OpenAI names and the Together client for llama3. |
| ChatLlama3.TextToTextProcessor.Create | chat/llama3.py:8-18 | Construction fails with "Unsupported model." exactly for other model names. |
| ChatLlama3.TextToTextProcessor.Process | chat/llama3.py:20-31 | Records the prompt on the instance and returns `ProcessOutcome`; nothing else changes. |
| ChatLlama3.TextToTextProcessor.Concat | chat/llama3.py:33-35 | Answers with the model named by the argument, leaving the instance unchanged. |
| ChatLlama3.ConcatOutcome | chat/llama3.py:33-35 | OpenAI name gives the stripped chat answer, llama3 the Together answer, else "Unsupported model.". |
| ChatLlama3.ValidProcessSucceeds | chat/llama3.py:13-31 | With exactly one of the two attachments set (the chat model or the Together client), `process` never reaches its final `raise ValueError("Unsupported model.")`. A processor built successfully has exactly one set. |
| ChatLlama3.MakeTextToText | chat/llama3.py:37-38 | The factory succeeds exactly for supported models and keeps model and prompt. |
| ChatWithDoc.MemoryPath | chat/chatwithdoc.py:19 | The memory file of a user is "<user>_memory.pkl". |
| ChatWithDoc.IndexPath | chat/chatwithdoc.py:63 | The index folder of a user is "faiss_index_<user>". |
| ChatWithDoc.PathsDiffer | chat/chatwithdoc.py:19-75 | A user's memory file and index folder never collide. |
| ChatWithDoc.DocumentsFor | chat/chatwithdoc.py:32-60 | Loader chosen on the lower-cased extension: pdf, docx, txt/md, one document per sheet for xlsx, one for csv. Any other extension raises "Unsupported file type: <ext>". |
| ChatWithDoc.ExtensionCaseInsensitive | chat/chatwithdoc.py:34 | Extensions that differ only in letter case load the same documents. |
| ChatWithDoc.MemoryIn | chat/chatwithdoc.py:23-30 | A missing memory file gives a fresh chat_history buffer. A stored memory file gives its memory. An index folder at that path raises OSError. |
| ChatWithDoc.WithMemory | chat/chatwithdoc.py:18-21 | Saving replaces the memory file and nothing else; a failed write leaves the disk unchanged. |
| ChatWithDoc.StoreIn | chat/chatwithdoc.py:62-72 | A missing index folder gives None. A stored index folder gives its index. A memory file at that path raises OSError. |
| ChatWithDoc.WithStore | chat/chatwithdoc.py:74-77 | Saving replaces the index folder and nothing else; a failure leaves the disk unchanged. |
| ChatWithDoc.MemoryRoundTrip | chat/chatwithdoc.py:18-30 | Loading after saving returns the saved memory. |
| ChatWithDoc.StoreRoundTrip | chat/chatwithdoc.py:62-77 | Loading after saving returns the saved index. |
| ChatWithDoc.LoadToFaiss | chat/chatwithdoc.py:83-96 | The specification of `load_documents_to_faiss`: result and new files. It has no contract of its own; `LoadToFaissOutcome` and `UnsupportedExtensionChangesNothing` state its properties. |
| ChatWithDoc.LoadToFaissOutcome | chat/chatwithdoc.py:83-96 | A failure leaves the files unchanged. A success stores the existing documents (none for a new index) followed by the new splits, under the user's index folder only. |
| ChatWithDoc.UnsupportedExtensionChangesNothing | chat/chatwithdoc.py:85-96 | An unsupported extension raises "Unsupported file type: <ext>" and the files are unchanged. |
| ChatWithDoc.QueryPrompt | chat/chatwithdoc.py:108 | The f-string prompt sent to gpt-4o-mini: the fixed question text followed by the query. It has no contract of its own; `QueryOutcome` states that the answer of a successful query is the reply to it. |
| ChatWithDoc.Query | chat/chatwithdoc.py:98-111 | The specification of `query_documents`: result and new files. It has no contract of its own; `QueryOutcome` states its properties. |
| ChatWithDoc.QueryOutcome | chat/chatwithdoc.py:98-111 | Without an index the query raises "No FAISS index found for user ID: <id>" and writes nothing. A success answers the fixed question prompt with the key. It leaves an existing memory file as it was and otherwise writes a fresh memory. |
| ChatWithDoc.Disk.constructor | chat/chatwithdoc.py:18-77 | The disk holds the given files. |
| ChatWithDoc.DocumentManager.constructor | chat/chatwithdoc.py:17 | The manager works on the given disk. |
| ChatWithDoc.DocumentManager.LoadMemory | chat/chatwithdoc.py:23-30 | Returns `MemoryIn` of the disk. |
| ChatWithDoc.DocumentManager.SaveMemory | chat/chatwithdoc.py:18-21 | The disk becomes `WithMemory` of the old disk. |
| ChatWithDoc.DocumentManager.GetVectorstore | chat/chatwithdoc.py:62-72 | Returns `StoreIn` of the disk. |
| ChatWithDoc.DocumentManager.SaveVectorstore | chat/chatwithdoc.py:74-77 | The disk becomes `WithStore` of the old disk. |
| ChatWithDoc.DocumentManager.LoadDocuments | chat/chatwithdoc.py:32-60 | The loop over sheets and the branches give `DocumentsFor`. |
| ChatWithDoc.DocumentManager.LoadDocumentsToFaiss | chat/chatwithdoc.py:83-96 | The result and the new disk equal `LoadToFaiss` on the old disk. |
| ChatWithDoc.DocumentManager.QueryDocuments | chat/chatwithdoc.py:98-111 | The result and the new disk equal `Query` on the old disk. |

## Left out

- Network, LLM, TTS, FAL, FAISS, pickle and file access are not modelled. Each is a parameter: an oracle function, or a value standing for the response or the file.
- ChatLlama3, ChatModelMap, ChatWithDoc, Voice, LiveWeb, TrendingLiveWeb: the LLM, TTS, document-loader, pandas and text-splitter oracles of these modules (`chat`, `together`, `answer`, `load`, `sheets`, `csv`, `split`, `refine`, `summarize`, `llm`, `rewrite`, `generate`) are total functions and never raise. The source catches none of their exceptions, so in Python such an exception escapes before any later step, and the model does not capture that. Examples are a raising `chain.invoke` in chat/llama3.py:26, a `pd.read_csv` error at chat/chatwithdoc.py:54, and the gpt4omini call at chat/chatwithdoc.py:108, after which nothing is saved. The outcomes these modules' contracts promise hold when those services succeed. That covers `DocumentsFor` failing only for an unsupported extension, `ConcatCalls` making exactly two calls, and the Ok result of `ValidProcessSucceeds`. Only the FAL call (Stt) and the prompt LLM call (Meme) are modelled as able to fail. What the loaders do with the `BytesIO` that chat/chatwithdoc.py:39, :42 and :45 pass them is part of that foreign behaviour.
- ChatWithDoc.StoreIn: that `FAISS.load_local` raises OSError when a memory file, not an index folder, sits at the index path is an assumption about the foreign library. The source does not show what it raises there.
- Concurrency: the thread pool of `fetch_content_concurrently` is a completion order, which must be a permutation of the URLs. `asyncio.gather` keeps URL order. Timeouts, worker counts and interleavings are not modelled.
- `DEFAULT_HEADERS`, user agents and timeouts are not part of any request record.
- Celeb.FakeYouTTS.CheckTtsStatus: the `while True` loop is modelled over the finite sequence of responses it receives. When they run out without a terminal status, the outcome is "still polling". The five-second sleep is not modelled.
- Celeb.Render: a list or dictionary job token is rendered as the placeholders "<list>" and "<dict>", not as Python's repr.
- Celeb.SessionToken: the search for `session=` is unanchored, as at audiotools/celeb.py:52. So it can match inside another cookie name that ends in `session` (see `SessionInsideOtherCookieName`). The model keeps this behaviour and does not claim that the token of the `session` cookie itself is found.
- Celeb.TtsRequest: the UUID idempotency token is passed in, since its randomness is not modelled.
- HTML parsing (BeautifulSoup) is not modelled. A search page is given as its result blocks (title, anchor, snippet), and a fetched page as its paragraph texts.
- The refinement and summary templates that come from the prompts YAML file are not modelled; the LLM that fills them is an oracle. The same holds for constructors that read that file or build LLM clients (`LiveWebToolkit.__init__`, `load_prompts`, `AudioTools.__init__`).
- The thin facades `trending_web_summary`, `web_summary`, `generate_audio`'s toolkit construction, `meme`, `loaddoc` and `chatwithdoc` are not modelled separately. Each only builds the class and calls the modelled method.
- ChatWithDoc.DocumentsFor: `str.lower` is modelled for ASCII letters only.
- ChatWithDoc.DocumentsFor: the PDF, Word and generic loaders, pandas sheet reading and `to_string` are oracles.
- The OpenAI embeddings, the text splitter (chunk size 1000, overlap 200) and the retriever are not modelled. The splitter is an oracle and an index is the list of documents it holds. `query_documents` builds a retriever it never uses, and the model does not have one either.
- Meme.Format: `str.format` is modelled for literal text, doubled braces, the `user_prompt` field, the empty field (IndexError), a '{' inside a field name and a missing '}' (ValueError), and any other field name (KeyError of that name). Conversions (`!r`), format specs, numbered fields and attribute or index access (including the `[...]` skipping inside a field name) are not modelled: a field containing '!', ':', '.' or '[' is treated as a plain name.
- Meme.RequestImage: records the Flux call exactly as meme.py:118 makes it. That call omits the AWS arguments that imagetools/flux.py requires, and what it raises is not modelled.
- Voice.VoiceSettings: the float settings are Dafny reals; nothing depends on their arithmetic.
- Voice.JoinAudio: states only the empty case itself; the order of the chunks is stated by `AudioInOrder` and `AudioAppend`.
- `SocialMediaPrompt.SocialMediaPrompt` (the facade over the real table) has no contract of its own. Its logic is proved for every table with `SocialMediaPromptOf`. Lemmas about particular entries of the 300-line table are not stated, because the solver cannot handle that literal cheaply.
- SocialMediaPrompt: the duplicate `PostCaption` key in the `FacebookContent` table (prompts/social_media_prompt.py:118 and :124) carries the same text twice, so it is kept once. `words` is an integer rendered in decimal.
- The language table of audiotools/languages.py is not part of this model. `language_codes` is a parameter.
- `Config` keys are parameters.
- liveweb/trending_live_web.py lines 1-27 are not Python. They are not modelled, and the model reads the file from line 30.
- The `403` test at liveweb/trending_live_web.py:87 is unreachable after `raise_for_status`. The model follows the code, and its contract shows that a 403 gives None.
- chat/__init__.py:1-2 and chat/text_to_text.py:2 and :4 import names the chat modules do not define (chat/llama3.py defines no `llama3`). The model treats the imported model functions as the oracles their names suggest.
- ChatLlama3: the `client` field is a flag saying whether the Together client was built, and `llm` is the OpenAI model name the chat client was built for.

## Findings

| source | as written | input that shows it | evidently intended | confidence | as-written member | corrected member |
|---|---|---|---|---|---|---|
| prompts/social_media_prompt.py:303 | The comma after the closing brace binds `SocialMedia` to a one-element tuple holding the dictionary. The `.get` at line 320 then raises AttributeError ('tuple' object has no attribute 'get'). | `social_media_prompt("q", "s", "TwitterContent", "Post", "Teaser", "Funny", 50)` | `SocialMedia` is the dictionary, and the lookup returns the entry or the "Default" fallback. | high; not executed | SocialMediaPrompt.AsWrittenNeverBuildsPrompt | SocialMediaPrompt.SocialMediaPromptOf |
