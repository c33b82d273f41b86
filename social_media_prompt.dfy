/** `social_media_prompt` of prompts/social_media_prompt.py: pick the platform
    name (the first element when a tuple is passed), look the guidance up in
    the `SocialMedia` table with the literal "Default" as fallback, and build
    the prompt template with the query, summary, guidance, platform, tone and
    word count filled in. */
module SocialMediaPrompt {
  import opened Wrappers
  import opened PyStr
  import opened SocialMediaTables

  const Fallback: string := "Default"

  /** The `socialmedia` argument: a platform name, or a tuple of them. */
  datatype Platform = Name(name: string) | Tuple(items: seq<string>)

  /** The LangChain `PromptTemplate` the function returns. */
  datatype PromptTemplate = PromptTemplate(template: string, inputVariables: seq<string>,
                                           partialVariables: map<string, string>)

  /** The platform name: the argument itself, or a tuple's first element;
      indexing an empty tuple raises IndexError. */
  function PlatformName(socialmedia: Platform): (r: Result<string>)
    ensures socialmedia.Name? ==> r == Ok(socialmedia.name)
    ensures socialmedia.Tuple? && socialmedia.items != [] ==> r == Ok(socialmedia.items[0])
    ensures socialmedia.Tuple? && socialmedia.items == [] ==> r.Err? && r.error.IndexError?
  {
    match socialmedia
    case Name(name) => Ok(name)
    case Tuple(items) => if items == [] then Err(IndexError("tuple index out of range")) else Ok(items[0])
  }

  /** `table.get(platform, {}).get(post_topic, {}).get(sub_topic, "Default")`:
      the guidance at the leaf (platform, post topic, sub-topic); any missing
      level gives the literal "Default". */
  function PostContent(table: Table, platform: string, postTopic: string, subTopic: string): (r: string)
    ensures platform in table && postTopic in table[platform] && subTopic in table[platform][postTopic] ==>
              r == table[platform][postTopic][subTopic]
    ensures !(platform in table && postTopic in table[platform] && subTopic in table[platform][postTopic]) ==>
              r == Fallback
  {
    var platformContent := if platform in table then table[platform] else map[];
    var topicContent := if postTopic in platformContent then platformContent[postTopic] else map[];
    if subTopic in topicContent then topicContent[subTopic] else Fallback
  }

  /** The text of the f-string template; the query and the summary are already
      in it, and so are the other values. */
  function TemplateText(query: string, summary: string, postContent: string, platform: string,
                        tone: string, words: string): string
  {
    "\n        Create a social media post on: " + query
    + "\n        Use this as contextual information: " + summary
    + "\n\n        Post Content: " + postContent
    + "\n        Tune it for: " + platform
    + "\n\n        Use this tone for writing and delivery: " + tone
    + "\n        Word length: Try to use around " + words + " words."
    + "\n\n        Don't provide outdated data.\n        "
  }

  /** `social_media_prompt` over a given guidance table. The word count is
      rendered with `str`. */
  function SocialMediaPromptOf(table: Table, query: string, summary: string, socialmedia: Platform,
                               postTopic: string, subTopic: string, tone: string,
                               words: int): (r: Result<PromptTemplate>)
    ensures r.Ok? <==> PlatformName(socialmedia).Ok?
    ensures r.Ok? ==>
              var platform := PlatformName(socialmedia).value;
              var postContent := PostContent(table, platform, postTopic, subTopic);
              r.value.inputVariables == ["query", "summary"]
              && r.value.partialVariables == map["socialmedia" := platform, "tone" := tone,
                                                 "words" := IntToDecimal(words),
                                                 "post_content" := postContent]
              && r.value.template == TemplateText(query, summary, postContent, platform, tone,
                                                  IntToDecimal(words))
  {
    var platform :- PlatformName(socialmedia);
    var postContent := PostContent(table, platform, postTopic, subTopic);
    Ok(PromptTemplate(TemplateText(query, summary, postContent, platform, tone, IntToDecimal(words)),
                      ["query", "summary"],
                      map["socialmedia" := platform, "tone" := tone, "words" := IntToDecimal(words),
                          "post_content" := postContent]))
  }

  /** A tuple is looked up by its first element, exactly like that name alone. */
  lemma TupleUsesFirst(table: Table, query: string, summary: string, first: string, others: seq<string>,
                       postTopic: string, subTopic: string, tone: string, words: int)
    ensures SocialMediaPromptOf(table, query, summary, Tuple([first] + others), postTopic, subTopic, tone, words)
            == SocialMediaPromptOf(table, query, summary, Name(first), postTopic, subTopic, tone, words)
  {
  }

  /** The tone is the argument itself: the same text is passed and shown whatever
      the `Tone` table says about it, and two calls that differ only in the tone
      differ only in it. */
  lemma ToneVerbatim(table: Table, query: string, summary: string, socialmedia: Platform, postTopic: string,
                     subTopic: string, tone1: string, tone2: string, words: int)
    requires PlatformName(socialmedia).Ok?
    ensures var r1 := SocialMediaPromptOf(table, query, summary, socialmedia, postTopic, subTopic, tone1, words).value;
            var r2 := SocialMediaPromptOf(table, query, summary, socialmedia, postTopic, subTopic, tone2, words).value;
            r1.partialVariables["tone"] == tone1
            && r1.partialVariables - {"tone"} == r2.partialVariables - {"tone"}
            && r1.inputVariables == r2.inputVariables
  {
  }

  /** A known topic with an unknown sub-topic falls back to the literal word,
      even when that topic has its own "Default" guidance. */
  lemma FallbackIsLiteral(table: Table, platform: string, postTopic: string, subTopic: string)
    requires platform in table && postTopic in table[platform]
    requires subTopic !in table[platform][postTopic]
    ensures PostContent(table, platform, postTopic, subTopic) == Fallback
    ensures Fallback in table[platform][postTopic] ==>
              PostContent(table, platform, postTopic, Fallback) == table[platform][postTopic][Fallback]
  {
  }

  /** `social_media_prompt` itself: the lookup goes to the `SocialMedia` table. */
  function SocialMediaPrompt(query: string, summary: string, socialmedia: Platform, postTopic: string,
                             subTopic: string, tone: string, words: int): Result<PromptTemplate>
  {
    SocialMediaPromptOf(SocialMedia, query, summary, socialmedia, postTopic, subTopic, tone, words)
  }

  // ----- The table as the source binds it -----

  const TupleHasNoGet: string := "'tuple' object has no attribute 'get'"

  /** `social_media_prompt` with `SocialMedia` bound as written: the comma after
      the dictionary's closing brace makes the name a one-element tuple holding
      the dictionary, and the first `.get` on it raises AttributeError. */
  function SocialMediaPromptAsWritten(table: Table, query: string, summary: string, socialmedia: Platform,
                                      postTopic: string, subTopic: string, tone: string,
                                      words: int): (r: Result<PromptTemplate>)
    ensures r.Err?
    ensures PlatformName(socialmedia).Err? ==> r == Err(PlatformName(socialmedia).error)
  {
    var _ :- PlatformName(socialmedia);
    Err(AttributeError(TupleHasNoGet))
  }

  /** As written no call builds a prompt, while with the dictionary the intended
      binding the call for "TwitterContent" builds one whose post content is that
      platform's guidance for the topic and sub-topic. */
  lemma AsWrittenNeverBuildsPrompt(table: Table, query: string, summary: string, postTopic: string,
                                   subTopic: string, tone: string, words: int)
    ensures SocialMediaPromptAsWritten(table, query, summary, Name("TwitterContent"), postTopic, subTopic,
                                       tone, words) == Err(AttributeError(TupleHasNoGet))
    ensures var r := SocialMediaPromptOf(table, query, summary, Name("TwitterContent"), postTopic, subTopic,
                                         tone, words);
            && r.Ok?
            && ("TwitterContent" in table && postTopic in table["TwitterContent"]
                && subTopic in table["TwitterContent"][postTopic] ==>
                  r.value.partialVariables["post_content"] == table["TwitterContent"][postTopic][subTopic])
  {
  }
}
