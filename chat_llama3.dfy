/** `TextToTextProcessor` of chat/llama3.py: the constructor attaches either an
    OpenAI chat model (for "gpt-3.5-turbo" and "gpt-4o-mini") or the Llama 3
    client, and `process` stores its prompt and sends it to whichever is
    attached. `chat(model, apiKey, prompt)` is the OpenAI answer and
    `together(prompt, apiKey)` the Llama 3 one. */
module ChatLlama3 {
  import opened Wrappers
  import opened PyStr

  const OpenAiModels: set<string> := {"gpt-3.5-turbo", "gpt-4o-mini"}
  const LlamaModel: string := "llama3"
  const UnsupportedModel: string := "Unsupported model."

  /** The answer `process` gives for the attachment (`llm`, `client`) of a
      processor: the stripped OpenAI answer, the Llama 3 answer, or the final
      ValueError when neither attribute is set. */
  function ProcessOutcome(llm: Option<string>, client: bool, apiKey: string, prompt: string,
                          chat: (string, string, string) -> string,
                          together: (string, string) -> string): (r: Result<string>)
    ensures r.Err? <==> llm.None? && !client
    ensures r.Err? ==> r.error == ValueError(UnsupportedModel)
    ensures llm.Some? ==> r == Ok(Strip(chat(llm.value, apiKey, prompt)))
    ensures llm.None? && client ==> r == Ok(together(prompt, apiKey))
  {
    if llm.Some? then Ok(Strip(chat(llm.value, apiKey, prompt)))
    else if client then Ok(together(prompt, apiKey))
    else Err(ValueError(UnsupportedModel))
  }

  class TextToTextProcessor {
    var model: string
    var apiKey: string
    var prompt: Option<string>
    /** `self.llm`: the OpenAI model it was built for, when set. */
    var llm: Option<string>
    /** Whether `self.client` is set. */
    var client: bool

    /** Exactly one of the two attributes is set. */
    predicate Valid()
      reads this
    {
      llm.Some? != client
    }

    /** The attribute assignments of `__init__`, including those made before it
        raises for an unsupported model. */
    constructor Init(model: string, apiKey: string, prompt: Option<string>)
      ensures this.model == model && this.apiKey == apiKey && this.prompt == prompt
      ensures llm == (if model in OpenAiModels then Some(model) else None)
      ensures client == (model == LlamaModel)
    {
      this.model := model;
      this.apiKey := apiKey;
      this.prompt := prompt;
      llm := if model in OpenAiModels then Some(model) else None;
      client := model == LlamaModel;
    }

    /** `TextToTextProcessor(model, api_key, prompt)`: the new processor, or
        ValueError for an unsupported model. */
    static method Create(model: string, apiKey: string, prompt: Option<string>)
      returns (r: Result<TextToTextProcessor>)
      ensures r.Ok? <==> model in OpenAiModels || model == LlamaModel
      ensures r.Err? ==> r.error == ValueError(UnsupportedModel)
      ensures r.Ok? ==> fresh(r.value) && r.value.Valid()
                        && r.value.model == model && r.value.apiKey == apiKey && r.value.prompt == prompt
                        && r.value.llm == (if model in OpenAiModels then Some(model) else None)
                        && r.value.client == (model == LlamaModel)
    {
      var p := new TextToTextProcessor.Init(model, apiKey, prompt);
      if model in OpenAiModels || model == LlamaModel {
        r := Ok(p);
      } else {
        r := Err(ValueError(UnsupportedModel));
      }
    }

    /** `process`: store the prompt, then answer with the attached model. */
    method Process(prompt: string, chat: (string, string, string) -> string,
                   together: (string, string) -> string) returns (r: Result<string>)
      modifies this
      ensures this.prompt == Some(prompt)
      ensures model == old(model) && apiKey == old(apiKey) && llm == old(llm) && client == old(client)
      ensures r == ProcessOutcome(llm, client, apiKey, prompt, chat, together)
    {
      this.prompt := Some(prompt);
      r := ProcessOutcome(llm, client, apiKey, this.prompt.value, chat, together);
    }

    /** `concat`: a fresh processor for `nextModel` with this one's key runs
        `nextPrompt`; this processor is left as it is. */
    method Concat(nextModel: string, nextPrompt: string, chat: (string, string, string) -> string,
                  together: (string, string) -> string) returns (r: Result<string>)
      ensures r == ConcatOutcome(nextModel, apiKey, nextPrompt, chat, together)
    {
      var next := Create(nextModel, apiKey, Some(nextPrompt));
      match next
      case Err(e) => r := Err(e);
      case Ok(processor) => r := processor.Process(nextPrompt, chat, together);
    }
  }

  /** What `concat` answers: ValueError for an unsupported next model, else the
      next model's answer with the same key. */
  function ConcatOutcome(nextModel: string, apiKey: string, nextPrompt: string,
                         chat: (string, string, string) -> string,
                         together: (string, string) -> string): (r: Result<string>)
    ensures nextModel in OpenAiModels ==> r == Ok(Strip(chat(nextModel, apiKey, nextPrompt)))
    ensures nextModel == LlamaModel ==> r == Ok(together(nextPrompt, apiKey))
    ensures nextModel !in OpenAiModels && nextModel != LlamaModel ==> r == Err(ValueError(UnsupportedModel))
  {
    if nextModel in OpenAiModels || nextModel == LlamaModel then
      ProcessOutcome(if nextModel in OpenAiModels then Some(nextModel) else None, nextModel == LlamaModel,
                     apiKey, nextPrompt, chat, together)
    else Err(ValueError(UnsupportedModel))
  }

  /** On a valid processor the final ValueError of `process` cannot happen. */
  lemma ValidProcessSucceeds(llm: Option<string>, client: bool, apiKey: string, prompt: string,
                             chat: (string, string, string) -> string, together: (string, string) -> string)
    requires llm.Some? != client
    ensures ProcessOutcome(llm, client, apiKey, prompt, chat, together).Ok?
  {
  }

  /** `text_to_text`: the factory is the constructor. */
  method MakeTextToText(model: string, apiKey: string, prompt: Option<string> := None)
    returns (r: Result<TextToTextProcessor>)
    ensures r.Ok? <==> model in OpenAiModels || model == LlamaModel
    ensures r.Ok? ==> fresh(r.value) && r.value.Valid() && r.value.model == model && r.value.prompt == prompt
  {
    r := TextToTextProcessor.Create(model, apiKey, prompt);
  }
}
