/** `TextToText` of chat/text_to_text.py: a front-end that sends a prompt to
    gpt-3.5, gpt-4o-mini or Llama 3 (through Together) according to its model
    name. The model answers are external; the model says which call is made,
    with which key. */
module ChatTextToText {
  import opened Wrappers

  datatype Backend = Gpt35 | Gpt4oMini | Llama3

  /** One call of a model wrapper: the wrapper, the prompt and the key. */
  datatype ModelCall = ModelCall(backend: Backend, prompt: string, apiKey: string)

  const OpenAiModels: set<string> := {"gpt_3_5", "gpt_4o_mini"}
  const TogetherModel: string := "llama3"
  const MissingTogetherKey: string := "API key for Together model must be provided."

  function Unsupported(model: string): Error {
    ValueError("Model " + model + " is not supported.")
  }

  /** The fields set once by the constructor; no method changes them. */
  datatype TextToText = TextToText(model: string, apiKey: string, apiKeyForModel: Option<string>)
  {
    /** `_call_openai_api`: chooses the wrapper by the instance's own model,
        whatever the caller dispatched on. */
    function CallOpenAiApi(prompt: string): (r: Result<ModelCall>)
      ensures r.Ok? <==> model in OpenAiModels
      ensures model == "gpt_3_5" ==> r == Ok(ModelCall(Gpt35, prompt, apiKey))
      ensures model == "gpt_4o_mini" ==> r == Ok(ModelCall(Gpt4oMini, prompt, apiKey))
      ensures r.Err? ==> r.error == Unsupported(model)
    {
      if model == "gpt_3_5" then Ok(ModelCall(Gpt35, prompt, apiKey))
      else if model == "gpt_4o_mini" then Ok(ModelCall(Gpt4oMini, prompt, apiKey))
      else Err(Unsupported(model))
    }

    /** `_call_together_api`: needs a truthy `api_key_for_model`, and uses it
        rather than `api_key`. */
    function CallTogetherApi(prompt: string): (r: Result<ModelCall>)
      ensures r.Ok? <==> apiKeyForModel.Some? && apiKeyForModel.value != ""
      ensures r.Ok? ==> r.value == ModelCall(Llama3, prompt, apiKeyForModel.value)
      ensures r.Err? ==> r.error == ValueError(MissingTogetherKey)
    {
      match apiKeyForModel
      case Some(key) => if key != "" then Ok(ModelCall(Llama3, prompt, key)) else Err(ValueError(MissingTogetherKey))
      case None => Err(ValueError(MissingTogetherKey))
    }

    /** `process`: dispatch on the instance's model. */
    function Process(prompt: string): (r: Result<ModelCall>)
      ensures model in OpenAiModels ==> r == CallOpenAiApi(prompt)
      ensures model == TogetherModel ==> r == CallTogetherApi(prompt)
      ensures model !in OpenAiModels && model != TogetherModel ==> r == Err(Unsupported(model))
      ensures r.Ok? ==> r.value.prompt == prompt
    {
      if model in OpenAiModels then CallOpenAiApi(prompt)
      else if model == TogetherModel then CallTogetherApi(prompt)
      else Err(Unsupported(model))
    }

    /** `concat`: dispatch on the argument; the OpenAI branch then re-dispatches
        on the instance's model. */
    function Concat(nextModel: string, prompt: string): (r: Result<ModelCall>)
      ensures nextModel == TogetherModel ==> r == CallTogetherApi(prompt)
      ensures nextModel in OpenAiModels ==> r == CallOpenAiApi(prompt)
      ensures nextModel !in OpenAiModels && nextModel != TogetherModel ==> r == Err(Unsupported(nextModel))
    {
      if nextModel == TogetherModel then CallTogetherApi(prompt)
      else if nextModel in OpenAiModels then CallOpenAiApi(prompt)
      else Err(Unsupported(nextModel))
    }
  }

  /** `concat` on the instance's own model is `process`. */
  lemma ConcatOwnModelIsProcess(t: TextToText, prompt: string)
    ensures t.Concat(t.model, prompt) == t.Process(prompt)
  {
  }

  /** Asking for an OpenAI model from a Llama 3 instance fails: the OpenAI
      branch looks at the instance's model, not the requested one. Asking a
      gpt-3.5 instance for gpt-4o-mini calls gpt-3.5. */
  lemma ConcatRedispatches(t: TextToText, prompt: string)
    ensures t.model == TogetherModel ==> t.Concat("gpt_3_5", prompt) == Err(Unsupported(TogetherModel))
    ensures t.model == "gpt_3_5" ==> t.Concat("gpt_4o_mini", prompt) == Ok(ModelCall(Gpt35, prompt, t.apiKey))
  {
  }

  /** Every call that is made carries the key of its provider: `api_key` for
      OpenAI, `api_key_for_model` for Together. */
  lemma CallKeys(t: TextToText, nextModel: string, prompt: string)
    ensures var r := t.Concat(nextModel, prompt);
            r.Ok? ==> (if r.value.backend == Llama3 then Some(r.value.apiKey) == t.apiKeyForModel
                       else r.value.apiKey == t.apiKey)
  {
  }
}
