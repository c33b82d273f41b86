/** `TextToText` of chat/__init__.py: the model name selects a wrapper from
    `MODEL_MAP`; `concat` runs the instance's own model on its stored prompt,
    then a new instance of the next model on the given prompt. The wrappers'
    answers come from `answer`; the model records every call made. */
module ChatModelMap {
  import opened Wrappers

  datatype ModelFn = Gpt35 | Gpt4oMini | Llama3

  /** `MODEL_MAP`. */
  const ModelMap: map<string, ModelFn> := map["gpt_3_5" := Gpt35, "gpt_4omini" := Gpt4oMini, "llama3" := Llama3]

  /** One wrapper call `fn(prompt, api_key=..., stream=...)`; the prompt may be None. */
  datatype ModelCall = ModelCall(fn: ModelFn, prompt: Option<string>, apiKey: Option<string>, stream: bool)

  datatype TextToText = TextToText(model: string, apiKey: Option<string>, prompt: Option<string>, stream: bool)
  {
    /** The call `process` makes: KeyError for a model outside `MODEL_MAP`;
        otherwise the instance's key and stream flag are forwarded as they are. */
    function ProcessCall(p: Option<string>): (r: Result<ModelCall>)
      ensures r.Ok? <==> model in {"gpt_3_5", "gpt_4omini", "llama3"}
      ensures r.Err? ==> r.error == KeyError(model)
      ensures r.Ok? ==> r.value == ModelCall(ModelMap[model], p, apiKey, stream)
    {
      if model in ModelMap then Ok(ModelCall(ModelMap[model], p, apiKey, stream)) else Err(KeyError(model))
    }

    /** `process`: the answer of the selected wrapper, and the calls made. */
    function Process(p: Option<string>, answer: ModelCall -> string): (r: (Result<string>, seq<ModelCall>))
      ensures r.0.Ok? <==> ProcessCall(p).Ok?
      ensures r.0.Ok? ==> r.0.value == answer(ProcessCall(p).value) && r.1 == [ProcessCall(p).value]
      ensures r.0.Err? ==> r.0.error == KeyError(model) && r.1 == []
    {
      match ProcessCall(p)
      case Ok(call) => (Ok(answer(call)), [call])
      case Err(e) => (Err(e), [])
    }

    /** `concat`: the first output becomes the prompt of the next instance, which
        then processes the argument prompt. */
    function Concat(nextModel: string, p: string, answer: ModelCall -> string): (r: (Result<string>, seq<ModelCall>))
    {
      var (first, calls1) := Process(this.prompt, answer);
      match first
      case Err(e) => (Err(e), calls1)
      case Ok(firstOutput) =>
        var next := TextToText(nextModel, apiKey, Some(firstOutput), stream);
        var (result, calls2) := next.Process(Some(p), answer);
        (result, calls1 + calls2)
    }
  }

  /** `text_to_text`: a new instance; nothing is called. */
  function MakeTextToText(model: string, apiKey: Option<string> := None, prompt: Option<string> := None,
                          stream: bool := false): (t: TextToText)
    ensures t.model == model && t.apiKey == apiKey && t.prompt == prompt && t.stream == stream
  {
    TextToText(model, apiKey, prompt, stream)
  }

  /** With both models known, `concat` makes exactly two calls: the instance's
      model on its stored prompt, then the next model on the argument, and the
      result is the second answer. */
  lemma ConcatCalls(t: TextToText, nextModel: string, p: string, answer: ModelCall -> string)
    requires t.model in ModelMap && nextModel in ModelMap
    ensures var (r, calls) := t.Concat(nextModel, p, answer);
            calls == [ModelCall(ModelMap[t.model], t.prompt, t.apiKey, t.stream),
                      ModelCall(ModelMap[nextModel], Some(p), t.apiKey, t.stream)]
            && r == Ok(answer(calls[1]))
  {
  }

  /** The returned value does not depend on the stored prompt, nor on the first
      model (as long as it is known): the first output is only stored. */
  lemma ConcatResultIgnoresFirst(t1: TextToText, t2: TextToText, nextModel: string, p: string,
                                 answer: ModelCall -> string)
    requires t1.model in ModelMap && t2.model in ModelMap
    requires t1.apiKey == t2.apiKey && t1.stream == t2.stream
    ensures t1.Concat(nextModel, p, answer).0 == t2.Concat(nextModel, p, answer).0
  {
  }

  /** An unknown instance model fails before anything is called; an unknown next
      model fails after the first call. */
  lemma ConcatFailures(t: TextToText, nextModel: string, p: string, answer: ModelCall -> string)
    ensures t.model !in ModelMap ==> t.Concat(nextModel, p, answer) == (Err(KeyError(t.model)), [])
    ensures t.model in ModelMap && nextModel !in ModelMap ==>
              t.Concat(nextModel, p, answer).0 == Err(KeyError(nextModel))
              && |t.Concat(nextModel, p, answer).1| == 1
  {
  }
}
