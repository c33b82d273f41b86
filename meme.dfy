/** The meme image generator `GenerateImage` of memelora/meme.py: a fixed
    table of characters, each with a FAL model endpoint and LoRA weights; the
    user prompt is put into a template, rewritten by the LLM, and the rewrite is
    sent either to the LoRA generator (when the character has weights) or to
    flux. The LLM and the keys from the configuration are parameters; the image
    requests are values the model returns. */
module Meme {
  import opened Wrappers

  /** One entry of `CHARACTER_CONFIG`. */
  datatype CharacterConfig = CharacterConfig(modelEndpoint: string, loraPath: Option<string>)

  const LoraEndpoint: string := "fal-ai/flux-lora"
  const DefaultCharacter: string := "default"
  const Placeholder: string := "{user_prompt}"

  /** `CHARACTER_CONFIG`, entry by entry. */
  const CharacterConfigs: map<string, CharacterConfig> := map[
    "ginnan" := CharacterConfig(LoraEndpoint, Some("https://storage.googleapis.com/fal-flux-lora/80dfafdbca9f4bbc868cbeac916bc1d2_pytorch_lora_weights.safetensors")),
    "neiro_test_dev" := CharacterConfig(LoraEndpoint, Some("https://storage.googleapis.com/fal-flux-lora/3f298811f2714a6e8db107c7b9850354_pytorch_lora_weights.safetensors")),
    "neiro_bot" := CharacterConfig(LoraEndpoint, Some("https://storage.googleapis.com/fal-flux-lora/51fb01637828495bab1c56a6f0d04662_pytorch_lora_weights.safetensors")),
    "TBull_bot" := CharacterConfig(LoraEndpoint, Some("https://storage.googleapis.com/fal-flux-lora/32600fc5a2c1409cbb9293327eab91ed_pytorch_lora_weights.safetensors")),
    "TBull_botV2" := CharacterConfig(LoraEndpoint, Some("https://storage.googleapis.com/fal-flux-lora/51fb01637828495bab1c56a6f0d04662_pytorch_lora_weights.safetensors")),
    "NeiroV2" := CharacterConfig(LoraEndpoint, Some("https://storage.googleapis.com/fal-flux-lora/51fb01637828495bab1c56a6f0d04662_pytorch_lora_weights.safetensors")),
    "cate" := CharacterConfig(LoraEndpoint, Some("https://storage.googleapis.com/fal-flux-lora/d85d61819687421187d5d1c2140f55db_pytorch_lora_weights.safetensors")),
    "roost" := CharacterConfig(LoraEndpoint, Some("https://storage.googleapis.com/fal-flux-lora/b569e12a0c6f48bfa6ffb64c8891371c_pytorch_lora_weights.safetensors")),
    "mumu" := CharacterConfig(LoraEndpoint, Some("https://storage.googleapis.com/fal-flux-lora/d85d61819687421187d5d1c2140f55db_pytorch_lora_weights.safetensors")),
    "tora" := CharacterConfig(LoraEndpoint, Some("https://storage.googleapis.com/fal-flux-lora/883acc1c260549b9a285461b55e7c150_pytorch_lora_weights.safetensors")),
    "simons_cat" := CharacterConfig(LoraEndpoint, Some("https://storage.googleapis.com/fal-flux-lora/d6ffe2c730ac4a8fa5b0d5cad2d71997_pytorch_lora_weights.safetensors")),
    "hoops" := CharacterConfig(LoraEndpoint, Some("https://storage.googleapis.com/fal-flux-lora/4cf85b1ac3674ddfb3a1d1bd579747a0_pytorch_lora_weights.safetensors")),
    "brett" := CharacterConfig(LoraEndpoint, Some("https://storage.googleapis.com/fal-flux-lora/ff25b9bc83c9440b87ae06d256c65904_pytorch_lora_weights.safetensors")),
    "klaus" := CharacterConfig(LoraEndpoint, Some("https://storage.googleapis.com/fal-flux-lora/93bdc35b9e4e408d92d242d09d27331c_pytorch_lora_weights.safetensors")),
    "klaus_V2" := CharacterConfig(LoraEndpoint, Some("https://storage.googleapis.com/fal-flux-lora/93bdc35b9e4e408d92d242d09d27331c_pytorch_lora_weights.safetensors")),
    "buttman" := CharacterConfig(LoraEndpoint, Some("https://storage.googleapis.com/fal-flux-lora/078201ae10f24b88b8792dca0e15d9a5_pytorch_lora_weights.safetensors")),
    "brian" := CharacterConfig(LoraEndpoint, Some("https://storage.googleapis.com/fal-flux-lora/461fa7dad5e44c609ec6ddc97c04a24b_pytorch_lora_weights.safetensors")),
    "mad" := CharacterConfig(LoraEndpoint, Some("https://storage.googleapis.com/fal-flux-lora/7e601db519b14be99d3087d4c004cfd4_pytorch_lora_weights.safetensors")),
    "fwog" := CharacterConfig(LoraEndpoint, Some("https://storage.googleapis.com/fal-flux-lora/eb3a7fb859244df9a7670b0a5823b4b5_pytorch_lora_weights.safetensors")),
    "bork" := CharacterConfig(LoraEndpoint, Some("https://storage.googleapis.com/fal-flux-lora/5ec7b1ef54854457bc746c87ec52a4ca_pytorch_lora_weights.safetensors")),
    "stabby_duck" := CharacterConfig(LoraEndpoint, Some("https://storage.googleapis.com/fal-flux-lora/43fddb1c8d274c00b23715a3537a7dd1_pytorch_lora_weights.safetensors")),
    DefaultCharacter := CharacterConfig("correct-model-endpoint", None)
  ]

  /** The keys the generator reads from the configuration. */
  datatype Keys = Keys(openAiKey: string, falKey: string)

  /** The image request `_request_image_url` makes: the LoRA generator with the
      character's weights and endpoint, or flux with the prompt alone. */
  datatype ImageRequest =
    | LoraRequest(falKey: string, loraPath: string, prompt: string, modelEndpoint: string)
    | FluxRequest(falKey: string, prompt: string)

  /** `CHARACTER_CONFIG.get(name, CHARACTER_CONFIG["default"])`. */
  function ConfigFor(characterName: string): (c: CharacterConfig)
    ensures characterName in CharacterConfigs ==> c == CharacterConfigs[characterName]
    ensures characterName !in CharacterConfigs ==> c == CharacterConfig("correct-model-endpoint", None)
  {
    if characterName in CharacterConfigs then CharacterConfigs[characterName]
    else CharacterConfigs[DefaultCharacter]
  }

  /** Every character but the default has LoRA weights (a non-empty path, so a
      truthy one) on the flux-lora endpoint; the default has none. */
  lemma CharactersHaveWeights()
    ensures forall name | name in CharacterConfigs && name != DefaultCharacter ::
              CharacterConfigs[name].modelEndpoint == LoraEndpoint
              && CharacterConfigs[name].loraPath.Some? && CharacterConfigs[name].loraPath.value != ""
    ensures CharacterConfigs[DefaultCharacter].loraPath == None
  {
  }

  // ----- str.format(user_prompt=...) -----

  predicate NoBraces(s: string) {
    forall i :: 0 <= i < |s| ==> s[i] != '{' && s[i] != '}'
  }

  /** The first brace, '{' or '}', at or after `from`. */
  function NextBrace(t: string, from: nat): (r: Option<nat>)
    ensures r.Some? ==> from <= r.value < |t| && (t[r.value] == '{' || t[r.value] == '}')
                        && forall j :: from <= j < r.value ==> t[j] != '{' && t[j] != '}'
    ensures r.None? ==> forall j :: from <= j < |t| ==> t[j] != '{' && t[j] != '}'
    decreases |t| - from
  {
    if from >= |t| then None
    else if t[from] == '{' || t[from] == '}' then Some(from)
    else NextBrace(t, from + 1)
  }

  const AutoIndexError: string := "Replacement index 0 out of range for positional args tuple"

  /** `template.format(user_prompt=value)`: "{{" and "}}" are literal braces,
      "{user_prompt}" is replaced by the value. A field is read up to the next
      brace: a '{' there, or none at all, is a ValueError; an empty field asks
      for positional argument 0, which is an IndexError; any other field raises
      KeyError with its name. A single '{' at the end or an unpaired '}' is a
      ValueError. The first error from the left is the one raised. */
  function Format(t: string, value: string): (r: Result<string>)
    ensures r.Err? ==> r.error.ValueError? || r.error.KeyError? || r.error.IndexError?
    decreases |t|
  {
    if t == [] then Ok([])
    else if t[0] == '{' then
      if |t| >= 2 && t[1] == '{' then
        var rest :- Format(t[2..], value); Ok(['{'] + rest)
      else if |t| == 1 then Err(ValueError("Single '{' encountered in format string"))
      else match NextBrace(t, 1)
        case None => Err(ValueError("expected '}' before end of string"))
        case Some(k) =>
          if t[k] == '{' then Err(ValueError("unexpected '{' in field name"))
          else if t[1..k] == "user_prompt" then var rest :- Format(t[k + 1..], value); Ok(value + rest)
          else if k == 1 then Err(IndexError(AutoIndexError))
          else Err(KeyError(t[1..k]))
    else if t[0] == '}' then
      if |t| >= 2 && t[1] == '}' then var rest :- Format(t[2..], value); Ok(['}'] + rest)
      else Err(ValueError("Single '}' encountered in format string"))
    else
      var rest :- Format(t[1..], value);
      Ok([t[0]] + rest)
  }

  /** A '{' inside a field is rejected before the field is looked up. */
  lemma NestedBraceRejected(a: string, b: string, value: string)
    requires NoBraces(a)
    ensures Format(a + "{x{" + b, value) == Err(ValueError("unexpected '{' in field name"))
  {
    var t := "{x{" + b;
    assert t[0] == '{' && t[1] == 'x' && t[2] == '{';
    assert NextBrace(t, 1) == Some(2);
    FormatLiteralPrefix(a, t, value);
    assert a + "{x{" + b == a + t;
  }

  /** Text put in front of a formatting result; an error is passed on as it is. */
  function Prefixed(a: string, r: Result<string>): (p: Result<string>)
    ensures p.Ok? <==> r.Ok?
    ensures r.Ok? ==> p.value == a + r.value
    ensures r.Err? ==> p == r
  {
    match r
    case Ok(x) => Ok(a + x)
    case Err(e) => Err(e)
  }

  /** One character other than a brace is copied, and errors after it pass through. */
  lemma {:induction false} FormatLiteralStep(c: char, u: string, value: string)
    requires c != '{' && c != '}'
    ensures Format([c] + u, value) == Prefixed([c], Format(u, value))
  {
    assert ([c] + u)[0] == c;
    assert ([c] + u)[1..] == u;
  }

  /** Text without braces passes through formatting unchanged. */
  lemma {:induction false} FormatLiteralPrefix(a: string, rest: string, value: string)
    requires NoBraces(a)
    ensures Format(a + rest, value) == Prefixed(a, Format(rest, value))
    decreases |a|
  {
    if a == [] {
      assert a + rest == rest;
      var r := Format(rest, value);
      assert r.Ok? ==> a + r.value == r.value;
    } else {
      var c, tail := a[0], a[1..];
      assert a + rest == [c] + (tail + rest);
      assert c != '{' && c != '}';
      assert NoBraces(tail) by {
        forall j | 0 <= j < |tail| ensures tail[j] != '{' && tail[j] != '}' {
          assert tail[j] == a[j + 1];
        }
      }
      FormatLiteralStep(c, tail + rest, value);
      FormatLiteralPrefix(tail, rest, value);
      var r := Format(rest, value);
      assert r.Ok? ==> [c] + (tail + r.value) == a + r.value;
    }
  }

  /** A template without braces formats to itself. */
  lemma {:induction false} FormatBraceFree(t: string, value: string)
    requires NoBraces(t)
    ensures Format(t, value) == Ok(t)
  {
    FormatLiteralPrefix(t, [], value);
    assert t + [] == t;
    assert Format([], value) == Ok([]);
  }

  /** The placeholder is replaced by the value, and formatting goes on after it. */
  lemma {:induction false} FormatPlaceholderStep(u: string, value: string)
    ensures Format(Placeholder + u, value) == Prefixed(value, Format(u, value))
  {
    var t := Placeholder + u;
    assert t[0] == '{' && t[1] == 'u';
    assert t[12] == '}';
    assert forall j :: 1 <= j < 12 ==> t[j] != '{' && t[j] != '}';
    assert NextBrace(t, 1) == Some(12);
    assert t[1..12] == "user_prompt";
    assert t[13..] == u;
  }

  /** A template with one placeholder between brace-free texts yields those
      texts around the user prompt. */
  lemma {:induction false} FormatSubstitutes(a: string, b: string, value: string)
    requires NoBraces(a) && NoBraces(b)
    ensures Format(a + Placeholder + b, value) == Ok(a + value + b)
  {
    FormatLiteralPrefix(b, [], value);
    assert b + [] == b;
    assert Format([], value) == Ok([]);
    FormatPlaceholderStep(b, value);
    FormatLiteralPrefix(a, Placeholder + b, value);
    assert a + Placeholder + b == a + (Placeholder + b);
    assert a + (value + b) == a + value + b;
  }

  // ----- GenerateImage -----

  /** `_generate_prompt`: the LLM (gpt-4o-mini with the OpenAI key) applied to the
      formatted template; a formatting error comes first, and the LLM call may
      itself fail. */
  function GeneratePrompt(keys: Keys, llm: (string, string) -> Result<string>, userPrompt: string,
                          promptTemplate: string): (r: Result<string>)
    ensures Format(promptTemplate, userPrompt).Err? ==> r == Err(Format(promptTemplate, userPrompt).error)
    ensures Format(promptTemplate, userPrompt).Ok? ==> r == llm(Format(promptTemplate, userPrompt).value, keys.openAiKey)
  {
    var llamaPrompt :- Format(promptTemplate, userPrompt);
    llm(llamaPrompt, keys.openAiKey)
  }

  /** `_request_image_url`: LoRA when the path is truthy, flux otherwise. */
  function RequestImage(keys: Keys, prompt: string, modelEndpoint: string,
                        loraPath: Option<string>): (r: ImageRequest)
    ensures r.LoraRequest? <==> loraPath.Some? && loraPath.value != ""
    ensures r.LoraRequest? ==> r == LoraRequest(keys.falKey, loraPath.value, prompt, modelEndpoint)
    ensures r.FluxRequest? ==> r == FluxRequest(keys.falKey, prompt)
  {
    match loraPath
    case Some(p) => if p != "" then LoraRequest(keys.falKey, p, prompt, modelEndpoint)
                    else FluxRequest(keys.falKey, prompt)
    case None => FluxRequest(keys.falKey, prompt)
  }

  /** `generate_for_character`: look the character up, rewrite the prompt, and
      request the image with the rewrite and the character's settings. */
  function GenerateForCharacter(keys: Keys, llm: (string, string) -> Result<string>, characterName: string,
                                userPrompt: string, promptTemplate: string): (r: Result<ImageRequest>)
    ensures r.Ok? <==> GeneratePrompt(keys, llm, userPrompt, promptTemplate).Ok?
    ensures r.Err? ==> r.error == GeneratePrompt(keys, llm, userPrompt, promptTemplate).error
    ensures r.Ok? ==> r.value == RequestImage(keys, GeneratePrompt(keys, llm, userPrompt, promptTemplate).value,
                                              ConfigFor(characterName).modelEndpoint,
                                              ConfigFor(characterName).loraPath)
  {
    var config := ConfigFor(characterName);
    var prompt :- GeneratePrompt(keys, llm, userPrompt, promptTemplate);
    Ok(RequestImage(keys, prompt, config.modelEndpoint, config.loraPath))
  }

  /** A named character gets the LoRA generator with its own weights and
      endpoint; any other name gets flux. */
  lemma CharacterRouting(keys: Keys, llm: (string, string) -> Result<string>, characterName: string,
                         userPrompt: string, promptTemplate: string)
    requires GeneratePrompt(keys, llm, userPrompt, promptTemplate).Ok?
    ensures var r := GenerateForCharacter(keys, llm, characterName, userPrompt, promptTemplate).value;
            var prompt := GeneratePrompt(keys, llm, userPrompt, promptTemplate).value;
            if characterName in CharacterConfigs && characterName != DefaultCharacter then
              r == LoraRequest(keys.falKey, CharacterConfigs[characterName].loraPath.value, prompt, LoraEndpoint)
            else
              r == FluxRequest(keys.falKey, prompt)
  {
    CharactersHaveWeights();
  }
}
