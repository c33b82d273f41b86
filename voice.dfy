/** The ElevenLabs client `AudioTools` of audiotools/voice.py: an optional
    emotion rewrite of the text by the LLM, the choice of voice from the
    `Voice` table of the prompts file, and the audio as the concatenation of
    the generated byte chunks. The LLM and the TTS generator are parameters. */
module Voice {
  import opened Wrappers
  import opened PyStr

  const DefaultVoiceName: string := "Rachel"
  const DefaultVoiceId: string := "21m00Tcm4TlvDq8ikWAM"

  /** `VoiceSettings`; the floats are reals here. */
  datatype VoiceSettings = VoiceSettings(stability: real, similarityBoost: real, style: real,
                                         useSpeakerBoost: bool)

  /** What `client.generate` is called with. */
  datatype TtsCall = TtsCall(text: string, voiceId: string, settings: VoiceSettings)

  /** The fields the constructor sets once: the `Voice` table and the
      `modify_text_with_emotion` template of the prompts file. */
  datatype AudioTools = AudioTools(voiceDict: map<string, string>, emotionTemplate: string)
  {
    /** `generate_prompt`: with a truthy emotion, the stripped LLM rewrite of the
        text; otherwise the text itself. `rewrite(template, text, emotion)` is the
        LLM's answer to the filled template. */
    function GeneratePrompt(text: string, emotion: Option<string>,
                            rewrite: (string, string, string) -> string): (r: string)
      ensures emotion.None? || emotion.value == "" ==> r == text
      ensures emotion.Some? && emotion.value != "" ==>
                r == Strip(rewrite(emotionTemplate, text, emotion.value))
    {
      match emotion
      case Some(e) => if e != "" then Strip(rewrite(emotionTemplate, text, e)) else text
      case None => text
    }

    /** `voice_dict.get(voice_name, '21m00Tcm4TlvDq8ikWAM')`. */
    function VoiceId(voiceName: string): (id: string)
      ensures voiceName in voiceDict ==> id == voiceDict[voiceName]
      ensures voiceName !in voiceDict ==> id == DefaultVoiceId
    {
      if voiceName in voiceDict then voiceDict[voiceName] else DefaultVoiceId
    }

    /** The call `generate_tts` makes with the defaults of its signature. */
    function TtsCallFor(text: string, voiceName: string := DefaultVoiceName, stability: real := 0.5,
                        similarityBoost: real := 0.5, style: real := 0.5,
                        useSpeakerBoost: bool := true): (c: TtsCall)
      ensures c.text == text && c.voiceId == VoiceId(voiceName)
      ensures c.settings == VoiceSettings(stability, similarityBoost, style, useSpeakerBoost)
    {
      TtsCall(text, VoiceId(voiceName), VoiceSettings(stability, similarityBoost, style, useSpeakerBoost))
    }
  }

  /** `b''.join(audio_generator)`: the chunks in the order they are produced. */
  function JoinAudio(chunks: seq<seq<Byte>>): (audio: seq<Byte>)
    ensures chunks == [] ==> audio == []
  {
    Flatten(chunks)
  }

  /** Every chunk sits in the audio, whole and in its place: after all chunks
      that precede it and before all chunks that follow it. */
  lemma {:induction false} AudioInOrder(chunks: seq<seq<Byte>>, k: nat)
    requires k < |chunks|
    ensures JoinAudio(chunks) == JoinAudio(chunks[..k]) + chunks[k] + JoinAudio(chunks[k + 1..])
  {
    FlattenSplitAt(chunks, k);
  }

  /** Appending a chunk to the generator's output appends it to the audio. */
  lemma {:induction false} AudioAppend(chunks: seq<seq<Byte>>, chunk: seq<Byte>)
    ensures JoinAudio(chunks + [chunk]) == JoinAudio(chunks) + chunk
  {
    FlattenAppend(chunks, [chunk]);
    assert [chunk][1..] == [];
  }

  /** `generate_audio`: rewrite the text (if an emotion is given), then speak
      the result; `generate` is the ElevenLabs generator. */
  function GenerateAudio(tools: AudioTools, rewrite: (string, string, string) -> string,
                         generate: TtsCall -> seq<seq<Byte>>, text: string,
                         emotion: Option<string> := None, voiceName: string := DefaultVoiceName,
                         stability: real := 0.5, similarityBoost: real := 0.5, style: real := 0.5,
                         useSpeakerBoost: bool := true): (r: (TtsCall, seq<Byte>))
    ensures r.0.text == tools.GeneratePrompt(text, emotion, rewrite)
    ensures r.0.voiceId == tools.VoiceId(voiceName)
    ensures r.0.settings == VoiceSettings(stability, similarityBoost, style, useSpeakerBoost)
    ensures r.1 == JoinAudio(generate(r.0))
  {
    var call := tools.TtsCallFor(tools.GeneratePrompt(text, emotion, rewrite), voiceName, stability,
                                 similarityBoost, style, useSpeakerBoost);
    (call, JoinAudio(generate(call)))
  }

  /** Without an emotion the text reaches the speech engine unchanged; with one,
      what reaches it carries no surrounding whitespace. */
  lemma GenerateAudioText(tools: AudioTools, rewrite: (string, string, string) -> string,
                          generate: TtsCall -> seq<seq<Byte>>, text: string, emotion: Option<string>)
    ensures emotion.None? ==> GenerateAudio(tools, rewrite, generate, text, emotion).0.text == text
    ensures emotion.Some? && emotion.value != "" ==>
              var spoken := GenerateAudio(tools, rewrite, generate, text, emotion).0.text;
              Strip(spoken) == spoken
  {
    if emotion.Some? && emotion.value != "" {
      StripIdempotent(rewrite(tools.emotionTemplate, text, emotion.value));
    }
  }
}
