/** The speech-to-text client `STTTools` of audiotools/stt.py: the constructor
    publishes the API key in the process environment, and `submit_request`
    validates the language and the task before submitting a Wizper job to FAL.
    The language table and the FAL call are parameters; the FAL call may fail. */
module Stt {
  import opened Wrappers
  import opened PyValue

  const FalKeyVariable: string := "FAL_KEY"
  const WizperEndpoint: string := "fal-ai/wizper"
  const DefaultTask: string := "transcribe"
  const Tasks: set<string> := {"transcribe", "translate"}

  /** The process environment `os.environ`. */
  class Environment {
    var vars: map<string, string>

    constructor (vars: map<string, string>)
      ensures this.vars == vars
    {
      this.vars := vars;
    }
  }

  /** A FAL job: the endpoint and its arguments. */
  datatype Submission = Submission(endpoint: string, arguments: map<string, Value>)

  /** The client; it keeps no state of its own, all it does at construction is
      write the key into the environment. */
  class SttTools {
    constructor (apiKey: string, env: Environment)
      modifies env
      ensures env.vars == old(env.vars)[FalKeyVariable := apiKey]
    {
      env.vars := env.vars[FalKeyVariable := apiKey];
    }

    /** The job `submit_request` sends, or the ValueError it raises. */
    static function SubmitRequest(languageCodes: map<string, Value>, audioUrl: string,
                           selectedLanguage: string, task: string := DefaultTask): (r: Result<Submission>)
      ensures r.Ok? <==> selectedLanguage in languageCodes && Truthy(languageCodes[selectedLanguage])
                         && task in Tasks
      ensures !(selectedLanguage in languageCodes && Truthy(languageCodes[selectedLanguage])) ==>
                r == Err(ValueError("Invalid language selected: " + selectedLanguage))
      ensures selectedLanguage in languageCodes && Truthy(languageCodes[selectedLanguage]) && task !in Tasks ==>
                r == Err(ValueError("Invalid task selected: " + task))
      ensures r.Ok? ==> r.value.endpoint == WizperEndpoint
                        && r.value.arguments.Keys == {"audio_url", "task", "language"}
                        && r.value.arguments["audio_url"] == Str(audioUrl)
                        && r.value.arguments["task"] == Str(task)
                        && r.value.arguments["language"] == languageCodes[selectedLanguage]
    {
      var languageCode := if selectedLanguage in languageCodes then languageCodes[selectedLanguage] else Null;
      if !Truthy(languageCode) then Err(ValueError("Invalid language selected: " + selectedLanguage))
      else if task !in Tasks then Err(ValueError("Invalid task selected: " + task))
      else Ok(Submission(WizperEndpoint, map["audio_url" := Str(audioUrl), "task" := Str(task),
                                             "language" := languageCode]))
    }
  }

  /** The facade `stt`: construct the client (writing the key), then submit; the
      FAL call (the submission and `handler.get()`) is `fal`, applied only to a
      validated job, and whatever it raises is raised to the caller. */
  method RunStt(env: Environment, apiKey: string, languageCodes: map<string, Value>,
                fal: Submission -> Result<Value>, audioUrl: string, selectedLanguage: string,
                task: string := DefaultTask)
    returns (r: Result<Value>, submitted: Option<Submission>)
    modifies env
    ensures env.vars == old(env.vars)[FalKeyVariable := apiKey]
    ensures var job := SttTools.SubmitRequest(languageCodes, audioUrl, selectedLanguage, task);
            match job
            case Ok(sub) => submitted == Some(sub) && r == fal(sub)
            case Err(e) => submitted == None && r == Err(e)
    ensures r.Err? && submitted.None? ==> r.error.ValueError?
  {
    var toolkit := new SttTools(apiKey, env);
    var job := SttTools.SubmitRequest(languageCodes, audioUrl, selectedLanguage, task);
    if job.Ok? {
      r, submitted := fal(job.value), Some(job.value);
    } else {
      r, submitted := Err(job.error), None;
    }
  }

  /** The default task: leaving it out is asking for a transcription, so a valid
      language alone is enough. */
  lemma DefaultIsTranscribe(languageCodes: map<string, Value>, audioUrl: string, selectedLanguage: string)
    ensures SttTools.SubmitRequest(languageCodes, audioUrl, selectedLanguage)
            == SttTools.SubmitRequest(languageCodes, audioUrl, selectedLanguage, "transcribe")
    ensures selectedLanguage in languageCodes && Truthy(languageCodes[selectedLanguage]) ==>
              SttTools.SubmitRequest(languageCodes, audioUrl, selectedLanguage).Ok?
  {
  }
}
