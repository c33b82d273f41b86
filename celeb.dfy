/** The FakeYou text-to-speech client `FakeYouTTS` of audiotools/celeb.py: log in
    and extract the session token from the `set-cookie` header, send the TTS job
    with that token as a `Cookie: session=<token>` header, poll the job status
    until it completes or fails, and log out. Every HTTP exchange is a request
    value the model builds and a response value it is given; the job-status
    responses are a finite sequence, one per poll. */
module Celeb {
  import opened Wrappers
  import opened PyStr
  import opened PyValue

  /** An HTTP request the client sends: its URL, headers and JSON body (if any). */
  datatype HttpRequest =
    | Post(url: string, headers: map<string, string>, json: Option<Value>)
    | Get(url: string, headers: map<string, string>)

  /** The login response: the decoded JSON body and the `set-cookie` header. */
  datatype LoginResponse = LoginResponse(body: Value, setCookie: Option<string>)

  const LoginUrl: string := "https://api.fakeyou.com/v1/login"
  const TtsUrl: string := "https://api.fakeyou.com/tts/inference"
  const JobUrlPrefix: string := "https://api.fakeyou.com/tts/job/"
  const LogoutUrl: string := "https://api.fakeyou.com/v1/logout"
  const SessionKey: string := "session="

  // ----- The session token: re.search(r"session=([^;]+)", cookie).group(1) -----

  /** The pattern matches at `i`: "session=" followed by at least one non-';'. */
  predicate MatchAt(s: string, i: nat) {
    i + |SessionKey| < |s| && s[i..i + |SessionKey|] == SessionKey && s[i + |SessionKey|] != ';'
  }

  /** The leftmost position at or after `from` where the pattern matches. */
  function FirstMatch(s: string, from: nat): (r: Option<nat>)
    ensures r.Some? ==> from <= r.value && MatchAt(s, r.value)
                        && forall j :: from <= j < r.value ==> !MatchAt(s, j)
    ensures r.None? ==> forall j :: from <= j ==> !MatchAt(s, j)
    decreases |s| - from
  {
    if from + |SessionKey| >= |s| then None
    else if MatchAt(s, from) then Some(from)
    else FirstMatch(s, from + 1)
  }

  /** The greedy `[^;]+` group: the longest prefix of `t` without ';'. */
  function UpToSemicolon(t: string): (r: string)
    ensures |r| <= |t| && r == t[..|r|]
    ensures ';' !in r
    ensures |r| < |t| ==> t[|r|] == ';'
  {
    if t == [] || t[0] == ';' then [] else [t[0]] + UpToSemicolon(t[1..])
  }

  /** The token `authenticate` extracts, or None when the pattern does not match. */
  function SessionToken(cookie: string): (r: Option<string>)
    ensures r.Some? ==> r.value != "" && ';' !in r.value
    ensures r.Some? <==> exists i :: 0 <= i < |cookie| && MatchAt(cookie, i)
  {
    match FirstMatch(cookie, 0)
    case Some(i) => Some(UpToSemicolon(cookie[i + |SessionKey|..]))
    case None => None
  }

  /** A token as the requests send it back: non-empty and without ';'. */
  predicate ValidToken(t: string) {
    t != "" && ';' !in t
  }

  /** The value of the `Cookie` header every request after login carries. */
  function CookieHeader(token: string): string {
    SessionKey + token
  }

  lemma {:induction false} UpToSemicolonOf(t: string, rest: string)
    requires ';' !in t
    requires rest == [] || rest[0] == ';'
    ensures UpToSemicolon(t + rest) == t
  {
    if t != [] {
      assert (t + rest)[1..] == t[1..] + rest;
      UpToSemicolonOf(t[1..], rest);
    } else {
      assert t + rest == rest;
    }
  }

  /** Round trip: the token is recovered from "session=<token>" followed by
      nothing or by further ';'-separated attributes. */
  lemma SessionTokenRoundTrip(t: string, rest: string)
    requires ValidToken(t)
    requires rest == [] || rest[0] == ';'
    ensures SessionToken(SessionKey + t + rest) == Some(t)
  {
    var s := SessionKey + t + rest;
    assert s[0..|SessionKey|] == SessionKey;
    assert s[|SessionKey|] == t[0];
    assert MatchAt(s, 0);
    assert s[|SessionKey|..] == t + rest;
    UpToSemicolonOf(t, rest);
  }

  /** The headers the client builds are read back by the same parser as the token
      they carry. */
  lemma CookieHeaderRoundTrip(t: string)
    requires ValidToken(t)
    ensures SessionToken(CookieHeader(t)) == Some(t)
  {
    SessionTokenRoundTrip(t, []);
    assert SessionKey + t + [] == CookieHeader(t);
  }

  /** The search scans forward to the first position where the pattern matches. */
  lemma {:induction false} FirstMatchReaches(s: string, from: nat, m: nat)
    requires from <= m && MatchAt(s, m)
    requires forall j :: from <= j < m ==> !MatchAt(s, j)
    ensures FirstMatch(s, from) == Some(m)
    decreases m - from
  {
    if from < m {
      FirstMatchReaches(s, from + 1, m);
    }
  }

  /** The search is unanchored: after any prefix that cannot start a match (it has
      no 's'), the token is still found. */
  lemma SessionTokenAfterPrefix(prefix: string, t: string, rest: string)
    requires forall i :: 0 <= i < |prefix| ==> prefix[i] != 's'
    requires ValidToken(t)
    requires rest == [] || rest[0] == ';'
    ensures SessionToken(prefix + SessionKey + t + rest) == Some(t)
  {
    var s := prefix + SessionKey + t + rest;
    var m := |prefix|;
    forall j | 0 <= j < m
      ensures !MatchAt(s, j)
    {
      assert s[j] == prefix[j] != SessionKey[0];
    }
    assert s[m..m + |SessionKey|] == SessionKey;
    assert s[m + |SessionKey|] == t[0];
    FirstMatchReaches(s, 0, m);
    assert s[m + |SessionKey|..] == t + rest;
    UpToSemicolonOf(t, rest);
  }

  /** Being unanchored, the search also matches inside another cookie name that
      ends in "session": the first token found is that cookie's value. */
  lemma SessionInsideOtherCookieName()
    ensures var later := "; " + SessionKey + "tok";
            SessionToken("my" + SessionKey + "abc" + later) == Some("abc")
  {
    SessionTokenAfterPrefix("my", "abc", "; " + SessionKey + "tok");
  }

  // ----- Login -----

  function LoginRequest(usernameOrEmail: string, password: string): HttpRequest {
    Post(LoginUrl, map["Content-Type" := "application/json"],
         Some(Dict(map["username_or_email" := Str(usernameOrEmail), "password" := Str(password)])))
  }

  /** `authenticate`: the success flag is tested first, then the cookie header,
      then the token is extracted (a cookie without a match makes `.group` fail). */
  function Authenticate(response: LoginResponse): (r: Result<string>)
    ensures r.Ok? ==> ValidToken(r.value) && response.setCookie.Some?
                      && SessionToken(response.setCookie.value) == Some(r.value)
    ensures DictGet(response.body, "success").Ok? && !Truthy(DictGet(response.body, "success").value)
            ==> r == Err(Raised("Authentication failed."))
    ensures DictGet(response.body, "success").Ok? && Truthy(DictGet(response.body, "success").value)
            && (response.setCookie.None? || response.setCookie.value == "")
            ==> r == Err(Raised("Failed to retrieve cookie."))
    ensures r.Ok? <==> response.body.Dict? && Truthy(DictGet(response.body, "success").value)
                       && response.setCookie.Some? && SessionToken(response.setCookie.value).Some?
  {
    var success :- DictGet(response.body, "success");
    if !Truthy(success) then Err(Raised("Authentication failed."))
    else
      match response.setCookie
      case None => Err(Raised("Failed to retrieve cookie."))
      case Some(cookie) =>
        if cookie == "" then Err(Raised("Failed to retrieve cookie."))
        else
          match SessionToken(cookie)
          case None => Err(AttributeError("'NoneType' object has no attribute 'group'"))
          case Some(token) => Ok(token)
  }

  // ----- The TTS job -----

  function SessionHeaders(token: string, first: string, firstValue: string): map<string, string> {
    map[first := firstValue, "Cookie" := CookieHeader(token)]
  }

  function TtsRequest(token: string, text: string, modelToken: string, idempotencyToken: string): HttpRequest {
    Post(TtsUrl, SessionHeaders(token, "Content-Type", "application/json"),
         Some(Dict(map["tts_model_token" := Str(modelToken),
                       "uuid_idempotency_token" := Str(idempotencyToken),
                       "inference_text" := Str(text)])))
  }

  /** `make_tts_request`'s decision: the job token when the success flag is truthy,
      else "TTS request failed.". */
  function TtsOutcome(response: Value): (r: Result<Value>)
    ensures response.Dict? && Truthy(DictGet(response, "success").value)
            ==> r == Subscript(response, "inference_job_token")
    ensures response.Dict? && !Truthy(DictGet(response, "success").value)
            ==> r == Err(Raised("TTS request failed."))
    ensures r.Ok? <==> response.Dict? && Truthy(DictGet(response, "success").value)
                       && "inference_job_token" in response.fields
  {
    var success :- DictGet(response, "success");
    if Truthy(success) then Subscript(response, "inference_job_token")
    else Err(Raised("TTS request failed."))
  }

  // ----- Polling -----

  /** How `f"{job_token}"` renders the job token in the status URL. */
  function Render(v: Value): string {
    match v
    case Str(s) => s
    case Int(i) => IntToDecimal(i)
    case Null => "None"
    case Bool(b) => if b then "True" else "False"
    case List(_) => "<list>"
    case Dict(_) => "<dict>"
  }

  function StatusRequest(token: string, jobToken: Value): HttpRequest {
    Get(JobUrlPrefix + Render(jobToken), SessionHeaders(token, "Accept", "application/json"))
  }

  /** One poll's decision on the response body. */
  datatype Step = Continue | Stop(result: Result<Value>)

  /** A poll sequence's outcome: the loop returned or raised, or it is still
      polling when the given responses run out. */
  datatype PollOutcome = Finished(result: Result<Value>) | StillPolling

  const CompleteSuccess: string := "complete_success"
  const Failed: string := "failed"

  function StepOf(body: Value): (s: Step)
    ensures s == Stop(Err(Raised("TTS job failed.")))
            <== Subscript(body, "state").Ok?
                && Subscript(Subscript(body, "state").value, "status") == Ok(Str(Failed))
    ensures s.Stop? && s.result.Ok? <==>
            Subscript(body, "state").Ok?
            && Subscript(Subscript(body, "state").value, "status") == Ok(Str(CompleteSuccess))
            && Subscript(Subscript(body, "state").value, "maybe_public_bucket_wav_audio_path").Ok?
    ensures s.Continue? <==>
            Subscript(body, "state").Ok? && Subscript(Subscript(body, "state").value, "status").Ok?
            && Subscript(Subscript(body, "state").value, "status").value !in {Str(CompleteSuccess), Str(Failed)}
    ensures Subscript(body, "state").Err? ==> s == Stop(Err(Subscript(body, "state").error))
    ensures Subscript(body, "state").Ok? && Subscript(Subscript(body, "state").value, "status").Err? ==>
              s == Stop(Err(Subscript(Subscript(body, "state").value, "status").error))
    ensures Subscript(body, "state").Ok?
            && Subscript(Subscript(body, "state").value, "status") == Ok(Str(CompleteSuccess)) ==>
              s == Stop(Subscript(Subscript(body, "state").value, "maybe_public_bucket_wav_audio_path"))
  {
    match Subscript(body, "state")
    case Err(e) => Stop(Err(e))
    case Ok(state) =>
      match Subscript(state, "status")
      case Err(e) => Stop(Err(e))
      case Ok(status) =>
        if status == Str(CompleteSuccess) then Stop(Subscript(state, "maybe_public_bucket_wav_audio_path"))
        else if status == Str(Failed) then Stop(Err(Raised("TTS job failed.")))
        else Continue
  }

  /** The polling loop over the responses it receives, one per iteration. */
  function Poll(responses: seq<Value>): PollOutcome {
    if responses == [] then StillPolling
    else
      match StepOf(responses[0])
      case Stop(result) => Finished(result)
      case Continue => Poll(responses[1..])
  }

  /** How many status requests the loop sends before it stops or the responses run out. */
  function PollCount(responses: seq<Value>): (n: nat)
    ensures n <= |responses|
  {
    if responses == [] then 0
    else if StepOf(responses[0]).Stop? then 1
    else 1 + PollCount(responses[1..])
  }

  /** The first terminal response decides: if every response before index `i`
      says to continue and response `i` stops the loop, the loop ends there after
      `i + 1` polls with that response's result. */
  lemma {:induction false} PollFirstTerminal(responses: seq<Value>, i: nat)
    requires i < |responses|
    requires forall k :: 0 <= k < i ==> StepOf(responses[k]) == Continue
    requires StepOf(responses[i]).Stop?
    ensures Poll(responses) == Finished(StepOf(responses[i]).result)
    ensures PollCount(responses) == i + 1
  {
    if i > 0 {
      assert StepOf(responses[0]) == Continue;
      PollFirstTerminal(responses[1..], i - 1);
    }
  }

  /** Without a terminal status the loop keeps polling through every response. */
  lemma {:induction false} PollNoTerminal(responses: seq<Value>)
    requires forall k :: 0 <= k < |responses| ==> StepOf(responses[k]) == Continue
    ensures Poll(responses) == StillPolling
    ensures PollCount(responses) == |responses|
  {
    if responses != [] {
      assert StepOf(responses[0]) == Continue;
      PollNoTerminal(responses[1..]);
    }
  }

  // ----- Logout -----

  function LogoutRequest(token: string): HttpRequest {
    Post(LogoutUrl, SessionHeaders(token, "Content-Type", "application/json"), None)
  }

  function LogoutOutcome(response: Value): (r: Result<()>)
    ensures r.Ok? <==> response.Dict? && Truthy(DictGet(response, "success").value)
    ensures response.Dict? && !Truthy(DictGet(response, "success").value) ==> r == Err(Raised("Logout failed."))
  {
    var success :- DictGet(response, "success");
    if !Truthy(success) then Err(Raised("Logout failed.")) else Ok(())
  }

  /** The client: `cookie` is the session token `authenticate` returned. */
  class FakeYouTTS {
    var cookie: string

    ghost predicate Valid()
      reads this
    {
      ValidToken(cookie)
    }

    constructor WithSession(token: string)
      requires ValidToken(token)
      ensures cookie == token && Valid()
    {
      cookie := token;
    }

    /** `make_tts_request`: the payload carries the model token, the fresh
        idempotency token and the text; the session rides in the Cookie header. */
    method MakeTtsRequest(text: string, modelToken: string, idempotencyToken: string, response: Value)
      returns (request: HttpRequest, r: Result<Value>)
      requires Valid()
      ensures request == TtsRequest(cookie, text, modelToken, idempotencyToken)
      ensures request.Post? && "Cookie" in request.headers
              && SessionToken(request.headers["Cookie"]) == Some(cookie)
      ensures r == TtsOutcome(response)
    {
      request := TtsRequest(cookie, text, modelToken, idempotencyToken);
      CookieHeaderRoundTrip(cookie);
      var success := DictGet(response, "success");
      if success.Err? {
        return request, Err(success.error);
      }
      if Truthy(success.value) {
        r := Subscript(response, "inference_job_token");
      } else {
        r := Err(Raised("TTS request failed."));
      }
    }

    /** `check_tts_status` over the status responses it receives, one per poll. */
    method CheckTtsStatus(jobToken: Value, responses: seq<Value>)
      returns (request: HttpRequest, r: PollOutcome, polls: nat)
      ensures request == StatusRequest(cookie, jobToken)
      ensures r == Poll(responses)
      ensures polls == PollCount(responses)
      ensures r.StillPolling? ==> polls == |responses|
      ensures r.Finished? ==> 1 <= polls <= |responses| && StepOf(responses[polls - 1]) == Stop(r.result)
      ensures forall k :: 0 <= k < polls - 1 ==> StepOf(responses[k]) == Continue
    {
      request := StatusRequest(cookie, jobToken);
      polls := 0;
      while polls < |responses|
        invariant polls <= |responses|
        invariant Poll(responses) == Poll(responses[polls..])
        invariant PollCount(responses) == polls + PollCount(responses[polls..])
        invariant forall k :: 0 <= k < polls ==> StepOf(responses[k]) == Continue
      {
        var step := StepOf(responses[polls]);
        polls := polls + 1;
        if step.Stop? {
          return request, Finished(step.result), polls;
        }
        assert responses[polls - 1..][1..] == responses[polls..];
      }
      r := StillPolling;
    }

    method Logout(response: Value) returns (request: HttpRequest, r: Result<()>)
      ensures request == LogoutRequest(cookie)
      ensures r == LogoutOutcome(response)
    {
      request := LogoutRequest(cookie);
      r := LogoutOutcome(response);
    }
  }

  /** The outcome and the requests of `celeb`: log in, request the job, poll, and
      log out only once polling has returned an audio path. */
  function CelebRun(usernameOrEmail: string, password: string, text: string, modelToken: string,
                    idempotencyToken: string, login: LoginResponse, tts: Value,
                    statuses: seq<Value>, logout: Value): (PollOutcome, seq<HttpRequest>)
  {
    var loginRequest := LoginRequest(usernameOrEmail, password);
    match Authenticate(login)
    case Err(e) => (Finished(Err(e)), [loginRequest])
    case Ok(token) =>
      var sent := [loginRequest, TtsRequest(token, text, modelToken, idempotencyToken)];
      match TtsOutcome(tts)
      case Err(e) => (Finished(Err(e)), sent)
      case Ok(job) =>
        var polled := sent + seq(PollCount(statuses), k => StatusRequest(token, job));
        var poll := Poll(statuses);
        if poll.StillPolling? || poll.result.Err? then (poll, polled)
        else
          match LogoutOutcome(logout)
          case Err(e) => (Finished(Err(e)), polled + [LogoutRequest(token)])
          case Ok(_) => (poll, polled + [LogoutRequest(token)])
  }

  method RunCeleb(usernameOrEmail: string, password: string, text: string, modelToken: string,
                  idempotencyToken: string, login: LoginResponse, tts: Value,
                  statuses: seq<Value>, logout: Value)
    returns (r: PollOutcome, requests: seq<HttpRequest>)
    ensures (r, requests) == CelebRun(usernameOrEmail, password, text, modelToken,
                                      idempotencyToken, login, tts, statuses, logout)
  {
    requests := [LoginRequest(usernameOrEmail, password)];
    var token := Authenticate(login);
    if token.Err? {
      return Finished(Err(token.error)), requests;
    }
    var client := new FakeYouTTS.WithSession(token.value);
    var ttsRequest, job := client.MakeTtsRequest(text, modelToken, idempotencyToken, tts);
    requests := requests + [ttsRequest];
    assert requests == [LoginRequest(usernameOrEmail, password),
                        TtsRequest(token.value, text, modelToken, idempotencyToken)];
    if job.Err? {
      assert TtsOutcome(tts) == Err(job.error);
      return Finished(Err(job.error)), requests;
    }
    var statusRequest, poll, polls := client.CheckTtsStatus(job.value, statuses);
    requests := requests + seq(polls, k => statusRequest);
    if poll.StillPolling? || poll.result.Err? {
      return poll, requests;
    }
    var logoutRequest, loggedOut := client.Logout(logout);
    requests := requests + [logoutRequest];
    if loggedOut.Err? {
      return Finished(Err(loggedOut.error)), requests;
    }
    r := poll;
  }

  /** `celeb` logs out exactly when polling returned, and then as its last request. */
  lemma CelebLogsOutOnlyAfterSuccess(usernameOrEmail: string, password: string, text: string,
                                     modelToken: string, idempotencyToken: string,
                                     login: LoginResponse, tts: Value, statuses: seq<Value>, logout: Value)
    ensures var (r, requests) := CelebRun(usernameOrEmail, password, text, modelToken,
                                          idempotencyToken, login, tts, statuses, logout);
            var token := Authenticate(login);
            var polled := token.Ok? && TtsOutcome(tts).Ok? && Poll(statuses).Finished?
                          && Poll(statuses).result.Ok?;
            && (polled <==> token.Ok? && LogoutRequest(token.value) in requests)
            && (polled ==> requests[|requests| - 1] == LogoutRequest(token.value)
                           && |requests| == 3 + PollCount(statuses))
            && (r.Finished? && r.result.Ok? ==> polled && LogoutOutcome(logout).Ok?)
  {
    var (r, requests) := CelebRun(usernameOrEmail, password, text, modelToken,
                                  idempotencyToken, login, tts, statuses, logout);
    var token := Authenticate(login);
    if token.Ok? && TtsOutcome(tts).Ok? {
      var t := token.value;
      assert LoginRequest(usernameOrEmail, password) != LogoutRequest(t) by {
        assert |LoginUrl| != |LogoutUrl|;
      }
      assert TtsRequest(t, text, modelToken, idempotencyToken) != LogoutRequest(t) by {
        assert |TtsUrl| != |LogoutUrl|;
      }
      var job := TtsOutcome(tts).value;
      var polls := seq(PollCount(statuses), k => StatusRequest(t, job));
      assert forall k :: 0 <= k < |polls| ==> polls[k].Get?;
    }
  }
}
