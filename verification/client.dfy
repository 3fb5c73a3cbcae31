/** The client side of the job protocol (`HeartMuLaClient`): credential and
    endpoint resolution, job submission, the status-polling state machine,
    the synchronous variant, and saving the returned audio.

    HTTP exchanges are inputs: the answer to the submit request is a `Reply`,
    and the answers to successive status requests are the stream `replies`,
    whose k-th element answers the k-th poll. Wall-clock time is an abstract
    clock that advances by `interval` at each sleep between polls. */
module Client {
  import opened Wrappers
  import opened JsonValues
  import opened Base64
  import Files

  const ApiRoot: string := "https://api.runpod.ai/v2/"

  // Keyword defaults of `generate` and `generate_sync`.
  const DefaultTags: string := "pop,upbeat"
  const DefaultMaxAudioLengthMs: int := 120000
  const DefaultTemperature: real := 1.0
  const DefaultTopk: int := 50
  const DefaultCfgScale: real := 1.5
  const DefaultTimeout: int := 300
  const DefaultPollInterval: int := 5

  /** A constructed client: the resolved credential and endpoint. */
  datatype Client = Client(apiKey: string, endpointId: string) {

    /** `base_url`, the prefix of every request. */
    function BaseUrl(): string {
      ApiRoot + endpointId
    }

    /** The `Authorization` header sent with every request. */
    function Authorization(): string {
      "Bearer " + apiKey
    }
  }

  datatype ConfigError = MissingApiKey | MissingEndpointId

  /** A configuration value that is present and non-empty. */
  predicate Given(v: Option<string>) {
    v.Some? && v.value != ""
  }

  /** Python's `explicit or environment`: an explicit value wins unless it
      is absent or empty, in which case the environment's is used as is. */
  function Prefer(explicit: Option<string>, environment: Option<string>): Option<string> {
    if Given(explicit) then explicit else environment
  }

  /** `HeartMuLaClient.__init__`: the explicit arguments take precedence over
      `RUNPOD_API_KEY` and `RUNPOD_ENDPOINT_ID`; construction fails, key
      first, when neither source supplies a non-empty value. */
  function Connect(apiKey: Option<string>, endpointId: Option<string>,
                   envApiKey: Option<string>, envEndpointId: Option<string>): (r: Result<Client, ConfigError>)
    ensures r == Err(MissingApiKey) <==> !Given(apiKey) && !Given(envApiKey)
    ensures r == Err(MissingEndpointId) <==>
      (Given(apiKey) || Given(envApiKey)) && !Given(endpointId) && !Given(envEndpointId)
    ensures r.Ok? ==>
      && r.value.apiKey == (if Given(apiKey) then apiKey.value else envApiKey.value)
      && r.value.endpointId == (if Given(endpointId) then endpointId.value else envEndpointId.value)
      && r.value.apiKey != "" && r.value.endpointId != ""
  {
    var key := Prefer(apiKey, envApiKey);
    var endpoint := Prefer(endpointId, envEndpointId);
    if !Given(key) then Err(MissingApiKey)
    else if !Given(endpoint) then Err(MissingEndpointId)
    else Ok(Client(key.value, endpoint.value))
  }

  /** The generation parameters `generate` and `generate_sync` send. */
  datatype Request = Request(lyrics: string, tags: string, maxAudioLengthMs: int,
                             temperature: real, topk: int, cfgScale: real)

  /** A request that sets only the lyrics and keeps every keyword default. */
  function WithDefaults(lyrics: string): Request {
    Request(lyrics, DefaultTags, DefaultMaxAudioLengthMs, DefaultTemperature, DefaultTopk, DefaultCfgScale)
  }

  /** The JSON body of the submit and synchronous-run requests. */
  function Payload(req: Request): Json {
    Obj(map["input" := Obj(map[
      "lyrics" := Str(req.lyrics),
      "tags" := Str(req.tags),
      "max_audio_length_ms" := Int(req.maxAudioLengthMs),
      "temperature" := Float(req.temperature),
      "topk" := Int(req.topk),
      "cfg_scale" := Float(req.cfgScale)])])
  }

  /** One HTTP answer: an error status (`raise_for_status` raises) or a
      decoded JSON object body. */
  datatype Reply = HttpError(code: int) | Body(fields: map<string, Json>)

  /** The exceptions `generate`, `generate_sync` can raise. */
  datatype ClientError =
    | Http(code: int)                       // requests.HTTPError
    | NoJobId(submitted: Json)              // RuntimeError "No job ID returned"
    | GenerationError(detail: Json)         // RuntimeError "Generation error"
    | JobFailed(detail: Json)               // RuntimeError "Job failed"
    | UnknownStatus(status: Option<Json>)   // RuntimeError "Unknown status"
    | TimedOut(jobId: Json, timeout: int)   // TimeoutError
    | Unexpected(result: Json)              // RuntimeError "Unexpected result"
    | TypeFault                             // TypeError on an output that is not a dict

  /** The submit check: the job id from the `/run` answer, which must be
      present and truthy before any status request is made. */
  function SubmitJob(reply: Reply): (r: Result<Json, ClientError>)
    ensures r.Ok? <==> reply.Body? && "id" in reply.fields && Truthy(reply.fields["id"])
    ensures r.Ok? ==> r.value == reply.fields["id"] && Truthy(r.value)
    ensures reply.HttpError? ==> r == Err(Http(reply.code))
    ensures reply.Body? && r.Err? ==> r == Err(NoJobId(Obj(reply.fields)))
  {
    match reply
    case HttpError(code) => Err(Http(code))
    case Body(fields) =>
      var id := Get(fields, "id");
      if id.None? || !Truthy(id.value) then Err(NoJobId(Obj(fields))) else Ok(id.value)
  }

  /** The output of a `COMPLETED` answer: returned unless `"error" in output`
      holds. An `error` key of a dict is a generation error; any other value
      on which `in` or `output['error']` is not defined raises `TypeError`. */
  function CheckOutput(output: Json): (r: Result<Json, ClientError>)
    ensures r.Ok? <==> Contains(output, "error") == Some(false)
    ensures r.Ok? ==> r.value == output
    ensures output.Obj? && "error" in output.fields ==> r == Err(GenerationError(output.fields["error"]))
    ensures r.Err? ==> r.error.GenerationError? || r.error == TypeFault
    ensures !(output.Obj? && "error" in output.fields) && r.Err? ==> r == Err(TypeFault)
  {
    match Contains(output, "error")
    case None => Err(TypeFault)
    case Some(false) => Ok(output)
    case Some(true) =>
      if output.Obj? then Err(GenerationError(output.fields["error"])) else Err(TypeFault)
  }

  /** What one status answer means to the polling loop. */
  datatype Verdict = Finished(result: Result<Json, ClientError>) | Waiting

  /** The `status` field of an answer, if it has one. */
  function StatusOf(reply: Reply): Option<Json> {
    if reply.Body? then Get(reply.fields, "status") else None
  }

  /** One iteration of the polling loop's `if` chain. */
  function Classify(reply: Reply): Verdict {
    match reply
    case HttpError(code) => Finished(Err(Http(code)))
    case Body(fields) =>
      var status := Get(fields, "status");
      if status == Some(Str("COMPLETED")) then
        Finished(CheckOutput(Get(fields, "output").GetOr(EmptyObj)))
      else if status == Some(Str("FAILED")) then
        Finished(Err(JobFailed(Get(fields, "error").GetOr(Str("Unknown error")))))
      else if status == Some(Str("IN_QUEUE")) || status == Some(Str("IN_PROGRESS")) then
        Waiting
      else
        Finished(Err(UnknownStatus(status)))
  }

  /** What each status answer means to the loop: keep waiting exactly on
      `IN_QUEUE` and `IN_PROGRESS`; an HTTP error, a completed job (with its
      output checked), a failed job and any other status end it. No answer
      looks like a timeout. */
  lemma ClassifyTable(reply: Reply)
    ensures Classify(reply) == Waiting <==>
      StatusOf(reply) in {Some(Str("IN_QUEUE")), Some(Str("IN_PROGRESS"))}
    ensures reply.HttpError? ==> Classify(reply) == Finished(Err(Http(reply.code)))
    ensures StatusOf(reply) == Some(Str("COMPLETED")) ==>
      Classify(reply) == Finished(CheckOutput(if "output" in reply.fields then reply.fields["output"] else EmptyObj))
    ensures StatusOf(reply) == Some(Str("FAILED")) ==>
      Classify(reply) == Finished(Err(JobFailed(if "error" in reply.fields then reply.fields["error"] else Str("Unknown error"))))
    ensures (reply.Body? && StatusOf(reply) !in
              {Some(Str("COMPLETED")), Some(Str("FAILED")), Some(Str("IN_QUEUE")), Some(Str("IN_PROGRESS"))}) ==>
      Classify(reply) == Finished(Err(UnknownStatus(StatusOf(reply))))
    ensures Classify(reply).Finished? ==> !(Classify(reply).result.Err? && Classify(reply).result.error.TimedOut?)
  {
  }

  /** The outcome of the polling loop: the value returned or the exception
      raised, and the number of status requests issued. */
  datatype PollRun = PollRun(outcome: Result<Json, ClientError>, polls: nat)

  /** The number of loop iterations that start before `timeout` runs out,
      when each one that does not end the loop sleeps `interval`. */
  function Budget(timeout: int, interval: int): nat
    requires interval > 0
    decreases timeout
  {
    if timeout <= 0 then 0 else 1 + Budget(timeout - interval, interval)
  }

  /** The budget is the ceiling of `timeout / interval`. */
  lemma {:induction false} BudgetIsCeiling(timeout: int, interval: int)
    requires interval > 0
    ensures timeout <= 0 ==> Budget(timeout, interval) == 0
    ensures timeout > 0 ==>
      (Budget(timeout, interval) - 1) * interval < timeout <= Budget(timeout, interval) * interval
    decreases timeout
  {
    if timeout > 0 {
      BudgetIsCeiling(timeout - interval, interval);
      var b := Budget(timeout - interval, interval);
      assert Budget(timeout, interval) == b + 1;
      assert (b + 1) * interval == b * interval + interval;
    }
  }

  /** Iteration `k` of the loop starts `k * interval` after submission, so
      it starts exactly when `k` is below the budget. */
  lemma {:induction false} BudgetCountsIterations(timeout: int, interval: int, k: nat)
    requires interval > 0
    ensures k < Budget(timeout, interval) <==> k * interval < timeout
    decreases k
  {
    if k > 0 && timeout > 0 {
      BudgetCountsIterations(timeout - interval, interval, k - 1);
      assert k * interval == (k - 1) * interval + interval;
    } else if k > 0 {
      assert k * interval >= 0;
    }
  }

  /** The polling loop from its `k`-th iteration on, with `left` the time
      that remains before the timeout (`timeout - elapsed`): while time
      remains, classify the k-th answer, and either end the loop or sleep
      `interval` and go round again. */
  function PollFrom(jobId: Json, replies: nat -> Reply, timeout: int, interval: int,
                    k: nat, left: int): PollRun
    requires interval > 0
    decreases left
  {
    if left > 0 then
      match Classify(replies(k))
      case Waiting => PollFrom(jobId, replies, timeout, interval, k + 1, left - interval)
      case Finished(result) => PollRun(result, k + 1)
    else
      PollRun(Err(TimedOut(jobId, timeout)), k)
  }

  /** The run from iteration `k` on issues at most the remaining budget of
      status requests; every answer before its last one said to wait; it
      times out only after the whole budget of waiting answers; and
      otherwise its outcome is the verdict on its last answer. */
  lemma {:induction false} PollFromFacts(jobId: Json, replies: nat -> Reply, timeout: int, interval: int,
                                         k: nat, left: int)
    requires interval > 0
    ensures var run := PollFrom(jobId, replies, timeout, interval, k, left);
      && k <= run.polls <= k + Budget(left, interval)
      && (forall j :: k <= j < run.polls - 1 ==> Classify(replies(j)) == Waiting)
      && (run.outcome == Err(TimedOut(jobId, timeout)) ==>
            && run.polls == k + Budget(left, interval)
            && (forall j :: k <= j < run.polls ==> Classify(replies(j)) == Waiting))
      && (run.outcome != Err(TimedOut(jobId, timeout)) ==>
            k < run.polls && Classify(replies(run.polls - 1)) == Finished(run.outcome))
    decreases left
  {
    if left > 0 {
      ClassifyTable(replies(k));
      if Classify(replies(k)) == Waiting {
        PollFromFacts(jobId, replies, timeout, interval, k + 1, left - interval);
      }
    }
  }

  /** The polling loop of `generate` for job `jobId`: `elapsed` starts at 0,
      so the whole timeout remains. */
  function Poll(jobId: Json, replies: nat -> Reply, timeout: int, interval: int): (run: PollRun)
    requires interval > 0
  {
    PollFrom(jobId, replies, timeout, interval, 0, timeout)
  }

  /** The loop times out exactly when every answer within the budget says
      the job is still queued or running. */
  lemma PollTimesOutIff(jobId: Json, replies: nat -> Reply, timeout: int, interval: int)
    requires interval > 0
    ensures Poll(jobId, replies, timeout, interval).outcome == Err(TimedOut(jobId, timeout)) <==>
      forall j :: 0 <= j < Budget(timeout, interval) ==> Classify(replies(j)) == Waiting
  {
    PollFromFacts(jobId, replies, timeout, interval, 0, timeout);
    var run := Poll(jobId, replies, timeout, interval);
    if run.outcome != Err(TimedOut(jobId, timeout)) {
      assert Classify(replies(run.polls - 1)).Finished?;
    }
  }

  /** A loop that times out has slept after each of its polls, so on the
      abstract clock it gives up at `polls * interval`: at or after the
      timeout, and less than one interval after it. */
  lemma TimeoutElapsed(jobId: Json, replies: nat -> Reply, timeout: int, interval: int)
    requires interval > 0
    requires Poll(jobId, replies, timeout, interval).outcome == Err(TimedOut(jobId, timeout))
    ensures var elapsed := Poll(jobId, replies, timeout, interval).polls * interval;
      if timeout <= 0 then elapsed == 0 else timeout <= elapsed < timeout + interval
  {
    PollFromFacts(jobId, replies, timeout, interval, 0, timeout);
    BudgetIsCeiling(timeout, interval);
  }

  /** Every status request the loop issues goes out before the timeout:
      the j-th is sent `j * interval` after submission. */
  lemma PollIssuedBeforeTimeout(jobId: Json, replies: nat -> Reply, timeout: int, interval: int, j: nat)
    requires interval > 0
    requires j < Poll(jobId, replies, timeout, interval).polls
    ensures j * interval < timeout
  {
    PollFromFacts(jobId, replies, timeout, interval, 0, timeout);
    BudgetCountsIterations(timeout, interval, j);
  }

  /** The first terminal answer within the budget ends the loop: its verdict
      is the outcome, no status request follows it, and it was requested
      `n * interval` after submission, before the timeout. */
  lemma PollStopsAtFirstTerminal(jobId: Json, replies: nat -> Reply, timeout: int, interval: int, n: nat)
    requires interval > 0
    requires n < Budget(timeout, interval)
    requires forall j :: 0 <= j < n ==> Classify(replies(j)) == Waiting
    requires Classify(replies(n)).Finished?
    ensures Poll(jobId, replies, timeout, interval) == PollRun(Classify(replies(n)).result, n + 1)
    ensures n * interval < timeout
  {
    PollFromFacts(jobId, replies, timeout, interval, 0, timeout);
    var run := Poll(jobId, replies, timeout, interval);
    if run.outcome != Err(TimedOut(jobId, timeout)) {
      assert run.polls - 1 == n;
    }
    BudgetCountsIterations(timeout, interval, n);
  }

  /** The loop reads no answer beyond the last request it issued: two answer
      streams that agree on the polls made give the same run. */
  lemma {:induction false} PollReadsOnlyItsPolls(jobId: Json, replies: nat -> Reply, other: nat -> Reply,
                                                  timeout: int, interval: int, k: nat, left: int)
    requires interval > 0
    requires forall j :: k <= j < PollFrom(jobId, replies, timeout, interval, k, left).polls ==>
      replies(j) == other(j)
    ensures PollFrom(jobId, other, timeout, interval, k, left) ==
      PollFrom(jobId, replies, timeout, interval, k, left)
    decreases left
  {
    if left > 0 {
      PollFromFacts(jobId, replies, timeout, interval, k, left);
      var run := PollFrom(jobId, replies, timeout, interval, k, left);
      assert k < run.polls;
      assert replies(k) == other(k);
      if Classify(replies(k)) == Waiting {
        PollReadsOnlyItsPolls(jobId, replies, other, timeout, interval, k + 1, left - interval);
      }
    }
  }

  /** A POST request as `requests.post` sends it: the URL, the
      `Authorization` header and the JSON body. */
  datatype Post = Post(url: string, authorization: string, body: Json)

  /** The POST of `payload` to `route` under the client's endpoint. */
  function PostTo(c: Client, route: string, payload: Json): Post {
    Post(c.BaseUrl() + route, c.Authorization(), payload)
  }

  /** The result of `generate`: the submit request it sent, the outcome, and
      the number of status requests it issued. */
  datatype Generation = Generation(submitted: Post, outcome: Result<Json, ClientError>, polls: nat)

  /** `generate`: submit the request; if the answer carries a job id, poll
      its status until a terminal answer or the timeout. */
  function Generate(c: Client, req: Request, submitted: Reply, replies: nat -> Reply,
                    timeout: int, interval: int): (g: Generation)
    requires interval > 0
    ensures g.submitted.url == ApiRoot + c.endpointId + "/run"
    ensures g.submitted.authorization == "Bearer " + c.apiKey
    ensures g.submitted.body == Payload(req)
    ensures SubmitJob(submitted).Err? ==> g.outcome == SubmitJob(submitted) && g.polls == 0
    ensures g.polls <= Budget(timeout, interval)
    ensures g.outcome.Err? && g.outcome.error.TimedOut? ==>
      SubmitJob(submitted).Ok? && g.outcome.error == TimedOut(SubmitJob(submitted).value, timeout)
    ensures g.outcome.Ok? ==>
      && SubmitJob(submitted).Ok? && 1 <= g.polls
      && Classify(replies(g.polls - 1)) == Finished(g.outcome)
    ensures SubmitJob(submitted).Ok? ==>
      var run := Poll(SubmitJob(submitted).value, replies, timeout, interval);
      g.outcome == run.outcome && g.polls == run.polls
  {
    var sent := PostTo(c, "/run", Payload(req));
    match SubmitJob(submitted)
    case Err(e) => Generation(sent, Err(e), 0)
    case Ok(jobId) =>
      var run := Poll(jobId, replies, timeout, interval);
      PollFromFacts(jobId, replies, timeout, interval, 0, timeout);
      Generation(sent, run.outcome, run.polls)
  }

  /** The result of `generate_sync`: the request it sent and the outcome. */
  datatype SyncRun = SyncRun(sent: Post, outcome: Result<Json, ClientError>)

  /** `generate_sync`: one blocking `/runsync` exchange. Any status other
      than `COMPLETED` is an error; a completed output is checked as in the
      polling loop. */
  function GenerateSync(c: Client, req: Request, reply: Reply): (r: SyncRun)
    ensures r.sent.url == ApiRoot + c.endpointId + "/runsync"
    ensures r.sent.authorization == "Bearer " + c.apiKey
    ensures r.sent.body == Payload(req)
    ensures reply.HttpError? ==> r.outcome == Err(Http(reply.code))
    ensures reply.Body? && StatusOf(reply) != Some(Str("COMPLETED")) ==>
      r.outcome == Err(Unexpected(Obj(reply.fields)))
    ensures r.outcome.Ok? ==>
      StatusOf(reply) == Some(Str("COMPLETED")) && Contains(r.outcome.value, "error") == Some(false)
  {
    var sent := PostTo(c, "/runsync", Payload(req));
    match reply
    case HttpError(code) => SyncRun(sent, Err(Http(code)))
    case Body(fields) =>
      if Get(fields, "status") == Some(Str("COMPLETED")) then
        SyncRun(sent, CheckOutput(Get(fields, "output").GetOr(EmptyObj)))
      else
        SyncRun(sent, Err(Unexpected(Obj(fields))))
  }

  /** The synchronous variant returns an output exactly when the polling
      loop would return that same output for the same answer. */
  lemma SyncAgreesWithPoll(c: Client, req: Request, reply: Reply)
    ensures GenerateSync(c, req, reply).outcome.Ok? <==> (Classify(reply).Finished? && Classify(reply).result.Ok?)
    ensures GenerateSync(c, req, reply).outcome.Ok? ==> Classify(reply) == Finished(GenerateSync(c, req, reply).outcome)
    ensures StatusOf(reply) == Some(Str("COMPLETED")) ==> Classify(reply) == Finished(GenerateSync(c, req, reply).outcome)
  {
  }

  /** What `save_audio` reports after writing the file. */
  datatype SaveReport = SaveReport(sizeBytes: nat, format: Json, sampleRate: Json)

  datatype SaveError =
    | ResultNotObject   // AttributeError: the result has no `get`
    | NoAudio           // ValueError "No audio data in result"
    | AudioNotText      // TypeError from b64decode on a non-string
    | InvalidBase64     // binascii.Error from b64decode

  /** `save_audio`: the disk after the call and the report or error. */
  datatype Saved = Saved(disk: Files.Disk, report: Result<SaveReport, SaveError>)

  /** `save_audio(result, path)`: reject a result without a non-empty
      `audio_base64` before touching the disk; otherwise decode it and write
      the bytes to `path`, reporting their count. */
  function SaveAudio(result: Json, disk: Files.Disk, path: string): (s: Saved)
    ensures s.report.Err? ==> s.disk == disk
    ensures s.report == Err(NoAudio) <==>
      result.Obj? && !("audio_base64" in result.fields && Truthy(result.fields["audio_base64"]))
    ensures s.report.Ok? ==>
      && result.Obj? && "audio_base64" in result.fields && result.fields["audio_base64"].Str?
      && path in s.disk
      && Encode(s.disk[path]) == result.fields["audio_base64"].s
      && s.disk == disk[path := s.disk[path]]
      && s.report.value.sizeBytes == |s.disk[path]|
    ensures (result.Obj? && "audio_base64" in result.fields && result.fields["audio_base64"].Str?
             && result.fields["audio_base64"].s != "" && Decode(result.fields["audio_base64"].s).Some?) ==>
      s.report.Ok? && s.disk == disk[path := Decode(result.fields["audio_base64"].s).value]
  {
    if !result.Obj? then Saved(disk, Err(ResultNotObject))
    else
      var fields := result.fields;
      var audio := Get(fields, "audio_base64");
      if audio.None? || !Truthy(audio.value) then Saved(disk, Err(NoAudio))
      else if !audio.value.Str? then Saved(disk, Err(AudioNotText))
      else
        match Decode(audio.value.s)
        case None => Saved(disk, Err(InvalidBase64))
        case Some(data) =>
          EncodeDecode(audio.value.s);
          Saved(Files.Write(disk, path, data),
                Ok(SaveReport(|data|, Get(fields, "format").GetOr(Str("unknown")),
                              Get(fields, "sample_rate").GetOr(Str("unknown")))))
  }
}
