/** How the two sides fit together: the body the client submits is what the
    worker validates, the dict the worker returns is what the client checks,
    and the audio the worker encodes is what the client writes to disk. */
module Protocol {
  import opened Wrappers
  import opened JsonValues
  import opened Base64
  import Files
  import Client
  import Handler

  /** The job the worker receives for a client request. */
  function JobOf(req: Client.Request): map<string, Json> {
    Client.Payload(req).fields
  }

  /** The worker accepts a client request exactly when its lyrics are
      non-empty and its length lies in [10000, 240000], and then generates
      with the request's own values; otherwise it refuses with the check
      that failed first. */
  lemma RequestValidation(req: Client.Request)
    ensures Handler.Validate(JobOf(req)).Accepted? <==>
      req.lyrics != "" && 10000 <= req.maxAudioLengthMs <= 240000
    ensures Handler.Validate(JobOf(req)).Accepted? ==>
      Handler.Validate(JobOf(req)).params ==
        Handler.Params(Str(req.lyrics), Str(req.tags), Int(req.maxAudioLengthMs),
                       Float(req.temperature), Int(req.topk), Float(req.cfgScale))
    ensures req.lyrics == "" ==> Handler.Validate(JobOf(req)) == Handler.Refused(Handler.MissingLyrics)
    ensures req.lyrics != "" && req.maxAudioLengthMs > 240000 ==>
      Handler.Validate(JobOf(req)) == Handler.Refused(Handler.TooLong)
    ensures req.lyrics != "" && req.maxAudioLengthMs < 10000 ==>
      Handler.Validate(JobOf(req)) == Handler.Refused(Handler.TooShort)
  {
    var input := Client.Payload(req).fields["input"];
    assert Handler.InputOf(JobOf(req)) == input;
  }

  /** The client's keyword defaults are the worker's field defaults: a
      request that only sets the lyrics is validated exactly like a job
      whose input holds nothing but those lyrics. */
  lemma DefaultsAgree(lyrics: string)
    ensures Handler.Validate(JobOf(Client.WithDefaults(lyrics))) ==
      Handler.Validate(map["input" := Obj(map["lyrics" := Str(lyrics)])])
  {
    var job := map["input" := Obj(map["lyrics" := Str(lyrics)])];
    assert Handler.InputOf(job) == Obj(map["lyrics" := Str(lyrics)]);
    RequestValidation(Client.WithDefaults(lyrics));
  }

  /** The client's output check on what the worker returned: a generated
      record is returned as is, and every worker error surfaces as a
      generation error carrying the worker's message. */
  lemma WorkerResultChecked(o: Handler.Outcome)
    ensures o.Generated? ==> Client.CheckOutput(Handler.ToJson(o)) == Ok(Handler.ToJson(o))
    ensures o.Rejected? ==> Client.CheckOutput(Handler.ToJson(o)) == Err(Client.GenerationError(Str(o.why.Message())))
    ensures o.Failed? ==> Client.CheckOutput(Handler.ToJson(o)) == Err(Client.GenerationError(Str(o.message)))
  {
    Handler.ResultShape(o);
  }

  /** Saving what the worker generated writes exactly the audio the pipeline
      produced, and the size the client reports is the worker's
      `size_bytes`; except that an empty audio file encodes as an empty
      string, which the client's presence check refuses. */
  lemma AudioDelivered(w: Handler.Worker, workerDisk: Files.Disk, job: map<string, Json>,
                       env: Handler.Environment, clientDisk: Files.Disk, path: string)
    requires env.tempPath !in workerDisk
    requires Handler.Handle(w, workerDisk, job, env).outcome.Generated?
    ensures env.pipeline.Produces?
    ensures var o := Handler.Handle(w, workerDisk, job, env).outcome;
      var saved := Client.SaveAudio(Handler.ToJson(o), clientDisk, path);
      if env.pipeline.audio == [] then
        saved == Client.Saved(clientDisk, Err(Client.NoAudio))
      else
        && saved.report.Ok?
        && saved.disk == clientDisk[path := env.pipeline.audio]
        && saved.report.value.sizeBytes == |env.pipeline.audio| == o.record.sizeBytes
  {
    var o := Handler.Handle(w, workerDisk, job, env).outcome;
    var r := o.record;
    var audio := env.pipeline.audio;
    var out := Handler.ToJson(o);
    assert out.fields["audio_base64"] == Str(r.audioBase64);
    DecodeIffEncode(r.audioBase64, audio);
    var saved := Client.SaveAudio(out, clientDisk, path);
    if audio != [] {
      assert |r.audioBase64| > 0;
      assert saved.report.Ok?;
      DecodeIffEncode(r.audioBase64, saved.disk[path]);
    }
  }

  /** Status answers that say `IN_QUEUE` for the first `waits` polls and
      then `COMPLETED` with `output`. */
  function QueuedThenCompleted(waits: nat, output: Json): nat -> Client.Reply {
    (k: nat) =>
      if k < waits then Client.Body(map["status" := Str("IN_QUEUE")])
      else Client.Body(map["status" := Str("COMPLETED"), "output" := output])
  }

  /** With the default timeout of 300 and interval of 5 the client polls
      at most 60 times. */
  lemma DefaultBudget()
    ensures Client.Budget(Client.DefaultTimeout, Client.DefaultPollInterval) == 60
  {
    Client.BudgetIsCeiling(Client.DefaultTimeout, Client.DefaultPollInterval);
  }

  /** One queued answer followed by a completed one with an acceptable
      output: two polls, and that output is returned. */
  lemma QueuedOnceThenCompleted(c: Client.Client, req: Client.Request, jobId: string, out: Json)
    requires jobId != ""
    requires Client.CheckOutput(out) == Ok(out)
    ensures var g := Client.Generate(c, req, Client.Body(map["id" := Str(jobId)]), QueuedThenCompleted(1, out),
                                     Client.DefaultTimeout, Client.DefaultPollInterval);
      g.polls == 2 && g.outcome == Ok(out)
  {
    var replies := QueuedThenCompleted(1, out);
    assert Client.Classify(replies(0)) == Client.Waiting;
    assert Client.Classify(replies(1)) == Client.Finished(Ok(out));
    DefaultBudget();
    Client.PollStopsAtFirstTerminal(Str(jobId), replies, Client.DefaultTimeout, Client.DefaultPollInterval, 1);
  }

  /** The whole exchange for a request of 60 seconds of "hello": the queue
      answers with id `abc123`, the first poll sees the job queued and the
      second sees it completed with the worker's record of 1024 bytes of
      audio; the client issues exactly two polls and writes exactly those
      1024 bytes. */
  lemma HelloScenario(c: Client.Client, w: Handler.Worker, workerDisk: Files.Disk, env: Handler.Environment,
                      clientDisk: Files.Disk, path: string)
    requires env.tempPath !in workerDisk
    requires env.load.Loads? && env.pipeline.Produces? && |env.pipeline.audio| == 1024
    ensures
      var req := Client.Request("hello", "pop,upbeat", 60000, 1.0, 50, 1.5);
      var h := Handler.Handle(w, workerDisk, JobOf(req), env);
      var g := Client.Generate(c, req, Client.Body(map["id" := Str("abc123")]),
                               QueuedThenCompleted(1, Handler.ToJson(h.outcome)),
                               Client.DefaultTimeout, Client.DefaultPollInterval);
      && h.outcome.Generated?
      && g.polls == 2
      && g.outcome == Ok(Handler.ToJson(h.outcome))
      && var saved := Client.SaveAudio(g.outcome.value, clientDisk, path);
         && saved.report.Ok? && saved.report.value.sizeBytes == 1024
         && saved.disk == clientDisk[path := env.pipeline.audio]
  {
    var req := Client.Request("hello", "pop,upbeat", 60000, 1.0, 50, 1.5);
    RequestValidation(req);
    var h := Handler.Handle(w, workerDisk, JobOf(req), env);
    assert h.outcome.Generated?;
    WorkerResultChecked(h.outcome);
    QueuedOnceThenCompleted(c, req, "abc123", Handler.ToJson(h.outcome));
    AudioDelivered(w, workerDisk, JobOf(req), env, clientDisk, path);
  }
}
