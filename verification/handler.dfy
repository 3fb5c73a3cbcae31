/** The worker side of the job protocol (`handler.py`): input validation
    with defaults, the memoised model loader, generation into a temporary
    file that is always removed, and the boundary that turns every failure
    into a returned error object.

    The outside world of one invocation is an `Environment`: what loading
    the model would yield, the fresh temporary path the operating system
    hands out, what the generation pipeline does, and the text a traceback
    would render. */
module Handler {
  import opened Wrappers
  import opened JsonValues
  import opened Base64
  import Files

  // Defaults `handler` applies to absent fields.
  const DefaultTags: Json := Str("pop,upbeat")
  const DefaultMaxAudioLengthMs: Json := Int(120000)
  const DefaultTemperature: Json := Float(1.0)
  const DefaultTopk: Json := Int(50)
  const DefaultCfgScale: Json := Float(1.5)

  // Bounds on `max_audio_length_ms`, in milliseconds.
  const MaxAudioLengthMs: int := 240000
  const MinAudioLengthMs: int := 10000

  // Fixed fields of a successful result.
  const SampleRate: int := 48000
  const Format: string := "mp3"

  /** The generation parameters, passed on exactly as the job carried them. */
  datatype Params = Params(lyrics: Json, tags: Json, maxAudioLengthMs: Json,
                           temperature: Json, topk: Json, cfgScale: Json)

  /** The validation failures `handler` returns as `{"error": ...}`. */
  datatype Rejection = MissingLyrics | TooLong | TooShort {
    function Message(): string {
      match this
      case MissingLyrics => "Missing required field: 'lyrics'"
      case TooLong => "max_audio_length_ms cannot exceed 240000 (4 minutes)"
      case TooShort => "max_audio_length_ms must be at least 10000 (10 seconds)"
    }
  }

  /** Exceptions raised inside the handler's `try` block. */
  datatype Fault =
    | InputNotObject              // AttributeError: `input` has no `get`
    | LengthNotComparable         // TypeError comparing the length with an int
    | LoadFailed(message: string) // download or model construction raised
    | PipelineFailed(message: string)
  {
    /** `str(e)`. */
    function Message(): string {
      match this
      case InputNotObject => "'input' is not a dict"
      case LengthNotComparable => "'>' not supported for max_audio_length_ms"
      case LoadFailed(m) => m
      case PipelineFailed(m) => m
    }
  }

  datatype Validation = Accepted(params: Params) | Refused(why: Rejection) | Raised(fault: Fault)

  /** `job.get("input", {})`. */
  function InputOf(job: map<string, Json>): Json {
    Get(job, "input").GetOr(EmptyObj)
  }

  /** The input carries truthy lyrics. */
  predicate HasLyrics(input: map<string, Json>) {
    "lyrics" in input && Truthy(input["lyrics"])
  }

  /** `input.get(key, default)`. */
  function Field(input: map<string, Json>, key: string, default: Json): Json {
    Get(input, key).GetOr(default)
  }

  /** The validation part of `handler`: lyrics must be present and truthy,
      the length (default 120000) must compare with integers and lie in
      [10000, 240000], the upper bound being checked first; every absent
      optional field takes its default. */
  function Validate(job: map<string, Json>): (v: Validation)
    ensures v == Raised(InputNotObject) <==> !InputOf(job).Obj?
    ensures v == Refused(MissingLyrics) <==> InputOf(job).Obj? && !HasLyrics(InputOf(job).fields)
    ensures v == Raised(LengthNotComparable) <==>
      && InputOf(job).Obj? && HasLyrics(InputOf(job).fields)
      && Numeric(Field(InputOf(job).fields, "max_audio_length_ms", DefaultMaxAudioLengthMs)).None?
    ensures v == Refused(TooLong) <==>
      && InputOf(job).Obj? && HasLyrics(InputOf(job).fields)
      && var m := Numeric(Field(InputOf(job).fields, "max_audio_length_ms", DefaultMaxAudioLengthMs));
         m.Some? && m.value > MaxAudioLengthMs as real
    ensures v == Refused(TooShort) <==>
      && InputOf(job).Obj? && HasLyrics(InputOf(job).fields)
      && var m := Numeric(Field(InputOf(job).fields, "max_audio_length_ms", DefaultMaxAudioLengthMs));
         m.Some? && m.value < MinAudioLengthMs as real
    ensures v.Accepted? ==>
      && InputOf(job).Obj?
      && var input := InputOf(job).fields;
         && "lyrics" in input && v.params.lyrics == input["lyrics"] && Truthy(v.params.lyrics)
         && v.params.tags == (if "tags" in input then input["tags"] else DefaultTags)
         && v.params.maxAudioLengthMs ==
              (if "max_audio_length_ms" in input then input["max_audio_length_ms"] else DefaultMaxAudioLengthMs)
         && v.params.temperature == (if "temperature" in input then input["temperature"] else DefaultTemperature)
         && v.params.topk == (if "topk" in input then input["topk"] else DefaultTopk)
         && v.params.cfgScale == (if "cfg_scale" in input then input["cfg_scale"] else DefaultCfgScale)
         && Numeric(v.params.maxAudioLengthMs).Some?
         && MinAudioLengthMs as real <= Numeric(v.params.maxAudioLengthMs).value <= MaxAudioLengthMs as real
    ensures v.Accepted? <==>
      && InputOf(job).Obj? && HasLyrics(InputOf(job).fields)
      && var m := Numeric(Field(InputOf(job).fields, "max_audio_length_ms", DefaultMaxAudioLengthMs));
         m.Some? && MinAudioLengthMs as real <= m.value <= MaxAudioLengthMs as real
    ensures v.Raised? ==> v.fault == InputNotObject || v.fault == LengthNotComparable
  {
    if !InputOf(job).Obj? then Raised(InputNotObject)
    else
      var input := InputOf(job).fields;
      if !HasLyrics(input) then Refused(MissingLyrics)
      else
        var length := Field(input, "max_audio_length_ms", DefaultMaxAudioLengthMs);
        match Numeric(length)
        case None => Raised(LengthNotComparable)
        case Some(m) =>
          if m > MaxAudioLengthMs as real then Refused(TooLong)
          else if m < MinAudioLengthMs as real then Refused(TooShort)
          else Accepted(Params(input["lyrics"], Field(input, "tags", DefaultTags), length,
                               Field(input, "temperature", DefaultTemperature),
                               Field(input, "topk", DefaultTopk),
                               Field(input, "cfg_scale", DefaultCfgScale)))
  }

  /** A loaded generation pipeline, known only by its identity. */
  datatype Model = Model(id: nat)

  /** The process-wide state of a worker: the `MODEL` global and the number
      of times initialisation (download plus construction) has run. */
  datatype Worker = Worker(model: Option<Model>, loads: nat)

  /** A worker process that has just started. */
  const ColdWorker: Worker := Worker(None, 0)

  /** What initialisation yields if it runs. */
  datatype LoadAttempt = Loads(model: Model) | LoadRaises(message: string)

  datatype Loaded = Loaded(worker: Worker, model: Result<Model, string>)

  /** `load_model`: return the cached model if there is one; otherwise run
      initialisation once, caching its model when it succeeds. */
  function LoadModel(w: Worker, attempt: LoadAttempt): (r: Loaded)
    ensures w.model.Some? ==> r == Loaded(w, Ok(w.model.value))
    ensures w.model.None? ==> r.worker.loads == w.loads + 1
    ensures w.model.None? && attempt.Loads? ==>
      r.worker.model == Some(attempt.model) && r.model == Ok(attempt.model)
    ensures w.model.None? && attempt.LoadRaises? ==>
      r.worker.model == None && r.model == Err(attempt.message)
  {
    match w.model
    case Some(m) => Loaded(w, Ok(m))
    case None =>
      match attempt
      case Loads(m) => Loaded(Worker(Some(m), w.loads + 1), Ok(m))
      case LoadRaises(msg) => Loaded(Worker(None, w.loads + 1), Err(msg))
  }

  /** Successive `load_model` calls in one process, the i-th of which would
      see `attempts[i]` if it had to initialise. */
  function LoadEach(w: Worker, attempts: seq<LoadAttempt>): (r: (Worker, seq<Result<Model, string>>))
    ensures |r.1| == |attempts|
    decreases |attempts|
  {
    if |attempts| == 0 then (w, [])
    else
      var first := LoadModel(w, attempts[0]);
      var rest := LoadEach(first.worker, attempts[1..]);
      (rest.0, [first.model] + rest.1)
  }

  /** Once a model is cached, no later call initialises again, and every
      call returns that same model. */
  lemma {:induction false} WarmLoadsReuse(w: Worker, attempts: seq<LoadAttempt>)
    requires w.model.Some?
    ensures LoadEach(w, attempts).0 == w
    ensures forall i :: 0 <= i < |attempts| ==> LoadEach(w, attempts).1[i] == Ok(w.model.value)
    decreases |attempts|
  {
    if |attempts| > 0 {
      WarmLoadsReuse(w, attempts[1..]);
    }
  }

  /** Initialisation runs once per call up to and including the first that
      succeeds, and never after it; every later call gets the first model. */
  lemma {:induction false} LoadsUntilFirstSuccess(w: Worker, attempts: seq<LoadAttempt>, n: nat)
    requires w.model.None?
    requires n < |attempts| && attempts[n].Loads?
    requires forall j :: 0 <= j < n ==> attempts[j].LoadRaises?
    ensures LoadEach(w, attempts).0 == Worker(Some(attempts[n].model), w.loads + n + 1)
    ensures forall i :: 0 <= i < n ==> LoadEach(w, attempts).1[i] == Err(attempts[i].message)
    ensures forall i :: n <= i < |attempts| ==> LoadEach(w, attempts).1[i] == Ok(attempts[n].model)
    decreases |attempts|
  {
    var first := LoadModel(w, attempts[0]);
    if n == 0 {
      WarmLoadsReuse(first.worker, attempts[1..]);
    } else {
      LoadsUntilFirstSuccess(first.worker, attempts[1..], n - 1);
    }
  }

  /** What the generation pipeline does with the temporary path: write the
      audio, or raise after writing part of it. */
  datatype PipelineRun = Produces(audio: seq<byte>) | PipelineRaises(message: string, partial: seq<byte>)

  /** The arguments `generate_music` passes to the pipeline. */
  datatype Call = Call(model: Model, lyrics: Json, tags: Json, maxAudioLengthMs: Json,
                       savePath: string, topk: Json, temperature: Json, cfgScale: Json)

  /** The success record of `generate_music`. */
  datatype AudioRecord = AudioRecord(audioBase64: string, durationMs: Json, sampleRate: int,
                                     format: string, sizeBytes: nat)

  datatype Environment = Environment(load: LoadAttempt, tempPath: string,
                                     pipeline: PipelineRun, traceback: string)

  /** The effects of `generate_music`: the worker and disk afterwards, the
      record or the exception, and the pipeline call made, if any. */
  datatype Generation = Generation(worker: Worker, disk: Files.Disk,
                                   result: Result<AudioRecord, Fault>, call: Option<Call>)

  /** `generate_music`: load the model, create the temporary output file,
      run the pipeline into it, read and encode the audio, and remove the
      file on the way out whether or not the pipeline raised. */
  function GenerateMusic(w: Worker, disk: Files.Disk, p: Params, env: Environment): (g: Generation)
    requires env.tempPath !in disk
    ensures g.disk == disk
    ensures g.worker == LoadModel(w, env.load).worker
    ensures g.call.Some? <==> LoadModel(w, env.load).model.Ok?
    ensures g.call.Some? ==>
      g.call.value == Call(LoadModel(w, env.load).model.value, p.lyrics, p.tags, p.maxAudioLengthMs,
                           env.tempPath, p.topk, p.temperature, p.cfgScale)
    ensures g.result.Ok? <==> g.call.Some? && env.pipeline.Produces?
    ensures g.result.Ok? ==>
      && Decode(g.result.value.audioBase64) == Some(env.pipeline.audio)
      && g.result.value.sizeBytes == |env.pipeline.audio|
      && g.result.value.durationMs == p.maxAudioLengthMs
      && g.result.value.sampleRate == SampleRate
      && g.result.value.format == Format
    ensures g.result.Err? ==>
      g.result.error == (if LoadModel(w, env.load).model.Err? then LoadFailed(LoadModel(w, env.load).model.error)
                         else PipelineFailed(env.pipeline.message))
  {
    var loaded := LoadModel(w, env.load);
    match loaded.model
    case Err(message) => Generation(loaded.worker, disk, Err(LoadFailed(message)), None)
    case Ok(model) =>
      var tmp := env.tempPath;
      var created := Files.Write(disk, tmp, []);
      var call := Call(model, p.lyrics, p.tags, p.maxAudioLengthMs, tmp, p.topk, p.temperature, p.cfgScale);
      match env.pipeline
      case Produces(audio) =>
        var written := Files.Write(created, tmp, audio);
        var data := written[tmp];
        var record := AudioRecord(Encode(data), p.maxAudioLengthMs, SampleRate, Format, |data|);
        DecodeEncode(data);
        Generation(loaded.worker, Files.RemoveIfExists(written, tmp), Ok(record), Some(call))
      case PipelineRaises(message, partial) =>
        var written := Files.Write(created, tmp, partial);
        Generation(loaded.worker, Files.RemoveIfExists(written, tmp), Err(PipelineFailed(message)), Some(call))
  }

  /** What `handler` returns, before it becomes a dict. */
  datatype Outcome =
    | Generated(record: AudioRecord)
    | Rejected(why: Rejection)
    | Failed(message: string, traceback: string)

  /** The dict `handler` returns. */
  function ToJson(o: Outcome): Json {
    match o
    case Generated(r) => Obj(map[
      "audio_base64" := Str(r.audioBase64),
      "duration_ms" := r.durationMs,
      "sample_rate" := Int(r.sampleRate),
      "format" := Str(r.format),
      "size_bytes" := Int(r.sizeBytes)])
    case Rejected(why) => Obj(map["error" := Str(why.Message())])
    case Failed(message, traceback) => Obj(map["error" := Str(message), "traceback" := Str(traceback)])
  }

  /** The effects of one `handler` call. */
  datatype Invocation = Invocation(worker: Worker, disk: Files.Disk, outcome: Outcome, call: Option<Call>)

  /** `handler(job)`: validate, then generate; every exception raised on
      the way is returned as `{error, traceback}`. */
  function Handle(w: Worker, disk: Files.Disk, job: map<string, Json>, env: Environment): (h: Invocation)
    requires env.tempPath !in disk
    ensures h.disk == disk
    ensures !Validate(job).Accepted? ==> h.worker == w && h.call == None
    ensures Validate(job).Refused? ==> h.outcome == Rejected(Validate(job).why)
    ensures Validate(job).Raised? ==> h.outcome == Failed(Validate(job).fault.Message(), env.traceback)
    ensures Validate(job).Accepted? ==>
      var p := Validate(job).params;
      var g := GenerateMusic(w, disk, p, env);
      && h.worker == g.worker && h.call == g.call
      && h.outcome == (if g.result.Ok? then Generated(g.result.value)
                       else Failed(g.result.error.Message(), env.traceback))
  {
    match Validate(job)
    case Refused(why) => Invocation(w, disk, Rejected(why), None)
    case Raised(fault) => Invocation(w, disk, Failed(fault.Message(), env.traceback), None)
    case Accepted(p) =>
      var g := GenerateMusic(w, disk, p, env);
      match g.result
      case Ok(record) => Invocation(g.worker, g.disk, Generated(record), g.call)
      case Err(fault) => Invocation(g.worker, g.disk, Failed(fault.Message(), env.traceback), g.call)
  }

  /** The handler always returns a dict: a success record, which carries no
      `error` key, or an error object, which always does. */
  lemma ResultShape(o: Outcome)
    ensures ToJson(o).Obj?
    ensures "error" in ToJson(o).fields <==> !o.Generated?
    ensures o.Generated? ==>
      ToJson(o).fields.Keys == {"audio_base64", "duration_ms", "sample_rate", "format", "size_bytes"}
    ensures o.Rejected? ==> ToJson(o).fields == map["error" := Str(o.why.Message())]
    ensures o.Failed? ==> ToJson(o).fields == map["error" := Str(o.message), "traceback" := Str(o.traceback)]
  {
    if o.Generated? {
      var keys := ToJson(o).fields.Keys;
      assert "error" !in keys;
    }
  }

  /** A worker invoked twice in one process initialises the model at most
      once: after an invocation that generated audio, the next one reuses
      the cached model and does not initialise again. */
  lemma {:induction false} WarmInvocationReusesModel(w: Worker, disk: Files.Disk, job1: map<string, Json>, env1: Environment,
                                   job2: map<string, Json>, env2: Environment)
    requires env1.tempPath !in disk && env2.tempPath !in disk
    requires Handle(w, disk, job1, env1).outcome.Generated?
    ensures var first := Handle(w, disk, job1, env1);
      var second := Handle(first.worker, first.disk, job2, env2);
      && first.call.Some? && first.worker.model == Some(first.call.value.model)
      && second.worker == first.worker
      && (second.call.Some? ==> second.call.value.model == first.call.value.model)
  {
    var first := Handle(w, disk, job1, env1);
    var p := Validate(job1).params;
    var g := GenerateMusic(w, disk, p, env1);
    assert first.worker.model.Some?;
  }
}
