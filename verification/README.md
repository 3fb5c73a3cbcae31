# HeartMuLa RunPod job protocol in Dafny

This project models the two protocol cores of the HeartMuLa RunPod integration and proves properties about them.

- **The client** (`runpod/client.py`, `HeartMuLaClient`):
  - resolves the credential and the endpoint;
  - submits a generation job and checks the answer for a job id;
  - polls the job's status until a terminal answer or the timeout;
  - runs the synchronous variant;
  - saves the returned audio.
- **The worker** (`runpod/handler.py`):
  - validates a job's input and fills in defaults;
  - loads the model at most once per process;
  - generates into a temporary file that is always removed;
  - returns every failure as an `{error, traceback}` object instead of raising.

The two sides are linked by base 64, section 4 of RFC 4648. The worker encodes the audio and the client decodes it. The model proves that decoding is the exact inverse of encoding.

Modules:

| file | module | contents |
|---|---|---|
| `wrappers.dfy` | `Wrappers` | `Option`, `Result` |
| `json.dfy` | `JsonValues` | JSON values and the Python operations the code applies to them: `dict.get`, truthiness, `in`, ordering against an integer |
| `base64.dfy` | `Base64` | the RFC 4648 encoder, a strict decoder, and the round-trip proofs |
| `files.dfy` | `Files` | the file system as a map from path to bytes |
| `client.dfy` | `Client` | `__init__`, `generate`, `generate_sync`, `save_audio` |
| `handler.dfy` | `Handler` | `handler`, `generate_music`, `load_model` |
| `protocol.dfy` | `Protocol` | lemmas that connect the two sides |

How the outside world enters the model:

- **HTTP answers are inputs.** The submit answer is a `Reply`. The status answers form a stream `nat -> Reply`, and element k answers the k-th poll.
- **The clock is abstract.** It starts at 0 and advances by `poll_interval` at each sleep. The loop therefore becomes a pure function. `PollFrom` tracks the time left, `timeout - elapsed`.
- **Each worker invocation has an `Environment`.** It says three things:
  - what model initialisation would yield;
  - the fresh temporary path;
  - what the pipeline does: writes audio, or raises after a partial write.

  It also carries the text a traceback would render.
- **`MODEL` is process state.** The global is a `Worker` value that also counts initialisations, and it is threaded through the calls.

The model follows the code as written, including these points a reader might not expect:

- **Unknown statuses.** A status other than `COMPLETED`, `FAILED`, `IN_QUEUE` and `IN_PROGRESS` ends the loop with an unknown-status error. It is never treated as non-terminal (client.py:126-130).
- **Tags.** `tags` is one comma-separated string, as the docstrings say (client.py:66, handler.py:10).
- **Parameter bounds.** Only the lyrics and `max_audio_length_ms` are validated (handler.py:191-206). `temperature`, `topk` and `cfg_scale` pass through unchecked, with whatever JSON value the job carried.
- **`duration_ms`.** It is the requested `max_audio_length_ms`, not a measured duration (handler.py:165).

One consequence is proved in `Protocol.AudioDelivered`. If the pipeline produces an empty file, the worker reports success with `audio_base64 == ""`. The client's presence check then refuses that result with "No audio data in result".

## Model

| member | source | states |
|---|---|---|
| Client.Connect | runpod/client.py:36-44 | An explicit non-empty key or endpoint wins over the environment's. Construction fails with a missing-key error exactly when neither source gives a non-empty key. It fails with a missing-endpoint error exactly when a key exists but no endpoint does. On success the client holds those two non-empty values. |
| Client.SubmitJob | runpod/client.py:94-99 | The submit answer yields a job id exactly when it is an object with a truthy `id`. An HTTP error is raised as such. Any other answer is the "No job ID returned" error carrying the body. |
| Client.CheckOutput | runpod/client.py:117-120 | A completed output is returned unchanged exactly when `"error" in output` is defined and false. An `error` key of a dict gives a generation error carrying its value. Every other failing case is a `TypeError`. |
| Client.ClassifyTable | runpod/client.py:110-130 | The loop keeps waiting exactly on `IN_QUEUE` and `IN_PROGRESS`. `COMPLETED` checks its output, which defaults to `{}`. `FAILED` is a job-failed error carrying `error`, or "Unknown error" when absent. Every other status, including none, is a fatal unknown-status error. An HTTP error ends the loop. No answer is mistaken for a timeout. |
| Client.BudgetIsCeiling | runpod/client.py:104-105 | The number of loop iterations that start before the timeout is the ceiling of timeout / interval, and 0 for a non-positive timeout. |
| Client.BudgetCountsIterations | runpod/client.py:104-105 | Iteration k starts exactly when k * interval < timeout, that is, when k is below the budget. |
| Client.PollFromFacts | runpod/client.py:104-132 | From iteration k the loop issues at most the remaining budget of polls. Every answer before the last one was queued or in progress. A timeout happens only after the whole budget of waiting answers. Any other outcome is the verdict on the last answer read. |
| Client.PollTimesOutIff | runpod/client.py:105-132 | The loop raises the timeout error naming the job exactly when every answer within the budget says queued or in progress. |
| Client.TimeoutElapsed | runpod/client.py:105-132 | A loop that times out gives up at an abstract time at or after the timeout and less than one interval after it. |
| Client.PollIssuedBeforeTimeout | runpod/client.py:104-110 | Every status request is sent while the elapsed time is below the timeout. |
| Client.PollStopsAtFirstTerminal | runpod/client.py:116-130 | The first terminal answer within the budget decides the outcome. Exactly n + 1 polls are issued, so no later answer is requested. |
| Client.PollReadsOnlyItsPolls | runpod/client.py:105-130 | Two answer streams that agree on the polls actually issued give the same run. Answers after the terminal one are never consumed. |
| Client.Generate | runpod/client.py:77-132 | `generate` posts the payload to the endpoint's `/run` URL with the `Bearer` key (client.py:43-47, 89-93). A failed submit check issues no status request. After a successful submit, the outcome and the poll count are those of the polling loop on the returned job id, so every Poll lemma applies. The poll count is within the budget. A timeout names the submitted job id. A returned output is the verdict on the last answer polled. |
| Client.GenerateSync | runpod/client.py:134-175 | `generate_sync` posts the same payload to the endpoint's `/runsync` URL with the `Bearer` key. An HTTP error is raised as such. Any status other than `COMPLETED` is the "Unexpected result" error. A returned output is free of an `error` entry. |
| Client.SyncAgreesWithPoll | runpod/client.py:169-175 | The synchronous classification returns an output exactly when the polling loop's classification of the same answer would return that output. On a `COMPLETED` answer the two agree on the error too. |
| Client.SaveAudio | runpod/client.py:177-190 | A result without a truthy `audio_base64` fails with "No audio data" and leaves the disk unchanged, as does every other failure. On success exactly one file changes. Its bytes are the ones whose encoding is the field. The reported size is their count. Conversely, a non-empty text field that decodes is always saved: the file at the path then holds exactly the decoded bytes. |
| JsonValues.Get | runpod/client.py:97 | `dict.get` finds a value exactly for the keys present. |
| JsonValues.Contains | runpod/client.py:118 | `"error" in x` is defined exactly on dicts, strings and lists: key membership for a dict, a substring test for a string (an occurrence of the key at some position), element membership for a list. |
| JsonValues.HasSubstringIff | runpod/client.py:118 | On a string, `in` holds exactly when the needle occurs at some position. |
| JsonValues.Numeric | runpod/handler.py:203-206 | Comparing the length with an integer is defined exactly for bools, ints and floats, with their numeric values. `False` and `True` count as 0 and 1. |
| Base64.Encode | runpod/handler.py:161 | The encoding of n bytes has 4 * ceil(n / 3) characters. |
| Base64.SymbolInverse | runpod/handler.py:161 | Every six-bit group's alphabet character decodes back to that group. |
| Base64.IndexInverse | runpod/client.py:183 | Every character the decoder accepts is the alphabet character of its group. |
| Base64.QuantumRoundTrip | runpod/handler.py:161 | One to three bytes survive a round trip through one quantum. Only the final quantum may be padded. |
| Base64.QuantumCanonical | runpod/client.py:183 | Whatever a quantum decodes to encodes back to that quantum, so padding bits are zero and padding only ends the text. |
| Base64.DecodeEncode | runpod/client.py:183 | Decoding the worker's encoding gives back exactly the original bytes. |
| Base64.EncodeDecode | runpod/client.py:183 | Every text the decoder accepts is the encoding of the bytes it yields. |
| Base64.DecodeIffEncode | runpod/handler.py:161 | A text decodes to `data` exactly when it is the encoding of `data`. |
| Files.Write | runpod/client.py:184-185 | After a write the path holds exactly the data. The set of paths gains at most that path, and every other file is unchanged. |
| Files.RemoveIfExists | runpod/handler.py:173-174 | After the cleanup the path is absent. The set of paths loses exactly that path, and every other file is unchanged. |
| Handler.Validate | runpod/handler.py:188-206 | A non-dict input raises. Missing or falsy lyrics are refused. The length defaults to 120000 and is checked in order: a length that cannot be compared raises, above 240000 is refused, below 10000 is refused. A job is accepted exactly when its input is a dict with truthy lyrics and a comparable length within [10000, 240000]. Each of these six cases is an if-and-only-if, and the only exceptions validation raises are the non-dict input and the incomparable length. An accepted job passes on lyrics, tags, length, temperature, topk and cfg_scale exactly as given. The defaults are "pop,upbeat", 120000, 1.0, 50 and 1.5. |
| Handler.LoadModel | runpod/handler.py:86-113 | A cached model is returned without initialising. Otherwise initialisation runs once. A success is cached and returned. A failure leaves the cache empty and raises. |
| Handler.WarmLoadsReuse | runpod/handler.py:88-91 | Once a model is cached, no later call initialises, and every call returns that model. |
| Handler.LoadsUntilFirstSuccess | runpod/handler.py:88-113 | Initialisation runs once per call up to the first success and never again. Every later call returns the first model loaded. |
| Handler.GenerateMusic | runpod/handler.py:116-174 | The disk afterwards equals the disk before, so the temporary file is gone on success and on failure. The pipeline is called exactly when the model loaded, with the job's parameters and the temporary path. Success happens exactly when the pipeline produced audio. A failure carries the message of the exception that caused it: the load's if the model did not load, otherwise the pipeline's. The record then has `audio_base64` decoding to that audio, `size_bytes` equal to its length, `duration_ms` equal to the requested length, and `sample_rate` 48000 and `format` "mp3". |
| Handler.Handle | runpod/handler.py:177-225 | `handler` never raises. A refused job returns the matching error message. An exception becomes `{error: str(e), traceback}`. Neither a refused job nor a validation exception calls the pipeline or touches the model. An accepted job returns the generation's record or error, and the disk is unchanged. |
| Handler.ResultShape | runpod/handler.py:163-169 | A returned dict has an `error` key exactly when it is not a success record. A success record has exactly the keys `audio_base64`, `duration_ms`, `sample_rate`, `format` and `size_bytes`. Error objects are `{error}` for a refusal and `{error, traceback}` for an exception (handler.py:193, 222-225). |
| Handler.WarmInvocationReusesModel | runpod/handler.py:88-91 | After an invocation that generated audio, the next invocation in the same process does not initialise again and uses the same model. |
| Protocol.RequestValidation | runpod/handler.py:191-206 | The worker accepts a client request exactly when its lyrics are non-empty and its length lies in [10000, 240000]. It then generates with the request's own values. Otherwise it refuses with the first failing check. |
| Protocol.DefaultsAgree | runpod/handler.py:196-200 | The client's keyword defaults (client.py:53-57) are validated exactly like a job that carries only the lyrics. |
| Protocol.WorkerResultChecked | runpod/client.py:117-120 | The client returns a worker success record as is. Every worker error object surfaces as a generation error carrying the worker's message. |
| Protocol.AudioDelivered | runpod/client.py:179-185 | Saving a worker success writes exactly the pipeline's audio and reports the worker's `size_bytes`. The one exception is empty audio, which the presence check refuses. |
| Protocol.DefaultBudget | runpod/client.py:58-59 | With the default timeout of 300 and interval of 5, at most 60 polls are issued. |
| Protocol.QueuedOnceThenCompleted | runpod/client.py:104-130 | A queued answer followed by a completed one with an acceptable output gives two polls, and that output is returned. |
| Protocol.HelloScenario | runpod/client.py:77-132 | Full exchange for 60 seconds of "hello": the worker generates 1024 bytes, the client polls twice, and then the client writes exactly those bytes and reports 1024. |

Some members carry the model but state their properties through the lemmas listed above, so they have no row of their own:
- `Client.Classify` (client.py:113-130) is described by `Client.ClassifyTable` and `Client.SyncAgreesWithPoll`.
- `Client.PollFrom` and `Client.Poll` (client.py:104-132) are described by `Client.PollFromFacts` and the other `Poll…` lemmas.
- `Base64.Decode` (client.py:183) is described by `Base64.QuantumCanonical`, `Base64.EncodeDecode` and `Base64.DecodeIffEncode`.
- `Handler.ToJson` (handler.py:163-169, 193, 222-225) is described by `Handler.ResultShape`.
- `Handler.LoadEach` (handler.py:88-113) is described by `Handler.WarmLoadsReuse` and `Handler.LoadsUntilFirstSuccess`.

## Left out

- Client.Generate: requires `poll_interval > 0`. With interval 0 the source loop still ends because real time passes, but the abstract clock would stop. A negative interval makes `time.sleep` raise, which is not modelled. The same precondition is on `Poll`, `PollFrom` and the lemmas about them.
- Client.PollFromFacts: time is the abstract clock. The latency of each HTTP request and the real `time.time()` are not modelled, so a real run may poll fewer times than the budget.
- Client.SaveAudio: decoding is strict and canonical. Python's `b64decode` (validate=False) is more lenient in several ways. It drops characters outside the alphabet. It accepts non-zero padding bits. It skips a stray `=` at a quantum boundary. It stops at the first complete padding, so "QQ==QQ==" decodes to the single byte "A". The model reports all such texts as invalid. Every text the worker produces is canonical, so the protocol lemmas are unaffected.
- Client.SaveAudio: the write never fails. `open(output_path, "wb")` and `f.write` can raise `OSError` (client.py:184-185), after "wb" has already created or truncated the file. `Files.Write` is total, so neither that error nor the truncated file is modelled.
- Handler.Validate: floats are exact reals. NaN, for which every comparison is false, is not modelled.
- Fault.Message: the texts of Python's own `AttributeError` and `TypeError` messages are placeholders. The traceback text is an input.
- Handler.GenerateMusic: the `kwargs.get` defaults (handler.py:133-136) are not modelled separately, because `handler` always passes all four values. A failing `import torch`, model download or construction is one failed load (`LoadRaises`).
- Handler.GenerateMusic: temporary-file creation, file reads and file removal never fail. The fresh temporary path is an input, and the source's operating system guarantees it is not already in use.
- Client.Generate: the status requests are not recorded. Each is a GET of the endpoint's `/status/` URL followed by `str(job_id)` (client.py:106-109). The model does not render a JSON value as Python's `str` would. Only the answers to those requests are inputs.
- Transport: connection errors, malformed JSON bodies, non-object JSON bodies, the `Content-Type` header and the `/runsync` request timeout (client.py:164) are not modelled. A reply is either an HTTP error status or a JSON object.
- Printing, argparse and reading lyrics from a file (client.py:193-243) are left out, as are `runpod.serverless.start` and the local test block (handler.py:228-265). They are I/O.
- `download_models` and the pipeline itself are left out. They are subprocess and ML-library calls, represented by `LoadAttempt` and `PipelineRun`.
- `runpod/deploy.py` and the `examples/` scripts are not part of this model. They are infrastructure and thin wrappers around foreign libraries.
- Concurrency is left out. The code runs one job per loop and one invocation per worker process, and it guarantees neither status monotonicity nor atomic writes, so neither is stated.
