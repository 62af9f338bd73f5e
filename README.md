# InfiniteTalk serverless worker: a Dafny model

This project models the job orchestrator of the InfiniteTalk RunPod worker, its test twin, and the polling client.

The worker (`runpod_handler.py`) receives one request at a time. Each request names an action:

- `generate` (the default) creates a fresh job id and records the job as in progress. It then resolves the audio asset and the visual asset, each given either as a local path or as a URL to download. It builds the generator's input and parameters (with defaults), runs the external generator, and publishes the output to object storage when that is configured. Finally it records the job as completed or failed.
- `status` returns the stored record of a job.
- `get_output` returns the output location of a completed job.
- Any other action is refused.

The test worker (`runpod_handler_test.py`) has the same dispatch. Its `generate` succeeds as soon as both assets are named, and two job ids are hard-coded. The client (`test_client.py`) builds the three payloads. It submits a generation, then polls its status every 10 seconds for up to 1800 seconds.

Modules, one file each:

- `Values` (`values.dfy`): Python values and dicts as the code uses them. It covers truthiness, `dict.get`, `or`, `str()`, ASCII `lower()`, `endswith`, and `split('.')[-1]`.
- `JobStore` (`job_store.dfy`): the record shapes in `jobs_status`, plus a ghost log of every write to it. The lifecycle says each job is written twice: in progress first, then terminal.
- `Router` (`router.dfy`): action selection, shared by both workers.
- `Generation` (`generation.dfy`): the `generate` pipeline as the spec function `Run`, which is asset resolution (`Resolve`) followed by `RunResolved`. Every external effect is an oracle in `Effects`: the wget results, the generator's exit, whether the output file exists, and the upload result. `Run` returns the job result and the trace of external calls made.
- `Handler` (`handler.dfy`): the production queries and the `Worker` class. The class holds the job map and the model flag. Its imperative `GenerateVideo` and `Handle` are proved against `Run`.
- `MockHandler` (`mock_handler.dfy`): the test worker, with a `MockWorker` class.
- `Client` (`client.dfy`): the payloads, and the polling loop `GenerateAndWait` with its bounds.

Some of what the code does is not what its messages and structure suggest. The model follows the code:

- A generator that exits with 0 completes the job even when the output file does not exist. The file is only a condition for uploading (`Generation.ExitCodeDecides`). The missing-output error exists only in `get_output`.
- The check that both assets were named runs after the URL downloads, not before them. A request without audio still downloads its visual URL first (`Generation.MissingAudioFails`). An input error still writes an in-progress record first.
- When only the visual path is missing but an audio URL is given, the audio URL is downloaded and replaces a given audio path (`Generation.Resolve`).
- The upload key always ends in `.mp4`.
- Only `size` is put into the command line as given; the other parameters are passed through `str()`. A `size` that is not a string makes `' '.join(cmd)` raise, so the job fails before the generator is launched (`Generation.NonStringSizeFails`).
- A truthy `audio_url` that is not a string makes `subprocess.run` raise before wget starts (`Generation.NonStringAudioUrlFails`). A truthy `image_url` that is not a string fails at `split`.

## Model

| member | source | states |
|---|---|---|
| Values.Truthy | runpod_handler.py:90 | Python truthiness: None, False, 0, 0.0 and the empty string are falsy, everything else truthy |
| Values.Get | runpod_handler.py:87-88 | `dict.get(key)`: the stored value, or None for an absent key |
| Values.GetOr | runpod_handler.py:116-122 | `dict.get(key, default)`: the default only for an absent key, not for a falsy stored value |
| Values.Or | runpod_handler_test.py:44-45 | `a or b` is truthy iff either operand is; a truthy first operand is the result, and otherwise the second operand is |
| Values.Render | runpod_handler.py:243 | `str(v)` as an f-string renders a value: None, True/False, the decimal numeral, the float's repr, the string itself |
| Values.TypeName | runpod_handler.py:93-100 | `type(v).__name__` as Python's error messages print it: NoneType, bool, int, float, str |
| Values.NoAttribute | runpod_handler.py:100 | the AttributeError text for a method called on a value of the wrong type: `'<type>' object has no attribute '<name>'` (`split` at line 100, `lower` at line 133) |
| Values.InfixDetermined | runpod_handler.py:92 | two strings set between the same prefix and suffix give equal results exactly when they are equal, so a path built around a job id determines the id |
| Values.DecimalString | runpod_handler.py:281 | `str()` of an integer starts with '-' exactly for negatives; the rest is a non-empty digit string with no leading zero that denotes the magnitude |
| Values.DigitsDenote | runpod_handler.py:154-159 | the decimal digits of a natural number denote that number |
| Values.ToLower | runpod_handler.py:100 | lower-casing keeps the length and maps every character through the ASCII lower-case map |
| Values.ToLowerIdempotent | runpod_handler.py:133 | lower-casing twice is lower-casing once |
| Values.EndsWith | runpod_handler.py:133 | `s.endswith(suffix)`: the suffix fits and the last characters of `s` are the suffix |
| Values.LastSegment | runpod_handler.py:100 | `s.split('.')[-1]`: the characters after the last '.', or all of `s` when it holds none |
| Values.LastSegmentShape | runpod_handler.py:100 | `split('.')[-1]` is a suffix with no '.', and a '.' precedes it whenever it is not the whole string |
| JobStore.InProgressRecord | runpod_handler.py:80-84 | the record written first: status in_progress, the start time, progress 0 |
| JobStore.CompletedRecord | runpod_handler.py:191-196 | the record of a completed job: status, output path, presigned URL or None, completion time |
| JobStore.FailedRecord | runpod_handler.py:207-211 | the record of a failed job: status, the exception text, failure time |
| JobStore.LifecycleExtend | runpod_handler.py:80-211 | writing a fresh job in progress and then terminal keeps the lifecycle; the map gains exactly that job's terminal record |
| JobStore.UnknownNeverWritten | runpod_handler.py:225-226 | a job id the map does not hold was never written |
| JobStore.WrittenTwice | runpod_handler.py:80-211 | under the lifecycle every stored job was written exactly twice, in progress then terminal, and holds the terminal record |
| JobStore.LifecycleAllTerminal | runpod_handler.py:191-211 | between requests no stored job is in progress, and every record has a status |
| Router.ActionOf | runpod_handler.py:269-281 | a missing action means generate; "status" and "get_output" select the queries; any other value is unknown and carried |
| Router.UnknownActionReply | runpod_handler.py:281 | the reply to any other action: an error naming the action as `str()` renders it |
| Generation.UrlExtension | runpod_handler.py:100 | the lower-cased last '.'-separated segment of the URL |
| Generation.VisualTail | runpod_handler.py:101-104 | the extension a downloaded visual gets: the URL's extension if it is mp4, avi, mov or webm, else jpg |
| Generation.ImageDownloadPath | runpod_handler.py:102-104 | the download destination `/tmp/<job id>_input.<extension>` |
| Generation.IsVideoPath | runpod_handler.py:133 | the lower-cased path ends in .mp4, .avi, .mov or .webm |
| Generation.UrlExtensionShape | runpod_handler.py:100 | the extension taken from a URL has no '.' and is lower case |
| Generation.VisualTailIsLower | runpod_handler.py:100-104 | the extension a downloaded visual is given is lower case, whether kept or replaced by `jpg` |
| Generation.TailDecidesKind | runpod_handler.py:101-104 | a path ending in '.' and the chosen extension looks like a video iff the URL's extension is a video extension, whatever the prefix |
| Generation.ImageDownloadKind | runpod_handler.py:97-138 | a downloaded visual's path looks like a video iff the URL's extension is one of mp4, avi, mov, webm |
| Generation.Resolve | runpod_handler.py:87-109 | the paths, the first exception and the downloads of asset resolution: both local paths used as given, or each truthy URL downloaded (audio first) in place of its path; a non-string audio URL raises before any download |
| Generation.ResolveVisual | runpod_handler.py:97-109 | the visual part: a falsy URL keeps the path, a non-string one raises at `split`, a string one is downloaded to `ImageDownloadPath` |
| Generation.ClassifyVisual | runpod_handler.py:132-138 | the input JSON holds `cond_video` iff the path lower-cased ends in a video suffix, else `cond_image`, with the path itself |
| Generation.ConfigOf | runpod_handler.py:116-122 | each parameter is the request's value when its key is present and its default otherwise; `sample_shift` defaults to 7 for the 480 size, else 11 |
| Generation.AssetsOnlyRequestGetsDefaults | runpod_handler.py:116-122 | a request setting no parameter gets the full default configuration |
| Generation.SampleShiftDefault | runpod_handler.py:120 | without `sample_shift`, the shift is 7 iff size is absent or "infinitetalk-480", and 11 otherwise |
| Generation.ArgTypeError | runpod_handler.py:93-95 | the TypeError text `subprocess.run` gives for an argument that is not a string: it names the value's type |
| Generation.AudioDownloadPath | runpod_handler.py:92 | the audio download destination `/tmp/<job id>_audio.wav` |
| Generation.OutputPath | runpod_handler.py:114 | the output file `<output root>/<job id>.mp4` |
| Generation.UploadKey | runpod_handler.py:180 | the storage key `outputs/<job id>.mp4` |
| Generation.JobFilesDistinct | runpod_handler.py:92-180 | two different job ids never share an audio download, a visual download from the same URL, an output file or a storage key |
| Generation.JoinTypeError | runpod_handler.py:153-162 | the TypeError text of the join when `size`, item 13 of the command, is not a string: it names the value's type |
| Generation.LaunchCall | runpod_handler.py:125-170 | the launch of the generator with the input JSON (prompt, audio, visual), the parameters and the output path |
| Generation.Run | runpod_handler.py:86-216 | the job result and the trace of external calls of one `generate`: resolution, then `RunResolved` |
| Generation.RunResolved | runpod_handler.py:111-216 | after resolution: a raised exception, the input error, the `lower()` and join type errors, the launch, the exit code and the soft-failing upload, in that order |
| Generation.ResolveOnlyDownloads | runpod_handler.py:86-110 | asset resolution makes download calls only |
| Generation.BothPathsSkipUrls | runpod_handler.py:87-90 | with both local paths truthy, the paths are used unchanged and nothing is downloaded |
| Generation.LaunchedIffReady | runpod_handler.py:111-172 | the generator is launched iff resolution succeeded with two truthy paths, a string visual path and a string `size`; it is launched right after the downloads, and no call at any other position is a launch |
| Generation.UnresolvedInputFails | runpod_handler.py:111-112 | a path still missing after resolution fails the job with the input error and launches nothing |
| Generation.MissingAudioFails | runpod_handler.py:87-112 | with neither audio path nor audio URL the job fails with no launch and no upload; it gets the input error when no visual URL raised |
| Generation.NonStringSizeFails | runpod_handler.py:153-162 | with resolution done, a `size` that is not a string fails the job with the join's TypeError, after the downloads and without a launch |
| Generation.NonStringAudioUrlFails | runpod_handler.py:90-95 | a truthy audio URL that is not a string fails the job with subprocess's TypeError, with nothing downloaded or launched |
| Generation.ExitCodeDecides | runpod_handler.py:153-203 | with paths ready, a non-string `size` fails at the join; otherwise a non-zero exit fails with "Generation failed: " and stderr, and exit 0 completes at the output path, with a URL only if storage is set, the file exists and presigning worked |
| Generation.UploadOnlyWhenPresent | runpod_handler.py:153-189 | an upload is attempted iff the generator was launched (which needs a string `size`) and exited 0, storage is configured and the output file exists |
| Generation.NoStorageNoUrl | runpod_handler.py:177-178 | without object storage a completed job has no URL and nothing is uploaded |
| Generation.VisualKind | runpod_handler.py:97-138 | the launched input has `cond_video` iff the resolved visual path looks like a video, and for a downloaded visual iff the URL extension is a video extension |
| Handler.GenerateReply | runpod_handler.py:198-216 | the reply to generate: job id and completed with output path and URL, or job id, failed and the error |
| Handler.TerminalRecord | runpod_handler.py:191-211 | the record ending a job is terminal and shaped, and says completed iff the result succeeded |
| Handler.ReplyMatchesRecord | runpod_handler.py:191-216 | the reply to generate and the stored record agree on status and on output path and URL, or on error |
| Handler.CheckStatus | runpod_handler.py:218-228 | a falsy job id gives "job_id is required", an unknown one "Job not found", a known one its stored record |
| Handler.Known | runpod_handler.py:220-237 | the request's job id is truthy, a string and a key of the job map: the condition both queries test before reading the record |
| Handler.OutputPresent | runpod_handler.py:245-247 | the stored output path is a non-empty string naming an existing file: the negation of the "Output file not found" test |
| Handler.GetOutput | runpod_handler.py:230-264 | the four errors in order; no error iff known, completed and file present; then exactly job_id, status "completed" and the local path, plus `download_url` when the stored URL is truthy and otherwise the message "File available on volume storage" |
| Handler.StatusAfterGenerate | runpod_handler.py:191-228 | right after generate, status returns that job's terminal record |
| Handler.OutputAfterGenerate | runpod_handler.py:191-264 | right after generate, a failed job is "not completed: failed", a completed job with no file is "Output file not found", and otherwise the local path with a download URL iff one was minted |
| Handler.Worker.constructor | runpod_handler.py:33-36 | a process starts with an empty job map and unloaded models |
| Handler.Worker.LoadModels | runpod_handler.py:49-74 | afterwards the models are loaded, and they were loaded at most once per process |
| Handler.Worker.Put | runpod_handler.py:80-84 | one write to the job map, appended to the write log |
| Handler.Worker.Conclude | runpod_handler.py:191-216 | the terminal write restores the lifecycle and the reply matches the result |
| Handler.Worker.ResolvePaths | runpod_handler.py:87-109 | the imperative resolution yields the paths, the failure and the downloads of `Resolve`, including the TypeError for a non-string audio URL |
| Handler.Worker.FetchVisual | runpod_handler.py:97-109 | once the audio is settled, the visual download yields the path, the failure and the calls of `ResolveVisual` |
| Handler.Worker.Execute | runpod_handler.py:86-203 | the imperative pipeline yields the result of `Run` and makes exactly its calls |
| Handler.Worker.ExecuteResolved | runpod_handler.py:111-203 | after resolution, the input check, the join check on `size`, launch and upload yield the result and the calls of `RunResolved` |
| Handler.Worker.GenerateVideo | runpod_handler.py:76-216 | one in-progress write under the fresh id, then one terminal write from `Run`; no other job touched; the reply matches |
| Handler.Worker.Handle | runpod_handler.py:266-281 | only generate loads models and writes; the queries and unknown actions change nothing and answer as specified |
| MockHandler.MockAsset | runpod_handler_test.py:44-45 | a truthy URL takes precedence over the path; the asset is present iff either is truthy |
| MockHandler.MockOutputPath | runpod_handler_test.py:66 | the mock output file `/tmp/outputs/<job id>.mp4` |
| MockHandler.MockPresignedUrl | runpod_handler_test.py:75 | the fake storage URL `https://mock-s3.example.com/<job id>.mp4` |
| MockHandler.MockFilesDistinct | runpod_handler_test.py:66-75 | two different job ids never share a mock output file or a fake URL |
| MockHandler.MockRecord | runpod_handler_test.py:47-77 | the terminal mock record: completed with the mock output path and URL when both roles are present, else failed with the missing-inputs message |
| MockHandler.MockReply | runpod_handler_test.py:53-57 | the mock reply: completed with path and URL when both roles are present, else failed with "Missing required inputs" |
| MockHandler.MockOutcome | runpod_handler_test.py:43-84 | a mock job completes iff each role has a truthy URL or path; the reply agrees with the record on success; on failure record and reply carry different messages |
| MockHandler.MockCheckStatus | runpod_handler_test.py:86-111 | a stored job wins; otherwise "test-123" and "test-completed" get canned replies, anything else "Job not found" |
| MockHandler.MockGetOutput | runpod_handler_test.py:113-142 | "test-completed" is answered before the store; then not found, not completed, and otherwise the requested job id with the stored URL and path, with no file check |
| MockHandler.MockWorker.constructor | runpod_handler_test.py:21 | the test process starts with an empty job map |
| MockHandler.MockWorker.Put | runpod_handler_test.py:37-41 | one write to the job map, appended to the write log |
| MockHandler.MockWorker.Decide | runpod_handler_test.py:43-84 | the terminal record and reply are those of the presence check alone |
| MockHandler.MockWorker.Conclude | runpod_handler_test.py:72-77 | the terminal write restores the lifecycle |
| MockHandler.MockWorker.GenerateVideo | runpod_handler_test.py:32-84 | an in-progress write, then the terminal mock record; the reply is the mock reply |
| MockHandler.MockWorker.Handle | runpod_handler_test.py:144-159 | the production dispatch without model loading; queries change nothing |
| Client.GeneratePayload | test_client.py:24-47 | the generate payload always carries action, both URLs and the six parameters, never `sample_shift` or local paths |
| Client.PayloadsRoute | test_client.py:59-79 | the three payloads reach generate, status and get_output, and the queries carry the job id |
| Client.StatusPayload | test_client.py:62-65 | the status query: action "status" and the job id, nothing else |
| Client.OutputPayload | test_client.py:73-76 | the output query: action "get_output" and the job id, nothing else |
| Client.PayloadConfig | test_client.py:28-47 | the worker reads back exactly the parameters sent; with none given it runs its own default configuration |
| Client.PollsOnlyAfterSuccess | test_client.py:89-98 | the client polls iff the worker's generate reply is a success; a failure reply is handed back |
| Client.Rejected | test_client.py:91-98 | the generate reply the client hands back without polling: it has an `error` key or a falsy `job_id` |
| Client.StatusPayloads | test_client.py:62-65 | n status payloads for one job id |
| Client.ElapsedAtLeastSleeps | test_client.py:102-119 | each poll round takes at least the 10-second sleep |
| Client.Elapsed | test_client.py:103-119 | the clock reading at the `while` test after k rounds: the extra delays of every round plus 10 seconds of sleep per finished round |
| Client.ElapsedMonotone | test_client.py:105-119 | the client's clock never goes back from one round to a later one |
| Client.PollsWithinBudget | test_client.py:105 | if the last poll started within the 1800-second budget, every poll did |
| Client.ElapsedBySleepsOnly | test_client.py:105-119 | when calls take no time, the clock after k rounds reads 10k |
| Client.NoneFinalBefore | test_client.py:105-119 | a wait that went on past a poll saw neither completed nor failed at that poll |
| Client.WaitCompletes | test_client.py:111-114 | a completed status ends the wait with one output request, whose reply is the result |
| Client.WaitFails | test_client.py:115-117 | a failed status ends the wait with that status reply as the result |
| Client.WaitTimesOut | test_client.py:105-122 | a clock past 1800 seconds after non-final polls ends the wait with the timeout reply |
| Client.WaitContinues | test_client.py:105-119 | a status neither completed nor failed leads to another round, still within 180 polls |
| Client.Wait | test_client.py:102-122 | at most 180 polls, all within budget, none before the last completed or failed; stops at the first completed (one output request, its reply) or failed (that reply); otherwise a timeout once the budget is spent |
| Client.GenerateAndWait | test_client.py:81-122 | a reply with an error or no job id is returned with no poll; otherwise the wait for its job id, after the generate payload |
| Client.TimesOutAfterMaxPolls | test_client.py:102-122 | a job that never finishes, with no call time, gets exactly 180 polls and then the timeout reply |
| Client.CompletesOnFourthPoll | test_client.py:105-117 | three in-progress replies and then completed give the output reply after four polls |

## Left out

- Downloads (`wget`), the generator process (`Popen`, `communicate`) and the S3 upload and presign are oracle results in `Generation.Effects`. Their exception texts are oracle strings. The 24-hour expiry is a library argument.
- The file system (`os.path.exists`, `makedirs`, the JSON file write, the mock's `Path.touch`) and the volume-or-/tmp choice are left out. File existence is a predicate or an oracle. The output root is a constructor parameter.
- The generator's command line is not modelled. The `Launch` call records the input JSON, the parameters and the output path; passing `save_file` without `.mp4` is not captured.
- `uuid.uuid4` is replaced by a fresh, non-empty job id parameter. In the workers, `time.time()` values are integer parameters.
- Client.Elapsed: the client's clock is assumed monotone, and each round's 10-second sleep is assumed to advance it by at least 10 seconds; the call times are natural numbers. `time.time()` is a wall clock that can step backwards, so `ElapsedMonotone`, `ElapsedAtLeastSleeps` and the 180-poll bound rest on this assumption.
- `cfg_scale` is a float in Python. It is carried as an uninterpreted `Float` value, and floating point is not modelled.
- Logging, the torch import, the `sys.path` change in `load_models`, the RunPod SDK, `test_handler_local.py` and the client's argparse `main` are not modelled. The `job["input"]` lookup is not modelled either: `Handle` takes the input dict directly.
- Concurrency is out of scope. The worker handles one request at a time.
- The mock's `load_models` is never called by its handler, so it is not modelled.
- Values.Value: nested lists and dicts are not modelled. Every request, record and reply is a flat dict of scalars.
- Values.ToLower: lower-cases ASCII letters only. Python's `lower()` also lower-cases other alphabets.
- Handler.Worker.LoadModels: `load_models` cannot fail in its modelled part, so its re-raise is not modelled.
- Handler.CheckStatus: `check_status` returns the stored dict object itself. The model returns its value, so aliasing is not captured.
- Client.GenerateAndWait: the poll count and the sent payloads are ghost results. The endpoint's replies are given in advance as functions, and the client's `print` output is left out.
