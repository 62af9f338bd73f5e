/** The production handler of one worker process: the job map and the
    model-loaded flag it owns, the `generate` pipeline that writes the map,
    the two read-only queries and the action dispatcher. */
module Handler {
  import opened Values
  import opened JobStore
  import opened Router
  import opened Generation

  const JobIdRequired := "job_id is required"
  const JobNotFound := "Job not found"
  const NotCompletedPrefix := "Job is not completed. Current status: "
  const OutputNotFound := "Output file not found"
  const VolumeMessage := "File available on volume storage"

  // ---------------------------------------------------------- job records

  /** The record that ends a job. */
  function TerminalRecord(result: JobResult, at: int): (r: Dict)
    ensures IsTerminal(r)
    ensures StatusOf(r) == StatusCompleted <==> result.Succeeded?
  {
    match result
    case Succeeded(outputPath, url) => CompletedRecord(outputPath, url, at)
    case Failed(error) => FailedRecord(error, at)
  }

  /** The reply of `generate_video`. */
  function GenerateReply(jobId: string, result: JobResult): Dict {
    match result
    case Succeeded(outputPath, url) =>
      map["job_id" := Str(jobId), "status" := StatusCompleted, "output_path" := Str(outputPath), "presigned_url" := url]
    case Failed(error) =>
      map["job_id" := Str(jobId), "status" := StatusFailed, "error" := Str(error)]
  }

  /** The reply and the stored record tell the same story: same status, and
      the same output path and URL or the same error.  A failed job has no
      output path, and its reply carries job id, status and error only. */
  lemma ReplyMatchesRecord(jobId: string, result: JobResult, at: int)
    ensures var reply, record := GenerateReply(jobId, result), TerminalRecord(result, at);
            && reply["job_id"] == Str(jobId)
            && reply["status"] == record["status"]
            && (result.Succeeded? ==> reply["output_path"] == record["output_path"]
                                      && reply["presigned_url"] == record["presigned_url"])
            && (result.Failed? ==> reply.Keys == {"job_id", "status", "error"}
                                   && reply["error"] == record["error"]
                                   && "output_path" !in record)
  {
  }

  // -------------------------------------------------------------- queries

  /** The query names a job of the store: a truthy string `job_id` that is a
      key of the map (any other value is simply not `in` it). */
  predicate Known(jobs: map<string, Dict>, input: Dict) {
    var id := Get(input, "job_id");
    Truthy(id) && id.Str? && id.s in jobs
  }

  /** `check_status`: the stored record itself, or an error reply. */
  function CheckStatus(jobs: map<string, Dict>, input: Dict): (r: Dict)
    ensures !Truthy(Get(input, "job_id")) ==> r == ErrorReply(JobIdRequired)
    ensures Truthy(Get(input, "job_id")) && !Known(jobs, input) ==> r == ErrorReply(JobNotFound)
    ensures Known(jobs, input) ==> r == jobs[Get(input, "job_id").s]
  {
    var id := Get(input, "job_id");
    if !Truthy(id) then ErrorReply(JobIdRequired)
    else if !(id.Str? && id.s in jobs) then ErrorReply(JobNotFound)
    else jobs[id.s]
  }

  /** `not output_path or not os.path.exists(output_path)`, negated. */
  predicate OutputPresent(record: Dict, fileExists: string -> bool) {
    var path := Get(record, "output_path");
    path.Str? && path.s != "" && fileExists(path.s)
  }

  /** `get_output`: four error checks in a fixed order, then the local path,
      with the download URL only when the stored URL is truthy.  `exists` is
      the file system at the moment of the query. */
  function GetOutput(jobs: map<string, Dict>, input: Dict, fileExists: string -> bool): (r: Dict)
    requires StoreShaped(jobs)
    ensures !Truthy(Get(input, "job_id")) ==> r == ErrorReply(JobIdRequired)
    ensures Truthy(Get(input, "job_id")) && !Known(jobs, input) ==> r == ErrorReply(JobNotFound)
    ensures Known(jobs, input) && StatusOf(jobs[Get(input, "job_id").s]) != StatusCompleted ==>
              r == ErrorReply(NotCompletedPrefix + Render(StatusOf(jobs[Get(input, "job_id").s])))
    ensures (Known(jobs, input) && StatusOf(jobs[Get(input, "job_id").s]) == StatusCompleted
             && !OutputPresent(jobs[Get(input, "job_id").s], fileExists)) ==> r == ErrorReply(OutputNotFound)
    ensures "error" !in r <==>
              Known(jobs, input) && StatusOf(jobs[Get(input, "job_id").s]) == StatusCompleted
              && OutputPresent(jobs[Get(input, "job_id").s], fileExists)
    ensures "error" !in r ==>
              var record := jobs[Get(input, "job_id").s];
              && "job_id" in r && "status" in r && "local_path" in r && "output_path" in record
              && r["job_id"] == Get(input, "job_id")
              && r["status"] == StatusCompleted
              && r["local_path"] == record["output_path"]
              && ("download_url" in r <==> Truthy(Get(record, "presigned_url")))
              && ("download_url" in r ==> r["download_url"] == record["presigned_url"])
              && (Truthy(Get(record, "presigned_url")) ==> r.Keys == {"job_id", "status", "download_url", "local_path"})
              && (!Truthy(Get(record, "presigned_url")) ==>
                    r.Keys == {"job_id", "status", "local_path", "message"} && r["message"] == Str(VolumeMessage))
  {
    var id := Get(input, "job_id");
    if !Truthy(id) then ErrorReply(JobIdRequired)
    else if !(id.Str? && id.s in jobs) then ErrorReply(JobNotFound)
    else
      var info := jobs[id.s];
      if info["status"] != StatusCompleted then ErrorReply(NotCompletedPrefix + Render(info["status"]))
      else
        var outputPath := Get(info, "output_path");
        if !Truthy(outputPath) || !fileExists(outputPath.s) then ErrorReply(OutputNotFound)
        else
          var url := Get(info, "presigned_url");
          if Truthy(url) then
            map["job_id" := id, "status" := StatusCompleted, "download_url" := url, "local_path" := outputPath]
          else
            map["job_id" := id, "status" := StatusCompleted, "local_path" := outputPath, "message" := Str(VolumeMessage)]
  }

  /** A query naming job `jobId`. */
  function JobQuery(jobId: string): Dict {
    map["job_id" := Str(jobId)]
  }

  /** Right after `generate` returns, the job's status is its terminal record. */
  lemma StatusAfterGenerate(jobs: map<string, Dict>, jobId: string, result: JobResult, at: int)
    requires jobId != ""
    ensures var after := jobs[jobId := TerminalRecord(result, at)];
            CheckStatus(after, JobQuery(jobId)) == TerminalRecord(result, at)
            && IsTerminal(CheckStatus(after, JobQuery(jobId)))
  {
    assert Known(jobs[jobId := TerminalRecord(result, at)], JobQuery(jobId));
  }

  /** What `get_output` answers for a job that `generate` finished: a failed
      job is "not completed"; a completed job whose file has vanished (or was
      never produced) is "Output file not found"; otherwise its output path,
      with the download URL exactly when an upload succeeded. */
  lemma OutputAfterGenerate(jobs: map<string, Dict>, jobId: string, result: JobResult, at: int, fileExists: string -> bool)
    requires StoreShaped(jobs) && jobId != ""
    requires result.Succeeded? ==> result.outputPath != ""
    ensures var after := jobs[jobId := TerminalRecord(result, at)];
            var r := GetOutput(after, JobQuery(jobId), fileExists);
            && (result.Failed? ==> r == ErrorReply(NotCompletedPrefix + "failed"))
            && (result.Succeeded? && !fileExists(result.outputPath) ==> r == ErrorReply(OutputNotFound))
            && (result.Succeeded? && fileExists(result.outputPath) ==>
                  && "error" !in r
                  && r["local_path"] == Str(result.outputPath)
                  && ("download_url" in r <==> Truthy(result.presignedUrl)))
  {
    var after := jobs[jobId := TerminalRecord(result, at)];
    assert Known(after, JobQuery(jobId));
    assert StoreShaped(after);
  }

  // ----------------------------------------------------------- the worker

  /** One worker process: its job map, its model flag, and the external
      configuration fixed when the module is imported. */
  class Worker {
    /** OUTPUT_STORAGE_PATH: the volume or /tmp, chosen at start-up. */
    const outputRoot: string
    /** Whether BUCKET_ENDPOINT_URL was set, so that an S3 client exists. */
    const s3Configured: bool

    var jobs: map<string, Dict>
    var modelLoaded: bool

    /** Every assignment to the job map, in order. */
    ghost var log: seq<Write>
    /** Every external call made by `generate`, in order. */
    ghost var calls: seq<Call>
    /** How many times the models were actually loaded. */
    ghost var loads: nat

    ghost predicate Valid()
      reads this
    {
      && jobs == Replay(log)
      && Lifecycle(log)
      && loads == (if modelLoaded then 1 else 0)
    }

    constructor(outputRoot: string, s3Configured: bool)
      ensures Valid()
      ensures this.outputRoot == outputRoot && this.s3Configured == s3Configured
      ensures jobs == map[] && !modelLoaded && log == [] && calls == []
    {
      this.outputRoot := outputRoot;
      this.s3Configured := s3Configured;
      jobs := map[];
      modelLoaded := false;
      log := [];
      calls := [];
      loads := 0;
    }

    /** `load_models`: guarded by the flag, so the models are loaded at most
        once per process however often it is called. */
    method LoadModels()
      requires Valid()
      modifies this
      ensures Valid() && modelLoaded && loads == 1
      ensures loads == old(loads) + (if old(modelLoaded) then 0 else 1)
      ensures jobs == old(jobs) && log == old(log) && calls == old(calls)
    {
      if modelLoaded {
        return;
      }
      loads := loads + 1;
      modelLoaded := true;
    }

    /** `jobs_status[jobId] = record`. */
    method Put(jobId: string, record: Dict)
      requires jobs == Replay(log)
      modifies this
      ensures jobs == old(jobs)[jobId := record] && log == old(log) + [(jobId, record)]
      ensures jobs == Replay(log)
      ensures calls == old(calls) && modelLoaded == old(modelLoaded) && loads == old(loads)
    {
      jobs := jobs[jobId := record];
      log := log + [(jobId, record)];
      assert log[..|log| - 1] == old(log);
    }

    /** The terminal write of a job whose in-progress record was the one
        write after `before`; it restores the lifecycle. */
    method Conclude(jobId: string, result: JobResult, at: int, ghost startedAt: int, ghost before: seq<Write>)
      returns (reply: Dict)
      requires log == before + [(jobId, InProgressRecord(startedAt))] && jobs == Replay(log)
      requires Lifecycle(before) && jobId !in Replay(before)
      requires loads == (if modelLoaded then 1 else 0)
      modifies this
      ensures Valid()
      ensures jobs == Replay(before)[jobId := TerminalRecord(result, at)]
      ensures log == before + [(jobId, InProgressRecord(startedAt)), (jobId, TerminalRecord(result, at))]
      ensures calls == old(calls) && modelLoaded == old(modelLoaded) && loads == old(loads)
      ensures reply == GenerateReply(jobId, result)
    {
      Put(jobId, TerminalRecord(result, at));
      LifecycleExtend(before, jobId, InProgressRecord(startedAt), TerminalRecord(result, at));
      assert log == before + [(jobId, InProgressRecord(startedAt)), (jobId, TerminalRecord(result, at))];
      reply := GenerateReply(jobId, result);
    }

    /** runpod_handler.py:87-109: the local paths, replaced by download destinations when
        a path is missing, and the first exception raised on the way. */
    method ResolvePaths(input: Dict, jobId: string, fx: Effects) returns (audioPath: Value, imagePath: Value, failure: Option<string>)
      modifies this`calls
      ensures var r := Resolve(input, jobId, fx);
              audioPath == r.audio && imagePath == r.image && failure == r.failure && calls == old(calls) + r.calls
    {
      ghost var base := calls;
      failure := None;
      audioPath := Get(input, "audio_path");
      imagePath := Get(input, "image_path");
      if !Truthy(audioPath) || !Truthy(imagePath) {
        var audioUrl := Get(input, "audio_url");
        ghost var audioCalls := [];
        if Truthy(audioUrl) {
          audioPath := Str(AudioDownloadPath(jobId));
          if !audioUrl.Str? {
            failure := Some(ArgTypeError(audioUrl));
            return;
          }
          audioCalls := [Wget(AudioDownloadPath(jobId), audioUrl)];
          calls := calls + audioCalls;
          if fx.audioFetch.FetchRaised? {
            failure := Some(fx.audioFetch.message);
            return;
          }
        }
        imagePath, failure := FetchVisual(input, jobId, fx, audioPath, imagePath, audioCalls, base);
      }
    }

    /** runpod_handler.py:97-109, once the audio is settled: the visual download, if a
        visual URL was given. */
    method FetchVisual(input: Dict, jobId: string, fx: Effects, audioPath: Value, imagePath: Value,
                       ghost audioCalls: seq<Call>, ghost base: seq<Call>)
      returns (visualPath: Value, failure: Option<string>)
      requires imagePath == Get(input, "image_path") && calls == base + audioCalls
      modifies this`calls
      ensures var r := ResolveVisual(input, jobId, fx, audioPath, audioCalls);
              visualPath == r.image && failure == r.failure && calls == base + r.calls
    {
      failure := None;
      visualPath := imagePath;
      var imageUrl := Get(input, "image_url");
      if Truthy(imageUrl) {
        if !imageUrl.Str? {
          failure := Some(NoAttribute(imageUrl, "split"));
          return;
        }
        var dest := ImageDownloadPath(jobId, imageUrl.s);
        visualPath := Str(dest);
        calls := calls + [Wget(dest, imageUrl)];
        if fx.imageFetch.FetchRaised? {
          failure := Some(fx.imageFetch.message);
          return;
        }
      }
    }

    /** The body of the `try` in runpod_handler.py:86-203, up to the outcome: each
        `raise` becomes the failed result handed to the `except` clause. */
    method Execute(input: Dict, jobId: string, fx: Effects) returns (result: JobResult)
      modifies this`calls
      ensures var o := Run(outputRoot, s3Configured, input, jobId, fx);
              result == o.result && calls == old(calls) + o.calls
    {
      ghost var base := calls;
      var audioPath, imagePath, failure := ResolvePaths(input, jobId, fx);
      result := ExecuteResolved(input, jobId, fx, audioPath, imagePath, failure, Resolve(input, jobId, fx), base);
    }

    /** runpod_handler.py:111-203, once the paths are resolved: the input check, the
        launch, and the upload of a present output. */
    method ExecuteResolved(input: Dict, jobId: string, fx: Effects, audioPath: Value, imagePath: Value, failure: Option<string>,
                           ghost r: Resolution, ghost base: seq<Call>)
      returns (result: JobResult)
      requires audioPath == r.audio && imagePath == r.image && failure == r.failure && calls == base + r.calls
      modifies this`calls
      ensures var o := RunResolved(outputRoot, s3Configured, input, jobId, fx, r);
              result == o.result && calls == base + o.calls
    {
      if failure.Some? {
        return Failed(failure.value);
      }
      if !Truthy(audioPath) || !Truthy(imagePath) {
        return Failed(InputErrorMessage);
      }
      var outputPath := OutputPath(outputRoot, jobId);
      var config := ConfigOf(input);
      var prompt := GetOr(input, "prompt", Str(DefaultPrompt));
      if !imagePath.Str? {
        return Failed(NoAttribute(imagePath, "lower"));
      }
      var invocation := InvocationInput(prompt, audioPath, ClassifyVisual(imagePath.s));
      if !config.size.Str? {
        return Failed(JoinTypeError(config.size));
      }
      calls := calls + [Launch(invocation, config, outputPath)];
      assert invocation == LaunchCall(outputRoot, input, jobId, r).input;

      if fx.run.LaunchRaised? {
        return Failed(fx.run.message);
      }
      if fx.run.returnCode != 0 {
        return Failed(GenerationFailedPrefix + fx.run.stderr);
      }

      var presignedUrl := Null;
      if s3Configured && fx.outputExists {
        calls := calls + [Upload(outputPath, UploadKey(jobId))];
        if fx.publish.Presigned? {
          presignedUrl := Str(fx.publish.url);
        }
      }
      result := Succeeded(outputPath, presignedUrl);
    }

    /** `generate_video`: one in-progress write under the fresh id, then the
        pipeline, then exactly one terminal write; the record and the reply
        follow `Run`, and no other job is touched. */
    method GenerateVideo(input: Dict, jobId: string, fx: Effects, startedAt: int, finishedAt: int) returns (reply: Dict)
      requires Valid() && jobId !in jobs && jobId != ""
      modifies this
      ensures Valid()
      ensures var o := Run(outputRoot, s3Configured, input, jobId, fx);
              && jobs == old(jobs)[jobId := TerminalRecord(o.result, finishedAt)]
              && log == old(log) + [(jobId, InProgressRecord(startedAt)), (jobId, TerminalRecord(o.result, finishedAt))]
              && calls == old(calls) + o.calls
              && reply == GenerateReply(jobId, o.result)
      ensures modelLoaded == old(modelLoaded) && loads == old(loads)
    {
      ghost var before := log;
      Put(jobId, InProgressRecord(startedAt));
      var result := Execute(input, jobId, fx);
      reply := Conclude(jobId, result, finishedAt, startedAt, before);
    }

    /** `handler`: the action defaults to generate; the models are loaded
        only on the way to a generate; the queries and an unknown action
        change nothing. */
    method Handle(input: Dict, jobId: string, fx: Effects, startedAt: int, finishedAt: int, fileExists: string -> bool)
      returns (reply: Dict)
      requires Valid() && jobId !in jobs && jobId != ""
      modifies this
      ensures Valid()
      ensures ActionOf(input) == Generate ==>
                var o := Run(outputRoot, s3Configured, input, jobId, fx);
                && modelLoaded && loads == 1
                && jobs == old(jobs)[jobId := TerminalRecord(o.result, finishedAt)]
                && calls == old(calls) + o.calls
                && reply == GenerateReply(jobId, o.result)
      ensures ActionOf(input) != Generate ==>
                && jobs == old(jobs) && log == old(log) && calls == old(calls)
                && modelLoaded == old(modelLoaded) && loads == old(loads)
      ensures ActionOf(input) == Status ==> reply == CheckStatus(old(jobs), input)
      ensures ActionOf(input) == FetchOutput ==> StoreShaped(old(jobs)) && reply == GetOutput(old(jobs), input, fileExists)
      ensures ActionOf(input).Unknown? ==> reply == UnknownActionReply(ActionOf(input).action)
    {
      var action := GetOr(input, "action", Str("generate"));
      if !modelLoaded && action == Str("generate") {
        LoadModels();
      }
      if action == Str("generate") {
        reply := GenerateVideo(input, jobId, fx, startedAt, finishedAt);
      } else if action == Str("status") {
        reply := CheckStatus(jobs, input);
      } else if action == Str("get_output") {
        LifecycleAllTerminal(log);
        reply := GetOutput(jobs, input, fileExists);
      } else {
        reply := UnknownActionReply(action);
      }
    }
  }
}
