/** The test twin of the production handler: `generate` never runs anything
    and always succeeds with a fixed fake URL once both inputs are given,
    URLs take precedence over paths, and the queries answer two hard-coded
    test job ids. */
module MockHandler {
  import opened Values
  import opened JobStore
  import opened Router
  import Handler

  /** OUTPUT_STORAGE_PATH of the test handler, which is fixed. */
  const MockOutputRoot := "/tmp/outputs"
  const MissingRecordError := "Missing audio_url/audio_path or image_url/image_path"
  const MissingReplyError := "Missing required inputs"
  const TestInProgressId := "test-123"
  const TestCompletedId := "test-completed"

  function MockOutputPath(jobId: string): string {
    MockOutputRoot + "/" + jobId + ".mp4"
  }

  function MockPresignedUrl(jobId: string): string {
    "https://mock-s3.example.com/" + jobId + ".mp4"
  }

  /** The test handler's output path and fake URL are named after the job
      id, so two jobs never report the same file or URL. */
  lemma MockFilesDistinct(a: string, b: string)
    requires a != b
    ensures MockOutputPath(a) != MockOutputPath(b)
    ensures MockPresignedUrl(a) != MockPresignedUrl(b)
  {
    InfixDetermined(MockOutputRoot + "/", a, b, ".mp4");
    assert MockOutputPath(a) == (MockOutputRoot + "/") + a + ".mp4";
    assert MockOutputPath(b) == (MockOutputRoot + "/") + b + ".mp4";
    InfixDetermined("https://mock-s3.example.com/", a, b, ".mp4");
  }

  /** `job_input.get(url) or job_input.get(path)`: the URL wins whenever it is
      truthy, the path is used otherwise. */
  function MockAsset(input: Dict, urlKey: string, pathKey: string): (v: Value)
    ensures Truthy(Get(input, urlKey)) ==> v == Get(input, urlKey)
    ensures !Truthy(Get(input, urlKey)) ==> v == Get(input, pathKey)
    ensures Truthy(v) <==> Truthy(Get(input, urlKey)) || Truthy(Get(input, pathKey))
  {
    Or(Get(input, urlKey), Get(input, pathKey))
  }

  predicate MockInputsPresent(input: Dict) {
    Truthy(MockAsset(input, "audio_url", "audio_path")) && Truthy(MockAsset(input, "image_url", "image_path"))
  }

  /** The terminal record the test handler stores. */
  function MockRecord(input: Dict, jobId: string, at: int): Dict {
    if MockInputsPresent(input) then CompletedRecord(MockOutputPath(jobId), Str(MockPresignedUrl(jobId)), at)
    else FailedRecord(MissingRecordError, at)
  }

  /** The reply of the test handler's `generate_video`. */
  function MockReply(input: Dict, jobId: string): Dict {
    if MockInputsPresent(input) then
      map["job_id" := Str(jobId), "status" := StatusCompleted,
          "output_path" := Str(MockOutputPath(jobId)), "presigned_url" := Str(MockPresignedUrl(jobId))]
    else
      map["job_id" := Str(jobId), "status" := StatusFailed, "error" := Str(MissingReplyError)]
  }

  /** A mock job completes exactly when each role has a truthy URL or a
      truthy path; what the stored record and the reply say then agrees.  A
      mock failure stores one message and replies with another. */
  lemma MockOutcome(input: Dict, jobId: string, at: int)
    ensures var record, reply := MockRecord(input, jobId, at), MockReply(input, jobId);
            && IsTerminal(record)
            && (StatusOf(record) == StatusCompleted <==>
                  (Truthy(Get(input, "audio_url")) || Truthy(Get(input, "audio_path")))
                  && (Truthy(Get(input, "image_url")) || Truthy(Get(input, "image_path"))))
            && reply["status"] == record["status"]
            && (StatusOf(record) == StatusCompleted ==>
                  && reply["output_path"] == record["output_path"] == Str(MockOutputPath(jobId))
                  && reply["presigned_url"] == record["presigned_url"] == Str(MockPresignedUrl(jobId)))
            && (StatusOf(record) == StatusFailed ==>
                  record["error"] == Str(MissingRecordError) && reply["error"] == Str(MissingReplyError)
                  && reply["error"] != record["error"])
  {
    var audio, image := MockAsset(input, "audio_url", "audio_path"), MockAsset(input, "image_url", "image_path");
    assert MockInputsPresent(input) <==> Truthy(audio) && Truthy(image);
    assert MissingRecordError != MissingReplyError by {
      assert |MissingRecordError| != |MissingReplyError|;
    }
  }

  /** The canned status of "test-123". */
  const TestInProgressReply: Dict :=
    map["job_id" := Str(TestInProgressId), "status" := StatusInProgress, "progress" := Int(50),
        "message" := Str("Processing video...")]

  /** The canned status of "test-completed". */
  const TestCompletedStatus: Dict :=
    map["job_id" := Str(TestCompletedId), "status" := StatusCompleted,
        "output_path" := Str("/tmp/outputs/test-completed.mp4"),
        "presigned_url" := Str("https://mock-s3.example.com/test-completed.mp4")]

  /** The canned output of "test-completed". */
  const TestCompletedOutput: Dict :=
    map["job_id" := Str(TestCompletedId), "status" := StatusCompleted,
        "download_url" := Str("https://mock-s3.example.com/test-completed.mp4"),
        "local_path" := Str("/tmp/outputs/test-completed.mp4")]

  /** The test `check_status`: a stored job wins; the two test ids are
      answered only when the store does not hold them. */
  function MockCheckStatus(jobs: map<string, Dict>, input: Dict): (r: Dict)
    ensures !Truthy(Get(input, "job_id")) ==> r == ErrorReply(Handler.JobIdRequired)
    ensures Handler.Known(jobs, input) ==> r == jobs[Get(input, "job_id").s]
    ensures Truthy(Get(input, "job_id")) && !Handler.Known(jobs, input) ==>
              r == (if Get(input, "job_id") == Str(TestInProgressId) then TestInProgressReply
                    else if Get(input, "job_id") == Str(TestCompletedId) then TestCompletedStatus
                    else ErrorReply(Handler.JobNotFound))
  {
    var id := Get(input, "job_id");
    if !Truthy(id) then ErrorReply(Handler.JobIdRequired)
    else if !(id.Str? && id.s in jobs) then
      if id == Str(TestInProgressId) then TestInProgressReply
      else if id == Str(TestCompletedId) then TestCompletedStatus
      else ErrorReply(Handler.JobNotFound)
    else jobs[id.s]
  }

  /** The test `get_output`: "test-completed" is answered before the store
      is consulted; otherwise not-found and not-completed as in production,
      and a completed job's stored URL and path are returned without any
      file check (a missing value comes back as None). */
  function MockGetOutput(jobs: map<string, Dict>, input: Dict): (r: Dict)
    requires StoreShaped(jobs)
    ensures !Truthy(Get(input, "job_id")) ==> r == ErrorReply(Handler.JobIdRequired)
    ensures Get(input, "job_id") == Str(TestCompletedId) ==> r == TestCompletedOutput
    ensures Truthy(Get(input, "job_id")) && Get(input, "job_id") != Str(TestCompletedId) ==>
              if !Handler.Known(jobs, input) then r == ErrorReply(Handler.JobNotFound)
              else
                var record := jobs[Get(input, "job_id").s];
                if StatusOf(record) != StatusCompleted then
                  r == ErrorReply(Handler.NotCompletedPrefix + Render(StatusOf(record)))
                else
                  && r.Keys == {"job_id", "status", "download_url", "local_path"}
                  && r["job_id"] == Get(input, "job_id")
                  && r["status"] == StatusCompleted
                  && r["download_url"] == Get(record, "presigned_url")
                  && r["local_path"] == Get(record, "output_path")
  {
    var id := Get(input, "job_id");
    if !Truthy(id) then ErrorReply(Handler.JobIdRequired)
    else if id == Str(TestCompletedId) then TestCompletedOutput
    else if !(id.Str? && id.s in jobs) then ErrorReply(Handler.JobNotFound)
    else
      var info := jobs[id.s];
      if info["status"] != StatusCompleted then ErrorReply(Handler.NotCompletedPrefix + Render(info["status"]))
      else
        map["job_id" := id, "status" := StatusCompleted,
            "download_url" := Get(info, "presigned_url"), "local_path" := Get(info, "output_path")]
  }

  /** The test handler's in-memory job map. */
  class MockWorker {
    var jobs: map<string, Dict>
    /** Every assignment to the job map, in order. */
    ghost var log: seq<Write>

    ghost predicate Valid()
      reads this
    {
      jobs == Replay(log) && Lifecycle(log)
    }

    constructor()
      ensures Valid() && jobs == map[] && log == []
    {
      jobs := map[];
      log := [];
    }

    method Put(jobId: string, record: Dict)
      requires jobs == Replay(log)
      modifies this
      ensures jobs == old(jobs)[jobId := record] && log == old(log) + [(jobId, record)]
      ensures jobs == Replay(log)
    {
      jobs := jobs[jobId := record];
      log := log + [(jobId, record)];
      assert log[..|log| - 1] == old(log);
    }

    /** The test `generate_video`: an in-progress write, then one terminal
        write decided by the presence of the inputs alone. */
    method GenerateVideo(input: Dict, jobId: string, startedAt: int, finishedAt: int) returns (reply: Dict)
      requires Valid() && jobId !in jobs && jobId != ""
      modifies this
      ensures Valid()
      ensures jobs == old(jobs)[jobId := MockRecord(input, jobId, finishedAt)]
      ensures log == old(log) + [(jobId, InProgressRecord(startedAt)), (jobId, MockRecord(input, jobId, finishedAt))]
      ensures reply == MockReply(input, jobId)
    {
      ghost var before := log;
      Put(jobId, InProgressRecord(startedAt));
      var record;
      record, reply := Decide(input, jobId, finishedAt);
      Conclude(jobId, record, startedAt, before);
    }

    /** The body of the test `generate_video` between its two writes: the
        inputs are looked up URL first, and their presence alone decides. */
    static method Decide(input: Dict, jobId: string, finishedAt: int) returns (record: Dict, reply: Dict)
      ensures IsTerminal(record)
      ensures record == MockRecord(input, jobId, finishedAt) && reply == MockReply(input, jobId)
    {
      var audio := Or(Get(input, "audio_url"), Get(input, "audio_path"));
      var image := Or(Get(input, "image_url"), Get(input, "image_path"));
      if !Truthy(audio) || !Truthy(image) {
        record := FailedRecord(MissingRecordError, finishedAt);
        reply := map["job_id" := Str(jobId), "status" := StatusFailed, "error" := Str(MissingReplyError)];
      } else {
        var outputPath := MockOutputPath(jobId);
        record := CompletedRecord(outputPath, Str(MockPresignedUrl(jobId)), finishedAt);
        reply := map["job_id" := Str(jobId), "status" := StatusCompleted,
                     "output_path" := Str(outputPath), "presigned_url" := Str(MockPresignedUrl(jobId))];
      }
    }

    /** The terminal write of a job accepted by `GenerateVideo`, whose
        in-progress record was the one write after `before`. */
    method Conclude(jobId: string, record: Dict, ghost startedAt: int, ghost before: seq<Write>)
      requires log == before + [(jobId, InProgressRecord(startedAt))] && jobs == Replay(log)
      requires Lifecycle(before) && jobId !in Replay(before)
      requires IsTerminal(record)
      modifies this
      ensures Valid()
      ensures jobs == Replay(before)[jobId := record]
      ensures log == before + [(jobId, InProgressRecord(startedAt)), (jobId, record)]
    {
      Put(jobId, record);
      LifecycleExtend(before, jobId, InProgressRecord(startedAt), record);
      assert log == before + [(jobId, InProgressRecord(startedAt)), (jobId, record)];
    }

    /** The test `handler`: the same dispatch as production, without any
        model loading. */
    method Handle(input: Dict, jobId: string, startedAt: int, finishedAt: int) returns (reply: Dict)
      requires Valid() && jobId !in jobs && jobId != ""
      modifies this
      ensures Valid()
      ensures ActionOf(input) == Generate ==>
                jobs == old(jobs)[jobId := MockRecord(input, jobId, finishedAt)] && reply == MockReply(input, jobId)
      ensures ActionOf(input) != Generate ==> jobs == old(jobs) && log == old(log)
      ensures ActionOf(input) == Status ==> reply == MockCheckStatus(old(jobs), input)
      ensures ActionOf(input) == FetchOutput ==> StoreShaped(old(jobs)) && reply == MockGetOutput(old(jobs), input)
      ensures ActionOf(input).Unknown? ==> reply == UnknownActionReply(ActionOf(input).action)
    {
      var action := GetOr(input, "action", Str("generate"));
      if action == Str("generate") {
        reply := GenerateVideo(input, jobId, startedAt, finishedAt);
      } else if action == Str("status") {
        reply := MockCheckStatus(jobs, input);
      } else if action == Str("get_output") {
        LifecycleAllTerminal(log);
        reply := MockGetOutput(jobs, input);
      } else {
        reply := UnknownActionReply(action);
      }
    }
  }
}
