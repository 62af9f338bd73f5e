/** The process-wide job map `jobs_status`: the record shapes written into it
    and the lifecycle every job follows.  Each `generate` request writes its
    job twice, first an in-progress record and then one terminal record; the
    ghost write log kept beside the map lets that lifecycle be stated. */
module JobStore {
  import opened Values

  const StatusInProgress := Str("in_progress")
  const StatusCompleted := Str("completed")
  const StatusFailed := Str("failed")

  /** The record written when a job is accepted. */
  function InProgressRecord(startedAt: int): Dict {
    map["status" := StatusInProgress, "started_at" := Int(startedAt), "progress" := Int(0)]
  }

  /** The record written when generation succeeded; `presignedUrl` is None
      when nothing was uploaded. */
  function CompletedRecord(outputPath: string, presignedUrl: Value, completedAt: int): Dict {
    map["status" := StatusCompleted, "output_path" := Str(outputPath),
        "presigned_url" := presignedUrl, "completed_at" := Int(completedAt)]
  }

  /** The record written when any step of the pipeline raised. */
  function FailedRecord(error: string, failedAt: int): Dict {
    map["status" := StatusFailed, "error" := Str(error), "failed_at" := Int(failedAt)]
  }

  function StatusOf(record: Dict): Value {
    Get(record, "status")
  }

  /** A record the queries can read without a KeyError: it has a status, and
      an `output_path` if any is a string. */
  predicate Shaped(record: Dict) {
    "status" in record && (Get(record, "output_path").Null? || Get(record, "output_path").Str?)
  }

  predicate IsInProgress(record: Dict) {
    Shaped(record) && StatusOf(record) == StatusInProgress
  }

  predicate IsTerminal(record: Dict) {
    Shaped(record) && (StatusOf(record) == StatusCompleted || StatusOf(record) == StatusFailed)
  }

  predicate StoreShaped(jobs: map<string, Dict>) {
    forall id :: id in jobs ==> Shaped(jobs[id])
  }

  /** One assignment `jobs_status[id] = record`. */
  type Write = (string, Dict)

  /** The map that a sequence of writes leaves behind, starting from `{}`. */
  function Replay(log: seq<Write>): map<string, Dict> {
    if log == [] then map[]
    else Replay(log[..|log| - 1])[log[|log| - 1].0 := log[|log| - 1].1]
  }

  /** The records written for `id`, in order. */
  function WritesOf(log: seq<Write>, id: string): seq<Dict> {
    if log == [] then []
    else WritesOf(log[..|log| - 1], id) + (if log[|log| - 1].0 == id then [log[|log| - 1].1] else [])
  }

  /** The lifecycle of the store between requests: the log is a sequence of
      pairs, each pair writing a job id not seen before, first in progress and
      then terminal. */
  ghost predicate Lifecycle(log: seq<Write>) {
    if log == [] then true
    else
      && |log| >= 2
      && var earlier := log[..|log| - 2];
      && var (id, first) := log[|log| - 2];
      && var (id', last) := log[|log| - 1];
      && Lifecycle(earlier)
      && id !in Replay(earlier)
      && id == id'
      && IsInProgress(first)
      && IsTerminal(last)
  }

  /** Accepting a fresh job and finishing it keeps the lifecycle. */
  lemma LifecycleExtend(log: seq<Write>, id: string, first: Dict, last: Dict)
    requires Lifecycle(log)
    requires id !in Replay(log)
    requires IsInProgress(first) && IsTerminal(last)
    ensures Lifecycle(log + [(id, first), (id, last)])
    ensures Replay(log + [(id, first), (id, last)]) == Replay(log)[id := last]
  {
    var ext := log + [(id, first), (id, last)];
    assert ext[..|ext| - 2] == log;
    assert ext[..|ext| - 1] == log + [(id, first)];
    assert (log + [(id, first)])[..|log|] == log;
  }

  /** A job the map does not hold was never written. */
  lemma {:induction false} UnknownNeverWritten(log: seq<Write>, id: string)
    requires id !in Replay(log)
    ensures WritesOf(log, id) == []
  {
    if log != [] {
      UnknownNeverWritten(log[..|log| - 1], id);
    }
  }

  /** Under the lifecycle, every job in the map was written exactly twice,
      in progress first and terminal second, and holds its terminal record:
      no job is left in progress and none leaves its terminal state. */
  lemma {:induction false} WrittenTwice(log: seq<Write>, id: string)
    requires Lifecycle(log)
    requires id in Replay(log)
    ensures |WritesOf(log, id)| == 2
    ensures IsInProgress(WritesOf(log, id)[0]) && IsTerminal(WritesOf(log, id)[1])
    ensures Replay(log)[id] == WritesOf(log, id)[1]
  {
    var n := |log|;
    var earlier := log[..n - 2];
    var (x, first) := log[n - 2];
    var (_, last) := log[n - 1];
    assert log[..n - 1][..n - 2] == earlier;
    assert Replay(log) == Replay(earlier)[x := first][x := last];
    assert WritesOf(log, id) == WritesOf(earlier, id) + (if x == id then [first, last] else []);
    if x == id {
      UnknownNeverWritten(earlier, id);
    } else {
      WrittenTwice(earlier, id);
    }
  }

  /** Under the lifecycle, every record in the map is terminal. */
  lemma LifecycleAllTerminal(log: seq<Write>)
    requires Lifecycle(log)
    ensures forall id :: id in Replay(log) ==> IsTerminal(Replay(log)[id])
    ensures StoreShaped(Replay(log))
  {
    forall id | id in Replay(log) ensures IsTerminal(Replay(log)[id]) {
      WrittenTwice(log, id);
    }
  }
}
