/** The command-line test client: three request payloads, and a loop that
    submits a generation and then polls its status every 10 seconds for at
    most 1800 seconds, ending completed (one output fetch), failed, or timed
    out.  The endpoint's replies and the time each call takes are
    parameters. */
module Client {
  import opened Values
  import opened JobStore
  import opened Router
  import Generation
  import Handler

  const MaxWait := 1800
  const PollInterval := 10
  /** The most status polls when the clock moves only by the sleeps. */
  const MaxPolls := 180
  const TimeoutReply: Dict := map["error" := Str("Timeout")]

  /** The keyword arguments of `generate_video`; `None` means the argument
      was not passed and its default is used. */
  datatype Options = Options(
    size: Option<Value>,
    frameNum: Option<Value>,
    maxFrameNum: Option<Value>,
    sampleSteps: Option<Value>,
    cfgScale: Option<Value>,
    seed: Option<Value>)

  const NoOptions := Options(None, None, None, None, None, None)

  function Pick(o: Option<Value>, default: Value): Value {
    match o
    case Some(v) => v
    case None => default
  }

  const GeneratePayloadKeys := {"action", "audio_url", "image_url", "size", "frame_num", "max_frame_num",
                                "sample_steps", "cfg_scale", "seed"}

  /** The payload of `generate_video`: every parameter is always sent, the
      default standing in for one not given; `sample_shift` is never sent. */
  function GeneratePayload(audioUrl: string, imageUrl: string, opts: Options): (p: Dict)
    ensures p.Keys == GeneratePayloadKeys
    ensures p["action"] == Str("generate") && p["audio_url"] == Str(audioUrl) && p["image_url"] == Str(imageUrl)
    ensures "sample_shift" !in p && "audio_path" !in p && "image_path" !in p
  {
    map["action" := Str("generate"),
        "audio_url" := Str(audioUrl),
        "image_url" := Str(imageUrl),
        "size" := Pick(opts.size, Str(Generation.DefaultSize)),
        "frame_num" := Pick(opts.frameNum, Int(81)),
        "max_frame_num" := Pick(opts.maxFrameNum, Int(1000)),
        "sample_steps" := Pick(opts.sampleSteps, Int(40)),
        "cfg_scale" := Pick(opts.cfgScale, Float("1.1")),
        "seed" := Pick(opts.seed, Int(-1))]
  }

  function StatusPayload(jobId: Value): Dict {
    map["action" := Str("status"), "job_id" := jobId]
  }

  function OutputPayload(jobId: Value): Dict {
    map["action" := Str("get_output"), "job_id" := jobId]
  }

  /** The client's payloads reach the branches they are meant for, and the
      two queries carry the job id where the handler looks for it. */
  lemma PayloadsRoute(audioUrl: string, imageUrl: string, opts: Options, jobId: Value)
    ensures ActionOf(GeneratePayload(audioUrl, imageUrl, opts)) == Generate
    ensures ActionOf(StatusPayload(jobId)) == Status && Get(StatusPayload(jobId), "job_id") == jobId
    ensures ActionOf(OutputPayload(jobId)) == FetchOutput && Get(OutputPayload(jobId), "job_id") == jobId
  {
  }

  /** The handler reads back exactly the parameters the client sent; the
      client's defaults are the handler's own, so a call with no options
      runs the handler's default configuration; `sample_shift` always
      follows the size. */
  lemma PayloadConfig(audioUrl: string, imageUrl: string, opts: Options)
    ensures var c := Generation.ConfigOf(GeneratePayload(audioUrl, imageUrl, opts));
            && c.size == Pick(opts.size, Str(Generation.DefaultSize))
            && c.frameNum == Pick(opts.frameNum, Int(81))
            && c.maxFrameNum == Pick(opts.maxFrameNum, Int(1000))
            && c.sampleSteps == Pick(opts.sampleSteps, Int(40))
            && c.cfgScale == Pick(opts.cfgScale, Float("1.1"))
            && c.seed == Pick(opts.seed, Int(-1))
            && c.sampleShift == (if c.size == Str(Generation.DefaultSize) then Int(7) else Int(11))
    ensures Generation.ConfigOf(GeneratePayload(audioUrl, imageUrl, NoOptions)) == Generation.DefaultConfig
  {
    var p := GeneratePayload(audioUrl, imageUrl, NoOptions);
    assert p["size"] == Str(Generation.DefaultSize);
  }

  /** The generate result that ends `generate_and_wait` at once: one with an
      error, or one without a usable job id. */
  predicate Rejected(generated: Dict) {
    "error" in generated || !Truthy(Get(generated, "job_id"))
  }

  /** The client polls exactly for the generations the handler reports as
      succeeded: a failure reply carries an error and is handed back. */
  lemma PollsOnlyAfterSuccess(jobId: string, result: Generation.JobResult)
    requires jobId != ""
    ensures Rejected(Handler.GenerateReply(jobId, result)) <==> result.Failed?
    ensures !Rejected(Handler.GenerateReply(jobId, result)) ==>
              Get(Handler.GenerateReply(jobId, result), "job_id") == Str(jobId)
  {
  }

  predicate StatusIs(reply: Dict, status: Value) {
    Get(reply, "status") == status
  }

  /** A status reply that ends the wait. */
  predicate Final(reply: Dict) {
    StatusIs(reply, StatusCompleted) || StatusIs(reply, StatusFailed)
  }

  /** The seconds `time.time() - start_time` reads at the check before poll
      `k`: `delay(0)` before the first check, then per round the 10-second
      sleep plus `delay(k)`, the time the round's calls took. */
  function Elapsed(delay: nat -> nat, k: nat): nat {
    if k == 0 then delay(0) else Elapsed(delay, k - 1) + PollInterval + delay(k)
  }

  /** Each round costs at least the sleep, so the budget bounds the polls. */
  lemma {:induction false} ElapsedAtLeastSleeps(delay: nat -> nat, k: nat)
    ensures Elapsed(delay, k) >= PollInterval * k
  {
    if k > 0 {
      ElapsedAtLeastSleeps(delay, k - 1);
    }
  }

  /** The clock never goes back. */
  lemma {:induction false} ElapsedMonotone(delay: nat -> nat, i: nat, j: nat)
    requires i <= j
    ensures Elapsed(delay, i) <= Elapsed(delay, j)
  {
    if i < j {
      ElapsedMonotone(delay, i, j - 1);
    }
  }

  /** Every poll of a wait whose last poll was within the budget was within
      the budget. */
  lemma PollsWithinBudget(delay: nat -> nat, polls: nat)
    requires polls == 0 || Elapsed(delay, polls - 1) < MaxWait
    ensures forall k :: 0 <= k < polls ==> Elapsed(delay, k) < MaxWait
  {
    forall k | 0 <= k < polls
      ensures Elapsed(delay, k) < MaxWait
    {
      ElapsedMonotone(delay, k, polls - 1);
    }
  }

  /** The clock of a run in which the calls take no time. */
  const NoDelay: nat -> nat := _ => 0

  lemma {:induction false} ElapsedBySleepsOnly(k: nat)
    ensures Elapsed(NoDelay, k) == PollInterval * k
  {
    if k > 0 {
      ElapsedBySleepsOnly(k - 1);
    }
  }

  /** `n` status requests for `jobId`. */
  function StatusPayloads(jobId: Value, n: nat): (s: seq<Dict>)
    ensures |s| == n && forall k :: 0 <= k < n ==> s[k] == StatusPayload(jobId)
  {
    if n == 0 then [] else StatusPayloads(jobId, n - 1) + [StatusPayload(jobId)]
  }

  /** None of the first `n` status replies ends the wait. */
  predicate NoneFinal(statusReplies: nat -> Dict, n: nat) {
    n == 0 || (NoneFinal(statusReplies, n - 1) && !Final(statusReplies(n - 1)))
  }

  lemma {:induction false} NoneFinalBefore(statusReplies: nat -> Dict, n: nat, j: nat)
    requires NoneFinal(statusReplies, n) && j < n
    ensures !Final(statusReplies(j))
  {
    if j < n - 1 {
      NoneFinalBefore(statusReplies, n - 1, j);
    }
  }

  /** How the wait for job `jobId` ended after `polls` status requests;
      `sent` lists the requests of the wait. */
  ghost predicate WaitEnded(jobId: Value, statusReplies: nat -> Dict, outputReply: Dict, delay: nat -> nat,
                            result: Dict, polls: nat, sent: seq<Dict>)
  {
    && polls <= MaxPolls
    && (polls == 0 || Elapsed(delay, polls - 1) < MaxWait)
    && (polls > 0 ==> NoneFinal(statusReplies, polls - 1))
    && if polls > 0 && StatusIs(statusReplies(polls - 1), StatusCompleted) then
         result == outputReply && sent == StatusPayloads(jobId, polls) + [OutputPayload(jobId)]
       else if polls > 0 && StatusIs(statusReplies(polls - 1), StatusFailed) then
         result == statusReplies(polls - 1) && sent == StatusPayloads(jobId, polls)
       else
         result == TimeoutReply && Elapsed(delay, polls) >= MaxWait && sent == StatusPayloads(jobId, polls)
  }

  // The three ways out of `Wait`.  Each lemma takes the out-parameters
  // `result`, `polls` and `sent` themselves, pinned by its requires, so that
  // its ensures is literally `Wait`'s postcondition at that `return` and that
  // postcondition costs the solver one match instead of a search.

  /** A completed status reply on poll `k + 1` ends the wait with the
      output request. */
  lemma WaitCompletes(jobId: Value, statusReplies: nat -> Dict, outputReply: Dict, delay: nat -> nat,
                      k: nat, result: Dict, polls: nat, sent: seq<Dict>)
    requires PollInterval * k <= Elapsed(delay, k) < MaxWait
    requires NoneFinal(statusReplies, k) && StatusIs(statusReplies(k), StatusCompleted)
    requires sent == StatusPayloads(jobId, k) + [StatusPayload(jobId), OutputPayload(jobId)]
    requires result == outputReply && polls == k + 1
    ensures WaitEnded(jobId, statusReplies, outputReply, delay, result, polls, sent)
  {
  }

  /** A failed status reply on poll `k + 1` is itself the result. */
  lemma WaitFails(jobId: Value, statusReplies: nat -> Dict, outputReply: Dict, delay: nat -> nat,
                  k: nat, result: Dict, polls: nat, sent: seq<Dict>)
    requires PollInterval * k <= Elapsed(delay, k) < MaxWait
    requires NoneFinal(statusReplies, k) && StatusIs(statusReplies(k), StatusFailed)
    requires sent == StatusPayloads(jobId, k) + [StatusPayload(jobId)]
    requires result == statusReplies(k) && polls == k + 1
    ensures WaitEnded(jobId, statusReplies, outputReply, delay, result, polls, sent)
  {
  }

  /** A clock past the budget after `k` non-final polls ends the wait with
      the timeout reply. */
  lemma WaitTimesOut(jobId: Value, statusReplies: nat -> Dict, outputReply: Dict, delay: nat -> nat,
                     k: nat, result: Dict, polls: nat, sent: seq<Dict>)
    requires k <= MaxPolls && (k == 0 || Elapsed(delay, k - 1) < MaxWait)
    requires NoneFinal(statusReplies, k) && Elapsed(delay, k) >= MaxWait
    requires sent == StatusPayloads(jobId, k)
    requires result == TimeoutReply && polls == k
    ensures WaitEnded(jobId, statusReplies, outputReply, delay, result, polls, sent)
  {
  }

  /** A status reply that is neither completed nor failed leads to one
      more round, within the poll bound. */
  lemma WaitContinues(jobId: Value, statusReplies: nat -> Dict, delay: nat -> nat, k: nat)
    requires PollInterval * k <= Elapsed(delay, k) < MaxWait
    requires NoneFinal(statusReplies, k) && !Final(statusReplies(k))
    ensures k + 1 <= MaxPolls && PollInterval * (k + 1) <= Elapsed(delay, k + 1)
    ensures NoneFinal(statusReplies, k + 1)
  {
  }

  /** The polling loop of `generate_and_wait` for job `jobId`:
      `statusReplies(k)` is the reply to the `k`-th status poll,
      `outputReply` the reply to the output request, `delay` the clock as
      for `Elapsed`. */
  method Wait(jobId: Value, statusReplies: nat -> Dict, outputReply: Dict, delay: nat -> nat)
    returns (result: Dict, ghost polls: nat, ghost sent: seq<Dict>)
    ensures WaitEnded(jobId, statusReplies, outputReply, delay, result, polls, sent)
  {
    var k: nat := 0;
    sent := [];
    ElapsedAtLeastSleeps(delay, 0);
    while Elapsed(delay, k) < MaxWait
      invariant k <= MaxPolls && PollInterval * k <= Elapsed(delay, k)
      invariant k == 0 || Elapsed(delay, k - 1) < MaxWait
      invariant NoneFinal(statusReplies, k)
      invariant sent == StatusPayloads(jobId, k)
      decreases MaxWait - PollInterval * k
    {
      var statusResult := statusReplies(k);
      var status := Get(statusResult, "status");
      if status == StatusCompleted {
        sent := sent + [StatusPayload(jobId), OutputPayload(jobId)];
        result, polls := outputReply, k + 1;
        WaitCompletes(jobId, statusReplies, outputReply, delay, k, result, polls, sent);
        return;
      } else if status == StatusFailed {
        sent := sent + [StatusPayload(jobId)];
        result, polls := statusResult, k + 1;
        WaitFails(jobId, statusReplies, outputReply, delay, k, result, polls, sent);
        return;
      }
      sent := sent + [StatusPayload(jobId)];
      WaitContinues(jobId, statusReplies, delay, k);
      k := k + 1;
    }
    result, polls := TimeoutReply, k;
    WaitTimesOut(jobId, statusReplies, outputReply, delay, k, result, polls, sent);
  }

  /** `generate_and_wait`: `generated` is what the generate request
      returned; a rejected one is handed back without any poll, otherwise
      the job id it carries is waited for.  `sent` lists every payload sent,
      in order. */
  method GenerateAndWait(audioUrl: string, imageUrl: string, opts: Options, generated: Dict,
                         statusReplies: nat -> Dict, outputReply: Dict, delay: nat -> nat)
    returns (result: Dict, ghost polls: nat, ghost sent: seq<Dict>)
    ensures Rejected(generated) ==>
              result == generated && polls == 0 && sent == [GeneratePayload(audioUrl, imageUrl, opts)]
    ensures !Rejected(generated) ==>
              exists waited :: sent == [GeneratePayload(audioUrl, imageUrl, opts)] + waited
                && WaitEnded(Get(generated, "job_id"), statusReplies, outputReply, delay, result, polls, waited)
  {
    sent := [GeneratePayload(audioUrl, imageUrl, opts)];
    polls := 0;
    if "error" in generated {
      return generated, polls, sent;
    }
    var jobId := Get(generated, "job_id");
    if !Truthy(jobId) {
      return generated, polls, sent;
    }
    ghost var waited;
    result, polls, waited := Wait(jobId, statusReplies, outputReply, delay);
    sent := sent + waited;
  }

  /** When the job never reaches a final status and the calls take no time,
      the client polls exactly 180 times and then gives up. */
  method TimesOutAfterMaxPolls(audioUrl: string, imageUrl: string, opts: Options, generated: Dict,
                               statusReplies: nat -> Dict, outputReply: Dict)
    returns (result: Dict, ghost polls: nat)
    requires !Rejected(generated)
    requires forall k: nat :: !Final(statusReplies(k))
    ensures result == TimeoutReply && polls == MaxPolls
  {
    ghost var sent;
    result, polls, sent := GenerateAndWait(audioUrl, imageUrl, opts, generated, statusReplies, outputReply, NoDelay);
    ElapsedBySleepsOnly(polls);
  }

  /** A job that reports progress three times and then completes is fetched
      on the fourth poll, well within the budget. */
  method CompletesOnFourthPoll(audioUrl: string, imageUrl: string, opts: Options, generated: Dict,
                               statusReplies: nat -> Dict, outputReply: Dict)
    returns (result: Dict, ghost polls: nat)
    requires !Rejected(generated)
    requires forall k: nat :: k < 3 ==> StatusIs(statusReplies(k), StatusInProgress)
    requires StatusIs(statusReplies(3), StatusCompleted)
    ensures result == outputReply && polls == 4
  {
    ghost var sent;
    result, polls, sent := GenerateAndWait(audioUrl, imageUrl, opts, generated, statusReplies, outputReply, NoDelay);
    ElapsedBySleepsOnly(3);
    if polls <= 3 {
      ElapsedBySleepsOnly(polls);
    } else if polls > 4 {
      NoneFinalBefore(statusReplies, polls - 1, 3);
    }
  }
}
