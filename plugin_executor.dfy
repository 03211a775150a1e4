/** The plugin execution sidecar's lease/ack loop: pull work from the plugin
    work queue, sleep when there is none, otherwise process the job and
    acknowledge it unless processing failed with a retriable error. The work
    queue and the plugin are outside the model: what they answer at each
    iteration is a script entry, and what is sent to them is recorded in
    effect logs. */
module PluginExecutor {
  import opened Wrappers
  import opened Text
  import opened Pipeline

  /** An execution job as handed out by the work queue. */
  datatype Job = Job(data: seq<byte>, tenantId: Uuid, traceId: Uuid, eventSourceId: Uuid)

  /** The error of `process_job`, with its `is_retriable()` classification. */
  datatype ProcessError = ProcessError(retriable: bool)

  /** The result of `process_job`; the success value is the plugin's output. */
  type ProcessResult = Result<seq<byte>, ProcessError>

  /** What one iteration of the loop is told by the outside world: `get_work`
      fails; or it returns a request without a job; or it returns a job,
      together with what processing it yields and whether `ack_work`
      succeeds. */
  datatype Pull =
    | PullFailed
    | NoJob(requestId: nat)
    | JobPulled(requestId: nat, job: Job, result: ProcessResult, ackOk: bool)

  /** The arguments of one `ack_work` call. */
  datatype Ack = Ack(result: ProcessResult, requestId: nat, tenantId: Uuid, traceId: Uuid, eventSourceId: Uuid)

  /** Why `main_loop` ends: "Unable to get new work", or the error of `ack_work`. */
  datatype ExitError = UnableToGetNewWork | AckFailed

  /** `should_ack`: a retriable failure is left for the queue to redeliver;
      a success or a permanent failure is acknowledged. */
  function ShouldAck(result: ProcessResult): (b: bool)
    ensures !b <==> result.Err? && result.error.retriable
  {
    match result
    case Err(e) => !e.retriable
    case Ok(_) => true
  }

  /** The ack sent for a processed job. */
  function AckFor(requestId: nat, job: Job, result: ProcessResult): Ack {
    Ack(result, requestId, job.tenantId, job.traceId, job.eventSourceId)
  }

  /** The pulls still to come and the effect logs: the jobs handed to the
      plugin, the acks sent (whether or not they succeeded) and the number of
      one-second sleeps. */
  datatype Logs = Logs(unread: seq<Pull>, processed: seq<Job>, acks: seq<Ack>, sleeps: nat)

  /** One iteration of `main_loop`, with the error that ends the loop, if any. */
  function Step(logs: Logs): (r: (Logs, Option<ExitError>))
    requires logs.unread != []
    ensures r.0.unread == logs.unread[1..]
    ensures r.1.Some? <==> Ends(logs.unread[0])
    ensures r.1.Some? ==> r.1.value == ExitOf(logs.unread[0])
  {
    var rest := logs.unread[1..];
    match logs.unread[0]
    case PullFailed => (logs.(unread := rest), Some(UnableToGetNewWork))
    case NoJob(_) => (logs.(unread := rest, sleeps := logs.sleeps + 1), None)
    case JobPulled(requestId, job, result, ackOk) =>
      var processed := logs.processed + [job];
      if ShouldAck(result) then
        (logs.(unread := rest, processed := processed, acks := logs.acks + [AckFor(requestId, job, result)]),
         if ackOk then None else Some(AckFailed))
      else
        (logs.(unread := rest, processed := processed), None)
  }

  /** Iterations until the loop ends or the script is exhausted; `None` means
      the loop is still running (`main_loop` never returns `Ok`). */
  function Execute(logs: Logs): (Logs, Option<ExitError>)
    decreases |logs.unread|
  {
    if logs.unread == [] then (logs, None)
    else
      var (next, exit) := Step(logs);
      if exit.Some? then (next, exit) else Execute(next)
  }

  /** A pull that ends the loop. */
  predicate Ends(p: Pull) {
    p.PullFailed? || (p.JobPulled? && ShouldAck(p.result) && !p.ackOk)
  }

  /** The error a loop-ending pull ends it with: "Unable to get new work" for a
      failed pull, the ack's own error for a failed ack. */
  function ExitOf(p: Pull): ExitError
    requires Ends(p)
  {
    if p.PullFailed? then UnableToGetNewWork else AckFailed
  }

  /** A job whose processing failed retriably is processed once and never
      acknowledged; the loop goes on. */
  lemma RetriableNeverAcked(logs: Logs)
    requires logs.unread != [] && logs.unread[0].JobPulled?
    requires logs.unread[0].result.Err? && logs.unread[0].result.error.retriable
    ensures Step(logs).0.acks == logs.acks
    ensures Step(logs).0.processed == logs.processed + [logs.unread[0].job]
    ensures Step(logs).1 == None
  {
  }

  /** A success or a permanent failure is acknowledged exactly once, with that
      result and the job's request, tenant, trace and event-source ids, after
      the job was processed. */
  lemma AckedOnce(logs: Logs)
    requires logs.unread != [] && logs.unread[0].JobPulled? && ShouldAck(logs.unread[0].result)
    ensures var p := logs.unread[0];
      && Step(logs).0.processed == logs.processed + [p.job]
      && Step(logs).0.acks == logs.acks + [Ack(p.result, p.requestId, p.job.tenantId, p.job.traceId, p.job.eventSourceId)]
      && (Step(logs).1 == None <==> p.ackOk)
      && (!p.ackOk ==> Step(logs).1 == Some(AckFailed))
  {
  }

  /** A pull without a job neither processes nor acknowledges anything: the
      loop sleeps and continues. */
  lemma NoJobSleeps(logs: Logs)
    requires logs.unread != [] && logs.unread[0].NoJob?
    ensures Step(logs) == (logs.(unread := logs.unread[1..], sleeps := logs.sleeps + 1), None)
  {
  }

  /** A failed pull ends the loop with "Unable to get new work" and nothing else. */
  lemma PullFailureEnds(logs: Logs)
    requires logs.unread != [] && logs.unread[0].PullFailed?
    ensures Step(logs) == (logs.(unread := logs.unread[1..]), Some(UnableToGetNewWork))
  {
  }

  /** The loop ends exactly when some pull of the script ends it. */
  lemma {:induction false} ExitIffSomePullEnds(logs: Logs)
    ensures Execute(logs).1.Some? <==> exists i :: 0 <= i < |logs.unread| && Ends(logs.unread[i])
    decreases |logs.unread|
  {
    if logs.unread != [] {
      var next := Step(logs).0;
      ExitIffSomePullEnds(next);
      assert forall i :: 0 <= i < |next.unread| ==> next.unread[i] == logs.unread[i + 1];
      if exists i :: 0 <= i < |next.unread| && Ends(next.unread[i]) {
        var i :| 0 <= i < |next.unread| && Ends(next.unread[i]);
        assert Ends(logs.unread[i + 1]);
      }
      if exists i :: 0 <= i < |logs.unread| && Ends(logs.unread[i]) {
        var i :| 0 <= i < |logs.unread| && Ends(logs.unread[i]);
        if i > 0 {
          assert Ends(next.unread[i - 1]);
        }
      }
    }
  }

  /** The loop ends at the first pull that ends it, with that pull's error
      ("Unable to get new work", or the failed ack's error); no later pull is
      taken, so nothing after it is processed or acknowledged. */
  lemma {:induction false} FirstEndingPullExits(logs: Logs, k: nat)
    requires k < |logs.unread| && Ends(logs.unread[k])
    requires forall i :: 0 <= i < k ==> !Ends(logs.unread[i])
    ensures Execute(logs).1 == Some(ExitOf(logs.unread[k]))
    ensures Execute(logs).0.unread == logs.unread[k + 1..]
    ensures |Execute(logs).0.processed| <= |logs.processed| + k + 1
    decreases k
  {
    var next := Step(logs).0;
    if k > 0 {
      assert forall i :: 0 <= i < |next.unread| ==> next.unread[i] == logs.unread[i + 1];
      FirstEndingPullExits(next, k - 1);
      assert next.unread[k..] == logs.unread[k + 1..];
    }
  }

  /** Along any run the logs only grow, and no more acks are added than jobs
      are processed: every retrieval is processed once and acknowledged at
      most once. */
  lemma {:induction false} AcksFollowProcessing(logs: Logs)
    ensures var after := Execute(logs).0;
      && |after.processed| >= |logs.processed| && after.processed[..|logs.processed|] == logs.processed
      && |after.acks| >= |logs.acks| && after.acks[..|logs.acks|] == logs.acks
      && |after.acks| - |logs.acks| <= |after.processed| - |logs.processed|
    decreases |logs.unread|
  {
    if logs.unread != [] {
      var (next, exit) := Step(logs);
      if exit.None? {
        AcksFollowProcessing(next);
        var after := Execute(next).0;
        assert after.processed[..|logs.processed|] == after.processed[..|next.processed|][..|logs.processed|];
        assert after.acks[..|logs.acks|] == after.acks[..|next.acks|][..|logs.acks|];
      }
    }
  }

  /** A script of pulls without jobs only sleeps: once per pull, with nothing
      processed or acknowledged, and the loop still running at its end. */
  lemma {:induction false} IdleScriptOnlySleeps(logs: Logs)
    requires forall i :: 0 <= i < |logs.unread| ==> logs.unread[i].NoJob?
    ensures Execute(logs) == (logs.(unread := [], sleeps := logs.sleeps + |logs.unread|), None)
    decreases |logs.unread|
  {
    if logs.unread != [] {
      var next := Step(logs).0;
      assert forall i :: 0 <= i < |next.unread| ==> next.unread[i] == logs.unread[i + 1];
      IdleScriptOnlySleeps(next);
    }
  }

  /** The executor with its effect logs. */
  class Executor {
    var unread: seq<Pull>
    var processed: seq<Job>
    var acks: seq<Ack>
    var sleeps: nat

    constructor (script: seq<Pull>)
      ensures unread == script && processed == [] && acks == [] && sleeps == 0
    {
      unread, processed, acks, sleeps := script, [], [], 0;
    }

    ghost function State(): Logs
      reads this
    {
      Logs(unread, processed, acks, sleeps)
    }

    /** `main_loop`: pull, sleep when there is no job, otherwise process the
        job and, unless the failure is retriable, acknowledge it; stop when a
        pull or an ack fails. */
    method MainLoop() returns (r: Option<ExitError>)
      modifies this
      ensures (State(), r) == Execute(old(State()))
    {
      while unread != []
        invariant Execute(State()) == Execute(old(State()))
        decreases |unread|
      {
        var pull := unread[0];
        unread := unread[1..];
        match pull {
          case PullFailed =>
            return Some(UnableToGetNewWork);
          case NoJob(_) =>
            sleeps := sleeps + 1;
            continue;
          case JobPulled(requestId, job, result, ackOk) =>
            processed := processed + [job];
            var shouldAck := match result {
              case Err(e) => !e.retriable
              case Ok(_) => true
            };
            if shouldAck {
              acks := acks + [Ack(result, requestId, job.tenantId, job.traceId, job.eventSourceId)];
              if !ackOk {
                return Some(AckFailed);
              }
            }
        }
      }
      return None;
    }
  }
}
