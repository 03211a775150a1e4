/** The analyzer dispatcher: for every merged graph read from Kafka, look up
    the tenant's analyzers in a cache and push one execution job per analyzer
    to the plugin work queue, or send the message to the retry topic, then
    commit the consumer offset. The consumer, the cache, the work queue and
    the retry producer are outside the model: what they answer for a message
    is part of the message's script entry, and what is sent to them is
    recorded in effect logs. */
module AnalyzerDispatcher {
  import opened Wrappers
  import opened Text
  import opened Pipeline

  // ---------------------------------------------------------------------
  // Populating the analyzer-ids cache from the plugin registry

  /** The gRPC status codes the population step distinguishes. */
  datatype Code = NotFound | OtherCode(code: nat)

  /** What `get_analyzers_for_tenant` answers: the plugin ids, an error status,
      or some other client error (transport, decoding). */
  datatype RegistryReply =
    | Analyzers(pluginIds: seq<Uuid>)
    | ErrorStatus(code: Code)
    | OtherClientError

  /** The population closure: the registry's ids, no ids when the tenant is
      unknown to the registry, and nothing (no cache update) on any other
      failure. */
  function Populate(reply: RegistryReply): (r: Option<seq<Uuid>>)
    ensures reply.Analyzers? ==> r == Some(reply.pluginIds)
    ensures reply == ErrorStatus(NotFound) ==> r == Some([])
    ensures r.None? <==> !(reply.Analyzers? || reply == ErrorStatus(NotFound))
  {
    match reply
    case Analyzers(ids) => Some(ids)
    case ErrorStatus(NotFound) => Some([])
    case _ => None
  }

  // ---------------------------------------------------------------------
  // Classifying one message

  /** `AsyncCacheError`: retryable, or any other (fatal) cache error. */
  datatype CacheError = Retryable(reason: string) | OtherCacheError

  /** What `analyzer_ids_cache.get(tenant_id)` answers; `Ok(None)` is a miss. */
  type CacheAnswer = Result<Option<seq<Uuid>>, CacheError>

  /** The four ways a delivered message is routed. */
  datatype Route = FanOut(ids: seq<Uuid>) | NoAnalyzers | RetryRoute | Bail

  /** The per-message match on the cache answer. */
  function RouteOf(answer: CacheAnswer): (r: Route)
    ensures r.FanOut? <==> answer.Ok? && answer.value.Some? && |answer.value.value| > 0
    ensures r.FanOut? ==> r.ids == answer.value.value
    ensures r.NoAnalyzers? <==> answer == Ok(Some([]))
    ensures r.RetryRoute? <==> answer == Ok(None) || (answer.Err? && answer.error.Retryable?)
    ensures r.Bail? <==> answer == Err(OtherCacheError)
  {
    match answer
    case Ok(Some(ids)) => if |ids| == 0 then NoAnalyzers else FanOut(ids)
    case Ok(None) => RetryRoute
    case Err(Retryable(_)) => RetryRoute
    case Err(OtherCacheError) => Bail
  }

  /** A cache entry filled by the population closure routes the message by
      what the registry said: fan out to the listed analyzers, skip a tenant
      with none (also one the registry does not know), and retry when the
      registry failed and left the cache unfilled. */
  lemma PopulatedRoute(reply: RegistryReply)
    ensures reply.Analyzers? && |reply.pluginIds| > 0 ==>
      RouteOf(Ok(Populate(reply))) == FanOut(reply.pluginIds)
    ensures RouteOf(Ok(Populate(reply))) == NoAnalyzers <==>
      reply == Analyzers([]) || reply == ErrorStatus(NotFound)
    ensures RouteOf(Ok(Populate(reply))) == RetryRoute <==>
      !(reply.Analyzers? || reply == ErrorStatus(NotFound))
  {
  }

  /** `AnalyzerDispatcherError`, less the wrapped error values. */
  datatype DispatchError =
    | CacheFailure
    | WorkQueueFailure
    | ProducerFailure
    | CommitFailure
    | SerDeFailure

  type Outcome = Result<(), DispatchError>

  /** The job pushed to the work queue (`ExecutionJob::new`). */
  datatype ExecutionJob = ExecutionJob(data: seq<byte>, tenantId: Uuid, traceId: Uuid, eventSourceId: Uuid)

  /** `PushExecuteAnalyzerRequest::new`. */
  datatype PushRequest = PushExecuteAnalyzer(job: ExecutionJob, analyzerId: Uuid)

  /** What the outside world answers while one delivered message is handled:
      the cache lookup, the serialization of the merged graph (`None` is a
      `SerDeError`), the index of the first push that fails (if any) and
      whether the retry producer accepts the message. */
  datatype Oracle = Oracle(cache: CacheAnswer, payload: Option<seq<byte>>, failingPush: Option<nat>, retrySent: bool)

  /** One item of the consumer stream. */
  datatype Delivery<G> = Delivered(envelope: Envelope<G>, oracle: Oracle) | ConsumerFailure

  /** A stream item together with whether the commit that follows it succeeds. */
  datatype Incoming<G> = Incoming(delivery: Delivery<G>, commitOk: bool)

  /** The push requests for `ids`, one per id, in order. */
  function Pushes(job: ExecutionJob, ids: seq<Uuid>): (ps: seq<PushRequest>)
    ensures |ps| == |ids|
    ensures forall i :: 0 <= i < |ids| ==> ps[i] == PushExecuteAnalyzer(job, ids[i])
  {
    seq(|ids|, i requires 0 <= i < |ids| => PushExecuteAnalyzer(job, ids[i]))
  }

  /** The job built for every analyzer of a message. */
  function JobFor<G>(envelope: Envelope<G>, payload: seq<byte>): ExecutionJob {
    ExecutionJob(payload, envelope.tenantId, envelope.traceId, envelope.eventSourceId)
  }

  /** How many pushes `enqueue_plugin_work` issues: all of them, or those up to
      and including the first that fails; none when serialization fails. */
  function Attempted(ids: seq<Uuid>, oracle: Oracle): (n: nat)
    ensures n <= |ids|
    ensures oracle.payload.None? ==> n == 0
  {
    if oracle.payload.None? then 0
    else if oracle.failingPush.Some? && oracle.failingPush.value < |ids| then oracle.failingPush.value + 1
    else |ids|
  }

  /** The pushes `enqueue_plugin_work` sends. */
  function IssuedPushes<G>(envelope: Envelope<G>, ids: seq<Uuid>, oracle: Oracle): (ps: seq<PushRequest>)
    ensures |ps| == Attempted(ids, oracle)
  {
    if oracle.payload.None? then [] else Pushes(JobFor(envelope, oracle.payload.value), ids[..Attempted(ids, oracle)])
  }

  /** The result of `enqueue_plugin_work`. */
  function EnqueueResult(ids: seq<Uuid>, oracle: Oracle): (r: Outcome)
    ensures r == Ok(()) <==> oracle.payload.Some? && Attempted(ids, oracle) == |ids|
                             && !(oracle.failingPush.Some? && oracle.failingPush.value < |ids|)
  {
    if oracle.payload.None? then Err(SerDeFailure)
    else if oracle.failingPush.Some? && oracle.failingPush.value < |ids| then Err(WorkQueueFailure)
    else Ok(())
  }

  /** One message's handling result with the requests it sent. */
  datatype Handled<G> = Handled(result: Outcome, pushes: seq<PushRequest>, retries: seq<Envelope<G>>)

  /** The per-message closure of `run`, before the commit. */
  function Handle<G>(delivery: Delivery<G>): (h: Handled<G>)
    ensures delivery.ConsumerFailure? ==> h == Handled(Ok(()), [], [])
    ensures |h.retries| <= 1 && (h.retries != [] ==> h.pushes == [])
  {
    match delivery
    case ConsumerFailure => Handled(Ok(()), [], [])
    case Delivered(envelope, oracle) =>
      match RouteOf(oracle.cache)
      case FanOut(ids) => Handled(EnqueueResult(ids, oracle), IssuedPushes(envelope, ids, oracle), [])
      case NoAnalyzers => Handled(Ok(()), [], [])
      case RetryRoute => Handled(if oracle.retrySent then Ok(()) else Err(ProducerFailure), [], [envelope])
      case Bail => Handled(Err(CacheFailure), [], [])
  }

  /** The stream element after the second `then`: a failed commit replaces
      the message's own result. */
  function Committed<G>(m: Incoming<G>): (r: Outcome)
    ensures !m.commitOk ==> r == Err(CommitFailure)
    ensures m.commitOk ==> r == Handle(m.delivery).result
  {
    if m.commitOk then Handle(m.delivery).result else Err(CommitFailure)
  }

  /** The errors that end `run`, stated case by case from the oracle. */
  predicate FatalCase<G>(m: Incoming<G>) {
    || !m.commitOk
    || (m.delivery.Delivered? &&
        var o := m.delivery.oracle;
        || o.cache == Err(OtherCacheError)
        || (o.cache.Ok? && o.cache.value.Some? && |o.cache.value.value| > 0 &&
            (o.payload.None? || (o.failingPush.Some? && o.failingPush.value < |o.cache.value.value|)))
        || ((o.cache == Ok(None) || (o.cache.Err? && o.cache.error.Retryable?)) && !o.retrySent))
  }

  /** A message ends the loop exactly in the fatal cases: a non-retryable
      cache error, a serialization or push failure, a retry-producer failure,
      or a commit failure. */
  lemma FatalIff<G>(m: Incoming<G>)
    ensures Committed(m).Err? <==> FatalCase(m)
  {
  }

  /** A hit with analyzers sends one job per analyzer, each carrying the
      serialized graph and the envelope's ids, and nothing to the retry topic. */
  lemma FanOutPushes<G>(envelope: Envelope<G>, oracle: Oracle)
    requires oracle.cache.Ok? && oracle.cache.value.Some? && |oracle.cache.value.value| > 0
    requires oracle.payload.Some? && oracle.failingPush.None?
    ensures var ids := oracle.cache.value.value;
      var h := Handle(Delivered(envelope, oracle));
      && h.result == Ok(())
      && h.retries == []
      && |h.pushes| == |ids|
      && forall i :: 0 <= i < |ids| ==>
           h.pushes[i] == PushExecuteAnalyzer(
             ExecutionJob(oracle.payload.value, envelope.tenantId, envelope.traceId, envelope.eventSourceId), ids[i])
  {
  }

  /** With the sequential fan-out, a failing push `k` ends the message with a
      work-queue error after pushes `0..k` were issued. */
  lemma FailingPushStops<G>(envelope: Envelope<G>, oracle: Oracle, k: nat)
    requires oracle.cache.Ok? && oracle.cache.value.Some? && k < |oracle.cache.value.value|
    requires oracle.payload.Some? && oracle.failingPush == Some(k)
    ensures var ids := oracle.cache.value.value;
      var h := Handle(Delivered(envelope, oracle));
      && h.result == Err(WorkQueueFailure)
      && h.pushes == Pushes(JobFor(envelope, oracle.payload.value), ids[..k + 1])
  {
  }

  /** Serialization happens before the fan-out: when it fails, no push is sent. */
  lemma SerializationFailsBeforePush<G>(envelope: Envelope<G>, oracle: Oracle)
    requires oracle.cache.Ok? && oracle.cache.value.Some? && |oracle.cache.value.value| > 0
    requires oracle.payload.None?
    ensures Handle(Delivered(envelope, oracle)) == Handled(Err(SerDeFailure), [], [])
  {
  }

  /** A tenant without analyzers is skipped: no push, no retry, success. */
  lemma NoAnalyzersSkips<G>(envelope: Envelope<G>, oracle: Oracle)
    requires oracle.cache == Ok(Some([]))
    ensures Handle(Delivered(envelope, oracle)) == Handled(Ok(()), [], [])
  {
  }

  /** A cache miss and a retryable cache error both send the envelope,
      unchanged, to the retry topic and nothing to the work queue. */
  lemma RetrySendsEnvelope<G>(envelope: Envelope<G>, oracle: Oracle)
    requires oracle.cache == Ok(None) || (oracle.cache.Err? && oracle.cache.error.Retryable?)
    ensures var h := Handle(Delivered(envelope, oracle));
      && h.retries == [envelope]
      && h.pushes == []
      && (h.result.Ok? <==> oracle.retrySent)
      && (!oracle.retrySent ==> h.result == Err(ProducerFailure))
  {
  }

  /** A non-retryable cache error is fatal with a cache error, and nothing is
      sent to the work queue or the retry topic. */
  lemma CacheFailureSendsNothing<G>(envelope: Envelope<G>, oracle: Oracle)
    requires oracle.cache == Err(OtherCacheError)
    ensures Handle(Delivered(envelope, oracle)) == Handled(Err(CacheFailure), [], [])
  {
  }

  // ---------------------------------------------------------------------
  // The run loop over a script of stream items

  /** Every message of `ms` leaves the loop running. */
  predicate AllOk<G>(ms: seq<Incoming<G>>) {
    forall i :: 0 <= i < |ms| ==> Committed(ms[i]).Ok?
  }

  /** The number of stream items `run` consumes from `ms`: all of them, or
      those up to and including the first that fails. */
  function Consumed<G>(ms: seq<Incoming<G>>): (n: nat)
    ensures n <= |ms| && (|ms| > 0 ==> n > 0)
    ensures forall i :: 0 <= i < n - 1 ==> Committed(ms[i]).Ok?
    ensures n == |ms| || Committed(ms[n - 1]).Err?
  {
    if |ms| == 0 then 0
    else if Committed(ms[0]).Err? then 1
    else
      assert forall i :: 0 <= i < |ms| - 1 ==> ms[1..][i] == ms[i + 1];
      1 + Consumed(ms[1..])
  }

  /** What `run` returns on a finite stream `ms`: the first error, or `None`
      when the stream is exhausted while the loop is still running (`run`
      itself never returns `Ok`). */
  function RunSpec<G>(ms: seq<Incoming<G>>): Option<DispatchError> {
    if |ms| == 0 then None
    else if Committed(ms[0]).Err? then Some(Committed(ms[0]).error)
    else RunSpec(ms[1..])
  }

  /** `AllOk` of a non-empty stream splits into its head and its tail. */
  lemma AllOkSplit<G>(ms: seq<Incoming<G>>)
    requires |ms| > 0
    ensures AllOk(ms) <==> Committed(ms[0]).Ok? && AllOk(ms[1..])
  {
    if Committed(ms[0]).Ok? && AllOk(ms[1..]) {
      forall i | 0 <= i < |ms| ensures Committed(ms[i]).Ok? {
        if i > 0 { assert ms[i] == ms[1..][i - 1]; }
      }
    }
  }

  /** `run` stops at the first failing item, after consuming it, and returns
      its error. */
  lemma {:induction false} FirstErrorStops<G>(ms: seq<Incoming<G>>, n: nat)
    requires n < |ms| && AllOk(ms[..n]) && Committed(ms[n]).Err?
    ensures Consumed(ms) == n + 1
    ensures RunSpec(ms) == Some(Committed(ms[n]).error)
  {
    if n > 0 {
      AllOkSplit(ms[..n]);
      assert ms[..n][1..] == ms[1..][..n - 1];
      FirstErrorStops(ms[1..], n - 1);
    }
  }

  /** When no item fails, `run` consumes the whole stream and is still
      running at its end. */
  lemma {:induction false} AllOkRunsThrough<G>(ms: seq<Incoming<G>>)
    requires AllOk(ms)
    ensures Consumed(ms) == |ms|
    ensures RunSpec(ms) == None
  {
    if |ms| > 0 {
      AllOkSplit(ms);
      AllOkRunsThrough(ms[1..]);
    }
  }

  /** `run` ends with an error exactly when some item of the stream fails. */
  lemma {:induction false} RunFailsIffSomeItemFails<G>(ms: seq<Incoming<G>>)
    ensures RunSpec(ms).Some? <==> exists i :: 0 <= i < |ms| && Committed(ms[i]).Err?
  {
    if |ms| > 0 {
      AllOkSplit(ms);
      RunFailsIffSomeItemFails(ms[1..]);
      if RunSpec(ms[1..]).Some? {
        var i :| 0 <= i < |ms[1..]| && Committed(ms[1..][i]).Err?;
        assert ms[i + 1] == ms[1..][i];
      }
    }
  }

  /** The pushes sent while handling `ms`, in stream order. */
  function PushesOf<G>(ms: seq<Incoming<G>>): seq<PushRequest> {
    if |ms| == 0 then [] else PushesOf(ms[..|ms| - 1]) + Handle(ms[|ms| - 1].delivery).pushes
  }

  /** The envelopes sent to the retry topic while handling `ms`, in stream order. */
  function RetriesOf<G>(ms: seq<Incoming<G>>): seq<Envelope<G>> {
    if |ms| == 0 then [] else RetriesOf(ms[..|ms| - 1]) + Handle(ms[|ms| - 1].delivery).retries
  }

  /** A consumer error is logged and treated as handled: no push and no retry. */
  lemma {:induction false} ConsumerFailuresSendNothing<G>(ms: seq<Incoming<G>>)
    requires forall i :: 0 <= i < |ms| ==> ms[i].delivery.ConsumerFailure?
    ensures PushesOf(ms) == [] && RetriesOf(ms) == []
    ensures (forall i :: 0 <= i < |ms| ==> ms[i].commitOk) ==> RunSpec(ms) == None
  {
    if |ms| > 0 {
      ConsumerFailuresSendNothing(ms[..|ms| - 1]);
    }
    if forall i :: 0 <= i < |ms| ==> ms[i].commitOk {
      assert AllOk(ms);
      AllOkRunsThrough(ms);
    }
  }

  /** The consumer's remaining stream together with the effect logs:
      requests sent to the work queue, envelopes sent to the retry producer
      and the number of commits, whether or not they succeeded. */
  datatype Logs<G> = Logs(unread: seq<Incoming<G>>, pushes: seq<PushRequest>,
                          retries: seq<Envelope<G>>, commits: nat)

  /** One `stream.next()` of `run`: take the next item, handle it, commit. */
  function Next<G>(logs: Logs<G>): Logs<G>
    requires logs.unread != []
  {
    var h := Handle(logs.unread[0].delivery);
    Logs(logs.unread[1..], logs.pushes + h.pushes, logs.retries + h.retries, logs.commits + 1)
  }

  /** The logs after the first `n` items of `stream` were handled, starting
      with `logs0`. */
  function After<G>(stream: seq<Incoming<G>>, n: nat, logs0: Logs<G>): Logs<G>
    requires n <= |stream|
  {
    Logs(stream[n..], logs0.pushes + PushesOf(stream[..n]), logs0.retries + RetriesOf(stream[..n]),
         logs0.commits + n)
  }

  /** Handling one more item of `stream` is one `Next` step. */
  lemma AfterStep<G>(stream: seq<Incoming<G>>, n: nat, logs0: Logs<G>)
    requires n < |stream|
    ensures After(stream, n, logs0).unread[0] == stream[n]
    ensures After(stream, n + 1, logs0) == Next(After(stream, n, logs0))
    ensures AllOk(stream[..n]) && Committed(stream[n]).Ok? ==> AllOk(stream[..n + 1])
  {
    assert stream[..n + 1][..n] == stream[..n];
    assert stream[..n + 1][n] == stream[n];
    assert stream[n..][1..] == stream[n + 1..];
  }

  /** The dispatcher: the consumer's stream and the effect logs. */
  class Dispatcher<G> {
    var unread: seq<Incoming<G>>
    var pushes: seq<PushRequest>
    var retries: seq<Envelope<G>>
    var commits: nat

    constructor (stream: seq<Incoming<G>>)
      ensures unread == stream && pushes == [] && retries == [] && commits == 0
    {
      unread, pushes, retries, commits := stream, [], [], 0;
    }

    ghost function State(): Logs<G>
      reads this
    {
      Logs(unread, pushes, retries, commits)
    }

    /** `enqueue_plugin_work`: serialize the graph once, then push one job per
        analyzer, in order, stopping at the first failing push. */
    method EnqueuePluginWork(ids: seq<Uuid>, envelope: Envelope<G>, oracle: Oracle) returns (r: Outcome)
      modifies this
      ensures r == EnqueueResult(ids, oracle)
      ensures pushes == old(pushes) + IssuedPushes(envelope, ids, oracle)
      ensures unread == old(unread) && retries == old(retries) && commits == old(commits)
    {
      if oracle.payload.None? {
        return Err(SerDeFailure);
      }
      var job := JobFor(envelope, oracle.payload.value);
      var i := 0;
      while i < |ids|
        invariant i <= |ids|
        invariant oracle.failingPush.Some? ==> i <= oracle.failingPush.value
        invariant pushes == old(pushes) + Pushes(job, ids[..i])
        invariant unread == old(unread) && retries == old(retries) && commits == old(commits)
      {
        assert Pushes(job, ids[..i + 1]) == Pushes(job, ids[..i]) + [PushExecuteAnalyzer(job, ids[i])];
        pushes := pushes + [PushExecuteAnalyzer(job, ids[i])];
        if oracle.failingPush == Some(i) {
          return Err(WorkQueueFailure);
        }
        i := i + 1;
      }
      assert ids[..i] == ids;
      return Ok(());
    }

    /** `retry_message`: hand the envelope, unchanged, to the retry producer. */
    method RetryMessage(envelope: Envelope<G>, sent: bool) returns (r: Outcome)
      modifies this
      ensures r == if sent then Ok(()) else Err(ProducerFailure)
      ensures retries == old(retries) + [envelope]
      ensures unread == old(unread) && pushes == old(pushes) && commits == old(commits)
    {
      retries := retries + [envelope];
      r := if sent then Ok(()) else Err(ProducerFailure);
    }

    /** One element of the stream built in `run`: take the next item from the
        consumer, handle it, then commit. */
    method HandleNext() returns (r: Outcome)
      requires unread != []
      modifies this
      ensures r == Committed(old(unread)[0])
      ensures State() == Next(old(State()))
    {
      var m := unread[0];
      unread := unread[1..];
      match m.delivery {
        case ConsumerFailure =>
          r := Ok(());
        case Delivered(envelope, oracle) =>
          match oracle.cache {
            case Ok(Some(ids)) =>
              if |ids| == 0 {
                r := Ok(());
              } else {
                r := EnqueuePluginWork(ids, envelope, oracle);
              }
            case Ok(None) =>
              r := RetryMessage(envelope, oracle.retrySent);
            case Err(Retryable(_)) =>
              r := RetryMessage(envelope, oracle.retrySent);
            case Err(OtherCacheError) =>
              r := Err(CacheFailure);
          }
      }
      commits := commits + 1;
      if !m.commitOk {
        r := Err(CommitFailure);
      }
    }

    /** One outer iteration of `run`: the stream of at most `poolSize` items
        taken from the consumer, handled one at a time until an error. `n0`
        items of `stream` were handled before, all without error. */
    method Window(poolSize: nat, ghost stream: seq<Incoming<G>>, ghost n0: nat, ghost logs0: Logs<G>)
      returns (r: Option<DispatchError>, ghost n: nat)
      requires n0 <= |stream| && State() == After(stream, n0, logs0) && AllOk(stream[..n0])
      modifies this
      ensures n <= |stream| && State() == After(stream, n, logs0)
      ensures r.None? ==> AllOk(stream[..n]) && n0 <= n <= n0 + poolSize
      ensures r.None? && 0 < poolSize && n0 < |stream| ==> n0 < n
      ensures r.Some? ==> n <= n0 + poolSize
      ensures r.Some? ==> && n0 < n && AllOk(stream[..n - 1])
                          && Committed(stream[n - 1]).Err? && r == Some(Committed(stream[n - 1]).error)
    {
      r, n := None, n0;
      var taken := 0;
      while taken < poolSize && unread != []
        invariant n <= |stream| && State() == After(stream, n, logs0) && AllOk(stream[..n])
        invariant n == n0 + taken && taken <= poolSize
        decreases poolSize - taken
      {
        AfterStep(stream, n, logs0);
        var result := HandleNext();
        n, taken := n + 1, taken + 1;
        if result.Err? {
          return Some(result.error), n;
        }
      }
    }

    /** `run`: repeatedly take a window of at most `poolSize` items from the
        consumer and handle them one at a time, returning the first error.
        The model stops with `None` once the scripted stream is exhausted;
        with `poolSize == 0` every window is empty and nothing is consumed. */
    method Run(poolSize: nat) returns (r: Option<DispatchError>)
      modifies this
      ensures r == (if poolSize == 0 then None else RunSpec(old(unread)))
      ensures State() == After(old(unread), if poolSize == 0 then 0 else Consumed(old(unread)), old(State()))
    {
      r := None;
      ghost var stream := unread;
      ghost var logs0 := State();
      ghost var n := 0;
      assert stream[..0] == [];
      while 0 < poolSize && unread != []
        invariant n <= |stream| && State() == After(stream, n, logs0) && AllOk(stream[..n])
        invariant r.None? && (poolSize == 0 ==> n == 0)
        decreases |stream| - n
      {
        r, n := Window(poolSize, stream, n, logs0);
        if r.Some? {
          FirstErrorStops(stream, n - 1);
          return;
        }
      }
      if 0 < poolSize {
        assert stream[..n] == stream;
        AllOkRunsThrough(stream);
      }
    }
  }
}
