/** The node identifier's stream handler: each graph description read from
    Kafka is identified, and the per-event result — emit an identified graph,
    drop the event, or report an error — is decided from the nested result of
    `handle_event`. The graph types are type parameters: `D` for a graph
    description, `I` for an identified graph. */
module NodeIdentifier {
  import opened Wrappers
  import opened Pipeline

  /** `NodeIdentifierError`, as far as the handler distinguishes it. */
  datatype NodeIdentifierError = AttributionFailure | EmptyGraph | OtherIdentifierError(kind: nat)

  /** `StreamProcessorError`: an error of the stream itself, or one converted
      from a node-identifier error. */
  datatype StreamProcessorError = Upstream(kind: nat) | FromIdentifier(error: NodeIdentifierError)

  /** What `handle_event` returns: the identified graph; or a partial success,
      with the part that was identified and the error that stopped the rest;
      or a total failure. */
  type HandleResult<I> = Result<I, Result<(I, NodeIdentifierError), NodeIdentifierError>>

  /** One event of the input stream: what the consumer delivered, and what
      `handle_event` answers for it (consulted only for a delivered envelope). */
  datatype Event<D, I> = Event(received: Result<Envelope<D>, StreamProcessorError>, identified: HandleResult<I>)

  /** The per-event closure of `handler`. */
  function Classify<D, I>(event: Event<D, I>): (r: Result<Option<Envelope<I>>, StreamProcessorError>)
    ensures event.received.Err? ==> r == Err(event.received.error)
  {
    match event.received
    case Err(e) => Err(e)
    case Ok(envelope) =>
      match event.identified
      case Ok(graph) => Ok(Some(Envelope(envelope.tenantId, envelope.traceId, envelope.eventSourceId, graph)))
      case Err(Ok((_, e))) => Err(FromIdentifier(e))
      case Err(Err(e)) =>
        (match e
         case EmptyGraph => Ok(None)
         case _ => Err(FromIdentifier(e)))
  }

  /** `filter_map(|res| res.transpose())`: `Ok(None)` disappears from the stream. */
  function Transpose<T, E>(r: Result<Option<T>, E>): (o: Option<Result<T, E>>)
    ensures o.None? <==> r == Ok(None)
    ensures r.Err? ==> o == Some(Err(r.error))
    ensures r.Ok? && r.value.Some? ==> o == Some(Ok(r.value.value))
  {
    match r
    case Ok(None) => None
    case Ok(Some(v)) => Some(Ok(v))
    case Err(e) => Some(Err(e))
  }

  /** An identified graph is emitted in an envelope with the input's tenant,
      trace and event-source ids. */
  lemma IdentifiedIsEmitted<D, I>(envelope: Envelope<D>, graph: I)
    ensures Transpose(Classify(Event(Ok(envelope), Ok(graph)))) ==
      Some(Ok(Envelope(envelope.tenantId, envelope.traceId, envelope.eventSourceId, graph)))
  {
  }

  /** An event is dropped exactly when identification failed outright with
      `EmptyGraph`; an `EmptyGraph` after a partial success is an error. */
  lemma DroppedIffEmptyGraph<D, I>(event: Event<D, I>)
    ensures Transpose(Classify(event)).None? <==> event.received.Ok? && event.identified == Err(Err(EmptyGraph))
  {
  }

  /** Every identification failure other than a total `EmptyGraph` — among
      them `AttributionFailure`, total or partial — becomes a stream error
      carrying that identifier error. */
  lemma FailuresBecomeErrors<D, I>(event: Event<D, I>)
    requires event.received.Ok? && event.identified.Err?
    requires event.identified != Err(Err(EmptyGraph))
    ensures var e := if event.identified.error.Ok? then event.identified.error.value.1 else event.identified.error.error;
      Classify(event) == Err(FromIdentifier(e))
  {
  }

  /** An upstream error is passed on whatever identification would answer:
      `handle_event` is not consulted. */
  lemma UpstreamErrorFirst<D, I>(event1: Event<D, I>, event2: Event<D, I>)
    requires event1.received.Err? && event2.received == event1.received
    ensures Classify(event1) == Classify(event2) == Err(event1.received.error)
  {
  }

  /** The items of the processed stream, in input order. */
  function Outputs<D, I>(events: seq<Event<D, I>>): seq<Result<Envelope<I>, StreamProcessorError>> {
    if |events| == 0 then []
    else
      var last := Transpose(Classify(events[|events| - 1]));
      Outputs(events[..|events| - 1]) + (if last.Some? then [last.value] else [])
  }

  /** The number of events dropped from the stream. */
  function DroppedCount<D, I>(events: seq<Event<D, I>>): nat {
    if |events| == 0 then 0
    else DroppedCount(events[..|events| - 1]) + (if Transpose(Classify(events[|events| - 1])).None? then 1 else 0)
  }

  /** Each event yields one stream item, except the dropped ones. */
  lemma {:induction false} OutputsCount<D, I>(events: seq<Event<D, I>>)
    ensures |Outputs(events)| + DroppedCount(events) == |events|
  {
    if |events| > 0 {
      OutputsCount(events[..|events| - 1]);
    }
  }

  /** Events are handled independently and in order: the output of two
      consecutive parts of the stream is the concatenation of their outputs. */
  lemma {:induction false} OutputsConcat<D, I>(a: seq<Event<D, I>>, b: seq<Event<D, I>>)
    ensures Outputs(a + b) == Outputs(a) + Outputs(b)
    decreases |b|
  {
    if |b| > 0 {
      var b' := b[..|b| - 1];
      assert (a + b)[..|a + b| - 1] == a + b';
      assert (a + b)[|a + b| - 1] == b[|b| - 1];
      OutputsConcat(a, b');
    } else {
      assert a + b == a;
    }
  }

  /** `handler`'s drain: every stream item is consumed, errors are logged and
      the stream goes on; once it ends, `Ok(())`. `emitted` holds the
      identified envelopes and `logged` the errors, in stream order. */
  method Handler<D, I>(events: seq<Event<D, I>>)
    returns (emitted: seq<Envelope<I>>, logged: seq<StreamProcessorError>, r: Result<(), NodeIdentifierError>)
    ensures r == Ok(())
    ensures emitted == Emitted(Outputs(events)) && logged == Errors(Outputs(events))
    ensures |emitted| + |logged| + DroppedCount(events) == |events|
  {
    emitted, logged := [], [];
    var i := 0;
    while i < |events|
      invariant i <= |events|
      invariant emitted == Emitted(Outputs(events[..i])) && logged == Errors(Outputs(events[..i]))
    {
      var res := Transpose(Classify(events[i]));
      assert events[..i + 1][..i] == events[..i];
      assert Outputs(events[..i + 1]) == Outputs(events[..i]) + (if res.Some? then [res.value] else []);
      match res {
        case None =>
          assert Outputs(events[..i + 1]) == Outputs(events[..i]);
        case Some(Err(e)) =>
          logged := logged + [e];
          assert Outputs(events[..i + 1]) == Outputs(events[..i]) + [Err(e)];
          assert logged == Errors(Outputs(events[..i + 1]));
        case Some(Ok(envelope)) =>
          emitted := emitted + [envelope];
          assert emitted == Emitted(Outputs(events[..i + 1]));
      }
      i := i + 1;
    }
    assert events[..i] == events;
    OutputsCount(events);
    SplitCount(Outputs(events));
    r := Ok(());
  }

  /** The envelopes among the stream items. */
  function Emitted<T, E>(items: seq<Result<T, E>>): seq<T> {
    if |items| == 0 then []
    else Emitted(items[..|items| - 1]) + (if items[|items| - 1].Ok? then [items[|items| - 1].value] else [])
  }

  /** The errors among the stream items. */
  function Errors<T, E>(items: seq<Result<T, E>>): seq<E> {
    if |items| == 0 then []
    else Errors(items[..|items| - 1]) + (if items[|items| - 1].Err? then [items[|items| - 1].error] else [])
  }

  /** Every stream item is either emitted or logged. */
  lemma {:induction false} SplitCount<T, E>(items: seq<Result<T, E>>)
    ensures |Emitted(items)| + |Errors(items)| == |items|
  {
    if |items| > 0 {
      SplitCount(items[..|items| - 1]);
    }
  }
}
