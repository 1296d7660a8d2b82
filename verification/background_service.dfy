/** The primary consume loop: polls the primary topic, deserializes, commits,
    and from its catch-all clause hands the message variable to the retry
    topic. */
module BackgroundService {
  import opened Wrappers
  import opened KafkaClient
  import opened TopicResolution
  import opened ProducerFactory
  import opened ProducerWrapping
  import opened ConsumerFactory
  import opened ConsumeIteration

  /** The fragment the retry hand-off publishes to. */
  const RetryTopicFragment := "xxy"

  /** One iteration of the primary loop, from the message variable before it.
      Consume exceptions and other broker exceptions (from the poll or the
      commit) are logged only; every other exception hands the message variable, possibly set by an earlier
      iteration, to the retry topic. Both handlers read the message's id, so
      when the variable is null the handler itself throws and the loop ends. */
  function PrimaryStep(held: Option<KafkaMessage>, it: Iteration): (r: Step)
    ensures r.held == HeldAfter(held, it)
    ensures r.committed <==> CommitSucceeds(it)
    ensures r.handler == NoHandler <==> Raised(it).None?
    ensures r.handler == ConsumeHandler <==> it.poll.ConsumeFailed?
    ensures r.handler == KafkaHandler <==> Raised(it) == Some(KafkaThrown)
    ensures r.handler == GeneralHandler <==> Raised(it) == Some(OtherThrown)
    ensures r.handoff.Some? <==> r.handler == GeneralHandler && r.held.Some?
    ensures r.handoff.Some? ==> r.handoff == r.held
    ensures r.next == Escaped <==> (r.handler == KafkaHandler || r.handler == GeneralHandler) && r.held.None?
    ensures r.next == StopAtTop <==> it.poll.Cancelled? && r.held.Some?
  {
    var h := HeldAfter(held, it);
    match Raised(it)
    case None => Step(h, CommitSucceeds(it), NoHandler, None, Continue)
    case Some(ConsumeThrown) => Step(h, false, ConsumeHandler, None, Continue)
    case Some(KafkaThrown) => Step(h, false, KafkaHandler, None, if h.None? then Escaped else Continue)
    case Some(OtherThrown) =>
      if h.None? then Step(h, false, GeneralHandler, None, Escaped)
      else Step(h, false, GeneralHandler, h, if it.poll.Cancelled? then StopAtTop else Continue)
  }

  /** `trace` records the first |trace| iterations of the primary loop over
      `script`, each continuing except possibly the last. */
  ghost predicate IsPrimaryTrace(script: seq<Iteration>, trace: seq<Step>)
  {
    IsTrace(PrimaryStep, script, trace)
  }

  /** The retry hand-off: one send of the message to the retry fragment; its
      failure, whatever it is, is logged and swallowed. */
  method ProduceTopicRetry(wrapper: ProducerWrapper, message: KafkaMessage, delivery: Delivery)
    requires wrapper.Valid()
    modifies wrapper, wrapper.factory
    ensures wrapper.Valid()
    ensures wrapper.State() == AfterSends(old(wrapper.State()), wrapper.topics, [SendRecord(RetryTopicFragment, message)])
    ensures wrapper.producer == wrapper.factory.producer == Some(Producer(old(UpcomingId(wrapper.State()))))
    ensures match FirstContaining(wrapper.topics, RetryTopicFragment)
            case None => wrapper.issued == old(wrapper.issued)
            case Some(t) =>
              wrapper.issued == old(wrapper.issued) + [Issued(old(UpcomingId(wrapper.State())), Produce(t, JsonOf(message)))]
  {
    var status := wrapper.SendMessage(RetryTopicFragment, message, delivery);
  }

  /** One iteration of the primary loop on the consumer the build returned:
      the broker client's error callback (if it fires while polling), the try
      block, then the catch clauses in order. */
  method PrimaryIteration(factory: KafkaConsumerFactory, wrapper: ProducerWrapper,
                          held: Option<KafkaMessage>, it: Iteration) returns (r: Result<Step, Exception>)
    requires factory.Valid() && wrapper.Valid()
    modifies factory, wrapper, wrapper.factory
    ensures factory.Valid() && wrapper.Valid()
    ensures var b := Turn(Primary, old(factory.State()), factory.topics, factory.groupIds, it.fault);
            && factory.State() == b.after
            && (r.Failure? <==> b.result.Failure?)
            && (r.Failure? ==> b.result == Failure(r.error))
    ensures r.Success? ==> r.value == PrimaryStep(held, it)
    ensures wrapper.State()
            == AfterSends(old(wrapper.State()), wrapper.topics, if r.Success? then HandoffSend(r.value, RetryTopicFragment) else [])
  {
    var built := factory.BuildXXXConsumer();
    if built.Failure? {
      return Failure(built.error);
    }
    var consumer := built.value;
    if it.fault.Some? {
      var report, name := factory.OnErrorHandler(consumer, it.fault.value);
    }
    var step := PrimaryTryCatch(wrapper, held, it);
    r := Success(step);
  }

  /** The try block and its three catch clauses, in order: consume and other broker
      exceptions are logged, any other exception hands the message variable
      to the retry topic. */
  method PrimaryTryCatch(wrapper: ProducerWrapper, held: Option<KafkaMessage>, it: Iteration) returns (step: Step)
    requires wrapper.Valid()
    modifies wrapper, wrapper.factory
    ensures wrapper.Valid()
    ensures step == PrimaryStep(held, it)
    ensures wrapper.State() == AfterSends(old(wrapper.State()), wrapper.topics, HandoffSend(step, RetryTopicFragment))
  {
    var deserializedMessage, committed, thrown := TryConsume(held, it);
    var handler, handoff, next := NoHandler, None, Continue;
    match thrown {
      case None =>
      case Some(ConsumeThrown) =>
        handler := ConsumeHandler;
      case Some(KafkaThrown) =>
        handler := KafkaHandler;
        if deserializedMessage.None? {
          next := Escaped;
        }
      case Some(OtherThrown) =>
        handler := GeneralHandler;
        if deserializedMessage.None? {
          next := Escaped;
        } else {
          handoff := deserializedMessage;
          ProduceTopicRetry(wrapper, deserializedMessage.value, it.delivery);
        }
    }
    if next.Continue? && it.poll.Cancelled? {
      next := StopAtTop;
    }
    step := Step(deserializedMessage, committed, handler, handoff, next);
  }

  /** The primary loop over `script`, one element per iteration, with
      cancellation seen at the top once the script is exhausted. Every
      iteration first obtains its consumer from the primary build; the loop
      stops when that build throws, when an exception leaves an iteration, or
      when cancellation is seen. `states` are the consumer factory's states
      before each recorded iteration and after the last. */
  method RunPrimary(factory: KafkaConsumerFactory, wrapper: ProducerWrapper, script: seq<Iteration>)
    returns (trace: seq<Step>, end: LoopEnd, ghost states: seq<Slots>)
    requires factory.Valid() && wrapper.Valid()
    modifies factory, wrapper, wrapper.factory
    ensures factory.Valid() && wrapper.Valid()
    ensures IsPrimaryTrace(script, trace)
    ensures wrapper.sends == old(wrapper.sends) + Handoffs(trace, RetryTopicFragment)
    ensures wrapper.State() == AfterSends(old(wrapper.State()), wrapper.topics, Handoffs(trace, RetryTopicFragment))
    ensures Ended(trace) ==>
              end == if trace[|trace| - 1].next.StopAtTop? then CancellationSeen else ExceptionEscaped
    ensures !Ended(trace) ==>
              (|trace| == |script| && end == CancellationSeen) || (|trace| < |script| && end.BuildThrew?)
    ensures IsTurnChain(Primary, factory.topics, factory.groupIds, script, states)
    ensures |states| == |trace| + 1 && states[0] == old(factory.State())
    ensures !end.BuildThrew? ==> factory.State() == states[|trace|]
    ensures end.BuildThrew? ==>
              && |trace| < |script|
              && var b := Turn(Primary, states[|trace|], factory.topics, factory.groupIds, script[|trace|].fault);
                 b.result == Failure(end.error) && factory.State() == b.after
  {
    var deserializedMessage: Option<KafkaMessage> := None;
    trace, states := [], [factory.State()];
    var i := 0;
    while i < |script|
      invariant i == |trace| <= |script|
      invariant IsPrimaryTrace(script, trace)
      invariant !Ended(trace)
      invariant deserializedMessage == HeldBefore(trace, i)
      invariant wrapper.sends == old(wrapper.sends) + Handoffs(trace, RetryTopicFragment)
      invariant wrapper.State() == AfterSends(old(wrapper.State()), wrapper.topics, Handoffs(trace, RetryTopicFragment))
      invariant factory.Valid() && wrapper.Valid()
      invariant IsTurnChain(Primary, factory.topics, factory.groupIds, script, states)
      invariant |states| == i + 1 && states[0] == old(factory.State()) && factory.State() == states[i]
      decreases |script| - i
    {
      var r := PrimaryIteration(factory, wrapper, deserializedMessage, script[i]);
      if r.Failure? {
        return trace, BuildThrew(r.error), states;
      }
      var step := r.value;
      TraceGrows(PrimaryStep, script, trace, step, RetryTopicFragment);
      TurnChainGrows(Primary, factory.topics, factory.groupIds, script, states);
      AfterSendsAppend(old(wrapper.State()), wrapper.topics, Handoffs(trace, RetryTopicFragment),
                       HandoffSend(step, RetryTopicFragment));
      states := states + [factory.State()];
      trace := trace + [step];
      deserializedMessage := step.held;
      i := i + 1;
      if !step.next.Continue? {
        return trace, if step.next.StopAtTop? then CancellationSeen else ExceptionEscaped, states;
      }
    }
    end := CancellationSeen;
  }

  /** In the primary loop the message variable always holds the last
      deserialization result, from this iteration or an earlier one. */
  lemma PrimaryHeldIsLastParsed(script: seq<Iteration>, trace: seq<Step>, k: nat)
    requires IsPrimaryTrace(script, trace) && k < |trace|
    ensures trace[k].held == LastParsed(script[..k + 1])
  {
    assert HeldChain(script, trace) by {
      forall j | 0 <= j < |trace|
        ensures trace[j].held == HeldAfter(HeldBefore(trace, j), script[j])
      {
        assert trace[j] == PrimaryStep(HeldBefore(trace, j), script[j]);
      }
    }
    HeldIsLastParsed(script, trace, k);
  }

  /** A hand-off happens exactly when the catch-all clause runs and some
      iteration so far deserialized a message; it carries the last one. */
  lemma PrimaryHandoffIsLastParsed(script: seq<Iteration>, trace: seq<Step>, k: nat)
    requires IsPrimaryTrace(script, trace) && k < |trace|
    ensures trace[k].handoff.Some? <==> Raised(script[k]) == Some(OtherThrown) && LastParsed(script[..k + 1]).Some?
    ensures trace[k].handoff.Some? ==> trace[k].handoff == LastParsed(script[..k + 1])
  {
    PrimaryHeldIsLastParsed(script, trace, k);
    assert trace[k] == PrimaryStep(HeldBefore(trace, k), script[k]);
  }

  /** Broker errors never end the primary loop: an iteration ends it only when
      cancellation was raised while polling, or when a handler reads the id of
      a message variable that no iteration has set to a message. */
  lemma PrimaryEndsOnlyOnCancellationOrNull(script: seq<Iteration>, trace: seq<Step>, k: nat)
    requires IsPrimaryTrace(script, trace) && k < |trace|
    ensures trace[k].next.StopAtTop? ==> script[k].poll.Cancelled?
    ensures trace[k].next.Escaped? <==> Raised(script[k]).Some? && !script[k].poll.ConsumeFailed?
                                         && LastParsed(script[..k + 1]).None?
  {
    PrimaryHeldIsLastParsed(script, trace, k);
    assert trace[k] == PrimaryStep(HeldBefore(trace, k), script[k]);
  }

  /** After a fatal error on the primary connection, reported while polling,
      the error callback has disposed and cleared it, and polling it then
      throws: the catch-all clause hands the held message off once more, the
      loop goes on, and the next build creates a new connection. */
  lemma DisposedPollHandsOffAndContinues(s: Slots, topics: seq<string>, groupIds: seq<string>,
                                         it: Iteration, m: KafkaMessage)
    requires it.fault.Some? && it.fault.value.isFatal && it.poll.PollThrew?
    requires Turn(Primary, s, topics, groupIds, it.fault).result.Success?
    ensures Turn(Primary, s, topics, groupIds, it.fault).after.xxx.None?
    ensures Turn(Primary, s, topics, groupIds, it.fault).result.value.id
            in Turn(Primary, s, topics, groupIds, it.fault).after.disposed
    ensures PrimaryStep(Some(m), it) == Step(Some(m), false, GeneralHandler, Some(m), Continue)
    ensures PrimaryRebuilds(Turn(Primary, s, topics, groupIds, it.fault).after)
  {
    PrimaryBuildOutcomes(s, topics, groupIds);
  }

  /** The primary step with two corrections: the message variable is declared
      inside the loop, and the handlers read its id and hand it off only when
      it is set. Then only a failure after this iteration's message was
      deserialized hands that message to the retry topic; a failed
      deserialization or a cancellation hands nothing off, and no handler
      throws. The first correction alone is not enough: the handlers would
      still read the id of an unset variable. */
  function PrimaryStepIntended(it: Iteration): (r: Step)
    ensures r.committed <==> CommitSucceeds(it)
    ensures r.handoff.Some? ==> Updates(it) && it.parse.message == r.handoff && it.commit.CommitOtherFailed?
    ensures Updates(it) && it.parse.message.Some? && it.commit.CommitOtherFailed? ==> r.handoff.Some?
    ensures !r.next.Escaped?
    ensures r.next.StopAtTop? <==> it.poll.Cancelled?
  {
    var h := HeldAfter(None, it);
    match Raised(it)
    case None => Step(h, CommitSucceeds(it), NoHandler, None, Continue)
    case Some(ConsumeThrown) => Step(h, false, ConsumeHandler, None, Continue)
    case Some(KafkaThrown) => Step(h, false, KafkaHandler, None, Continue)
    case Some(OtherThrown) => Step(h, false, GeneralHandler, h, if it.poll.Cancelled? then StopAtTop else Continue)
  }

  /** As written, a deserialization failure right after a successful iteration
      republishes the previous iteration's message; the intended step hands
      nothing off for it. */
  lemma StaleHandoff(m1: KafkaMessage, trace: seq<Step>)
    requires IsPrimaryTrace([Iteration(None, Received, Parsed(Some(m1)), CommitOk, Delivered(Persisted)),
                             Iteration(None, Received, ParseFailed, CommitOk, Delivered(Persisted))], trace)
    requires |trace| == 2
    ensures trace[0].committed && trace[1].handoff == Some(m1)
    ensures PrimaryStepIntended(Iteration(None, Received, ParseFailed, CommitOk, Delivered(Persisted))).handoff == None
  {
    assert trace[0] == PrimaryStep(None, Iteration(None, Received, Parsed(Some(m1)), CommitOk, Delivered(Persisted)));
  }

  /** As written, a deserialization failure before any message was deserialized
      makes the catch-all clause dereference null, and the loop ends. */
  lemma FirstParseFailureEndsLoop(trace: seq<Step>)
    requires IsPrimaryTrace([Iteration(None, Received, ParseFailed, CommitOk, Delivered(Persisted))], trace)
    requires |trace| == 1
    ensures trace[0].next.Escaped? && trace[0].handoff.None?
  {
    assert trace[0] == PrimaryStep(None, Iteration(None, Received, ParseFailed, CommitOk, Delivered(Persisted)));
  }
}

/** Concrete runs of the primary loop. */
module BackgroundServiceScenarios {
  import opened Wrappers
  import opened KafkaClient
  import opened TopicResolution
  import opened ProducerFactory
  import opened ProducerWrapping
  import opened ConsumerFactory
  import opened ConsumeIteration
  import opened BackgroundService

  /** As written, the primary loop on a fresh factory, with no retry build in
      between, ends at its second build: the first iteration builds and
      subscribes the primary consumer and polls nothing, and the next build
      dereferences the empty retry slot. */
  method PrimaryLoopEndsAtSecondBuild() returns (trace: seq<Step>, end: LoopEnd)
    ensures |trace| == 1 && end == BuildThrew(NullReference)
  {
    ExampleTopicTable();
    var consumers := new KafkaConsumerFactory(["t.xxx", "t.xxy"], ["g1", "g2"], "");
    var producers := new KafkaProducerFactory();
    var wrapper := new ProducerWrapper(producers, ["t.xxx", "t.xxy"]);
    var idle := Iteration(None, NoMessage, ParseFailed, CommitOk, Delivered(Persisted));
    ghost var states;
    trace, end, states := RunPrimary(consumers, wrapper, [idle, idle, idle]);
    var topics, groupIds := consumers.topics, consumers.groupIds;
    assert Turn(Primary, states[0], topics, groupIds, None).result.Success?;
    assert |trace| >= 1;
    TurnKeepsOtherSlot(Primary, states[0], topics, groupIds, None);
    PrimaryLoopNeedsRetrySlot(states[0], topics, groupIds, None);
    assert trace[0] == PrimaryStep(None, idle);
  }
}
