/** The retry consume loop: polls the retry topic, deserializes and commits;
    it logs consume and other broker exceptions, publishes nothing, and has no
    catch-all clause. */
module RetryBackgroundService {
  import opened Wrappers
  import opened KafkaClient
  import opened ConsumerFactory
  import opened ConsumeIteration
  import BackgroundService

  /** One iteration of the retry loop, from the message variable before it.
      Consume and other broker exceptions are logged; the broker handler reads the
      message's id and throws when the variable is null; every other exception
      is uncaught. Nothing is ever handed off. */
  function RetryStep(held: Option<KafkaMessage>, it: Iteration): (r: Step)
    ensures r.held == HeldAfter(held, it)
    ensures r.committed <==> CommitSucceeds(it)
    ensures r.handoff.None?
    ensures r.handler == NoHandler <==> Raised(it).None?
    ensures r.handler == ConsumeHandler <==> it.poll.ConsumeFailed?
    ensures r.handler == KafkaHandler <==> Raised(it) == Some(KafkaThrown)
    ensures r.handler == Uncaught <==> Raised(it) == Some(OtherThrown)
    ensures r.next == Escaped <==> r.handler == Uncaught || (r.handler == KafkaHandler && r.held.None?)
    ensures !r.next.StopAtTop?
  {
    var h := HeldAfter(held, it);
    match Raised(it)
    case None => Step(h, CommitSucceeds(it), NoHandler, None, Continue)
    case Some(ConsumeThrown) => Step(h, false, ConsumeHandler, None, Continue)
    case Some(KafkaThrown) => Step(h, false, KafkaHandler, None, if h.None? then Escaped else Continue)
    case Some(OtherThrown) => Step(h, false, Uncaught, None, Escaped)
  }

  /** `trace` records the first |trace| iterations of the retry loop over
      `script`, each continuing except possibly the last. */
  ghost predicate IsRetryTrace(script: seq<Iteration>, trace: seq<Step>)
  {
    IsTrace(RetryStep, script, trace)
  }

  /** One iteration of the retry loop on the consumer the build returned: the
      broker client's error callback (if it fires while polling), the try
      block, then the two catch clauses. */
  method RetryIteration(factory: KafkaConsumerFactory,
                        held: Option<KafkaMessage>, it: Iteration) returns (r: Result<Step, Exception>)
    requires factory.Valid()
    modifies factory
    ensures factory.Valid()
    ensures var b := Turn(Retry, old(factory.State()), factory.topics, factory.groupIds, it.fault);
            && factory.State() == b.after
            && (r.Failure? <==> b.result.Failure?)
            && (r.Failure? ==> b.result == Failure(r.error))
    ensures r.Success? ==> r.value == RetryStep(held, it)
  {
    var built := factory.BuildXXYConsumer();
    if built.Failure? {
      return Failure(built.error);
    }
    var consumer := built.value;
    if it.fault.Some? {
      var report, name := factory.OnErrorHandler(consumer, it.fault.value);
    }
    var step := RetryTryCatch(held, it);
    r := Success(step);
  }

  /** The try block and its two catch clauses: consume and other broker exceptions
      are logged; any other exception is not caught. */
  method RetryTryCatch(held: Option<KafkaMessage>, it: Iteration) returns (step: Step)
    ensures step == RetryStep(held, it)
  {
    var deserializedMessage, committed, thrown := TryConsume(held, it);
    var handler, next := NoHandler, Continue;
    match thrown {
      case None =>
      case Some(ConsumeThrown) =>
        handler := ConsumeHandler;
      case Some(KafkaThrown) =>
        handler := KafkaHandler;
        if deserializedMessage.None? {
          next := Escaped;
        }
      case Some(OtherThrown) =>
        handler, next := Uncaught, Escaped;
    }
    step := Step(deserializedMessage, committed, handler, None, next);
  }

  /** The retry loop over `script`, one element per iteration, with
      cancellation seen at the top once the script is exhausted. Every
      iteration first obtains its consumer from the retry build. `states` are
      the consumer factory's states before each recorded iteration and after
      the last. */
  method RunRetry(factory: KafkaConsumerFactory, script: seq<Iteration>)
    returns (trace: seq<Step>, end: LoopEnd, ghost states: seq<Slots>)
    requires factory.Valid()
    modifies factory
    ensures factory.Valid()
    ensures IsRetryTrace(script, trace)
    ensures Ended(trace) ==> end == ExceptionEscaped
    ensures !Ended(trace) ==>
              (|trace| == |script| && end == CancellationSeen) || (|trace| < |script| && end.BuildThrew?)
    ensures IsTurnChain(Retry, factory.topics, factory.groupIds, script, states)
    ensures |states| == |trace| + 1 && states[0] == old(factory.State())
    ensures !end.BuildThrew? ==> factory.State() == states[|trace|]
    ensures end.BuildThrew? ==>
              && |trace| < |script|
              && var b := Turn(Retry, states[|trace|], factory.topics, factory.groupIds, script[|trace|].fault);
                 b.result == Failure(end.error) && factory.State() == b.after
  {
    var deserializedMessage: Option<KafkaMessage> := None;
    trace, states := [], [factory.State()];
    var i := 0;
    while i < |script|
      invariant i == |trace| <= |script|
      invariant IsRetryTrace(script, trace)
      invariant !Ended(trace)
      invariant deserializedMessage == HeldBefore(trace, i)
      invariant factory.Valid()
      invariant IsTurnChain(Retry, factory.topics, factory.groupIds, script, states)
      invariant |states| == i + 1 && states[0] == old(factory.State()) && factory.State() == states[i]
      decreases |script| - i
    {
      var r := RetryIteration(factory, deserializedMessage, script[i]);
      if r.Failure? {
        return trace, BuildThrew(r.error), states;
      }
      var step := r.value;
      TraceGrows(RetryStep, script, trace, step, RetryFragment);
      TurnChainGrows(Retry, factory.topics, factory.groupIds, script, states);
      states := states + [factory.State()];
      trace := trace + [step];
      deserializedMessage := step.held;
      i := i + 1;
      if !step.next.Continue? {
        return trace, ExceptionEscaped, states;
      }
    }
    end := CancellationSeen;
  }

  /** The retry loop publishes nothing: its trace hands nothing off. */
  lemma RetryNeverPublishes(script: seq<Iteration>, trace: seq<Step>, fragment: string)
    requires IsRetryTrace(script, trace)
    ensures Handoffs(trace, fragment) == []
  {
    forall k | 0 <= k < |trace| ensures trace[k].handoff.None? {
      assert trace[k] == RetryStep(HeldBefore(trace, k), script[k]);
    }
    NoHandoffsNoSends(trace, fragment);
  }

  /** Any exception other than a broker exception (a failed deserialization,
      a cancellation or another failure raised while polling, another commit
      failure) ends the retry loop with that iteration. */
  lemma RetryEndsOnUncaught(script: seq<Iteration>, trace: seq<Step>, k: nat)
    requires IsRetryTrace(script, trace) && k < |trace|
    requires Raised(script[k]) == Some(OtherThrown)
    ensures k == |trace| - 1 && Ended(trace)
  {
    assert trace[k] == RetryStep(HeldBefore(trace, k), script[k]);
  }

  /** The broker-exception handler of the retry loop throws exactly when the
      last deserialization result is null. After a failed commit that is this
      iteration's result, since the message variable is assigned right before
      the commit; after a failed poll it comes from an earlier iteration. */
  lemma RetryCommitHandlerNeedsMessage(script: seq<Iteration>, trace: seq<Step>, k: nat)
    requires IsRetryTrace(script, trace) && k < |trace|
    requires Raised(script[k]) == Some(KafkaThrown)
    ensures trace[k].held == LastParsed(script[..k + 1])
    ensures trace[k].next.Escaped? <==> LastParsed(script[..k + 1]).None?
    ensures script[k].poll.Received? ==> (trace[k].next.Escaped? <==> script[k].parse == Parsed(None))
  {
    assert HeldChain(script, trace) by {
      forall j | 0 <= j < |trace|
        ensures trace[j].held == HeldAfter(HeldBefore(trace, j), script[j])
      {
        assert trace[j] == RetryStep(HeldBefore(trace, j), script[j]);
      }
    }
    HeldIsLastParsed(script, trace, k);
  }

  /** End to end: a processing failure after the primary loop deserialized m
      hands m to the retry topic; the retry loop then deserializes and commits
      it and does nothing more. */
  lemma HandoffThenRetryCommit(m: KafkaMessage, d: Delivery)
    ensures BackgroundService.PrimaryStep(None, Iteration(None, Received, Parsed(Some(m)), CommitOtherFailed, d)).handoff == Some(m)
    ensures RetryStep(None, Iteration(None, Received, Parsed(Some(m)), CommitOk, d))
            == Step(Some(m), true, NoHandler, None, Continue)
  {
  }
}
