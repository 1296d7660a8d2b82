/** What one iteration of a consume loop meets and does, shared by the primary
    and the retry loop: the outcomes of the broker calls and of deserialization
    (inputs), which exception the try block raises, and the record of the
    iteration. */
module ConsumeIteration {
  import opened Wrappers
  import opened KafkaClient
  import opened ProducerWrapping
  import opened ConsumerFactory

  /** What the blocking poll yields: no message, a consume exception, another
      broker exception, the cancellation exception (the stopping token fired
      while polling), any other exception (such as polling a connection that
      was disposed), or a message. */
  datatype Poll =
    | NoMessage
    | ConsumeFailed(error: KafkaError)
    | PollKafkaFailed(error: KafkaError)
    | Cancelled
    | PollThrew
    | Received

  /** What deserializing the message's value yields: a message, or null (the
      JSON text "null"), or an exception. */
  datatype Parse = Parsed(message: Option<KafkaMessage>) | ParseFailed

  /** What committing the offset yields: success, a broker exception, or
      another exception. */
  datatype Commit = CommitOk | CommitKafkaFailed(error: KafkaError) | CommitOtherFailed

  /** The inputs of one iteration: an error the broker client reports on the
      iteration's consumer while polling, the poll, deserialization and commit
      outcomes, and the outcome of a retry publish, should one happen. */
  datatype Iteration = Iteration(fault: Option<KafkaError>, poll: Poll, parse: Parse, commit: Commit, delivery: Delivery)

  /** The kind of exception the try block raises. */
  datatype Thrown = ConsumeThrown | KafkaThrown | OtherThrown

  /** The catch clause that ran, or `Uncaught` when none matched. */
  datatype Handler = NoHandler | ConsumeHandler | KafkaHandler | GeneralHandler | Uncaught

  /** How the loop goes on after an iteration: next iteration, stop at the
      cancellation check at the top, or an exception leaves the loop. */
  datatype Next = Continue | StopAtTop | Escaped

  /** The record of one iteration: the message variable afterwards, whether an
      offset was committed, the handler that ran, the message handed to the
      retry topic, and how the loop goes on. */
  datatype Step = Step(held: Option<KafkaMessage>, committed: bool, handler: Handler,
                       handoff: Option<KafkaMessage>, next: Next)

  /** How a whole loop ends. */
  datatype LoopEnd = CancellationSeen | ExceptionEscaped | BuildThrew(error: Exception)

  /** The iteration assigns the message variable: a message arrived and deserialized. */
  predicate Updates(it: Iteration)
  {
    it.poll.Received? && it.parse.Parsed?
  }

  /** The iteration commits: a message arrived, deserialized, and the commit succeeded. */
  predicate CommitSucceeds(it: Iteration)
  {
    Updates(it) && it.commit.CommitOk?
  }

  /** The message variable after the try block. */
  function HeldAfter(held: Option<KafkaMessage>, it: Iteration): (h: Option<KafkaMessage>)
    ensures Updates(it) ==> h == it.parse.message
    ensures !Updates(it) ==> h == held
  {
    if Updates(it) then it.parse.message else held
  }

  /** The exception the try block raises. A consume exception is the only
      ConsumeException; the other broker exceptions come from a poll or a
      commit the broker client rejected; a failed deserialization, a failed
      commit of another kind, cancellation and any other poll failure raise
      other exceptions. */
  function Raised(it: Iteration): (t: Option<Thrown>)
    ensures t.None? <==> it.poll.NoMessage? || CommitSucceeds(it)
    ensures t == Some(ConsumeThrown) <==> it.poll.ConsumeFailed?
    ensures t == Some(KafkaThrown) <==> it.poll.PollKafkaFailed? || (Updates(it) && it.commit.CommitKafkaFailed?)
    ensures t == Some(OtherThrown) && !it.poll.Received? <==> it.poll.Cancelled? || it.poll.PollThrew?
  {
    match it.poll
    case NoMessage => None
    case ConsumeFailed(_) => Some(ConsumeThrown)
    case PollKafkaFailed(_) => Some(KafkaThrown)
    case Cancelled => Some(OtherThrown)
    case PollThrew => Some(OtherThrown)
    case Received =>
      match it.parse
      case ParseFailed => Some(OtherThrown)
      case Parsed(_) =>
        match it.commit
        case CommitOk => None
        case CommitKafkaFailed(_) => Some(KafkaThrown)
        case CommitOtherFailed => Some(OtherThrown)
  }

  /** The message variable before iteration `k`: null before the first. */
  function HeldBefore(trace: seq<Step>, k: nat): Option<KafkaMessage>
    requires k <= |trace|
  {
    if k == 0 then None else trace[k - 1].held
  }

  /** The most recent deserialization result in `script`, null if none. */
  function LastParsed(script: seq<Iteration>): Option<KafkaMessage>
  {
    if script == [] then None
    else if Updates(script[|script| - 1]) then script[|script| - 1].parse.message
    else LastParsed(script[..|script| - 1])
  }

  /** Each iteration of `trace` updates the message variable from the one before. */
  ghost predicate HeldChain(script: seq<Iteration>, trace: seq<Step>)
  {
    && |trace| <= |script|
    && forall k :: 0 <= k < |trace| ==> trace[k].held == HeldAfter(HeldBefore(trace, k), script[k])
  }

  /** The message variable, declared once outside the loop, holds the last
      deserialization result of any earlier or current iteration. */
  lemma {:induction false} HeldIsLastParsed(script: seq<Iteration>, trace: seq<Step>, k: nat)
    requires HeldChain(script, trace)
    requires k < |trace|
    ensures trace[k].held == LastParsed(script[..k + 1])
  {
    assert script[..k + 1][..k] == script[..k];
    assert script[..k + 1][k] == script[k];
    if k > 0 {
      HeldIsLastParsed(script, trace, k - 1);
    } else {
      assert script[..k] == [];
    }
  }

  /** The send an iteration makes to the retry topic: its hand-off, if any. */
  function HandoffSend(step: Step, fragment: string): seq<SendRecord>
  {
    match step.handoff
    case Some(m) => [SendRecord(fragment, m)]
    case None => []
  }

  /** The sends the hand-offs of `trace` make, in order, to `fragment`. */
  function Handoffs(trace: seq<Step>, fragment: string): seq<SendRecord>
  {
    if trace == [] then []
    else
      Handoffs(trace[..|trace| - 1], fragment) + HandoffSend(trace[|trace| - 1], fragment)
  }

  /** A trace without hand-offs makes no sends. */
  lemma {:induction false} NoHandoffsNoSends(trace: seq<Step>, fragment: string)
    requires forall k :: 0 <= k < |trace| ==> trace[k].handoff.None?
    ensures Handoffs(trace, fragment) == []
  {
    if trace != [] {
      NoHandoffsNoSends(trace[..|trace| - 1], fragment);
    }
  }

  /** The try block of one iteration: consume, deserialize into the message
      variable, commit; yields the message variable afterwards, whether the
      commit happened, and the exception raised, if any. */
  method TryConsume(held: Option<KafkaMessage>, it: Iteration)
    returns (deserializedMessage: Option<KafkaMessage>, committed: bool, thrown: Option<Thrown>)
    ensures deserializedMessage == HeldAfter(held, it)
    ensures committed == CommitSucceeds(it)
    ensures thrown == Raised(it)
  {
    deserializedMessage, committed, thrown := held, false, None;
    match it.poll {
      case NoMessage =>
      case ConsumeFailed(_) =>
        thrown := Some(ConsumeThrown);
      case PollKafkaFailed(_) =>
        thrown := Some(KafkaThrown);
      case Cancelled =>
        thrown := Some(OtherThrown);
      case PollThrew =>
        thrown := Some(OtherThrown);
      case Received =>
        match it.parse {
          case ParseFailed =>
            thrown := Some(OtherThrown);
          case Parsed(m) =>
            deserializedMessage := m;
            match it.commit {
              case CommitOk =>
                committed := true;
              case CommitKafkaFailed(_) =>
                thrown := Some(KafkaThrown);
              case CommitOtherFailed =>
                thrown := Some(OtherThrown);
            }
        }
    }
  }
  /** `trace` is what a loop whose iterations follow `step` records on the
      first |trace| iterations of `script`: each iteration starts from the
      message variable the previous one left, and every iteration but the
      last continues. */
  ghost predicate IsTrace(step: (Option<KafkaMessage>, Iteration) -> Step, script: seq<Iteration>, trace: seq<Step>)
  {
    && |trace| <= |script|
    && (forall k :: 0 <= k < |trace| ==> trace[k] == step(HeldBefore(trace, k), script[k]))
    && (forall k :: 0 <= k < |trace| - 1 ==> trace[k].next.Continue?)
  }

  /** One more iteration extends a trace whose last iteration continued, and
      adds its hand-off, if any, to the sends. */
  lemma TraceGrows(step: (Option<KafkaMessage>, Iteration) -> Step, script: seq<Iteration>, trace: seq<Step>,
                   s: Step, fragment: string)
    requires IsTrace(step, script, trace) && |trace| < |script| && !Ended(trace)
    requires s == step(HeldBefore(trace, |trace|), script[|trace|])
    ensures IsTrace(step, script, trace + [s])
    ensures Handoffs(trace + [s], fragment)
            == Handoffs(trace, fragment) + HandoffSend(s, fragment)
  {
    var t := trace + [s];
    forall k | 0 <= k < |t| ensures t[k] == step(HeldBefore(t, k), script[k]) {
      HeldBeforeSnoc(trace, s, k);
    }
    HandoffsSnoc(trace, s, fragment);
  }

  /** Appending an iteration leaves the message variable before the earlier
      ones, and before the new one, as it was. */
  lemma HeldBeforeSnoc(trace: seq<Step>, s: Step, k: nat)
    requires k <= |trace|
    ensures HeldBefore(trace + [s], k) == HeldBefore(trace, k)
    ensures k < |trace| ==> (trace + [s])[k] == trace[k]
  {
  }

  /** Appending an iteration appends its hand-off to the sends. */
  lemma HandoffsSnoc(trace: seq<Step>, s: Step, fragment: string)
    ensures Handoffs(trace + [s], fragment) == Handoffs(trace, fragment) + HandoffSend(s, fragment)
  {
    assert (trace + [s])[..|trace|] == trace;
  }

  /** `states` are the factory's states before each of the first |states| - 1
      iterations of the role's loop over `script`, and after the last of them:
      each of those iterations' builds returned a connection, and each state is
      the one the previous iteration left. */
  ghost predicate IsTurnChain(role: Role, topics: seq<string>, groupIds: seq<string>,
                              script: seq<Iteration>, states: seq<Slots>)
  {
    && 0 < |states| <= |script| + 1
    && forall k :: 0 <= k < |states| - 1 ==>
         && Turn(role, states[k], topics, groupIds, script[k].fault).result.Success?
         && Turn(role, states[k], topics, groupIds, script[k].fault).after == states[k + 1]
  }

  /** An iteration whose build returned a connection extends the chain with the
      state it leaves. */
  lemma TurnChainGrows(role: Role, topics: seq<string>, groupIds: seq<string>,
                       script: seq<Iteration>, states: seq<Slots>)
    requires IsTurnChain(role, topics, groupIds, script, states) && |states| <= |script|
    requires Turn(role, states[|states| - 1], topics, groupIds, script[|states| - 1].fault).result.Success?
    ensures IsTurnChain(role, topics, groupIds, script,
                        states + [Turn(role, states[|states| - 1], topics, groupIds, script[|states| - 1].fault).after])
  {
    var t := states + [Turn(role, states[|states| - 1], topics, groupIds, script[|states| - 1].fault).after];
    forall k | 0 <= k < |t| - 1
      ensures Turn(role, t[k], topics, groupIds, script[k].fault).result.Success?
      ensures Turn(role, t[k], topics, groupIds, script[k].fault).after == t[k + 1]
    {
      assert t[k] == states[k];
    }
  }

  /** The trace has ended: its last iteration does not continue. */
  predicate Ended(trace: seq<Step>)
  {
    trace != [] && !trace[|trace| - 1].next.Continue?
  }
}
