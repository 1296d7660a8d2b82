/** The producer wrapper: publishes a serialized message to the topic chosen by
    name fragment, reports the persistence status as an integer, rethrows
    delivery failures, and passes transaction calls to the producer it cached
    on its last send. */
module ProducerWrapping {
  import opened Wrappers
  import opened KafkaClient
  import opened TopicResolution
  import opened ProducerFactory

  /** A call the wrapper issues to the broker client. A produced message has no
      key: only its topic and value are given. */
  datatype ProducerCall =
    | Produce(topic: string, value: Payload)
    | InitTransactions
    | BeginTransaction
    | CommitTransaction
    | AbortTransaction
    | Flush

  /** A call together with the producer it was issued to. */
  datatype Issued = Issued(producerId: nat, call: ProducerCall)

  /** One invocation of the send operation: the fragment and the message. */
  datatype SendRecord = SendRecord(fragment: string, message: KafkaMessage)

  /** Integer value of a persistence status: NotPersisted = 0,
      PossiblyPersisted = 1, Persisted = 2. */
  function StatusCode(s: PersistenceStatus): (c: int)
    ensures 0 <= c <= 2
    ensures c == 2 <==> s == Persisted
  {
    match s
    case NotPersisted => 0
    case PossiblyPersisted => 1
    case Persisted => 2
  }

  /** The status an integer stands for, if any. */
  function StatusOf(c: int): (s: Option<PersistenceStatus>)
    ensures s.Some? <==> 0 <= c <= 2
  {
    if c == 0 then Some(NotPersisted)
    else if c == 1 then Some(PossiblyPersisted)
    else if c == 2 then Some(Persisted)
    else None
  }

  /** The integer status loses nothing: decoding it gives the status back,
      and every status code comes from exactly one status. */
  lemma StatusCodeRoundTrip(s: PersistenceStatus, c: int)
    ensures StatusOf(StatusCode(s)) == Some(s)
    ensures StatusOf(c) == Some(s) ==> StatusCode(s) == c
  {
  }

  /** What a transaction call or flush yields for the broker client's reply:
      nothing, or the client's exception. */
  function Answer(reply: Outcome<KafkaError>): (r: Outcome<Exception>)
    ensures r.Pass? <==> reply.Pass?
    ensures reply.Fail? ==> r == Fail(KafkaException(reply.error))
  {
    match reply
    case Pass => Pass
    case Fail(e) => Fail(KafkaException(e))
  }

  /** The wrapper's and its factory's state as a value: the cached producer,
      the factory's slot and counter and disposed identities, the issued calls
      and the sends. */
  datatype WrapperState = WrapperState(cached: Option<Producer>, slot: Option<Producer>, nextId: nat,
                                       disposed: set<nat>, issued: seq<Issued>, sends: seq<SendRecord>)

  /** The identity of the producer the factory's next build returns. */
  function UpcomingId(s: WrapperState): nat
  {
    if s.slot.Some? then s.slot.value.id else s.nextId
  }

  /** The calls the sends `sends` issue when they all go through producer `p`:
      each send whose fragment names a topic produces the message's JSON to the
      first such topic; a send that names none issues nothing. */
  function Published(p: nat, topics: seq<string>, sends: seq<SendRecord>): seq<Issued>
  {
    if sends == [] then []
    else
      Published(p, topics, sends[..|sends| - 1]) + PublishedBy(p, topics, sends[|sends| - 1])
  }

  /** The calls one send issues through producer `p`. */
  function PublishedBy(p: nat, topics: seq<string>, send: SendRecord): seq<Issued>
  {
    match FirstContaining(topics, send.fragment)
    case None => []
    case Some(t) => [Issued(p, Produce(t, JsonOf(send.message)))]
  }

  /** The state after `sent`, in order: the first send builds (or reuses) the
      factory's producer and caches it, and every send goes through it. */
  function AfterSends(s: WrapperState, topics: seq<string>, sent: seq<SendRecord>): WrapperState
  {
    if sent == [] then s
    else
      var p := Producer(UpcomingId(s));
      s.(cached := Some(p), slot := Some(p), nextId := if s.slot.None? then s.nextId + 1 else s.nextId,
         issued := s.issued + Published(p.id, topics, sent), sends := s.sends + sent)
  }

  /** What one send publishes: the message's JSON on the first topic that
      contains the fragment, through the producer the factory's build returns,
      or nothing when no topic does. */
  lemma PublishedOne(p: nat, topics: seq<string>, send: SendRecord)
    ensures match FirstContaining(topics, send.fragment)
            case None => Published(p, topics, [send]) == []
            case Some(t) => Published(p, topics, [send]) == [Issued(p, Produce(t, JsonOf(send.message)))]
  {
    assert [send][..0] == [];
  }

  /** Publishing two runs of sends publishes the first run's calls, then the
      second's. */
  lemma {:induction false} PublishedAppend(p: nat, topics: seq<string>, a: seq<SendRecord>, b: seq<SendRecord>)
    ensures Published(p, topics, a + b) == Published(p, topics, a) + Published(p, topics, b)
  {
    if b != [] {
      assert (a + b)[..|a + b| - 1] == a + b[..|b| - 1];
      assert (a + b)[|a + b| - 1] == b[|b| - 1];
      PublishedAppend(p, topics, a, b[..|b| - 1]);
    } else {
      assert a + b == a;
    }
  }

  /** Sending in two runs ends where sending everything at once does: after the
      first send the producer no longer changes. */
  lemma AfterSendsAppend(s: WrapperState, topics: seq<string>, a: seq<SendRecord>, b: seq<SendRecord>)
    ensures AfterSends(AfterSends(s, topics, a), topics, b) == AfterSends(s, topics, a + b)
  {
    if a == [] {
      assert a + b == b;
    } else if b == [] {
      assert a + b == a;
    } else {
      var later := AfterSends(AfterSends(s, topics, a), topics, b);
      var whole := AfterSends(s, topics, a + b);
      AfterSendsIssued(s, topics, a, b);
      assert later.sends == whole.sends && later.nextId == whole.nextId;
      assert later.cached == whole.cached && later.slot == whole.slot && later.disposed == whole.disposed;
    }
  }

  /** The calls issued by two runs of sends. */
  lemma AfterSendsIssued(s: WrapperState, topics: seq<string>, a: seq<SendRecord>, b: seq<SendRecord>)
    requires a != [] && b != []
    ensures AfterSends(AfterSends(s, topics, a), topics, b).issued == AfterSends(s, topics, a + b).issued
  {
    PublishedAppend(UpcomingId(s), topics, a, b);
  }

  class ProducerWrapper {
    /** The producer cached by the last send (`_producer`); unset before the first. */
    var producer: Option<Producer>
    const factory: KafkaProducerFactory
    const topics: seq<string>
    /** The calls issued to the broker client, oldest first. */
    ghost var issued: seq<Issued>
    /** Every send invocation, oldest first. */
    ghost var sends: seq<SendRecord>

    ghost predicate Valid()
      reads this, factory
    {
      factory.Valid()
    }

    /** The wrapper's and its factory's fields as a value. */
    ghost function State(): WrapperState
      reads this, factory
    {
      WrapperState(producer, factory.producer, factory.nextId, factory.disposed, issued, sends)
    }

    constructor (factory: KafkaProducerFactory, topics: seq<string>)
      requires factory.Valid()
      ensures Valid() && this.factory == factory && this.topics == topics
      ensures producer == None && issued == [] && sends == []
    {
      this.factory := factory;
      this.topics := topics;
      producer := None;
      issued, sends := [], [];
    }

    /** Caches the factory's producer, then publishes the message's JSON to the
        first topic containing `fragment`. A delivery report gives its status
        code; a delivery exception is logged and rethrown, any other exception
        passes through. When no topic matches nothing is published, but the
        producer is already cached. */
    method SendMessage(fragment: string, message: KafkaMessage, delivery: Delivery) returns (r: Result<int, Exception>)
      requires Valid()
      modifies this, factory
      ensures Valid()
      ensures sends == old(sends) + [SendRecord(fragment, message)]
      ensures producer.Some? && producer == factory.producer
      ensures old(factory.producer).Some? ==> producer == old(factory.producer) && unchanged(factory)
      ensures old(factory.producer).None? ==> producer.value.id == old(factory.nextId)
                                              && factory.nextId == old(factory.nextId) + 1
                                              && factory.disposed == old(factory.disposed)
      ensures match FirstContaining(topics, fragment)
              case None => r == Failure(NoMatchingElement) && issued == old(issued)
              case Some(t) =>
                && issued == old(issued) + [Issued(producer.value.id, Produce(t, JsonOf(message)))]
                && r == match delivery
                        case Delivered(s) => Success(StatusCode(s))
                        case DeliveryFailed(e) => Failure(ProduceException(e))
                        case ProduceThrew => Failure(OtherException)
      ensures State() == AfterSends(old(State()), topics, [SendRecord(fragment, message)])
    {
      sends := sends + [SendRecord(fragment, message)];
      var p := factory.BuildProducer();
      PublishedOne(p.id, topics, SendRecord(fragment, message));
      producer := Some(p);
      var payload := JsonOf(message);
      var topic := FirstContaining(topics, fragment);
      if topic.None? {
        return Failure(NoMatchingElement);
      }
      issued := issued + [Issued(p.id, Produce(topic.value, payload))];
      match delivery
      case Delivered(s) =>
        r := Success(StatusCode(s));
      case DeliveryFailed(e) =>
        r := Failure(ProduceException(e));
      case ProduceThrew =>
        r := Failure(OtherException);
    }

    /** Issues `call` to the cached producer, whose reply is `reply`; throws on
        an unset one. */
    method Issue(call: ProducerCall, reply: Outcome<KafkaError>) returns (r: Outcome<Exception>)
      modifies this
      ensures producer == old(producer) && sends == old(sends)
      ensures producer.None? ==> r == Fail(NullReference) && issued == old(issued)
      ensures producer.Some? ==> r == Answer(reply) && issued == old(issued) + [Issued(producer.value.id, call)]
    {
      if producer.None? {
        return Fail(NullReference);
      }
      issued := issued + [Issued(producer.value.id, call)];
      r := Answer(reply);
    }

    /** Transaction initialisation on the cached producer. */
    method InitTransactionsOnProducer(reply: Outcome<KafkaError>) returns (r: Outcome<Exception>)
      modifies this
      ensures producer == old(producer) && sends == old(sends)
      ensures producer.None? ==> r == Fail(NullReference) && issued == old(issued)
      ensures producer.Some? ==> r == Answer(reply) && issued == old(issued) + [Issued(producer.value.id, InitTransactions)]
    {
      r := Issue(InitTransactions, reply);
    }

    /** Begins a transaction on the cached producer. */
    method BeginTransactionOnProducer(reply: Outcome<KafkaError>) returns (r: Outcome<Exception>)
      modifies this
      ensures producer == old(producer) && sends == old(sends)
      ensures producer.None? ==> r == Fail(NullReference) && issued == old(issued)
      ensures producer.Some? ==> r == Answer(reply) && issued == old(issued) + [Issued(producer.value.id, BeginTransaction)]
    {
      r := Issue(BeginTransaction, reply);
    }

    /** Commits the transaction on the cached producer. */
    method CommitTransactionOnProducer(reply: Outcome<KafkaError>) returns (r: Outcome<Exception>)
      modifies this
      ensures producer == old(producer) && sends == old(sends)
      ensures producer.None? ==> r == Fail(NullReference) && issued == old(issued)
      ensures producer.Some? ==> r == Answer(reply) && issued == old(issued) + [Issued(producer.value.id, CommitTransaction)]
    {
      r := Issue(CommitTransaction, reply);
    }

    /** Aborts the transaction on the cached producer. */
    method AbortTransactionOnProducer(reply: Outcome<KafkaError>) returns (r: Outcome<Exception>)
      modifies this
      ensures producer == old(producer) && sends == old(sends)
      ensures producer.None? ==> r == Fail(NullReference) && issued == old(issued)
      ensures producer.Some? ==> r == Answer(reply) && issued == old(issued) + [Issued(producer.value.id, AbortTransaction)]
    {
      r := Issue(AbortTransaction, reply);
    }

    /** Flushes the cached producer. */
    method FlushProducer(reply: Outcome<KafkaError>) returns (r: Outcome<Exception>)
      modifies this
      ensures producer == old(producer) && sends == old(sends)
      ensures producer.None? ==> r == Fail(NullReference) && issued == old(issued)
      ensures producer.Some? ==> r == Answer(reply) && issued == old(issued) + [Issued(producer.value.id, Flush)]
    {
      r := Issue(Flush, reply);
    }

    /** Disposal neither disposes nor forgets the producer. */
    method Dispose()
      ensures producer == old(producer) && issued == old(issued)
    {
    }
  }
}

/** Concrete runs of the producer wrapper. */
module ProducerWrapperScenarios {
  import opened Wrappers
  import opened KafkaClient
  import opened TopicResolution
  import opened ProducerFactory
  import opened ProducerWrapping

  /** Transaction calls fail before the first send and act on the producer the
      send cached afterwards; a send to an unknown fragment fails without
      publishing, yet still caches the producer. */
  method TransactionsFollowTheCachedProducer()
    returns (before: Outcome<Exception>, missing: Result<int, Exception>, sent: Result<int, Exception>, after: Outcome<Exception>)
    ensures before == Fail(NullReference)
    ensures missing == Failure(NoMatchingElement)
    ensures sent == Success(2)
    ensures after == Pass
  {
    var f := new KafkaProducerFactory();
    var w := new ProducerWrapper(f, ["t.xxx", "t.xxy"]);
    before := w.BeginTransactionOnProducer(Pass);
    MissingCharNotContained("t.xxx", "zzz", 0);
    MissingCharNotContained("t.xxy", "zzz", 0);
    assert FirstContaining(w.topics, "zzz") == None;
    var m := KafkaMessage("m1", "{}");
    missing := w.SendMessage("zzz", m, Delivered(Persisted));
    assert w.issued == [];
    ExampleTopicTable();
    assert FirstContaining(w.topics, "xxy") == Some("t.xxy");
    sent := w.SendMessage("xxy", m, Delivered(Persisted));
    assert w.issued == [Issued(0, Produce("t.xxy", JsonOf(m)))];
    after := w.BeginTransactionOnProducer(Pass);
    assert w.issued[1] == Issued(0, BeginTransaction);
  }
}
