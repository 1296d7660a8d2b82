/** The consumer connection factory: two lazily built consumer slots, one for
    the primary topic ("xxx") and one for the retry topic ("xxy"), torn down by
    the error callback on a fatal error. */
module ConsumerFactory {
  import opened Wrappers
  import opened LogLevels
  import opened KafkaClient
  import opened TopicResolution

  const PrimaryFragment := "xxx"
  const RetryFragment := "xxy"
  const UnknownName := "Desconhecido"

  /** The two consumer roles. */
  datatype Role = Primary | Retry

  /** The role's topic fragment. */
  function Fragment(role: Role): string
  {
    if role.Primary? then PrimaryFragment else RetryFragment
  }

  /** `slot` holds the consumer `c` (the same connection, by identity). */
  predicate Holds(slot: Option<Consumer>, c: Consumer)
  {
    slot.Some? && slot.value.id == c.id
  }

  /** The factory's mutable state as a value: the two slots, the shared
      configuration's group id, the identity counter and the disposed
      identities. */
  datatype Slots = Slots(xxx: Option<Consumer>, xxy: Option<Consumer>, configGroupId: string,
                         nextId: nat, disposed: set<nat>)

  /** Stored connections were issued and are not disposed, and the two slots
      never hold the same connection. */
  predicate SlotsValid(s: Slots)
  {
    && (s.xxx.Some? ==> s.xxx.value.id < s.nextId && s.xxx.value.id !in s.disposed)
    && (s.xxy.Some? ==> s.xxy.value.id < s.nextId && s.xxy.value.id !in s.disposed)
    && (s.xxx.Some? && s.xxy.Some? ==> s.xxx.value.id != s.xxy.value.id)
    && (forall d :: d in s.disposed ==> d < s.nextId)
  }

  /** What a build leaves behind and what it returns or throws. */
  datatype Built = Built(after: Slots, result: Result<Consumer, Exception>)

  /** `s` with the role's slot holding `c`. */
  function Store(s: Slots, role: Role, c: Consumer): Slots
  {
    if role.Primary? then s.(xxx := Some(c)) else s.(xxy := Some(c))
  }

  /** Rebuilding the role's slot: the group is resolved first, the new
      connection is stored, and then it is subscribed to the role's topic. */
  function Rebuilding(s: Slots, role: Role, topics: seq<string>, groupIds: seq<string>): Built
  {
    var group := if role.Primary? then FirstGroup(groupIds) else LastGroup(groupIds);
    if group.None? then Built(s, Failure(NoElements))
    else
      var c := Consumer(s.nextId, group.value, []);
      var created := Store(s.(configGroupId := group.value, nextId := s.nextId + 1), role, c);
      match FirstContaining(topics, Fragment(role))
      case None => Built(created, Failure(NoMatchingElement))
      case Some(t) => Built(Store(created, role, c.(subscription := [t])), Success(c.(subscription := [t])))
  }

  /** The primary build takes its rebuild branch: the primary slot is empty, or
      the retry slot is set with an empty subscription. */
  predicate PrimaryRebuilds(s: Slots)
  {
    s.xxx.None? || (s.xxy.Some? && s.xxy.value.subscription == [])
  }

  /** The retry build takes its rebuild branch: its slot is empty or unsubscribed. */
  predicate RetryRebuilds(s: Slots)
  {
    s.xxy.None? || s.xxy.value.subscription == []
  }

  /** The primary build on values, as written. */
  function PrimaryBuild(s: Slots, topics: seq<string>, groupIds: seq<string>): Built
  {
    if s.xxx.Some? && s.xxy.None? then Built(s, Failure(NullReference))
    else if PrimaryRebuilds(s) then Rebuilding(s, Primary, topics, groupIds)
    else Built(s, Success(s.xxx.value))
  }

  /** The retry build on values. */
  function RetryBuild(s: Slots, topics: seq<string>, groupIds: seq<string>): Built
  {
    if RetryRebuilds(s) then Rebuilding(s, Retry, topics, groupIds)
    else Built(s, Success(s.xxy.value))
  }

  /** The primary build with the subscription test on its own slot. */
  function IntendedPrimaryBuild(s: Slots, topics: seq<string>, groupIds: seq<string>): Built
  {
    if s.xxx.None? || s.xxx.value.subscription == [] then Rebuilding(s, Primary, topics, groupIds)
    else Built(s, Success(s.xxx.value))
  }

  /** The error callback on values. */
  function ErrorCallback(s: Slots, c: Consumer, error: KafkaError): Slots
  {
    if !error.isFatal then s
    else if Holds(s.xxx, c) then s.(xxx := None, disposed := s.disposed + {c.id})
    else if Holds(s.xxy, c) then s.(xxy := None, disposed := s.disposed + {c.id})
    else s
  }

  /** One consume-loop iteration's effect on the factory: the role's build,
      then, when it returned a connection, the error callback for a fault the
      client reported while polling with it. */
  function Turn(role: Role, s: Slots, topics: seq<string>, groupIds: seq<string>, fault: Option<KafkaError>): Built
  {
    var b := if role.Primary? then PrimaryBuild(s, topics, groupIds) else RetryBuild(s, topics, groupIds);
    if b.result.Failure? || fault.None? then b
    else Built(ErrorCallback(b.after, b.result.value, fault.value), b.result)
  }

  /** The primary build's outcomes, as written: a null dereference exactly when
      the primary slot is set and the retry slot is empty; in the rebuild
      branch, failure exactly on an empty group list or when no topic matches;
      otherwise the connection the primary slot then holds. The retry slot is
      never touched. */
  lemma PrimaryBuildOutcomes(s: Slots, topics: seq<string>, groupIds: seq<string>)
    ensures var b := PrimaryBuild(s, topics, groupIds);
            && (b.result == Failure(NullReference) <==> s.xxx.Some? && s.xxy.None?)
            && (b.result == Failure(NoElements) <==> PrimaryRebuilds(s) && groupIds == [])
            && (b.result == Failure(NoMatchingElement) <==>
                  PrimaryRebuilds(s) && groupIds != [] && FirstContaining(topics, PrimaryFragment).None?)
            && (b.result.Failure? ==> b.result.error in {NullReference, NoElements, NoMatchingElement})
            && (b.result.Success? ==> b.after.xxx == Some(b.result.value))
            && b.after.xxy == s.xxy
  {
  }

  /** The retry build's outcomes: it never dereferences null; in the rebuild
      branch it fails exactly on an empty group list or when no topic matches;
      otherwise it returns the connection the retry slot then holds. The
      primary slot is never touched. */
  lemma RetryBuildOutcomes(s: Slots, topics: seq<string>, groupIds: seq<string>)
    ensures var b := RetryBuild(s, topics, groupIds);
            && (b.result == Failure(NoElements) <==> RetryRebuilds(s) && groupIds == [])
            && (b.result == Failure(NoMatchingElement) <==>
                  RetryRebuilds(s) && groupIds != [] && FirstContaining(topics, RetryFragment).None?)
            && (b.result.Failure? ==> b.result.error in {NoElements, NoMatchingElement})
            && (b.result.Success? ==> b.after.xxy == Some(b.result.value))
            && b.after.xxx == s.xxx
  {
  }

  /** The corrected primary build never dereferences null: it returns the
      stored connection, unchanged, exactly while that connection is
      subscribed, and otherwise rebuilds, failing exactly on an empty group
      list or when no topic matches. The retry slot is never touched. */
  lemma IntendedPrimaryBuildOutcomes(s: Slots, topics: seq<string>, groupIds: seq<string>)
    ensures var b := IntendedPrimaryBuild(s, topics, groupIds);
            && b.result != Failure(NullReference)
            && (s.xxx.Some? && s.xxx.value.subscription != [] <==> b.after == s && b.result.Success? && s.xxx == Some(b.result.value))
            && (b.result == Failure(NoElements) <==> (s.xxx.None? || s.xxx.value.subscription == []) && groupIds == [])
            && (b.result.Success? ==> b.after.xxx == Some(b.result.value) && b.result.value.subscription != [])
            && b.after.xxy == s.xxy
  {
  }

  /** A primary iteration never changes the retry slot and a retry iteration
      never changes the primary slot: the error callback's connection is the
      one the iteration's own slot holds. */
  lemma TurnKeepsOtherSlot(role: Role, s: Slots, topics: seq<string>, groupIds: seq<string>, fault: Option<KafkaError>)
    requires SlotsValid(s)
    ensures role.Primary? ==> Turn(role, s, topics, groupIds, fault).after.xxy == s.xxy
    ensures role.Retry? ==> Turn(role, s, topics, groupIds, fault).after.xxx == s.xxx
  {
    PrimaryBuildOutcomes(s, topics, groupIds);
    RetryBuildOutcomes(s, topics, groupIds);
  }

  /** As written, while the retry slot is empty the primary loop gets past its
      next build only after a fatal error cleared the primary slot: after an
      iteration whose build succeeded and that saw no fatal error, the next
      primary build dereferences null. */
  lemma PrimaryLoopNeedsRetrySlot(s: Slots, topics: seq<string>, groupIds: seq<string>, fault: Option<KafkaError>)
    requires s.xxy.None?
    requires Turn(Primary, s, topics, groupIds, fault).result.Success?
    requires fault.None? || !fault.value.isFatal
    ensures PrimaryBuild(Turn(Primary, s, topics, groupIds, fault).after, topics, groupIds).result == Failure(NullReference)
  {
    PrimaryBuildOutcomes(s, topics, groupIds);
  }

  class KafkaConsumerFactory {
    /** The primary slot (`_consumerXXX`) and the retry slot (`_consumerXXY`). */
    var consumerXXX: Option<Consumer>
    var consumerXXY: Option<Consumer>
    /** The configured topic names and consumer-group identifiers. */
    const topics: seq<string>
    const groupIds: seq<string>
    /** GroupId of the shared broker configuration, overwritten on every build. */
    var configGroupId: string
    /** The identity the next connection gets. */
    var nextId: nat
    /** Identities of the consumers disposed so far. */
    var disposed: set<nat>

    /** The factory's fields as a value. */
    ghost function State(): Slots
      reads this
    {
      Slots(consumerXXX, consumerXXY, configGroupId, nextId, disposed)
    }

    ghost predicate Valid()
      reads this
    {
      SlotsValid(State())
    }

    /** The role's slot. */
    function Slot(role: Role): Option<Consumer>
      reads this
    {
      if role.Primary? then consumerXXX else consumerXXY
    }

    /** The role's group: the first identifier for the primary role, the last for the retry role. */
    function GroupFor(role: Role): Option<string>
    {
      if role.Primary? then FirstGroup(groupIds) else LastGroup(groupIds)
    }

    constructor (topics: seq<string>, groupIds: seq<string>, configGroupId: string)
      ensures Valid()
      ensures this.topics == topics && this.groupIds == groupIds && this.configGroupId == configGroupId
      ensures consumerXXX == None && consumerXXY == None && nextId == 0 && disposed == {}
    {
      this.topics := topics;
      this.groupIds := groupIds;
      this.configGroupId := configGroupId;
      consumerXXX, consumerXXY := None, None;
      nextId, disposed := 0, {};
    }

    /** Writes `groupId` into the shared configuration, then builds an
        unsubscribed connection from it. */
    method CreateConsumer(groupId: string) returns (c: Consumer)
      requires Valid()
      modifies this
      ensures c == Consumer(old(nextId), groupId, [])
      ensures configGroupId == groupId && nextId == old(nextId) + 1
      ensures consumerXXX == old(consumerXXX) && consumerXXY == old(consumerXXY) && disposed == old(disposed)
      ensures Valid()
    {
      configGroupId := groupId;
      c := Consumer(nextId, configGroupId, []);
      nextId := nextId + 1;
    }

    /** Builds the role's connection, stores it in the role's slot, then
        subscribes it to the role's topic. */
    method Rebuild(role: Role) returns (r: Result<Consumer, Exception>)
      requires Valid()
      modifies this
      ensures Valid()
      ensures Built(State(), r) == Rebuilding(old(State()), role, topics, groupIds)
    {
      var group := GroupFor(role);
      if group.None? {
        return Failure(NoElements);
      }
      var c := CreateConsumer(group.value);
      if role.Primary? { consumerXXX := Some(c); } else { consumerXXY := Some(c); }
      var topic := FirstContaining(topics, Fragment(role));
      if topic.None? {
        return Failure(NoMatchingElement);
      }
      c := c.(subscription := [topic.value]);
      if role.Primary? { consumerXXX := Some(c); } else { consumerXXY := Some(c); }
      r := Success(c);
    }

    /** The primary connection, as written: rebuilt when the primary slot is
        empty or when the RETRY slot's subscription is empty; when the primary
        slot is set and the retry slot is empty the subscription test dereferences null. */
    method BuildXXXConsumer() returns (r: Result<Consumer, Exception>)
      requires Valid()
      modifies this
      ensures Valid()
      ensures Built(State(), r) == PrimaryBuild(old(State()), topics, groupIds)
    {
      if consumerXXX.Some? && consumerXXY.None? {
        return Failure(NullReference);
      }
      if consumerXXX.None? || |consumerXXY.value.subscription| == 0 {
        r := Rebuild(Primary);
      } else {
        r := Success(consumerXXX.value);
      }
    }

    /** The retry connection: rebuilt when its slot is empty or its
        subscription is empty, otherwise returned unchanged. */
    method BuildXXYConsumer() returns (r: Result<Consumer, Exception>)
      requires Valid()
      modifies this
      ensures Valid()
      ensures Built(State(), r) == RetryBuild(old(State()), topics, groupIds)
    {
      if consumerXXY.None? || |consumerXXY.value.subscription| == 0 {
        r := Rebuild(Retry);
      } else {
        r := Success(consumerXXY.value);
      }
    }

    /** The primary build with the subscription test on its own slot, as for the
        retry role: the stored connection is reused exactly while it is subscribed. */
    method BuildXXXConsumerIntended() returns (r: Result<Consumer, Exception>)
      requires Valid()
      modifies this
      ensures Valid()
      ensures Built(State(), r) == IntendedPrimaryBuild(old(State()), topics, groupIds)
    {
      if consumerXXX.None? || |consumerXXX.value.subscription| == 0 {
        r := Rebuild(Primary);
      } else {
        r := Success(consumerXXX.value);
      }
    }

    /** The name logged for a consumer: the role whose slot holds it, the
        primary slot checked first, or "Desconhecido". */
    function ConsumerName(c: Consumer): (name: string)
      reads this
      ensures name == PrimaryFragment <==> Holds(consumerXXX, c)
      ensures name == RetryFragment <==> !Holds(consumerXXX, c) && Holds(consumerXXY, c)
      ensures name == UnknownName <==> !Holds(consumerXXX, c) && !Holds(consumerXXY, c)
    {
      if Holds(consumerXXX, c) then PrimaryFragment
      else if Holds(consumerXXY, c) then RetryFragment
      else UnknownName
    }

    /** The error callback. A fatal error from the connection in a slot
        disposes that connection and clears that slot only; a fatal error from
        any other connection and every non-fatal error change nothing. The
        report carries the severity, the origin and the name the consumer had
        when the error arrived. */
    method OnErrorHandler(c: Consumer, error: KafkaError) returns (report: ErrorReport, name: string)
      requires Valid()
      modifies this
      ensures Valid()
      ensures report == ErrorReport(ErrorSeverity(error), Origin(error))
      ensures name == old(ConsumerName(c))
      ensures nextId == old(nextId) && configGroupId == old(configGroupId)
      ensures !error.isFatal || (!Holds(old(consumerXXX), c) && !Holds(old(consumerXXY), c)) ==> unchanged(this)
      ensures error.isFatal && Holds(old(consumerXXX), c) ==>
                consumerXXX == None && consumerXXY == old(consumerXXY) && disposed == old(disposed) + {c.id}
      ensures error.isFatal && !Holds(old(consumerXXX), c) && Holds(old(consumerXXY), c) ==>
                consumerXXY == None && consumerXXX == old(consumerXXX) && disposed == old(disposed) + {c.id}
      ensures State() == ErrorCallback(old(State()), c, error)
    {
      name := ConsumerName(c);
      report := ErrorReport(ErrorSeverity(error), Origin(error));
      if error.isFatal {
        if Holds(consumerXXX, c) {
          disposed := disposed + {consumerXXX.value.id};
          consumerXXX := None;
        } else if Holds(consumerXXY, c) {
          disposed := disposed + {consumerXXY.value.id};
          consumerXXY := None;
        }
      }
    }
  }
}

/** Concrete runs of the consumer factory on the example configuration. */
module ConsumerFactoryScenarios {
  import opened Wrappers
  import opened KafkaClient
  import opened TopicResolution
  import opened ConsumerFactory

  const ExampleTopics := ["t.xxx", "t.xxy"]

  /** As written, a second primary build before any retry build dereferences
      the empty retry slot: the first build succeeds, the second throws. */
  method PrimaryBuildNeedsRetrySlot() returns (first: Result<Consumer, Exception>, second: Result<Consumer, Exception>)
    ensures first == Success(Consumer(0, "g1", ["t.xxx"]))
    ensures second == Failure(NullReference)
  {
    ExampleTopicTable();
    var f := new KafkaConsumerFactory(ExampleTopics, ["g1", "g2"], "");
    first := f.BuildXXXConsumer();
    second := f.BuildXXXConsumer();
  }

  /** With the subscription test on its own slot, the second primary build reuses the first connection. */
  method IntendedPrimaryBuildReuses() returns (first: Result<Consumer, Exception>, second: Result<Consumer, Exception>)
    ensures first == Success(Consumer(0, "g1", ["t.xxx"]))
    ensures second == first
  {
    ExampleTopicTable();
    var f := new KafkaConsumerFactory(ExampleTopics, ["g1", "g2"], "");
    first := f.BuildXXXConsumerIntended();
    second := f.BuildXXXConsumerIntended();
  }

  /** A fatal error on the primary connection makes the next primary build
      create exactly one new connection, bound to the same group and topic. */
  method FatalErrorRebuildsPrimary() returns (before: Consumer, after: Consumer)
    ensures before.id != after.id
    ensures before.groupId == after.groupId == "g1"
    ensures before.subscription == after.subscription == ["t.xxx"]
  {
    ExampleTopicTable();
    var f := new KafkaConsumerFactory(ExampleTopics, ["g1", "g2"], "");
    var retry := f.BuildXXYConsumer();
    var r := f.BuildXXXConsumer();
    before := r.value;
    var report, name := f.OnErrorHandler(before, KafkaError(1, "fatal", true, true));
    assert name == PrimaryFragment;
    r := f.BuildXXXConsumer();
    after := r.value;
  }

  /** A non-fatal error keeps the connection: the next build returns the same one. */
  method NonFatalErrorKeepsRetry() returns (before: Consumer, after: Consumer)
    ensures before == after
    ensures before.subscription == ["t.xxy"]
  {
    ExampleTopicTable();
    var f := new KafkaConsumerFactory(ExampleTopics, ["g1", "g2"], "");
    var r := f.BuildXXYConsumer();
    before := r.value;
    var report, name := f.OnErrorHandler(before, KafkaError(2, "transient", false, false));
    r := f.BuildXXYConsumer();
    after := r.value;
  }

  /** The shared configuration's group id is the one of the last build. */
  method LastBuildSetsSharedGroupId() returns (retryThenPrimary: string, primaryThenRetry: string)
    ensures retryThenPrimary == "g1" && primaryThenRetry == "g2"
  {
    ExampleTopicTable();
    var f := new KafkaConsumerFactory(ExampleTopics, ["g1", "g2"], "");
    var r := f.BuildXXYConsumer();
    r := f.BuildXXXConsumer();
    retryThenPrimary := f.configGroupId;
    var g := new KafkaConsumerFactory(ExampleTopics, ["g1", "g2"], "");
    r := g.BuildXXXConsumer();
    r := g.BuildXXYConsumer();
    primaryThenRetry := g.configGroupId;
  }

  /** With a single group identifier both roles bind to it. */
  method SingleGroupSharedByRoles() returns (primary: Consumer, retry: Consumer)
    ensures primary.groupId == retry.groupId == "g1"
    ensures primary.id != retry.id
  {
    ExampleTopicTable();
    var f := new KafkaConsumerFactory(ExampleTopics, ["g1"], "");
    var r := f.BuildXXYConsumer();
    retry := r.value;
    r := f.BuildXXXConsumer();
    primary := r.value;
  }

  /** When no topic matches, the build fails but the slot already holds the
      new, unsubscribed connection, so every later build retries. */
  method MissingTopicLeavesUnsubscribedConsumer() returns (first: Result<Consumer, Exception>, stored: Option<Consumer>)
    ensures first == Failure(NoMatchingElement)
    ensures stored == Some(Consumer(0, "g2", []))
  {
    var f := new KafkaConsumerFactory(["t.xxx"], ["g1", "g2"], "");
    MissingCharNotContained("t.xxx", "xxy", 2);
    first := f.BuildXXYConsumer();
    stored := f.consumerXXY;
  }
}
