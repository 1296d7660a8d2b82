/** The producer connection factory: one lazily built producer slot, cleared
    by the error callback on a fatal error. */
module ProducerFactory {
  import opened Wrappers
  import opened KafkaClient

  class KafkaProducerFactory {
    /** The producer slot (`_producer`). */
    var producer: Option<Producer>
    /** The identity the next producer gets. */
    var nextId: nat
    /** Identities of the producers disposed so far. */
    var disposed: set<nat>

    ghost predicate Valid()
      reads this
    {
      && (producer.Some? ==> producer.value.id < nextId && producer.value.id !in disposed)
      && (forall d :: d in disposed ==> d < nextId)
    }

    constructor ()
      ensures Valid() && producer == None && nextId == 0 && disposed == {}
    {
      producer, nextId, disposed := None, 0, {};
    }

    /** Builds a producer only when the slot is empty; returns the stored one. */
    method BuildProducer() returns (p: Producer)
      requires Valid()
      modifies this
      ensures Valid()
      ensures producer == Some(p)
      ensures old(producer).Some? ==> p == old(producer).value && unchanged(this)
      ensures old(producer).None? ==> p.id == old(nextId) && nextId == old(nextId) + 1 && disposed == old(disposed)
    {
      if producer.None? {
        producer := Some(Producer(nextId));
        nextId := nextId + 1;
      }
      p := producer.value;
    }

    /** The error callback. A fatal error disposes and clears the slot whatever
        producer reported it (the argument is not consulted), and is harmless
        on an empty slot; a non-fatal error changes nothing. */
    method OnErrorHandler(reporter: Producer, error: KafkaError) returns (report: ErrorReport)
      requires Valid()
      modifies this
      ensures Valid()
      ensures report == ErrorReport(ErrorSeverity(error), Origin(error))
      ensures nextId == old(nextId)
      ensures !error.isFatal ==> unchanged(this)
      ensures error.isFatal ==> producer == None
      ensures error.isFatal && old(producer).Some? ==> disposed == old(disposed) + {old(producer).value.id}
      ensures error.isFatal && old(producer).None? ==> disposed == old(disposed)
    {
      report := ErrorReport(ErrorSeverity(error), Origin(error));
      if error.isFatal {
        if producer.Some? {
          disposed := disposed + {producer.value.id};
        }
        producer := None;
      }
    }
  }
}

/** Concrete runs of the producer factory. */
module ProducerFactoryScenarios {
  import opened KafkaClient
  import opened ProducerFactory

  /** Successive builds return the same producer, also across a non-fatal
      error; after a fatal error, even one reported by another producer, the
      next build returns a new one. */
  method ProducerReuseAndRebuild() returns (first: Producer, second: Producer, third: Producer, fourth: Producer)
    ensures first == second == third
    ensures fourth != first
  {
    var f := new KafkaProducerFactory();
    first := f.BuildProducer();
    second := f.BuildProducer();
    var report := f.OnErrorHandler(first, KafkaError(7, "transient", false, false));
    third := f.BuildProducer();
    report := f.OnErrorHandler(Producer(99), KafkaError(8, "fatal", true, false));
    fourth := f.BuildProducer();
  }
}
