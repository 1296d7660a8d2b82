/** The values the core exchanges with the broker client library and the JSON
    serializer. The library itself is abstract: what its calls return is an
    input of the operations that use it. */
module KafkaClient {
  import opened LogLevels

  /** The domain message; only `id` is read by the core. */
  datatype KafkaMessage = KafkaMessage(id: string, body: string)

  /** The text the JSON serializer produces for a message. The serializer is
      not modelled: the payload is identified with the message it encodes. */
  datatype Payload = JsonOf(message: KafkaMessage)

  /** An error reported by the broker client: its code, reason, whether it is
      fatal for the connection and whether it arose in the client library
      (local) rather than on the broker. */
  datatype KafkaError = KafkaError(code: int, reason: string, isFatal: bool, isLocal: bool)

  /** A consumer connection: its identity (the factory's counter value at
      creation), the group id it was built with and its current subscription. */
  datatype Consumer = Consumer(id: nat, groupId: string, subscription: seq<string>)

  /** A producer connection, identified by the factory's counter value at creation. */
  datatype Producer = Producer(id: nat)

  /** The broker's persistence status of a delivered message. */
  datatype PersistenceStatus = NotPersisted | PossiblyPersisted | Persisted

  /** What a publish attempt yields: a delivery report, a delivery exception
      carrying the broker error, or some other exception. */
  datatype Delivery =
    | Delivered(status: PersistenceStatus)
    | DeliveryFailed(error: KafkaError)
    | ProduceThrew

  /** The exceptions the core raises or lets through. */
  datatype Exception =
    | NullReference            // a member access on a null reference
    | NoElements               // First()/Last() on an empty sequence
    | NoMatchingElement        // First(predicate) with no match
    | ProduceException(error: KafkaError)
    | KafkaException(error: KafkaError)   // a broker client call that failed
    | OtherException

  /** What an error callback logs: the severity and the error's origin. */
  datatype ErrorReport = ErrorReport(level: LogLevel, origin: string)

  /** "Lib" for an error raised in the client library, "Broker" otherwise. */
  function Origin(e: KafkaError): (o: string)
    ensures o == "Lib" <==> e.isLocal
    ensures o == "Broker" <==> !e.isLocal
  {
    if e.isLocal then "Lib" else "Broker"
  }

  /** The error callbacks' severity: Critical for a fatal error, Error otherwise. */
  function ErrorSeverity(e: KafkaError): (l: LogLevel)
    ensures l == LogLevel.Critical <==> e.isFatal
    ensures l == LogLevel.Error <==> !e.isFatal
  {
    if e.isFatal then LogLevel.Critical else LogLevel.Error
  }
}
