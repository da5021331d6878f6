/**
 * The three operations of the publisher that call the Thrift client
 * (publisher/Publisher.php, findStream, addStreamDefinition and publish).
 * The client is a function from the request sent to the reply received; the
 * session id is the one the connector reports when the call is made. Each
 * operation returns the requests it sent together with what it returns or
 * throws.
 */
module Remote {
  import opened Wrappers
  import opened Exceptions

  /** A bundle of events as the converter builds it: the event it carries, stamped with a session id. */
  datatype EventBundle<E> = EventBundle(sessionId: string, event: E)

  datatype Request<E> =
    | FindStreamId(sessionId: string, streamName: string, streamVersion: string)
    | DefineStream(sessionId: string, streamDefinition: string)
    | Publish(bundle: EventBundle<E>)

  /** The client's answer: a returned value (publish returns nothing, so its value is unused) or a raised fault. */
  datatype Reply = Returned(value: string) | Raised(fault: ThriftFault)

  /** The requests an operation sent and its outcome. */
  datatype Exchange<T, E> = Exchange(requests: seq<Request<E>>, result: Result<T, Exception>)

  function NotFoundMessage(streamName: string, streamVersion: string): string {
    "Stream definition: " + streamName + ":" + streamVersion + " not found"
  }

  /**
   * findStream: one lookup under the current session. A missing definition
   * throws StreamDefinitionException; an expired session is swallowed and the
   * call returns null (None); any other fault propagates.
   */
  function FindStream<E>(client: Request<E> -> Reply, sessionId: string,
                         streamName: string, streamVersion: string): (r: Exchange<Option<string>, E>)
    ensures r.requests == [FindStreamId(sessionId, streamName, streamVersion)]
    ensures client(r.requests[0]).Returned? ==> r.result == Success(Some(client(r.requests[0]).value))
    ensures r.result.Success? <==> client(r.requests[0]).Returned? || client(r.requests[0]) == Raised(SessionExpired)
    ensures r.result == Success(None) <==> client(r.requests[0]) == Raised(SessionExpired)
    ensures r.result.Failure? && r.result.error.StreamDefinitionException? <==>
              client(r.requests[0]) == Raised(NoStreamDefinitionExist)
    ensures r.result.Failure? && r.result.error.StreamDefinitionException? ==>
              r.result.error.message == NotFoundMessage(streamName, streamVersion)
    ensures r.result.Failure? ==> r.result.error.Cause() == Some(client(r.requests[0]).fault)
  {
    var request := FindStreamId(sessionId, streamName, streamVersion);
    var outcome :=
      match client(request)
      case Returned(id) => Success(Some(id))
      case Raised(NoStreamDefinitionExist) =>
        Failure(StreamDefinitionException(NotFoundMessage(streamName, streamVersion), NoStreamDefinitionExist))
      case Raised(SessionExpired) => Success(None)
      case Raised(fault) => Failure(Uncaught(fault));
    Exchange([request], outcome)
  }

  /** The three faults addStreamDefinition turns into a StreamDefinitionException. */
  predicate IsDefinitionFault(fault: ThriftFault) {
    fault.DifferentStreamDefinitionAlreadyDefined? || fault.MalformedStreamDefinition? || fault.StreamDefinitionFault?
  }

  function DefinitionFaultMessage(fault: ThriftFault): string
    requires IsDefinitionFault(fault)
  {
    match fault
    case DifferentStreamDefinitionAlreadyDefined => "Stream definition already exist!"
    case MalformedStreamDefinition => "Malformed stream definition!"
    case StreamDefinitionFault => "Error adding the stream definition!"
  }

  /**
   * addStreamDefinition: one definition request under the current session.
   * The two specific definition faults and the generic one become
   * StreamDefinitionExceptions with their own messages; every other fault,
   * an expired session included, propagates.
   */
  function AddStreamDefinition<E>(client: Request<E> -> Reply, sessionId: string,
                                  streamDefinition: string): (r: Exchange<string, E>)
    ensures r.requests == [DefineStream(sessionId, streamDefinition)]
    ensures r.result.Success? <==> client(r.requests[0]).Returned?
    ensures r.result.Success? ==> r.result.value == client(r.requests[0]).value
    ensures r.result.Failure? ==> r.result.error.Cause() == Some(client(r.requests[0]).fault)
    ensures r.result.Failure? ==>
              (r.result.error.StreamDefinitionException? <==> IsDefinitionFault(client(r.requests[0]).fault))
    ensures r.result.Failure? && r.result.error.StreamDefinitionException? ==>
              r.result.error.message == DefinitionFaultMessage(r.result.error.previous)
  {
    var request := DefineStream(sessionId, streamDefinition);
    var outcome :=
      match client(request)
      case Returned(id) => Success(id)
      case Raised(fault) =>
        if IsDefinitionFault(fault) then Failure(StreamDefinitionException(DefinitionFaultMessage(fault), fault))
        else Failure(Uncaught(fault));
    Exchange([request], outcome)
  }

  /**
   * publish: the event is converted into a bundle stamped with the current
   * session id and submitted once. `conversionFault` is the message of the
   * `UnknownAttributeException` the converter throws for an event it cannot
   * convert (an attribute the stream does not define); then nothing is sent.
   * Nothing is caught and nothing is retried.
   */
  function PublishEvent<E>(client: Request<E> -> Reply, conversionFault: E -> Option<string>,
                           sessionId: string, event: E): (r: Exchange<(), E>)
    ensures conversionFault(event).Some? ==>
      r.requests == [] && r.result == Failure(UnknownAttributeException(conversionFault(event).value))
    ensures conversionFault(event).None? ==> r.requests == [Publish(EventBundle(sessionId, event))]
    ensures conversionFault(event).None? ==> (r.result.Success? <==> client(r.requests[0]).Returned?)
    ensures conversionFault(event).None? && r.result.Failure? ==> r.result.error == Uncaught(client(r.requests[0]).fault)
  {
    match conversionFault(event)
    case Some(message) => Exchange([], Failure(UnknownAttributeException(message)))
    case None =>
      var request := Publish(EventBundle(sessionId, event));
      var outcome :=
        match client(request)
        case Returned(_) => Success(())
        case Raised(fault) => Failure(Uncaught(fault));
      Exchange([request], outcome)
  }

  /** The three definition faults are told apart by the message of the exception they become. */
  lemma DefinitionMessagesDistinct(f: ThriftFault, g: ThriftFault)
    requires IsDefinitionFault(f) && IsDefinitionFault(g)
    ensures DefinitionFaultMessage(f) == DefinitionFaultMessage(g) <==> f == g
  {
  }

  /**
   * An expired session is handled differently by the three operations:
   * findStream returns null without throwing, while addStreamDefinition and
   * publish (once its event is converted) let the fault through. None of
   * them sends a second request.
   */
  lemma SessionExpiryHandling<E>(client: Request<E> -> Reply, sessionId: string,
                                 streamName: string, streamVersion: string,
                                 streamDefinition: string, conversionFault: E -> Option<string>, event: E)
    requires client(FindStreamId(sessionId, streamName, streamVersion)) == Raised(SessionExpired)
    requires client(DefineStream(sessionId, streamDefinition)) == Raised(SessionExpired)
    requires conversionFault(event).None?
    requires client(Publish(EventBundle(sessionId, event))) == Raised(SessionExpired)
    ensures FindStream(client, sessionId, streamName, streamVersion).result == Success(None)
    ensures AddStreamDefinition(client, sessionId, streamDefinition).result == Failure(Uncaught(SessionExpired))
    ensures PublishEvent(client, conversionFault, sessionId, event).result == Failure(Uncaught(SessionExpired))
    ensures |FindStream(client, sessionId, streamName, streamVersion).requests| == 1
    ensures |AddStreamDefinition(client, sessionId, streamDefinition).requests| == 1
    ensures |PublishEvent(client, conversionFault, sessionId, event).requests| == 1
  {
  }
}
