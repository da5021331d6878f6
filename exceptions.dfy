/** The faults the Thrift client raises and the exceptions the publisher throws. */
module Exceptions {
  import opened Wrappers

  /** The Thrift exceptions a remote call may raise; any other is `OtherFault`. */
  datatype ThriftFault =
    | NoStreamDefinitionExist
    | SessionExpired
    | DifferentStreamDefinitionAlreadyDefined
    | MalformedStreamDefinition
    | StreamDefinitionFault
    | OtherFault(name: string)

  /**
   * What a publisher operation throws. `UnknownAttributeException` comes from
   * the event converter; a fault nobody catches leaves the publisher as `Uncaught`.
   */
  datatype Exception =
    | NullPointerException(message: string)
    | MalformedURLException(message: string)
    | StreamDefinitionException(message: string, previous: ThriftFault)
    | UnknownAttributeException(message: string)
    | Uncaught(fault: ThriftFault)
  {
    /** The remote fault behind this exception, if there is one. */
    function Cause(): Option<ThriftFault> {
      match this
      case StreamDefinitionException(_, previous) => Some(previous)
      case Uncaught(fault) => Some(fault)
      case _ => None
    }
  }
}
