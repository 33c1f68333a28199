/**
 * The exceptions the client throws, as explicit error values.
 */
module Outcomes {
  import opened Json

  datatype Error =
    /** `ensureAuthenticated`: a private operation while not authenticated. */
    | AuthRequired
    /** `authenticate`: the reply has no "result"; it carries the whole reply. */
    | AuthenticationFailed(reply: Json)
    /** The transport had nothing to read (connection lost). */
    | TransportError
    /** The command surface got an order side other than "buy" or "sell". */
    | InvalidArgument(side: string)
    /** A market-data "symbol" that is not a JSON string cannot become a std::string. */
    | SymbolTypeError(symbol: Json)

  datatype Result<T> = Ok(value: T) | Err(error: Error)

  datatype Option<T> = None | Some(value: T)
}
