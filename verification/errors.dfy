/**
 * The protocol error taxonomy of the RESP layer: two error kinds, each with a
 * human-readable message and a fixed code that clients parse against.
 */
module RespErrors {

  /** The code every unknown-command error carries. */
  const NotSupportedCode: string := "NOT_SUPPORTED"
  /** The code every protocol error carries. */
  const ProtocolErrorCode: string := "PROTOCOL_ERROR"
  /** Both kinds end their message with this text. */
  const NotSupportedSuffix: string := " not supported"

  /** A client error code is a short token of upper-case letters and underscores. */
  predicate IsCodeToken(code: string) {
    |code| > 0 && forall i :: 0 <= i < |code| ==> 'A' <= code[i] <= 'Z' || code[i] == '_'
  }

  /**
   * `commandNotSupported` carries the command the router could not find;
   * `protocolError` carries an already formatted message.
   */
  datatype ClientError = CommandNotSupported(command: string) | ProtocolError(message: string) {

    /** The text the error was built from: the command, or the formatted message. */
    function Detail(): string {
      match this
      case CommandNotSupported(command) => command
      case ProtocolError(message) => message
    }

    /** `Error()`: the stored text followed by " not supported", for both kinds. */
    function Error(): (m: string)
      ensures |m| == |Detail()| + |NotSupportedSuffix|
      ensures m[..|Detail()|] == Detail()
      ensures m[|Detail()|..] == NotSupportedSuffix
    {
      Detail() + NotSupportedSuffix
    }

    /** `ClientErrorCode()`: a fixed token per kind, whatever the error carries. */
    function ClientErrorCode(): (code: string)
      ensures IsCodeToken(code)
      ensures code == NotSupportedCode <==> CommandNotSupported?
      ensures code == ProtocolErrorCode <==> ProtocolError?
    {
      match this
      case CommandNotSupported(_) => NotSupportedCode
      case ProtocolError(_) => ProtocolErrorCode
    }
  }

  /** The code alone tells the two kinds apart. */
  lemma CodeDeterminesKind(a: ClientError, b: ClientError)
    ensures a.ClientErrorCode() == b.ClientErrorCode() <==> a.CommandNotSupported? == b.CommandNotSupported?
  {
  }

  /**
   * Within one kind the message determines the error: the suffix can be
   * stripped to recover the command (or the formatted message) exactly.
   */
  lemma MessageDeterminesError(a: ClientError, b: ClientError)
    requires a.CommandNotSupported? == b.CommandNotSupported?
    requires a.Error() == b.Error()
    ensures a == b
  {
  }

  /**
   * Across kinds the message alone does not: an unknown command "x" and a
   * protocol error with message "x" read the same, so only the code separates them.
   */
  lemma MessagesOfKindsCollide(text: string)
    ensures CommandNotSupported(text).Error() == ProtocolError(text).Error()
    ensures CommandNotSupported(text).ClientErrorCode() != ProtocolError(text).ClientErrorCode()
  {
  }
}
