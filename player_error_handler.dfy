/**
 * `PlayerErrorHandler`: the message shown for a playback error code and the
 * category name logged for it. The codes are the values of the media
 * library's `PlaybackException.ERROR_CODE_*` constants.
 */
module PlayerErrorHandlers {
  import opened Domain

  const ERROR_CODE_BEHIND_LIVE_WINDOW := 1002
  const ERROR_CODE_IO_NETWORK_CONNECTION_FAILED := 2001
  const ERROR_CODE_IO_NETWORK_CONNECTION_TIMEOUT := 2002
  const ERROR_CODE_IO_INVALID_HTTP_CONTENT_TYPE := 2003
  const ERROR_CODE_IO_BAD_HTTP_STATUS := 2004
  const ERROR_CODE_IO_FILE_NOT_FOUND := 2005
  const ERROR_CODE_IO_NO_PERMISSION := 2006
  const ERROR_CODE_IO_CLEARTEXT_NOT_PERMITTED := 2007
  const ERROR_CODE_PARSING_CONTAINER_MALFORMED := 3001
  const ERROR_CODE_DECODER_INIT_FAILED := 4001
  const ERROR_CODE_DECODING_FAILED := 4003

  const UNKNOWN_ERROR_MESSAGE := "Unknown playback error occurred"

  /** The codes with a fixed message, each with that message. */
  const KNOWN_MESSAGES: map<int, string> := map[
    ERROR_CODE_IO_NETWORK_CONNECTION_FAILED := "Network connection failed. Please check your internet connection.",
    ERROR_CODE_IO_NETWORK_CONNECTION_TIMEOUT := "Connection timeout. The server is not responding.",
    ERROR_CODE_IO_INVALID_HTTP_CONTENT_TYPE := "Invalid content type. The stream format is not supported.",
    ERROR_CODE_IO_BAD_HTTP_STATUS := "Bad HTTP status. The stream is not available.",
    ERROR_CODE_PARSING_CONTAINER_MALFORMED := "Invalid stream format. Unable to parse the media.",
    ERROR_CODE_IO_FILE_NOT_FOUND := "Stream not found. The URL may be invalid.",
    ERROR_CODE_IO_NO_PERMISSION := "No permission to access the stream.",
    ERROR_CODE_IO_CLEARTEXT_NOT_PERMITTED := "HTTP traffic not permitted. Use HTTPS instead.",
    ERROR_CODE_DECODER_INIT_FAILED := "Decoder initialization failed. Your device may not support this format.",
    ERROR_CODE_DECODING_FAILED := "Decoding error. The stream may be corrupted.",
    ERROR_CODE_BEHIND_LIVE_WINDOW := "Stream is too far behind live. Reloading..."
  ]

  /**
   * `getErrorMessage`, for an error with code `errorCode` and the nullable
   * exception message `message`.
   */
  function ErrorMessage(errorCode: int, message: Option<string>): (m: string)
    ensures errorCode in KNOWN_MESSAGES ==> m == KNOWN_MESSAGES[errorCode]
    ensures errorCode !in KNOWN_MESSAGES && message.Some? ==> m == message.value
    ensures errorCode !in KNOWN_MESSAGES && message.None? ==> m == UNKNOWN_ERROR_MESSAGE
  {
    if errorCode == ERROR_CODE_IO_NETWORK_CONNECTION_FAILED then
      "Network connection failed. Please check your internet connection."
    else if errorCode == ERROR_CODE_IO_NETWORK_CONNECTION_TIMEOUT then
      "Connection timeout. The server is not responding."
    else if errorCode == ERROR_CODE_IO_INVALID_HTTP_CONTENT_TYPE then
      "Invalid content type. The stream format is not supported."
    else if errorCode == ERROR_CODE_IO_BAD_HTTP_STATUS then
      "Bad HTTP status. The stream is not available."
    else if errorCode == ERROR_CODE_PARSING_CONTAINER_MALFORMED then
      "Invalid stream format. Unable to parse the media."
    else if errorCode == ERROR_CODE_IO_FILE_NOT_FOUND then
      "Stream not found. The URL may be invalid."
    else if errorCode == ERROR_CODE_IO_NO_PERMISSION then
      "No permission to access the stream."
    else if errorCode == ERROR_CODE_IO_CLEARTEXT_NOT_PERMITTED then
      "HTTP traffic not permitted. Use HTTPS instead."
    else if errorCode == ERROR_CODE_DECODER_INIT_FAILED then
      "Decoder initialization failed. Your device may not support this format."
    else if errorCode == ERROR_CODE_DECODING_FAILED then
      "Decoding error. The stream may be corrupted."
    else if errorCode == ERROR_CODE_BEHIND_LIVE_WINDOW then
      "Stream is too far behind live. Reloading..."
    else
      message.GetOr(UNKNOWN_ERROR_MESSAGE)
  }

  /** The category names `getErrorType` logs. */
  datatype ErrorType = SourceError | RendererError | UnexpectedError | RemoteError | UnknownError {
    function Name(): string {
      match this
      case SourceError => "SOURCE_ERROR"
      case RendererError => "RENDERER_ERROR"
      case UnexpectedError => "UNEXPECTED_ERROR"
      case RemoteError => "REMOTE_ERROR"
      case UnknownError => "UNKNOWN_ERROR"
    }
  }

  /** `getErrorType`: one thousand codes per category, from 1000 to 4999. */
  function GetErrorType(errorCode: int): (t: ErrorType)
    ensures t == SourceError <==> 1000 <= errorCode <= 1999
    ensures t == RendererError <==> 2000 <= errorCode <= 2999
    ensures t == UnexpectedError <==> 3000 <= errorCode <= 3999
    ensures t == RemoteError <==> 4000 <= errorCode <= 4999
    ensures t == UnknownError <==> errorCode < 1000 || errorCode > 4999
  {
    if 1000 <= errorCode <= 1999 then SourceError
    else if 2000 <= errorCode <= 2999 then RendererError
    else if 3000 <= errorCode <= 3999 then UnexpectedError
    else if 4000 <= errorCode <= 4999 then RemoteError
    else UnknownError
  }

  // ------------------------------------------------------ properties

  /** A code with a fixed message ignores the exception's own message. */
  lemma KnownCodeIgnoresMessage(errorCode: int, m1: Option<string>, m2: Option<string>)
    requires errorCode in KNOWN_MESSAGES
    ensures ErrorMessage(errorCode, m1) == ErrorMessage(errorCode, m2)
  {
  }

  /** The category names are pairwise different, so a logged name identifies the range. */
  lemma TypeNamesDistinct(s: ErrorType, t: ErrorType)
    requires s != t
    ensures s.Name() != t.Name()
  {
  }
}
