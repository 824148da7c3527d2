/**
 * Shared value types: the domain `Channel` record, the `Resource` state the
 * repository and view model exchange, and an optional value for Kotlin's
 * nullable types.
 */
module Domain {

  /** A nullable Kotlin value. */
  datatype Option<+T> = None | Some(value: T) {
    /** Kotlin's `?:` operator. */
    function GetOr(default: T): T {
      match this
      case Some(v) => v
      case None => default
    }
  }

  /** One playable entry of a playlist. */
  datatype Channel = Channel(name: string, logo: string, streamUrl: string, category: string)

  /** `Resource<List<Channel>>`: a load in progress, a list, or a failure with its message. */
  datatype Resource = Loading | Success(data: seq<Channel>) | Error(message: string)

  /** How Kotlin's string template renders a nullable message. */
  function MessageText(m: Option<string>): (r: string)
    ensures m.Some? ==> r == m.value
    ensures m.None? ==> r == "null"
  {
    m.GetOr("null")
  }
}
