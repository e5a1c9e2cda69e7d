/** The optional-value type used for the record's `Optional[...]` keys and for
    the keys a partial update may or may not carry, and the outcome of a call
    into foreign code. */
module Wrappers {

  datatype Option<+T> = None | Some(value: T) {

    /** The value, or `default` when there is none. */
    function GetOr(default: T): T {
      match this
      case Some(v) => v
      case None => default
    }
  }

  /** What a call into foreign code (the web search tool, the pairing
      retriever, the language model) did: it returned a value, or it raised
      an exception whose `str()` is `message`. */
  datatype Call<+T> = Returned(value: T) | Raised(message: string)
}
