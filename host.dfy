/**
 * What the script hands back to its host chat client: a return code when a
 * callback finishes normally, or the Python exception that escapes it.
 */
module Host {

  /** WEECHAT_RC_OK and WEECHAT_RC_ERROR. */
  datatype ReturnCode = Ok | Error

  /** The exceptions the script's own code can raise and does not catch. */
  datatype Exception = IndexError | KeyError | ValueError | AttributeError | TypeError

  /** The outcome of one callback: it returns a code and an effect, or it raises. */
  datatype Call<+T> = Returned(rc: ReturnCode, effect: T) | Raised(exception: Exception)
}
