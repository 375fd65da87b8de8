/** Small value types shared by the whole model. */
module Wrappers {

  /** A value that may be absent (JavaScript `null`, `undefined` or a falsy field). */
  datatype Option<+T> = None | Some(value: T) {
    /** The value, or `default` when absent. */
    function GetOr(default: T): T {
      if Some? then value else default
    }
  }

  /**
   * The outcome of one call to the remote order store or asset store: either it
   * succeeded, or it failed with the error object's `message` text. A missing
   * message is represented by the empty string, the only falsy string.
   */
  datatype RemoteOutcome = Ok | Err(message: string)

  /** The three notification styles `showMessage` is called with. */
  datatype ToastKind = SuccessToast | ErrorToast | InfoToast

  /** A transient notification shown to the user. */
  datatype Toast = Toast(text: string, kind: ToastKind)
}
