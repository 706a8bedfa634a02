/** The optional and failure-carrying results used by every module of the model. */
module Wrappers {

  datatype Option<+T> = None | Some(value: T) {
    /** The value if there is one, the default otherwise. */
    function GetOr(default: T): T {
      if Some? then value else default
    }
  }

  /** Every error of the modelled code is one failure value: messages are not modelled. */
  datatype Result<+T> = Ok(value: T) | Err
}
