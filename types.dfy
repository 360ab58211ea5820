/** Values shared by every part of the omczmq output module. */
module Types {

  /** A C pointer that may be NULL. */
  datatype Option<+T> = None | Some(value: T)

  /** A configuration parameter as the host hands it over: not used in the
      action (or module) statement, or given with a value. */
  datatype Param<+T> = Unused | Given(value: T)

  /** The outcome of a step that either produces a value or fails with a
      return code. */
  datatype Result<+T> = Success(value: T) | Failure(error: RsRet)

  /** The rsyslog return codes this module produces. */
  datatype RsRet =
    | Ok                // RS_RET_OK
    | Suspended         // RS_RET_SUSPENDED: the action is suspended and resumed later
    | Err               // RS_RET_ERR
    | OutOfMemory       // RS_RET_OUT_OF_MEMORY
    | MissingCnfParams  // RS_RET_MISSING_CNFPARAMS

  /** The socket pattern of an instance. `Unset` stands for the integer -1
      that the instance holds until a recognised `socktype` is decoded. */
  datatype SockType = Pub | Push | Dealer | Unset
}
