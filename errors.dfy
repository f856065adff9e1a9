/** The error domain of the library (rtm-error.h). */
module Errors {

  /** The codes of `enum _RtmError`, in declaration order. */
  datatype ErrorCode =
    | UnknownError
    | ResponseFail
    | TaskAlreadyExists
    | TaskNotFound
    | TagAlreadyAssigned
    | TagNotFound

  /** A `GError` of the RTM domain: its code and its formatted message. */
  datatype RtmError = RtmError(code: ErrorCode, message: string)
}
