/** Error values as they travel from a handler to `next(err)`: errors made
    by `createError` (the http-errors library) and the error classes of the
    document mapper (cast and validation errors), plus the outcome type every
    request handler returns. */
module Errors {
  import opened Js

  /** One entry of an error's `errors` object: `null`, a bare string, or an
      object that may carry a `message`. */
  datatype ErrorEntry = NullEntry | TextEntry(text: string) | ObjectEntry(message: Option<string>)

  /** The class an error is an instance of; a duplicate-key error is the
      driver's error whose `code` is 11000. */
  datatype ErrorKind = CastErrorKind | ValidationErrorKind | DuplicateKeyKind | PlainErrorKind

  datatype AppError = AppError(
    kind: ErrorKind,
    status: Option<int>,
    message: string,
    errors: Option<map<string, ErrorEntry>>)

  /** `error.status` is truthy. */
  predicate HasStatus(e: AppError) {
    e.status.Some? && e.status.value != 0
  }

  /** `createError(status, message)`: a fresh error with that status and no
      `errors` object. */
  function CreateError(status: int, message: string): (e: AppError)
    ensures e.kind == PlainErrorKind && e.status == Some(status) && e.message == message && e.errors.None?
  {
    AppError(PlainErrorKind, Some(status), message, None)
  }

  /** `createError(status, err)`: the same error object, keeping its class,
      message and `errors`; its own status wins when it has one. */
  function CreateErrorFrom(status: int, err: AppError): (e: AppError)
    ensures e.kind == err.kind && e.message == err.message && e.errors == err.errors
    ensures e.status == if HasStatus(err) then err.status else Some(status)
  {
    if HasStatus(err) then err else err.(status := Some(status))
  }

  /** A plain `Error` thrown without a status, such as the one the upload
      filter or the driver raises. */
  function PlainError(message: string): (e: AppError)
    ensures !HasStatus(e) && e.kind == PlainErrorKind && e.errors.None?
  {
    AppError(PlainErrorKind, None, message, None)
  }

  /** The driver's error for an insert that breaks a unique index. */
  function DuplicateKeyError(message: string): (e: AppError)
    ensures e.kind == DuplicateKeyKind && !HasStatus(e) && e.errors.None? && e.message == message
  {
    AppError(DuplicateKeyKind, None, message, None)
  }

  /** A cast error raised when an identifier cannot be read as an ObjectId. */
  function CastError(path: string, value: string, model: string): (e: AppError)
    ensures e.kind == CastErrorKind && !HasStatus(e)
  {
    AppError(CastErrorKind, None,
      "Cast to ObjectId failed for value \"" + value + "\" (type string) at path \"" + path + "\" for model \"" + model + "\"",
      None)
  }

  /** A validation error: one validator error object per failing path. */
  function ValidationError(model: string, failures: map<string, string>): (e: AppError)
    ensures e.kind == ValidationErrorKind && !HasStatus(e)
    ensures e.errors.Some? && e.errors.value.Keys == failures.Keys
    ensures forall k :: k in failures ==> e.errors.value[k] == ObjectEntry(Some(failures[k]))
  {
    AppError(ValidationErrorKind, None, model + " validation failed",
      Some(map k | k in failures :: ObjectEntry(Some(failures[k]))))
  }

  /** What a request handler does: answer with a status and a body, or hand
      an error to `next`. */
  datatype Outcome<+B> = Respond(code: nat, body: B) | Forward(error: AppError)
}
