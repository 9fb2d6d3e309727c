/**
 * The slice of gRPC status handling the services rely on: status codes, the
 * error value built by `status.Error` (nil for code OK), the code recovered
 * by `status.FromError` (OK for nil), process termination by `log.Fatal`,
 * and the two write helpers of services/utils.go.
 */
module Rpc {

  /** The status codes of gRPC (`google.golang.org/grpc/codes`). */
  datatype Code =
    | OK | Canceled | Unknown | InvalidArgument | DeadlineExceeded | NotFound
    | AlreadyExists | PermissionDenied | ResourceExhausted | FailedPrecondition
    | Aborted | OutOfRange | Unimplemented | Internal | Unavailable | DataLoss
    | Unauthenticated

  /** A code a non-nil status error can carry. */
  type ErrCode = c: Code | c != OK witness Canceled

  /** A Go `error` as the services see it: nil, or a status with a non-OK code. */
  datatype Error = Nil | Status(code: ErrCode)

  /** A computation that returns normally or ends the process (`log.Fatal`). */
  datatype Proc<+T> = Returns(value: T) | Fatal

  /** `status.Error(c, msg)`: a status error, except that code OK yields nil. */
  function StatusError(c: Code): (e: Error)
    ensures e.Nil? <==> c == OK
    ensures e.Status? ==> e.code == c
  {
    if c == OK then Nil else Status(c)
  }

  /** `status.FromError(err).Code()`: OK for nil, the carried code otherwise. */
  function CodeOf(e: Error): (c: Code)
    ensures c == OK <==> e.Nil?
    ensures e.Status? ==> c == e.code
  {
    match e
    case Nil => OK
    case Status(c) => c
  }

  /** Building an error from a code and reading the code back are inverse. */
  lemma StatusRoundTrip(c: Code, e: Error)
    ensures CodeOf(StatusError(c)) == c
    ensures StatusError(CodeOf(e)) == e
  {
  }

  /**
   * `cacheSetHelper` and `storageSetHelper`: the reply code of the `SetItem`
   * or `SetRecord` call becomes nil for OK and a Canceled error for Canceled;
   * every other code ends the process.
   */
  function SetHelper(reply: Code): (r: Proc<Error>)
    ensures r.Returns? <==> reply == OK || reply == Canceled
    ensures r.Returns? ==> r.value == StatusError(reply)
    ensures r.Returns? && r.value.Status? ==> r.value.code == Canceled
  {
    match reply
    case OK => Returns(StatusError(OK))
    case Canceled => Returns(StatusError(Canceled))
    case _ => Fatal
  }
}
