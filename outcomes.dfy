/** Optional values and the result an operation hands to its callback. */
module Outcomes {

  /** A Java reference that may be null. */
  datatype Option<T> = None | Some(value: T)

  /** The exception classes the middleware can place in a failed result. */
  datatype ErrorKind =
    | IllegalArgument        // java.lang.IllegalArgumentException, raised before any request
    | InvalidParameter       // java.security.InvalidParameterException
    | InvalidCredentials
    | EmailNotVerified
    | UserAlreadyExists
    | ProjectAlreadyExists
    | UserNotAuthenticated   // android.security.keystore.UserNotAuthenticatedException
    | NotFound
    | IllegalAccess          // java.lang.IllegalAccessException
    | IO                     // java.io.IOException raised by the middleware itself
    | MalformedUrl           // java.net.MalformedURLException from `new URL(..)`
    | ConnectionFailure      // any exception thrown by the connection or its streams

  /** A result holds either the response text or one exception, never both. */
  datatype Result = Success(text: string) | Failure(kind: ErrorKind, message: string)
}
