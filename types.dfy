/**
 * The values that flow through the facade: the per-provider response, the
 * merged response, and the failure-carrying wrappers used in their place of
 * Go's `error` values.
 */
module Types {

  datatype Option<+T> = None | Some(value: T)

  datatype Result<+T, +E> = Ok(value: T) | Err(error: E)

  /** Why one attempt of a provider call failed. */
  datatype AttemptError =
    | RequestFailed       // the payload could not be marshalled or the request built
    | CircuitOpen         // the breaker is Open and refused the call
    | TooManyRequests     // the breaker is HalfOpen and its trial quota is used up
    | HttpFailed          // the transport (`httpClient.Do`) reported an error
    | BadStatus(code: int) // a response arrived with a status other than 200
    | ReadFailed          // a 200 response whose body could not be read

  /**
   * The error a provider call reports once the retry loop gives up: the
   * errors of every attempt made, in order.
   */
  datatype ErrorKind = RetryExhausted(attempts: seq<AttemptError>)

  /** One provider's answer; `error` is `None` exactly when the call succeeded. */
  datatype ApiResponse = ApiResponse(source: string, message: string, error: Option<ErrorKind>)

  /** The aggregated answer: one entry per configured provider. */
  datatype MergedApiResponse = MergedApiResponse(results: seq<ApiResponse>)
}
