/**
 * Shared value types: optional values, results, and the errors the library
 * raises or meets from AWS.
 */
module Base {

  datatype Option<T> = None | Some(value: T)
  {
    function GetOr(fallback: T): T
    {
      if Some? then value else fallback
    }
  }

  datatype Result<T, E> = Ok(value: T) | Err(error: E)
  {
    predicate IsFailure()
    {
      Err?
    }

    function PropagateFailure<U>(): Result<U, E>
      requires Err?
    {
      Err(error)
    }

    function Extract(): T
      requires Ok?
    {
      value
    }
  }

  /** An exception coming from AWS (botocore) while a provider talks to a service. */
  datatype AwsError =
    | NoCredentialsError
    | NoRegionError
    | OtherBotoCoreError(detail: string)
      /** `ClientError`: `hasResponse` is whether it carries `.response`; `code` is `response['Error']['Code']` when present. */
    | ClientError(hasResponse: bool, code: Option<string>)
    | OtherException(detail: string)

  /** The exceptions the library itself can raise. */
  datatype XconError =
    | ConfigError(message: string)
    | FormatError(message: string)      // `ValueError` from `string.Formatter().parse`
    | MissingKey(key: string)           // `KeyError`
    | WrongType(key: string)            // `TypeError`/`AttributeError` on a malformed value
    | PathHasNoName(path: string)       // `ValueError` in the change handler
    | NoPathInEvent                     // `AttributeError` in the change handler
    | MissingProviderCache              // `ValueError` in the local provider cache
    | Aws(error: AwsError)              // an AWS exception that was not ignored
}
