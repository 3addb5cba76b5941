/**
 * The exceptions that can surface in the plugin's download path, and a
 * result type for operations that may throw one.
 */
module Errors {
  import opened Php

  /** What a call may throw. All of these except `EngineError` are PHP
      `\Exception`s; `EngineError` is a PHP `\Error`, which a
      `catch (\Exception ...)` clause does not catch. */
  datatype Thrown =
    | CredentialsException(message: string)
      // Aws\S3\Exception\S3Exception: getMessage(), getStatusCode(), getAwsErrorMessage()
    | S3Exception(message: string, statusCode: Option<int>, awsErrorMessage: Option<string>)
      // Composer\Downloader\TransportException: message, code, previous exception
    | TransportException(message: string, code: int, previous: Option<Thrown>)
    | OtherException(message: string)
    | EngineError(message: string)

  datatype Result<+T> = Success(value: T) | Failure(error: Thrown)
}
