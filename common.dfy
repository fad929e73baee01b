/** Values shared by every part of the model: optional values, what an SDK
    callback receives, and the failures the provider rejects with. */
module Common {
  datatype Option<+T> = None | Some(value: T)

  /** An error handed to an SDK callback; the model keeps only its code. */
  datatype SdkError = SdkError(code: string)

  /** What an SDK callback receives: the response data or an error. */
  datatype Reply<+T> = Data(data: T) | Error(err: SdkError)

  /** The outcome of one remote command: its exit code and captured output. */
  datatype CommandResult = CommandResult(exitCode: int, stdout: string, stderr: string)

  /** Why an operation rejected. */
  datatype Failure =
      /** an SDK error passed on as it came */
    | Sdk(cause: SdkError)
      /** `createError(err, occurredWhen)`: the SDK error with the operation
          it happened in */
    | Wrapped(base: SdkError, occurredWhen: string)
      /** the rejection the corrected checks give a reply that carried no
          error but lacked the data asked for; `createError` cannot build
          one, as it throws when its error is null */
    | NoData(occurredWhen: string)
      /** a network error (fetch, ssh) carrying its code */
    | Network(code: string)
      /** `new Error(message)` */
    | Plain(message: string)
      /** a remote command exited with a non-zero code */
    | CommandFailed(command: string, result: CommandResult)

  datatype Result<+T> = Ok(value: T) | Err(failure: Failure)
}
