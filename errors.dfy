/**
 * Exceptions of the .NET runtime and of the SharePoint client that the modelled
 * code throws, catches or inspects, and the Result/Outcome wrappers that carry
 * them in place of a throw.
 */
module Errors {

  datatype Option<+T> = None | Some(value: T)

  /** The error a SharePoint server round trip reports. */
  datatype ServerError =
    | FileNotFound                      // message "File Not Found.", type System.IO.FileNotFoundException
    | NotInList                         // message "The object specified does not belong to a list."
    | OtherServerError(message: string) // anything else the server may report

  /** Why a PowerShell migration script is reported as failed. */
  datatype ScriptFailure =
    | NonZeroExitCode(code: int)
    | HadErrors(state: string, reason: string)

  datatype Exception =
    | ArgumentNullException(paramName: string)
    | ArgumentException(message: string)
    | ArgumentOutOfRangeException(paramName: string)
    | InvalidOperationException(message: string)
    | NullReferenceException
    | NotImplementedException
    | FormatException
    | OverflowException
    | JsonSerializationException
    | DirectoryNotFoundException(path: string)
    | IOException(path: string)
    | ServerException(error: ServerError)
    | ScriptException(failure: ScriptFailure)
    | GeneralException(message: string)
    | MigrationException(message: string)     // thrown by the body of a migration
    | PreprocessorException(message: string)  // thrown by a custom text preprocessor
    | ConnectionException(message: string)    // thrown while opening a context scope

  /** A value, or the exception that was thrown instead of producing it. */
  datatype Result<+T> = Ok(value: T) | Fail(error: Exception)

  /** Completion of an operation that returns nothing. */
  datatype Outcome = Pass | Throw(error: Exception)

  predicate IsServerError(e: Exception, kind: ServerError)
  {
    e.ServerException? && e.error == kind
  }
}
