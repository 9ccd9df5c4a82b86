/**
 * The exceptions the core raises or lets through, as one datatype. The four
 * domain kinds come from the project's exception module (ModelLoadingError,
 * PreprocessingError, PredictionError, APIError); `cause` is the exception
 * named by `raise ... from e`, or None when the raise has no `from`.
 */
module Exceptions {
  import opened Wrappers

  datatype Exn =
    | FileNotFoundError(message: string)
    | KeyError(key: string)
    | IndexError(message: string)
      /** Any other exception, such as one raised inside joblib, scikit-learn or the Groq client. */
    | OtherError(name: string, message: string)
    | ModelLoadingError(message: string, cause: Option<Exn>)
    | PreprocessingError(message: string, cause: Option<Exn>)
    | PredictionError(message: string, cause: Option<Exn>)
    | APIError(message: string, cause: Option<Exn>)
  {
    /** One of the project's own exception kinds. */
    predicate IsDomainError() {
      ModelLoadingError? || PreprocessingError? || PredictionError? || APIError?
    }
  }
}
