/**
 * Option, Result and the exceptions of the i18n library.
 *
 * Each PHP exception class the core throws becomes one constructor of
 * `Error`; the payload keeps what the exception's message is built from.
 */
module Errors {

  datatype Option<T> = None | Some(value: T)

  datatype Error =
    /** TranslationNotFoundException: the key is not in the dictionary. */
    | TranslationNotFound(key: string)
    /** TranslationAlreadyContainedException: add() of a key already present. */
    | TranslationAlreadyContained(key: string)
    /** DictionaryNotFoundException from a provider lookup. */
    | DictionaryNotFound(name: string, sourceLanguage: string, targetLanguage: string)
    /** NotSupportedException (compound language mismatch). */
    | NotSupported(message: string)
    /** \InvalidArgumentException */
    | InvalidArgument(message: string)
    /** \RuntimeException */
    | Runtime(message: string)
    /** \UnexpectedValueException */
    | UnexpectedValue(message: string)
    /** \TypeError / \Error raised by PHP itself for a value of the wrong type. */
    | TypeError(message: string)
    /** The service locator's not-found exception: no service is registered under the id. */
    | ServiceNotFound(id: string)
    /** A definition that reaches itself through the configuration registry (PHP recurses without end). */
    | DefinitionCycle(name: string)
    /** The build recursion ran out of its depth bound (PHP would keep recursing). */
    | DepthExceeded
    /** A compound dictionary listed as the child of a compound, which this model does not build. */
    | NestedCompound(name: string)

  datatype Result<T> = Ok(value: T) | Err(error: Error)
  {
    predicate IsFailure() { Err? }
    function PropagateFailure<U>(): Result<U> requires Err? { Err(error) }
    function Extract(): T requires Ok? { value }
  }

  /** `"` + s + `"`, the quoting every message of the library uses. */
  function Quote(s: string): string { "\"" + s + "\"" }
}
