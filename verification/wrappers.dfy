/**
 * Option and Result types, the Python exceptions that the modelled code raises, and a
 * sequence fact the loops share.
 */
module Wrappers {

  datatype Option<T> = None | Some(value: T)

  /** The exception classes raised by the modelled code, with the message or key they carry. */
  datatype Exception =
    | ValueError(message: string)
    | KeyError(key: string)
    | IndexError(message: string)
    | AttributeError(name: string)
    | ModuleNotFoundError(message: string)
    | TypeError(message: string)
    | NotImplementedError(message: string)
    | AssertionError

  datatype Result<T> = Ok(value: T) | Err(error: Exception)
  {
    predicate IsFailure() { Err? }
    function PropagateFailure<U>(): Result<U> requires Err? { Err(error) }
    function Extract(): T requires Ok? { value }
  }

  /** A prefix one element longer is the shorter prefix and that element. */
  lemma PrefixGrows<T>(s: seq<T>, k: nat)
    requires k < |s|
    ensures s[..k + 1] == s[..k] + [s[k]]
  {
  }

  /** A prefix of a prefix is the shorter prefix. */
  lemma PrefixOfPrefix<T>(s: seq<T>, j: nat, k: nat)
    requires j <= k <= |s|
    ensures s[..k][..j] == s[..j]
  {
  }

  /** A non-empty sequence is its front followed by its last element. */
  lemma FrontAndLast<T>(s: seq<T>)
    requires |s| > 0
    ensures s == s[..|s| - 1] + [s[|s| - 1]]
  {
  }
}
