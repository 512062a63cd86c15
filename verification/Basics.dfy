/** Small vocabulary shared by every module: optional values and error values. */
module Basics {

  datatype Option<+T> = None | Some(value: T)

  /** The kinds that callers distinguish with `errors.Is`. */
  datatype ErrorKind =
    | Conflict
    | NotFound
    | Unavailable
    | OutcomeUnknown
    | Finalized
    | Invalid
    | Consistency

  /** A Go error value: the kinds it matches. nil is the empty set, errors.Join is union. */
  type Err = set<ErrorKind>

  const NIL: Err := {}

  datatype Result<+T> = Ok(value: T) | Fail(error: Err)

  /** No two positions hold the same element. */
  predicate Distinct<T(==)>(s: seq<T>) {
    forall i, j :: 0 <= i < j < |s| ==> s[i] != s[j]
  }
}
