/** Values shared by every part of the model. */
module Prelude {

  /** A Go pointer to a scalar, or a value that may be nil. */
  datatype Option<+T> = None | Some(value: T)

  /** The left-biased choice made for every field of a merged security context. */
  function OrElse<T>(a: Option<T>, b: Option<T>): Option<T> {
    if a.Some? then a else b
  }

  /** The pointer is set and points to the given value. */
  predicate Is(field: Option<bool>, value: bool) {
    field.Some? && field.value == value
  }

  /** The five registered hardening checks. */
  datatype CheckType = User | Group | ReadOnlyRootFilesystem | AllowPrivilegeEscalation | DropAllCapabilities

  /** What a check runner can be launched for. */
  datatype Kind = BaselineRun(second: bool) | FinalRun | CheckRun(check: CheckType)

  const ALL_CHECKS: set<CheckType> :=
    {User, Group, ReadOnlyRootFilesystem, AllowPrivilegeEscalation, DropAllCapabilities}

  predicate NoDuplicates<T(==)>(s: seq<T>) {
    forall i, j :: 0 <= i < j < |s| ==> s[i] != s[j]
  }

  function Elements<T>(s: seq<T>): set<T> {
    set x | x in s
  }
}
