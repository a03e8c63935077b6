/** Small vocabulary shared by the other modules. */
module Basics {

  datatype Option<+T> = None | Some(value: T)

  /** What one call to PostgreSQL does: it returns, it fails before anything is
      committed, or it commits on the server and still raises to the caller. */
  datatype Fault = Fine | Lost | Indeterminate {
    predicate Commits() { this != Lost }
  }

  function Max(a: int, b: int): int { if a < b then b else a }

  function Min(a: int, b: int): int { if a < b then a else b }
}
