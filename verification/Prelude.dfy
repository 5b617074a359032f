/** What every part of the model shares. */
module Prelude {

  datatype Option<+T> = None | Some(value: T)

  function Max(a: int, b: int): int { if a < b then b else a }
  function Min(a: int, b: int): int { if a < b then a else b }
}
