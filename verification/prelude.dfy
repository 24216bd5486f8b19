/** Error values, 64-bit integers and checked arithmetic shared by every service. */
module Prelude {

  const I64_MIN: int := -0x8000_0000_0000_0000
  const I64_MAX: int := 0x7FFF_FFFF_FFFF_FFFF

  /** One currency minor unit in microunits. */
  const MICROS_PER_MINOR_UNIT: I64 := 1_000_000

  predicate Fits(x: int) {
    I64_MIN <= x <= I64_MAX
  }

  /** A PostgreSQL bigint or Rust i64. Every stored number has this type. */
  type I64 = x: int | -0x8000_0000_0000_0000 <= x <= 0x7FFF_FFFF_FFFF_FFFF

  datatype Option<+T> = None | Some(value: T)

  datatype Error =
    | Invalid
    | NotFound
    | Conflict
    | InsufficientFunds
    | Unauthorized
    | Forbidden
    | Database
    | Internal

  /** Outcome of a service call; `:-` plays the part of Rust's question mark. */
  datatype Result<+T> = Ok(value: T) | Err(error: Error) {
    predicate IsFailure() {
      Err?
    }

    function PropagateFailure<U>(): Result<U>
      requires Err?
    {
      Err(error)
    }

    function Extract(): T
      requires Ok?
    {
      value
    }
  }

  function CheckedAdd(a: I64, b: I64): Option<I64> {
    if Fits(a + b) then Some(a + b) else None
  }

  function CheckedSub(a: I64, b: I64): Option<I64> {
    if Fits(a - b) then Some(a - b) else None
  }

  function CheckedMul(a: I64, b: I64): Option<I64> {
    if Fits(a * b) then Some(a * b) else None
  }

  function Max(a: int, b: int): int {
    if a < b then b else a
  }

  function Min(a: int, b: int): int {
    if a < b then a else b
  }

  /** A transaction committed exactly the specified outcome, or left the state alone. */
  ghost predicate Committed<S(!new), T(!new)>(spec: Result<(S, T)>, before: S, after: S, r: Result<T>) {
    match spec
    case Ok((state, value)) => after == state && r == Ok(value)
    case Err(error) => after == before && r == Err(error)
  }

  /** In the microseconds of an Instant's time line. */
  const SECOND := 1_000_000

  /** An instant as the services read it: its place on the time line in
      microseconds, and the UTC calendar month it falls in. */
  datatype Instant = Instant(month: int, at: int)

  /** `str::trim().is_empty()` is false; blanks are the ASCII ones. */
  predicate NonBlank(s: string) {
    exists i :: 0 <= i < |s| && s[i] !in " \t\n\r"
  }

  predicate Alphanumeric(c: char) {
    'a' <= c <= 'z' || 'A' <= c <= 'Z' || '0' <= c <= '9'
  }

  /** Identifiers accepted by the billing endpoints. */
  predicate Identifier(s: string) {
    0 < |s| <= 128 && forall i :: 0 <= i < |s| ==> Alphanumeric(s[i]) || s[i] in "-_.:"
  }
}
