/**
 * The program's error codes (`OreError`), the Solana `ProgramError` kinds the
 * core raises, and the result of an instruction. Any error aborts the whole
 * transaction, so an `Err` result always comes with no state change.
 */
module Errors {
  import opened Primitives

  datatype OreError =
    | AmountTooSmall
    | NotAuthorized
    | InvalidExecutor
    | DepositBelowMinimum
    | GarageExhausted
    | NoRewardsAvailable
    | InvalidReferrer
    | ReferrerNoGarage
    | InsufficientPoolBalance
    | GarageRequired

  /** The `#[repr(u32)]` discriminant of each error code. */
  function Code(e: OreError): (c: U32)
    ensures e.AmountTooSmall? || e.NotAuthorized? || e.InvalidExecutor? <==> c < 100
  {
    match e
    case AmountTooSmall => 0
    case NotAuthorized => 1
    case InvalidExecutor => 2
    case DepositBelowMinimum => 100
    case GarageExhausted => 101
    case NoRewardsAvailable => 102
    case InvalidReferrer => 103
    case ReferrerNoGarage => 104
    case InsufficientPoolBalance => 105
    case GarageRequired => 106
  }

  lemma CodeInjective(a: OreError, b: OreError)
    requires Code(a) == Code(b)
    ensures a == b
  {
  }

  /**
   * `Ore(e)` is a program error code; the rest are runtime errors.
   * `Panic` stands for a Rust panic: a failed `assert!`, an out-of-range index,
   * or an overflow of plain `+` (the release profile is taken to check overflow).
   */
  datatype ProgramError =
    | Ore(code: OreError)
    | ArithmeticOverflow
    | InsufficientFunds
    | InvalidAccountData
    | Panic

  /** The outcome of an instruction, usable with `:-`. */
  datatype Result<T> = Ok(value: T) | Err(error: ProgramError) {
    predicate IsFailure() { Err? }

    function PropagateFailure<U>(): Result<U>
      requires Err?
    {
      Err(error)
    }

    function Extract(): T
      requires Ok?
    {
      value
    }
  }

  /** Rust's `.ok_or(ProgramError::ArithmeticOverflow)?` on a checked operation. */
  function Checked<T>(o: Option<T>): (r: Result<T>)
    ensures o.None? <==> r == Err(ArithmeticOverflow)
    ensures o.Some? ==> r == Ok(o.value)
  {
    match o
    case Some(v) => Ok(v)
    case None => Err(ArithmeticOverflow)
  }
}
