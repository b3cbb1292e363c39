/** The error vocabulary shared by the betting and ledger code. */
module Results {

  datatype Error =
    | Invalid
    | TooFewSelections
    | LiquidityNotPositive
    | InvalidOdds
    | InvalidStake
    | Overflow
    | Unbalanced
    | NotFound
    | Unauthorized
    | Transition
    | AlreadyExists
    | IdempotencyConflict
    | InsufficientFunds
    | MarketNotOpen
    | MarketDecided
    | NotSettleable
    | IncompleteOutcome
    | HasWagers
    | NothingToRegrade
    | TooFewLegs
    | TooManyLegs
    | TooShort
    | OwnSubmission
    | NotOpposingSide
    | ReasonRequired
    | ResultUnchanged

  datatype Option<+T> = None | Some(value: T)

  datatype Result<+T> = Ok(value: T) | Err(error: Error) {

    predicate IsFailure() {
      Err?
    }

    function PropagateFailure<U>(): Result<U>
      requires Err?
    {
      Err(error)
    }

    function Extract(): T
      requires Ok?
    {
      value
    }
  }
}
