/** Errors and result types shared by every module. */
module Results {
  datatype Option<+T> = None | Some(value: T)

  /** One constructor per sentinel error of the source; StorageFault stands for any failed storage call. */
  datatype Error =
    | InvalidCurrency
    | CurrencyMismatch
    | NoEntries
    | InsufficientEntries
    | UnbalancedTransaction
    | ZeroAmount
    | EmptyName
    | InsufficientFunds
    | AccountNotActive
    | AccountNotFound
    | SameAccount
    | InvalidTransition
    | VersionConflict
    | RowMissing
    | BigintOutOfRange
    | StorageFault

  datatype Result<+T> = Ok(value: T) | Err(error: Error)

  /**
   How one storage call ends. Done: applied and acknowledged. Refused: no effect, an error is returned.
   Lost: applied, but the acknowledgement is lost and the caller sees an error.
   */
  datatype Reply = Done | Refused | Lost
}
