/**
 * The contract's error type (src/error.rs) and the one standard-library error
 * the contract can surface (a load of a storage item that was never saved).
 */
module Error {

  /** The part of cosmwasm's `StdError` this model can produce: loading an
      `Item` that was never saved. `item` is the item's storage key. */
  datatype StdError = NotFound(item: string)

  /**
   * `ContractError` as declared. The last four variants are declared but no
   * entry point ever returns them: the contract has no write-once guard on its
   * winners and no separate test / final randomness slots.
   */
  datatype ContractError =
    | Std(std: StdError)
    | Unauthorized
    | InvalidProxyAddress
    | InvalidParticipantCount
    | InvalidRandomness
    | WinnersAlreadyPicked
    | TestRandomnessNotSet
    | FinalRandomnessNotSet
    | FinalRandomnessAlreadySet
}
