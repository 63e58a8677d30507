/**
 * What the remote connectors hand back to the delegation services: owned card
 * instances, token balances and the outcome of a submitted transaction. The
 * connectors themselves (HTTP, Hive signing and broadcast) are not modelled;
 * every remote answer is an input value of these types.
 */
module Connectors {
  import opened Wrappers

  /** One owned card instance, as a player's collection lists it. */
  datatype CardDetails = CardDetails(
    uid: string,
    cardDetailId: int,
    edition: int,
    gold: bool,
    xp: int,
    alphaXp: Option<int>,
    player: string,
    isForSale: bool,
    isForRent: bool,
    isDelegated: bool)

  /** One entry of a player's token balances. */
  datatype TokenBalance = TokenBalance(token: string, balance: real)

  /**
   * The outcome of a `DelegateCards` or `TransferTokens` call: the string it
   * returned (a null return is the empty string) or an exception it threw.
   */
  datatype TxOutcome = Returned(id: string) | Threw
}
