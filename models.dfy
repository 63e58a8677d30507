/** The delegation request configured under `Delegation` (Models/Delegation.cs). */
module Models {
  import opened Wrappers

  /**
   * A requested card: catalogue id, required BCX (card count), gold flag. The
   * source's class has reference identity, so two equal requests are two
   * entries; the model tells them apart by their position in `cards`.
   */
  datatype DelegationCard = DelegationCard(id: int, bcx: Option<int>, gold: bool)

  /** The token top-up settings; `token` is null when not configured. */
  datatype DelegationTokens = DelegationTokens(token: Option<string>, threshold: int, quantity: int)

  datatype Delegation = Delegation(players: seq<string>, cards: seq<DelegationCard>, tokens: DelegationTokens)
}
