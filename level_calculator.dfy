/**
 * LevelCalculator.cs: the level of an owned card, from the card catalogue and
 * the level tables of the game settings.
 */
module LevelCalculator {
  import opened Wrappers
  import opened Levels
  import opened Connectors

  /** A catalogue entry: card id, rarity (1..4) and tier. */
  datatype Card = Card(id: int, rarity: int, tier: int)

  /** `_cards.FirstOrDefault(x => x.Id == id)`. */
  function FindCard(cards: seq<Card>, id: int): (r: Option<Card>)
    ensures r.None? <==> forall k :: 0 <= k < |cards| ==> cards[k].id != id
    ensures r.Some? ==> exists k :: 0 <= k < |cards| && cards[k] == r.value && r.value.id == id
                          && forall j :: 0 <= j < k ==> cards[j].id != id
  {
    if cards == [] then None
    else if cards[0].id == id then Some(cards[0])
    else
      var r := FindCard(cards[1..], id);
      assert r.Some? ==> exists k :: 0 <= k < |cards[1..]| && cards[1..][k] == r.value && r.value.id == id
                            && (forall j :: 0 <= j < k ==> cards[1..][j].id != id)
                            && cards[k + 1] == r.value && (forall j :: 1 <= j < k + 1 ==> cards[j].id != id);
      r
  }

  /**
   * The experience GetCardlevelInfo works with: an experience of 0 becomes 1
   * for an edition-4 card and for a tier-4 card, and stays 0 otherwise.
   */
  function NormalizedXp(xp: int, edition: int, tier: int): (r: int)
    ensures xp != 0 ==> r == xp
    ensures xp == 0 ==> (r == 1 <==> edition == 4 || tier == 4)
    ensures xp == 0 ==> (r == 0 <==> edition != 4 && tier != 4)
  {
    if xp == 0 then (if edition == 4 || tier == 4 then 1 else 0) else xp
  }

  /**
   * What `GetCardlevelInfo(details, card)` returns: a merge-regime level is
   * at most the number of rates (1 for an xp left at 0), a threshold-regime
   * level one more than the levels passed.
   */
  function CardLevel(s: Settings, details: CardDetails, card: Card): (level: nat)
    requires HasRow(s, details.edition, card.tier, details.gold, card.rarity)
    ensures var row := Row(s, details.edition, card.tier, details.gold, card.rarity);
            if IsMergeRegime(details.edition, card.tier) then level <= (if |row| < 1 then 1 else |row|)
            else 1 <= level <= |row| + 1
    ensures IsMergeRegime(details.edition, card.tier) && details.xp == 0 && details.edition != 4 && card.tier != 4 ==>
              level == 1
  {
    LevelFor(s, details.edition, card.tier, details.gold, card.rarity,
             NormalizedXp(details.xp, details.edition, card.tier))
  }

  /** What `Calculate(item)` returns: 0 for a card missing from the catalogue. */
  function CalculatedLevel(s: Settings, cards: seq<Card>, item: CardDetails): (level: nat)
    requires FindCard(cards, item.cardDetailId).Some? ==>
               var card := FindCard(cards, item.cardDetailId).value;
               HasRow(s, item.edition, card.tier, item.gold, card.rarity)
    ensures (forall k :: 0 <= k < |cards| ==> cards[k].id != item.cardDetailId) ==> level == 0
  {
    match FindCard(cards, item.cardDetailId)
    case None => 0
    case Some(card) => CardLevel(s, item, card)
  }

  /**
   * `GetCardlevelInfo`: normalise the experience, then count combine rates
   * (merge regime) or find the first level above the experience (threshold
   * regime). The rarity must index a row of the table the regime selects;
   * otherwise the source throws an index-out-of-range exception.
   */
  method GetCardLevelInfo(s: Settings, details: CardDetails, card: Card) returns (level: int)
    requires HasRow(s, details.edition, card.tier, details.gold, card.rarity)
    ensures level == CardLevel(s, details, card)
    ensures var row := Row(s, details.edition, card.tier, details.gold, card.rarity);
            if IsMergeRegime(details.edition, card.tier) then 0 <= level <= (if |row| < 1 then 1 else |row|)
            else 1 <= level <= |row| + 1
  {
    var xp := details.xp;
    level := 0;

    if xp == 0 {
      xp := if details.edition == 4 || card.tier == 4 then 1 else 0;
    }

    if details.edition == 4 || card.tier >= 4 {
      var rates := if details.gold then s.combineRatesGold[card.rarity - 1]
                   else s.combineRates[card.rarity - 1];
      var i := 0;
      while i < |rates|
        invariant 0 <= i <= |rates|
        invariant level == i
        invariant forall j :: 0 <= j < i ==> rates[j] <= xp
      {
        if rates[i] > xp {
          break;
        }
        level := level + 1;
        i := i + 1;
      }
      StepsReachedUnique(rates, xp, level);

      if xp == 0 {
        level := 1;
      }
      return;
    }

    var levels := s.xpLevels[card.rarity - 1];
    var i := 0;
    while i < |levels|
      invariant 0 <= i <= |levels|
      invariant level == 0
      invariant forall j :: 0 <= j < i ==> levels[j] <= xp
    {
      if xp < levels[i] {
        level := i + 1;
        ThresholdLevelAtFirstLevelAbove(levels, xp, i);
        break;
      }
      i := i + 1;
    }

    if level == 0 {
      ThresholdLevelPastLastLevel(levels, xp);
      level := |levels| + 1;
    }
  }

  /**
   * `Calculate`: level 0 for a card id missing from the catalogue, otherwise
   * the level GetCardlevelInfo reads for the first catalogue entry with that id.
   */
  method Calculate(s: Settings, cards: seq<Card>, item: CardDetails) returns (level: int)
    requires FindCard(cards, item.cardDetailId).Some? ==>
               var card := FindCard(cards, item.cardDetailId).value;
               HasRow(s, item.edition, card.tier, item.gold, card.rarity)
    ensures level == CalculatedLevel(s, cards, item)
    ensures FindCard(cards, item.cardDetailId).None? ==> level == 0
  {
    var card := FindCard(cards, item.cardDetailId);
    if card.None? {
      return 0;
    }
    level := GetCardLevelInfo(s, item, card.value);
  }

  /**
   * Merge regime, for an experience that normalises to 0 (tier 5 and above,
   * not edition 4): the level is forced to 1.
   */
  lemma ZeroXpMergeLevelIsOne(s: Settings, details: CardDetails, card: Card)
    requires HasRow(s, details.edition, card.tier, details.gold, card.rarity)
    requires details.xp == 0 && details.edition != 4 && card.tier >= 5
    ensures CardLevel(s, details, card) == 1
  {
  }

  /**
   * Merge regime, for an experience of 0 on an edition-4 or tier-4 card: the
   * experience counts as 1, so the level is the number of combine rates at most 1.
   */
  lemma ZeroXpEditionFourCountsAsOne(s: Settings, details: CardDetails, card: Card)
    requires HasRow(s, details.edition, card.tier, details.gold, card.rarity)
    requires details.xp == 0 && (details.edition == 4 || card.tier == 4)
    ensures CardLevel(s, details, card)
            == StepsReached(Row(s, details.edition, card.tier, details.gold, card.rarity), 1)
  {
  }

  /** A merge-regime level is 0 only for a positive experience below the first combine rate. */
  lemma MergeLevelZero(s: Settings, details: CardDetails, card: Card)
    requires HasRow(s, details.edition, card.tier, details.gold, card.rarity)
    requires IsMergeRegime(details.edition, card.tier)
    ensures var row := Row(s, details.edition, card.tier, details.gold, card.rarity);
            var xp := NormalizedXp(details.xp, details.edition, card.tier);
            CardLevel(s, details, card) == 0 <==> xp != 0 && (row == [] || xp < row[0])
  {
  }
}
