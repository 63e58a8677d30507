/**
 * The level tables of the game settings and how a card's level is read from
 * them. Both level calculators (LevelCalculator.cs and `convertCardLevel` in
 * src/composables/useSplinterlands.ts) share everything here; they differ only
 * in how they normalise a missing experience value before reading the tables.
 */
module Levels {

  /** `xp_levels`, `combine_rates` and `combine_rates_gold`: one row per rarity. */
  datatype Settings = Settings(
    xpLevels: seq<seq<int>>,
    combineRates: seq<seq<int>>,
    combineRatesGold: seq<seq<int>>)

  /**
   * The number of leading entries of `row` that are at most `xp`. Both scans
   * of the calculators compute this: the merge scan stops at the first rate
   * greater than xp, the threshold scan at the first level greater than xp.
   */
  function StepsReached(row: seq<int>, xp: int): (n: nat)
    ensures n <= |row|
    ensures forall i :: 0 <= i < n ==> row[i] <= xp
    ensures n < |row| ==> xp < row[n]
  {
    if row == [] || xp < row[0] then 0 else 1 + StepsReached(row[1..], xp)
  }

  /** Any prefix length that satisfies the contract of StepsReached is StepsReached. */
  lemma StepsReachedUnique(row: seq<int>, xp: int, n: nat)
    requires n <= |row|
    requires forall i :: 0 <= i < n ==> row[i] <= xp
    requires n < |row| ==> xp < row[n]
    ensures StepsReached(row, xp) == n
  {
  }

  /** StepsReached is the length of the LONGEST prefix whose entries are all at most xp. */
  lemma StepsReachedIsLongestPrefix(row: seq<int>, xp: int, k: nat)
    requires k <= |row|
    requires forall i :: 0 <= i < k ==> row[i] <= xp
    ensures k <= StepsReached(row, xp)
  {
  }

  /** More experience never reaches fewer steps (for any row, sorted or not). */
  lemma StepsReachedMonotone(row: seq<int>, xp1: int, xp2: int)
    requires xp1 <= xp2
    ensures StepsReached(row, xp1) <= StepsReached(row, xp2)
  {
  }

  /** Edition 4 (Untamed) or a tier of 4 and above selects the combine-rate tables. */
  predicate IsMergeRegime(edition: int, tier: int)
  {
    edition == 4 || tier >= 4
  }

  /** The table a card's level is read from. */
  function Table(s: Settings, edition: int, tier: int, gold: bool): seq<seq<int>>
  {
    if IsMergeRegime(edition, tier) then
      (if gold then s.combineRatesGold else s.combineRates)
    else s.xpLevels
  }

  /** `rarity - 1` indexes a row of the selected table. */
  predicate HasRow(s: Settings, edition: int, tier: int, gold: bool, rarity: int)
  {
    1 <= rarity <= |Table(s, edition, tier, gold)|
  }

  function Row(s: Settings, edition: int, tier: int, gold: bool, rarity: int): seq<int>
    requires HasRow(s, edition, tier, gold, rarity)
  {
    Table(s, edition, tier, gold)[rarity - 1]
  }

  /**
   * Merge regime: the number of combine rates the experience has reached,
   * except that an experience of 0 counts as level 1.
   */
  function MergeLevel(rates: seq<int>, xp: int): (level: nat)
    ensures xp == 0 ==> level == 1
    ensures xp != 0 ==> level <= |rates|
    ensures level <= if |rates| < 1 then 1 else |rates|
  {
    if xp == 0 then 1 else StepsReached(rates, xp)
  }

  /**
   * Threshold regime: `i + 1` for the first level `levels[i]` above the
   * experience, `|levels| + 1` when there is none.
   */
  function ThresholdLevel(levels: seq<int>, xp: int): (level: nat)
    ensures 1 <= level <= |levels| + 1
    ensures level <= |levels| ==> xp < levels[level - 1]
    ensures forall j :: 0 <= j < level - 1 ==> levels[j] <= xp
  {
    StepsReached(levels, xp) + 1
  }

  /** The level of a card with the given attributes and (already normalised) experience. */
  function LevelFor(s: Settings, edition: int, tier: int, gold: bool, rarity: int, xp: int): nat
    requires HasRow(s, edition, tier, gold, rarity)
  {
    var row := Row(s, edition, tier, gold, rarity);
    if IsMergeRegime(edition, tier) then MergeLevel(row, xp) else ThresholdLevel(row, xp)
  }

  /**
   * Threshold regime, stated the way the loop reads: the level is `i + 1`
   * for the least `i` with `xp < levels[i]`.
   */
  lemma ThresholdLevelAtFirstLevelAbove(levels: seq<int>, xp: int, i: nat)
    requires i < |levels| && xp < levels[i]
    requires forall j :: 0 <= j < i ==> levels[j] <= xp
    ensures ThresholdLevel(levels, xp) == i + 1
  {
    StepsReachedUnique(levels, xp, i);
  }

  /** Threshold regime: experience at or past every level gives `|levels| + 1`. */
  lemma ThresholdLevelPastLastLevel(levels: seq<int>, xp: int)
    requires forall j :: 0 <= j < |levels| ==> levels[j] <= xp
    ensures ThresholdLevel(levels, xp) == |levels| + 1
  {
    StepsReachedUnique(levels, xp, |levels|);
  }

  /** Threshold regime: the level never drops when experience grows. */
  lemma ThresholdLevelMonotone(levels: seq<int>, xp1: int, xp2: int)
    requires xp1 <= xp2
    ensures ThresholdLevel(levels, xp1) <= ThresholdLevel(levels, xp2)
  {
    StepsReachedMonotone(levels, xp1, xp2);
  }

  /** Merge regime: for positive experience, the level never drops when experience grows. */
  lemma MergeLevelMonotone(rates: seq<int>, xp1: int, xp2: int)
    requires 0 < xp1 <= xp2
    ensures MergeLevel(rates, xp1) <= MergeLevel(rates, xp2)
  {
    StepsReachedMonotone(rates, xp1, xp2);
  }

  predicate NonDecreasing(row: seq<int>)
  {
    forall i, j :: 0 <= i <= j < |row| ==> row[i] <= row[j]
  }

  /**
   * On a non-decreasing row, the steps reached are exactly the entries at
   * most xp, wherever they stand.
   */
  lemma {:induction false} StepsReachedCountsSortedRow(row: seq<int>, xp: int, i: nat)
    requires NonDecreasing(row)
    requires i < |row|
    ensures i < StepsReached(row, xp) <==> row[i] <= xp
  {
    if row[i] <= xp {
      assert forall j :: 0 <= j < i + 1 ==> row[j] <= row[i];
      StepsReachedIsLongestPrefix(row, xp, i + 1);
    }
  }

  /** The default tables of src/composables/useSplinterlands.ts (`splSettings`). */
  const DefaultSettings: Settings := Settings(
    [ [20, 60, 160, 360, 760, 1560, 2560, 4560, 7560],
      [100, 300, 700, 1500, 2500, 4500, 8500],
      [250, 750, 1750, 3750, 7750],
      [1000, 3000, 7000] ],
    [ [1, 5, 14, 30, 60, 100, 150, 220, 300, 400],
      [1, 5, 14, 25, 40, 60, 85, 115],
      [1, 4, 10, 20, 32, 46],
      [1, 3, 6, 11] ],
    [ [0, 0, 1, 2, 5, 9, 14, 20, 27, 38],
      [0, 1, 2, 4, 7, 11, 16, 22],
      [0, 1, 2, 4, 7, 10],
      [0, 1, 2, 4] ])

  /** The default tables have a row for each of the four rarities, and every row is non-decreasing. */
  lemma DefaultSettingsWellFormed()
    ensures |DefaultSettings.xpLevels| == 4
    ensures |DefaultSettings.combineRates| == 4
    ensures |DefaultSettings.combineRatesGold| == 4
    ensures forall r :: 0 <= r < 4 ==> NonDecreasing(DefaultSettings.xpLevels[r])
    ensures forall r :: 0 <= r < 4 ==> NonDecreasing(DefaultSettings.combineRates[r])
    ensures forall r :: 0 <= r < 4 ==> NonDecreasing(DefaultSettings.combineRatesGold[r])
  {
  }

  /** With the default tables every card level lies in 0..10. */
  lemma {:induction false} DefaultLevelsAtMostTen(edition: int, tier: int, gold: bool, rarity: int, xp: int)
    requires 1 <= rarity <= 4
    ensures HasRow(DefaultSettings, edition, tier, gold, rarity)
    ensures LevelFor(DefaultSettings, edition, tier, gold, rarity, xp) <= 10
  {
    var row := Row(DefaultSettings, edition, tier, gold, rarity);
    assert |row| <= 10;
  }
}
