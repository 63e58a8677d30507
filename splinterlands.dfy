/**
 * src/composables/useSplinterlands.ts: the front end's card level converter,
 * the built-in settings tables it falls back to, and the helpers that turn
 * editions, colours and cards into display strings and image addresses.
 */
module Splinterlands {
  import opened Wrappers
  import opened Text
  import opened Levels
  import opened Connectors
  import LevelCalculator

  /**
   * A card of a player's collection as the front end holds it. `xp` is None
   * when the value is not a number (`isNaN(card.xp)`); `cardDetailId` and
   * `id` are None when the property is absent.
   */
  class CollectionCard {
    var cardDetailId: Option<int>
    var id: Option<int>
    var edition: int
    var gold: bool
    var xp: Option<int>
    var level: int

    constructor (cardDetailId: Option<int>, id: Option<int>, edition: int, gold: bool, xp: Option<int>, level: int)
      ensures this.cardDetailId == cardDetailId && this.id == id && this.edition == edition
      ensures this.gold == gold && this.xp == xp && this.level == level
    {
      this.cardDetailId, this.id, this.edition := cardDetailId, id, edition;
      this.gold, this.xp, this.level := gold, xp, level;
    }
  }

  /** A catalogue entry as the front end reads it; an absent tier reads as 0. */
  datatype CardInfo = CardInfo(name: string, rarity: int, tier: int)

  /**
   * `(card.edition == 4 || (details?.tier ?? 0)) == 4 ? 1 : 0` for a
   * non-numeric experience. For edition 4 the parenthesis is `true`, which
   * is not `== 4`; otherwise it is the tier. So the result is 1 exactly for a
   * tier-4 card of an edition other than 4.
   */
  function TsNormalizedXp(xp: Option<int>, edition: int, tier: int): (r: int)
    ensures xp.Some? ==> r == xp.value
    ensures xp.None? ==> (r == 1 <==> edition != 4 && tier == 4)
    ensures xp.None? ==> (r == 0 <==> edition == 4 || tier != 4)
  {
    if xp.Some? then xp.value
    else if edition == 4 then 0
    else if tier == 4 then 1
    else 0
  }

  /** The tables convertCardLevel reads: the given settings, or `splSettings` when none are given. */
  function SettingsOrDefault(settings: Option<Settings>): Settings
  {
    settings.GetOr(DefaultSettings)
  }

  /** What `convertCardLevel(settings, card, details)` returns. */
  function TsCardLevel(settings: Option<Settings>, edition: int, gold: bool, xp: Option<int>, details: CardInfo): (level: nat)
    requires HasRow(SettingsOrDefault(settings), edition, details.tier, gold, details.rarity)
    ensures var row := Row(SettingsOrDefault(settings), edition, details.tier, gold, details.rarity);
            if IsMergeRegime(edition, details.tier) then level <= (if |row| < 1 then 1 else |row|)
            else 1 <= level <= |row| + 1
    ensures IsMergeRegime(edition, details.tier) && TsNormalizedXp(xp, edition, details.tier) == 0 ==> level == 1
  {
    LevelFor(SettingsOrDefault(settings), edition, details.tier, gold, details.rarity,
             TsNormalizedXp(xp, edition, details.tier))
  }

  /**
   * `convertCardLevel`: fall back to the built-in tables, overwrite a
   * non-numeric `card.xp` with its normalised value, then count combine rates
   * (merge regime) or find the first level above the experience (threshold
   * regime). The rarity must index a row of the selected table; otherwise the
   * source fails reading `length` of undefined.
   */
  method ConvertCardLevel(settings: Option<Settings>, card: CollectionCard, details: CardInfo) returns (level: int)
    requires HasRow(SettingsOrDefault(settings), card.edition, details.tier, card.gold, details.rarity)
    modifies card
    ensures card.xp == Some(TsNormalizedXp(old(card.xp), card.edition, details.tier))
    ensures card.cardDetailId == old(card.cardDetailId) && card.id == old(card.id)
    ensures card.edition == old(card.edition) && card.gold == old(card.gold) && card.level == old(card.level)
    ensures level == TsCardLevel(settings, card.edition, card.gold, old(card.xp), details)
    ensures var row := Row(SettingsOrDefault(settings), card.edition, details.tier, card.gold, details.rarity);
            if IsMergeRegime(card.edition, details.tier) then 0 <= level <= (if |row| < 1 then 1 else |row|)
            else 1 <= level <= |row| + 1
  {
    var s := if settings.None? then DefaultSettings else settings.value;
    var edition, gold, tier, rarity := card.edition, card.gold, details.tier, details.rarity;
    assert s == SettingsOrDefault(settings);

    if card.xp.None? {
      card.xp := Some(if (edition == 4 || tier == 4) && edition != 4 then 1 else 0);
    }
    var xp := card.xp.value;
    assert xp == TsNormalizedXp(old(card.xp), edition, tier);

    if edition == 4 || tier >= 4 {
      var rates := if gold then s.combineRatesGold[rarity - 1] else s.combineRates[rarity - 1];
      assert rates == Row(s, edition, tier, gold, rarity);
      level := 0;
      var i := 0;
      while i < |rates|
        invariant 0 <= i <= |rates|
        invariant level == i
        invariant forall j :: 0 <= j < i ==> rates[j] <= xp
      {
        if rates[i] > xp {
          break;
        }
        level := level + 1;
        i := i + 1;
      }
      StepsReachedUnique(rates, xp, level);
      if xp == 0 {
        level := 1;
      }
      assert level == MergeLevel(rates, xp);
      return;
    }

    var levels := s.xpLevels[rarity - 1];
    assert levels == Row(s, edition, tier, gold, rarity);
    level := 0;
    var i := 0;
    while i < |levels|
      invariant 0 <= i <= |levels|
      invariant level == 0
      invariant forall j :: 0 <= j < i ==> levels[j] <= xp
    {
      if xp < levels[i] {
        level := i + 1;
        ThresholdLevelAtFirstLevelAbove(levels, xp, i);
        break;
      }
      i := i + 1;
    }
    if level == 0 {
      ThresholdLevelPastLastLevel(levels, xp);
      level := |levels| + 1;
    }
    assert level == ThresholdLevel(levels, xp);
  }

  /** With the built-in tables, any rarity 1..4 can be converted and yields a level in 0..10. */
  lemma DefaultConversionDefined(edition: int, gold: bool, xp: Option<int>, details: CardInfo)
    requires 1 <= details.rarity <= 4
    ensures HasRow(SettingsOrDefault(None), edition, details.tier, gold, details.rarity)
    ensures TsCardLevel(None, edition, gold, xp, details) <= 10
  {
    DefaultLevelsAtMostTen(edition, details.tier, gold, details.rarity, TsNormalizedXp(xp, edition, details.tier));
  }

  /**
   * For a numeric experience other than 0 and the same tables, the front end
   * and LevelCalculator.cs compute the same level.
   */
  lemma AgreesWithLevelCalculator(s: Settings, details: CardDetails, card: LevelCalculator.Card)
    requires HasRow(s, details.edition, card.tier, details.gold, card.rarity)
    requires details.xp != 0
    ensures TsCardLevel(Some(s), details.edition, details.gold, Some(details.xp),
                        CardInfo("", card.rarity, card.tier))
            == LevelCalculator.CardLevel(s, details, card)
  {
  }

  /**
   * For an experience of 0 they agree unless the card is of edition 4 or of
   * tier 4: there LevelCalculator.cs counts the experience as 1 and the front
   * end keeps 0.
   */
  lemma ZeroXpAgreementOutsideEditionFourAndTierFour(s: Settings, details: CardDetails, card: LevelCalculator.Card)
    requires HasRow(s, details.edition, card.tier, details.gold, card.rarity)
    requires details.xp == 0 && details.edition != 4 && card.tier != 4
    ensures TsCardLevel(Some(s), details.edition, details.gold, Some(0), CardInfo("", card.rarity, card.tier))
            == LevelCalculator.CardLevel(s, details, card)
  {
  }

  /**
   * The two calculators do disagree: a gold edition-4 common card with no
   * experience is level 3 for LevelCalculator.cs with the built-in tables
   * (experience 1 reaches the gold rates 0, 0 and 1) and level 1 for the
   * front end, whether its experience is 0 or not a number.
   */
  lemma {:induction false} ZeroXpDisagreement()
    ensures var details := CardDetails("C1-1", 1, 4, true, 0, None, "player", false, false, false);
            var card := LevelCalculator.Card(1, 1, 1);
            && HasRow(DefaultSettings, 4, 1, true, 1)
            && LevelCalculator.CardLevel(DefaultSettings, details, card) == 3
            && TsCardLevel(None, 4, true, Some(0), CardInfo("", 1, 1)) == 1
            && TsCardLevel(None, 4, true, None, CardInfo("", 1, 1)) == 1
  {
    var row := DefaultSettings.combineRatesGold[0];
    assert row[0] == 0 && row[1] == 0 && row[2] == 1 && row[3] == 2;
    StepsReachedUnique(row, 1, 3);
  }

  /** The edition names, by edition number. */
  const EditionNames: seq<string> := ["alpha", "beta", "promo", "reward", "untamed", "dice", "gladius", "chaos"]

  /**
   * `convertEditionToString`: the edition's name for 0..7, otherwise the
   * edition itself, rendered as the template literal renders a number.
   */
  function ConvertEditionToString(edition: int): (r: string)
    ensures 0 <= edition < |EditionNames| ==> r == EditionNames[edition]
    ensures !(0 <= edition < |EditionNames|) ==> r == IntToString(edition)
  {
    match edition
    case 0 => "alpha"
    case 1 => "beta"
    case 2 => "promo"
    case 3 => "reward"
    case 4 => "untamed"
    case 5 => "dice"
    case 6 => "gladius"
    case 7 => "chaos"
    case _ => IntToString(edition)
  }

  /**
   * A named edition's string identifies it: no other edition, named or not,
   * maps to the same string (the fallback ends in a digit, no name does).
   */
  lemma {:induction false} EditionNamesIdentify(e1: int, e2: int)
    requires 0 <= e1 < |EditionNames| && e1 != e2
    ensures ConvertEditionToString(e1) != ConvertEditionToString(e2)
  {
    var n := ConvertEditionToString(e1);
    assert !IsDigit(n[|n| - 1]);
    if !(0 <= e2 < |EditionNames|) {
      var f := ConvertEditionToString(e2);
      assert IsDigit(f[|f| - 1]);
    }
  }

  const ImageBase: string := "https://d36mxiodymuqjm.cloudfront.net/cards_by_level/"

  /**
   * `convertCardImageUri(card, cardDetails)`: the image by edition, name,
   * level and foil. Without details the name renders as "undefined".
   */
  function ConvertCardImageUri(edition: int, level: int, gold: bool, details: Option<CardInfo>): (uri: string)
    ensures StartsWith(uri, ImageBase + ConvertEditionToString(edition) + "/")
  {
    var name := if details.Some? then details.value.name else "undefined";
    var prefix := ImageBase + ConvertEditionToString(edition) + "/";
    var uri := prefix + name + "_lv" + IntToString(level) + (if gold then "_gold" else "") + ".png";
    ImagePrefix(prefix, name, IntToString(level), gold);
    uri
  }

  /** The head of an image address: whatever name, level and foil follow, the prefix is kept. */
  lemma {:induction false} ImagePrefix(prefix: string, name: string, digits: string, gold: bool)
    ensures StartsWith(prefix + name + "_lv" + digits + (if gold then "_gold" else "") + ".png", prefix)
  {
    var uri := prefix + name + "_lv" + digits + (if gold then "_gold" else "") + ".png";
    assert uri == prefix + (name + "_lv" + digits + (if gold then "_gold" else "") + ".png");
    assert uri[..|prefix|] == prefix;
  }

  /**
   * The tail of an image address: after a decimal level comes either
   * "_gold.png" or ".png", so the address ends in "_gold.png" exactly for a
   * gold card.
   */
  lemma {:induction false} LevelTailSuffix(head: string, digits: string, gold: bool)
    requires |digits| > 0 && IsDigit(digits[|digits| - 1])
    ensures var uri := head + "_lv" + digits + (if gold then "_gold" else "") + ".png";
            && (gold ==> EndsWith(uri, "_lv" + digits + "_gold.png"))
            && (!gold ==> EndsWith(uri, "_lv" + digits + ".png"))
            && (EndsWith(uri, "_gold.png") <==> gold)
  {
    var tail := "_lv" + digits + (if gold then "_gold" else "") + ".png";
    var uri := head + "_lv" + digits + (if gold then "_gold" else "") + ".png";
    assert uri == head + tail;
    assert uri[|uri| - |tail|..] == tail;
    if gold {
      assert uri[|uri| - 9..] == "_gold.png";
    } else {
      assert uri[|uri| - 5] == digits[|digits| - 1];
      assert "_gold.png"[4] == 'd';
    }
  }

  /**
   * The image address ends in `_lv{level}_gold.png` for a gold card and in
   * `_lv{level}.png` otherwise; it ends in `_gold.png` exactly for a gold card.
   */
  lemma ImageUriSuffix(edition: int, level: int, gold: bool, details: Option<CardInfo>)
    ensures var uri := ConvertCardImageUri(edition, level, gold, details);
            && (gold ==> EndsWith(uri, "_lv" + IntToString(level) + "_gold.png"))
            && (!gold ==> EndsWith(uri, "_lv" + IntToString(level) + ".png"))
            && (EndsWith(uri, "_gold.png") <==> gold)
  {
    var name := if details.Some? then details.value.name else "undefined";
    LevelTailSuffix(ImageBase + ConvertEditionToString(edition) + "/" + name, IntToString(level), gold);
  }

  /** The colours `convertToType` knows, lower case, with the element each stands for. */
  const ColourElements: map<string, string> := map[
    "red" := "fire", "blue" := "water", "green" := "earth", "white" := "life",
    "black" := "death", "gray" := "neutral", "gold" := "dragon"]

  /**
   * `convertToType(type)`: a colour, whatever its case, becomes its element;
   * anything else is returned as given.
   */
  function ConvertToType(colour: string): (r: string)
    ensures ToLower(colour) in ColourElements ==> r == ColourElements[ToLower(colour)]
    ensures ToLower(colour) !in ColourElements ==> r == colour
  {
    var c := ToLower(colour);
    if c == "red" then "fire"
    else if c == "blue" then "water"
    else if c == "green" then "earth"
    else if c == "white" then "life"
    else if c == "black" then "death"
    else if c == "gray" then "neutral"
    else if c == "gold" then "dragon"
    else colour
  }

  /** Spellings of a colour that differ only in case give the same element. */
  lemma ConvertToTypeIgnoresCase(a: string, b: string)
    requires EqualsIgnoreCase(a, b) && ToLower(a) in ColourElements
    ensures ConvertToType(a) == ConvertToType(b)
  {
  }

  /** Lower-case folding keeps a string of lower-case letters as it is. */
  lemma LowerCaseKept(s: string)
    requires forall i :: 0 <= i < |s| ==> 'a' <= s[i] <= 'z'
    ensures ToLower(s) == s
  {
    assert forall i :: 0 <= i < |s| ==> ToLower(s)[i] == s[i];
  }

  /** No element name folds to a colour. */
  lemma ElementIsNotColour(c: string)
    requires c in ColourElements
    ensures ToLower(ColourElements[c]) !in ColourElements
  {
    var e := ColourElements[c];
    assert e !in ColourElements;
    assert ToLower(e) == e by {
      if c == "red" { assert e == "fire"; LowerCaseKept(e); }
      else if c == "blue" { assert e == "water"; LowerCaseKept(e); }
      else if c == "green" { assert e == "earth"; LowerCaseKept(e); }
      else if c == "white" { assert e == "life"; LowerCaseKept(e); }
      else if c == "black" { assert e == "death"; LowerCaseKept(e); }
      else if c == "gray" { assert e == "neutral"; LowerCaseKept(e); }
      else { assert e == "dragon"; LowerCaseKept(e); }
    }
  }

  /** An element name is not itself a colour, so converting twice changes nothing more. */
  lemma {:induction false} ConvertToTypeIdempotent(colour: string)
    ensures ConvertToType(ConvertToType(colour)) == ConvertToType(colour)
  {
    var r := ConvertToType(colour);
    if ToLower(colour) in ColourElements {
      ElementIsNotColour(ToLower(colour));
    }
  }
}
