/**
 * src/stores/cart.ts: the front end's cart, two lists edited in place: the
 * cards picked for delegation and the players to delegate to. Restoring the
 * lists from, and saving them to, browser storage is not part of this model:
 * the restored lists are the constructor's arguments.
 */
module Cart {
  import opened Wrappers
  import opened Levels
  import opened Splinterlands

  /** An entry of `cards` (the store's DelegationCard type); `id` is None when `card_detail_id` was absent. */
  datatype StoredCard = StoredCard(id: Option<int>, name: string, rarity: int, level: int, gold: bool)

  /** `card.card_detail_id ?? card.id`. */
  function CardKey(cardDetailId: Option<int>, id: Option<int>): Option<int>
  {
    if cardDetailId.Some? then cardDetailId else id
  }

  /** The match the store's searches use: same id, same foil, same level. */
  predicate Matches(x: StoredCard, key: Option<int>, gold: bool, level: int)
  {
    x.id == key && x.gold == gold && x.level == level
  }

  /** `cards.findIndex(x => matches)`: the least matching index, or -1. */
  function CardIndex(cards: seq<StoredCard>, key: Option<int>, gold: bool, level: int): (r: int)
    ensures -1 <= r < |cards|
    ensures r == -1 <==> forall k :: 0 <= k < |cards| ==> !Matches(cards[k], key, gold, level)
    ensures 0 <= r ==> Matches(cards[r], key, gold, level) &&
                       forall j :: 0 <= j < r ==> !Matches(cards[j], key, gold, level)
  {
    if cards == [] then -1
    else if Matches(cards[0], key, gold, level) then 0
    else
      var r := CardIndex(cards[1..], key, gold, level);
      if r == -1 then -1 else r + 1
  }

  /** `cards.find(x => matches)`: the first matching entry. */
  function FirstCard(cards: seq<StoredCard>, key: Option<int>, gold: bool, level: int): (r: Option<StoredCard>)
    ensures r.None? <==> forall k :: 0 <= k < |cards| ==> !Matches(cards[k], key, gold, level)
    ensures r.Some? ==> r.value in cards && Matches(r.value, key, gold, level)
  {
    if cards == [] then None
    else if Matches(cards[0], key, gold, level) then Some(cards[0])
    else FirstCard(cards[1..], key, gold, level)
  }

  /** `find` and `findIndex` with the same key pick the same entry. */
  lemma {:induction false} FirstCardAtCardIndex(cards: seq<StoredCard>, key: Option<int>, gold: bool, level: int)
    ensures var i := CardIndex(cards, key, gold, level);
            FirstCard(cards, key, gold, level) == if i == -1 then None else Some(cards[i])
  {
    if cards != [] && !Matches(cards[0], key, gold, level) {
      FirstCardAtCardIndex(cards[1..], key, gold, level);
    }
  }

  /** `players.findIndex(x => x == name)`: the least index holding `name`, or -1. */
  function PlayerIndex(players: seq<string>, name: string): (r: int)
    ensures -1 <= r < |players|
    ensures r == -1 <==> name !in players
    ensures 0 <= r ==> players[r] == name && forall j :: 0 <= j < r ==> players[j] != name
  {
    if players == [] then -1
    else if players[0] == name then 0
    else
      var r := PlayerIndex(players[1..], name);
      if r == -1 then -1 else r + 1
  }

  /** `splice(i, 1)` for an index inside the list: element `i` removed, the rest in order. */
  function RemoveAt<T>(s: seq<T>, i: nat): (r: seq<T>)
    requires i < |s|
    ensures |r| == |s| - 1
    ensures forall j :: 0 <= j < i ==> r[j] == s[j]
    ensures forall j :: i <= j < |r| ==> r[j] == s[j + 1]
    ensures multiset(r) == multiset(s) - multiset{s[i]}
  {
    assert s == s[..i] + [s[i]] + s[i + 1..];
    s[..i] + s[i + 1..]
  }

  /**
   * `splice(index, 1)` on any index, as JavaScript defines it: a negative
   * index counts from the end (clamped at 0), an index at or past the end
   * removes nothing.
   */
  function SpliceOne<T>(s: seq<T>, index: int): (r: seq<T>)
    ensures 0 <= index < |s| ==> r == RemoveAt(s, index)
    ensures index >= |s| ==> r == s
    ensures index < 0 && |s| > 0 ==> r == RemoveAt(s, if |s| + index < 0 then 0 else |s| + index)
    ensures |s| == 0 ==> r == s
  {
    var start := if index < 0 then (if |s| + index < 0 then 0 else |s| + index) else index;
    if start < |s| then RemoveAt(s, start) else s
  }

  /** The players after `addPlayer(name)`. */
  function WithPlayer(players: seq<string>, name: string): (r: seq<string>)
    ensures name == "" || name in players ==> r == players
    ensures name != "" && name !in players ==> r == players + [name]
    ensures name != "" ==> name in r
    ensures forall p :: p in r <==> p in players || (p == name && name != "")
  {
    if name == "" || PlayerIndex(players, name) != -1 then players else players + [name]
  }

  /** The players after `deleteByPlayer(name)`. */
  function WithoutPlayer(players: seq<string>, name: string): (r: seq<string>)
    ensures name == "" || name !in players ==> r == players
    ensures name != "" && name in players ==> r == RemoveAt(players, PlayerIndex(players, name))
    ensures name != "" ==> multiset(r) == multiset(players) - multiset{name}
  {
    if name == "" then players
    else
      var index := PlayerIndex(players, name);
      if index == -1 then players else RemoveAt(players, index)
  }

  predicate Distinct<T(==)>(s: seq<T>)
  {
    forall i, j :: 0 <= i < j < |s| ==> s[i] != s[j]
  }

  /** addPlayer keeps the players free of duplicates. */
  lemma WithPlayerKeepsDistinct(players: seq<string>, name: string)
    requires Distinct(players)
    ensures Distinct(WithPlayer(players, name))
  {
  }

  /** On duplicate-free players, deleteByPlayer removes the name altogether and keeps everyone else. */
  lemma WithoutPlayerRemovesName(players: seq<string>, name: string)
    requires Distinct(players)
    ensures name != "" ==> name !in WithoutPlayer(players, name)
    ensures forall p :: p != name ==> (p in WithoutPlayer(players, name) <==> p in players)
    ensures Distinct(WithoutPlayer(players, name))
  {
    var r := WithoutPlayer(players, name);
    if name != "" && name in players {
      var i := PlayerIndex(players, name);
      assert forall j :: 0 <= j < |players| && j != i ==> players[j] != name;
      forall p | p != name
        ensures p in r <==> p in players
      {
        assert p in multiset(r) <==> p in multiset(players);
      }
    }
  }

  /** Adding a player that deleteByPlayer then removes leaves the players as they were. */
  lemma AddThenDeletePlayer(players: seq<string>, name: string)
    requires name != "" && name !in players
    ensures WithoutPlayer(WithPlayer(players, name), name) == players
  {
    var added := players + [name];
    assert PlayerIndex(added, name) == |players| by {
      assert forall j :: 0 <= j < |players| ==> added[j] != name;
    }
    assert RemoveAt(added, |players|) == players;
  }

  /**
   * Toggling a card in and out: once added under its catalogue id with the
   * level it is searched by, the next toggle finds it at the end and removes
   * it, which restores the list.
   */
  lemma ToggleRoundTrip(cards: seq<StoredCard>, key: int, name: string, rarity: int, level: int, gold: bool)
    requires CardIndex(cards, Some(key), gold, level) == -1
    ensures var added := cards + [StoredCard(Some(key), name, rarity, level, gold)];
            CardIndex(added, Some(key), gold, level) == |cards| && RemoveAt(added, |cards|) == cards
  {
    var x := StoredCard(Some(key), name, rarity, level, gold);
    CardIndexAppended(cards, x, Some(key), gold, level);
    RemoveLast(cards, x);
  }

  /** An entry appended to a list without a match is found at the end. */
  lemma CardIndexAppended(cards: seq<StoredCard>, x: StoredCard, key: Option<int>, gold: bool, level: int)
    requires CardIndex(cards, key, gold, level) == -1 && Matches(x, key, gold, level)
    ensures CardIndex(cards + [x], key, gold, level) == |cards|
  {
    var added := cards + [x];
    assert added[|cards|] == x;
    assert forall j :: 0 <= j < |cards| ==> added[j] == cards[j];
  }

  /** Removing the element just appended restores the list. */
  lemma RemoveLast<T>(s: seq<T>, x: T)
    ensures RemoveAt(s + [x], |s|) == s
  {
    assert (s + [x])[..|s|] == s;
  }

  /**
   * The entry addOrDeleteCard adds carries the computed level, while the
   * search uses the card's own `level`: when the two differ, the next toggle
   * does not find the entry and adds another one.
   */
  lemma ToggleMissesOtherLevel(cards: seq<StoredCard>, key: Option<int>, name: string, rarity: int,
                               storedLevel: int, level: int, gold: bool)
    requires CardIndex(cards, key, gold, level) == -1
    requires storedLevel != level
    ensures CardIndex(cards + [StoredCard(key, name, rarity, storedLevel, gold)], key, gold, level) == -1
  {
    var added := cards + [StoredCard(key, name, rarity, storedLevel, gold)];
    assert forall j :: 0 <= j < |cards| ==> added[j] == cards[j];
  }

  /** The store: the picked cards and the players, both restored from browser storage. */
  class CartStore {
    var cards: seq<StoredCard>
    var players: seq<string>

    constructor (cards: seq<StoredCard>, players: seq<string>)
      ensures this.cards == cards && this.players == players
    {
      this.cards, this.players := cards, players;
    }

    /** `addCard(item)`: a missing item is ignored, otherwise it is appended. */
    method AddCard(item: Option<StoredCard>)
      modifies this
      ensures cards == if item.None? then old(cards) else old(cards) + [item.value]
      ensures players == old(players)
    {
      if item.None? {
        return;
      }
      cards := cards + [item.value];
    }

    /**
     * `addOrDeleteCard(card, details)`: remove the matching entry if there is
     * one, else add an entry for the card with the level convertCardLevel
     * computes from the built-in tables (which also rewrites a non-numeric
     * `card.xp`). Adding reads the rarity's row, so the rarity must be 1..4.
     */
    method AddOrDeleteCard(card: CollectionCard, details: CardInfo)
      requires CardIndex(cards, CardKey(card.cardDetailId, card.id), card.gold, card.level) == -1 ==>
                 1 <= details.rarity <= 4
      modifies this, card
      ensures card.cardDetailId == old(card.cardDetailId) && card.id == old(card.id)
      ensures card.edition == old(card.edition) && card.gold == old(card.gold) && card.level == old(card.level)
      ensures players == old(players)
      ensures var index := CardIndex(old(cards), CardKey(card.cardDetailId, card.id), card.gold, card.level);
              index != -1 ==> cards == RemoveAt(old(cards), index) && card.xp == old(card.xp)
      ensures var index := CardIndex(old(cards), CardKey(card.cardDetailId, card.id), card.gold, card.level);
              index == -1 ==>
                && HasRow(DefaultSettings, card.edition, details.tier, card.gold, details.rarity)
                && card.xp == Some(TsNormalizedXp(old(card.xp), card.edition, details.tier))
                && cards == old(cards) + [StoredCard(card.cardDetailId, details.name, details.rarity,
                                                     TsCardLevel(None, card.edition, card.gold, old(card.xp), details),
                                                     card.gold)]
    {
      var index := FindIndexByCard(card);
      if index == -1 {
        DefaultConversionDefined(card.edition, card.gold, card.xp, details);
        var level := ConvertCardLevel(None, card, details);
        AddCard(Some(StoredCard(card.cardDetailId, details.name, details.rarity, level, card.gold)));
        return;
      }
      DeleteByCard(card);
    }

    /** `addPlayer(name)`: an empty name or one already present is ignored, otherwise it is appended. */
    method AddPlayer(name: string)
      modifies this
      ensures players == WithPlayer(old(players), name)
      ensures cards == old(cards)
    {
      if name == "" {
        return;
      }
      var index := PlayerIndex(players, name);
      if index != -1 {
        return;
      }
      players := players + [name];
    }

    /** `deleteCard(index)`: -1 is ignored, any other index is spliced out. */
    method DeleteCard(index: int)
      modifies this
      ensures cards == if index == -1 then old(cards) else SpliceOne(old(cards), index)
      ensures players == old(players)
    {
      if index == -1 {
        return;
      }
      cards := SpliceOne(cards, index);
    }

    /** `deleteByCard(card)`: remove the first entry matching the card, if any. */
    method DeleteByCard(card: CollectionCard)
      modifies this
      ensures var index := CardIndex(old(cards), CardKey(card.cardDetailId, card.id), card.gold, card.level);
              cards == if index == -1 then old(cards) else RemoveAt(old(cards), index)
      ensures players == old(players)
    {
      var index := FindIndexByCard(card);
      DeleteCard(index);
    }

    /** `deleteByPlayer(name)`: remove the first occurrence of the name, if any. */
    method DeleteByPlayer(name: string)
      modifies this
      ensures players == WithoutPlayer(old(players), name)
      ensures cards == old(cards)
    {
      if name == "" {
        return;
      }
      var index := PlayerIndex(players, name);
      if index == -1 {
        return;
      }
      players := RemoveAt(players, index);
    }

    /** `findByCard(card)`: searches by `card_detail_id` alone, without falling back to `id`. */
    function FindByCard(card: CollectionCard): (r: Option<StoredCard>)
      reads this, card
      ensures r.None? <==> forall k :: 0 <= k < |cards| ==> !Matches(cards[k], card.cardDetailId, card.gold, card.level)
      ensures r.Some? ==> r.value in cards && Matches(r.value, card.cardDetailId, card.gold, card.level)
      ensures r.Some? ==> exists k :: 0 <= k < |cards| && cards[k] == r.value &&
                            forall l :: 0 <= l < k ==> !Matches(cards[l], card.cardDetailId, card.gold, card.level)
    {
      FirstCardAtCardIndex(cards, card.cardDetailId, card.gold, card.level);
      FirstCard(cards, card.cardDetailId, card.gold, card.level)
    }

    /** `findIndexByCard(card)`: searches by `card_detail_id`, falling back to `id`. */
    function FindIndexByCard(card: CollectionCard): (r: int)
      reads this, card
      ensures -1 <= r < |cards|
      ensures r == -1 <==> forall k :: 0 <= k < |cards| ==>
                             !Matches(cards[k], CardKey(card.cardDetailId, card.id), card.gold, card.level)
      ensures 0 <= r ==> Matches(cards[r], CardKey(card.cardDetailId, card.id), card.gold, card.level)
      ensures forall k :: 0 <= k < r ==> !Matches(cards[k], CardKey(card.cardDetailId, card.id), card.gold, card.level)
    {
      CardIndex(cards, CardKey(card.cardDetailId, card.id), card.gold, card.level)
    }

    /** `playerExists(name)`. */
    function PlayerExists(name: string): (r: bool)
      reads this
      ensures r <==> name in players
    {
      PlayerIndex(players, name) != -1
    }

    function GetCardsCount(): nat
      reads this
    {
      |cards|
    }

    function GetPlayersCount(): nat
      reads this
    {
      |players|
    }

    function GetCards(): seq<StoredCard>
      reads this
    {
      cards
    }

    function GetPlayers(): seq<string>
      reads this
    {
      players
    }
  }

  /** The getters: the counts are the lengths of the lists they return. */
  lemma CountsAreLengths(store: CartStore)
    ensures store.GetCardsCount() == |store.GetCards()| && store.GetCards() == store.cards
    ensures store.GetPlayersCount() == |store.GetPlayers()| && store.GetPlayers() == store.players
  {
  }

  /**
   * For a card with a `card_detail_id`, findByCard returns the entry at the
   * index findIndexByCard reports.
   */
  lemma FindByCardAtFindIndex(store: CartStore, card: CollectionCard)
    requires card.cardDetailId.Some?
    ensures var i := store.FindIndexByCard(card);
            store.FindByCard(card) == if i == -1 then None else Some(store.cards[i])
  {
    FirstCardAtCardIndex(store.cards, card.cardDetailId, card.gold, card.level);
  }
}
