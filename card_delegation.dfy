/**
 * CardDelegationService.cs: hand out the controller's cards to the configured
 * players. One FIFO queue of eligible controller cards is built per requested
 * card; players are then visited in order, each receiving at most one card per
 * queue, in one transaction, guarded by a per-batch-size resource-credit cost
 * remembered from the first transaction of that size.
 *
 * Every remote answer (collections, transaction results, resource-credit
 * readings) is an input; the key-format check is the parameter `isValidWif`.
 */
module CardDelegation {
  import opened Wrappers
  import opened Connectors
  import opened Models

  // ---------------------------------------------------------------------------
  // Matching a card instance against a requested card
  // ---------------------------------------------------------------------------

  /** `CompareBxc`: does the instance have the requested BCX? A null Bcx matches nothing. */
  predicate CompareBxc(left: CardDetails, right: DelegationCard)
  {
    var alphaXp := left.alphaXp.GetOr(0);
    if right.bcx == Some(1) then alphaXp == 1 || left.xp == 0 || left.xp == 1
    else right.bcx.Some? && (left.xp == right.bcx.value || alphaXp == right.bcx.value)
  }

  /**
   * CompareBxc in one formula: the requested BCX equals the experience or the
   * alpha experience (absent counts as 0), and an experience of 0 stands for
   * a BCX of 1.
   */
  lemma CompareBxcMeaning(left: CardDetails, right: DelegationCard)
    ensures CompareBxc(left, right) <==>
              exists b :: right.bcx == Some(b) &&
                (left.xp == b || left.alphaXp.GetOr(0) == b || (b == 1 && left.xp == 0))
  {
    if CompareBxc(left, right) {
      var b := right.bcx.value;
      assert right.bcx == Some(b);
    }
  }

  /** The filter that selects the controller's cards for a request (CardDelegationService.cs:81-88). */
  predicate Eligible(x: CardDetails, card: DelegationCard)
  {
    x.cardDetailId == card.id && x.gold == card.gold &&
    !x.isForSale && !x.isForRent && !x.isDelegated &&
    CompareBxc(x, card)
  }

  /** `collection.Cards.Where(x => Eligible(x, card)).ToList()`. */
  function Filter(collection: seq<CardDetails>, card: DelegationCard): (r: seq<CardDetails>)
    ensures |r| <= |collection|
    ensures forall x :: x in r <==> x in collection && Eligible(x, card)
  {
    if collection == [] then []
    else (if Eligible(collection[0], card) then [collection[0]] else []) + Filter(collection[1..], card)
  }

  /** Filter keeps the collection's order: filtering a concatenation concatenates the filtered parts. */
  lemma {:induction false} FilterAppend(a: seq<CardDetails>, b: seq<CardDetails>, card: DelegationCard)
    ensures Filter(a + b, card) == Filter(a, card) + Filter(b, card)
  {
    if a == [] {
      assert a + b == b;
    } else {
      assert (a + b)[0] == a[0];
      assert (a + b)[1..] == a[1..] + b;
      FilterAppend(a[1..], b, card);
    }
  }

  /**
   * The holding test of CardDelegationService.cs:122: the player already has
   * a card of this id, gold flag and BCX whose `Player` is the controller.
   */
  predicate HoldsFromController(holdings: seq<CardDetails>, card: DelegationCard, controller: string)
  {
    exists x :: x in holdings && x.cardDetailId == card.id && x.gold == card.gold &&
                CompareBxc(x, card) && x.player == controller
  }

  // ---------------------------------------------------------------------------
  // The queues
  // ---------------------------------------------------------------------------

  /**
   * The queue of `delegationDict` for the request at position `index` of the
   * configured cards; `cards` is its content, head first.
   */
  datatype SpecQueue = SpecQueue(index: nat, spec: DelegationCard, cards: seq<CardDetails>)

  /** The queues built from the controller's collection, in request order. */
  function QueuesFor(specs: seq<DelegationCard>, collection: seq<CardDetails>): (qs: seq<SpecQueue>)
    ensures |qs| <= |specs|
    ensures forall k :: 0 <= k < |qs| ==>
              qs[k].index < |specs| && qs[k].spec == specs[qs[k].index] &&
              qs[k].cards == Filter(collection, qs[k].spec) && qs[k].cards != []
    ensures forall k, l :: 0 <= k < l < |qs| ==> qs[k].index < qs[l].index
    decreases |specs|
  {
    if specs == [] then []
    else
      var n := |specs| - 1;
      var qs := QueuesFor(specs[..n], collection);
      var items := Filter(collection, specs[n]);
      assert forall i :: 0 <= i < n ==> specs[..n][i] == specs[i];
      if items != [] then
        var r := qs + [SpecQueue(n, specs[n], items)];
        assert forall k :: 0 <= k < |qs| ==> r[k] == qs[k];
        assert r[|qs|].index == n;
        r
      else qs
  }

  /** A request gets a queue exactly when some card of the collection is eligible for it. */
  lemma {:induction false} QueueIffEligible(specs: seq<DelegationCard>, collection: seq<CardDetails>, i: nat)
    requires i < |specs|
    ensures var qs := QueuesFor(specs, collection);
            Filter(collection, specs[i]) != [] <==> exists k :: 0 <= k < |qs| && qs[k].index == i
  {
    var n := |specs| - 1;
    var qs := QueuesFor(specs, collection);
    var init := QueuesFor(specs[..n], collection);
    var items := Filter(collection, specs[n]);
    if i == n {
      if items == [] {
        assert qs == init;
      } else {
        assert qs[|init|].index == n;
      }
    } else {
      QueueIffEligible(specs[..n], collection, i);
      assert specs[..n][i] == specs[i];
      assert forall k :: 0 <= k < |init| ==> qs[k] == init[k];
      if exists k :: 0 <= k < |qs| && qs[k].index == i {
        var k :| 0 <= k < |qs| && qs[k].index == i;
        assert k < |init|;
      }
    }
  }

  /** Building the queues: CardDelegationService.cs:79-101. */
  method BuildQueues(specs: seq<DelegationCard>, collection: seq<CardDetails>) returns (queues: seq<SpecQueue>)
    ensures queues == QueuesFor(specs, collection)
  {
    queues := [];
    var i := 0;
    while i < |specs|
      invariant 0 <= i <= |specs|
      invariant queues == QueuesFor(specs[..i], collection)
    {
      var card := specs[i];
      var items := Filter(collection, card);
      assert specs[..i + 1][..i] == specs[..i];
      if |items| > 0 {
        queues := queues + [SpecQueue(i, card, items)];
      }
      i := i + 1;
    }
    assert specs[..|specs|] == specs;
  }

  /**
   * Two equal requests both get a queue of the same cards: the code does not
   * keep a card out of a second queue, so one instance can be queued twice.
   */
  lemma EqualRequestsShareCards(card: DelegationCard, collection: seq<CardDetails>)
    requires Filter(collection, card) != []
    ensures var qs := QueuesFor([card, card], collection);
            |qs| == 2 && qs[0].cards == qs[1].cards
  {
    assert [card, card][..1] == [card];
    assert [card][..0] == [];
  }

  /** All queued cards, queue by queue. */
  function AllCards(qs: seq<SpecQueue>): seq<CardDetails>
  {
    if qs == [] then [] else AllCards(qs[..|qs| - 1]) + qs[|qs| - 1].cards
  }

  // ---------------------------------------------------------------------------
  // One player's batch
  // ---------------------------------------------------------------------------

  /** The card a queue contributes to this player's batch, if any. */
  function Take(q: SpecQueue, holdings: seq<CardDetails>, controller: string): Option<CardDetails>
  {
    if HoldsFromController(holdings, q.spec, controller) || q.cards == [] then None
    else Some(q.cards[0])
  }

  /** The queue after this player's turn: its head is gone exactly when it was taken. */
  function Advance(q: SpecQueue, holdings: seq<CardDetails>, controller: string): SpecQueue
  {
    if Take(q, holdings, controller).Some? then q.(cards := q.cards[1..]) else q
  }

  function AdvanceAll(qs: seq<SpecQueue>, holdings: seq<CardDetails>, controller: string): (r: seq<SpecQueue>)
    ensures |r| == |qs|
    ensures forall k :: 0 <= k < |qs| ==> r[k] == Advance(qs[k], holdings, controller)
  {
    seq(|qs|, k requires 0 <= k < |qs| => Advance(qs[k], holdings, controller))
  }

  /** `toDelegate`: the heads taken from the queues, in queue order. */
  function BatchOf(qs: seq<SpecQueue>, holdings: seq<CardDetails>, controller: string): (b: seq<CardDetails>)
    ensures |b| <= |qs|
  {
    if qs == [] then []
    else
      var n := |qs| - 1;
      var t := Take(qs[n], holdings, controller);
      var b := BatchOf(qs[..n], holdings, controller);
      assert forall k :: 0 <= k < n ==> qs[..n][k] == qs[k];
      if t.Some? then b + [t.value] else b
  }

  /** The positions of the queues that contribute to this player's batch, in queue order. */
  function TakenQueues(qs: seq<SpecQueue>, holdings: seq<CardDetails>, controller: string): seq<nat>
  {
    if qs == [] then []
    else
      var n := |qs| - 1;
      TakenQueues(qs[..n], holdings, controller) + (if Take(qs[n], holdings, controller).Some? then [n] else [])
  }

  /**
   * The batch, exactly: the m-th card is the head taken from the m-th
   * contributing queue; the contributing queues are listed in queue order,
   * each once, and they are all the queues that have a card to give (a
   * non-empty queue whose request the player does not hold).
   */
  lemma {:induction false} BatchOfListsTakes(qs: seq<SpecQueue>, holdings: seq<CardDetails>, controller: string)
    ensures var b, ks := BatchOf(qs, holdings, controller), TakenQueues(qs, holdings, controller);
            && |b| == |ks|
            && (forall m :: 0 <= m < |ks| ==> ks[m] < |qs| && Take(qs[ks[m]], holdings, controller) == Some(b[m]))
            && (forall m, l :: 0 <= m < l < |ks| ==> ks[m] < ks[l])
            && (forall k :: 0 <= k < |qs| ==> (Take(qs[k], holdings, controller).Some? <==> k in ks))
  {
    if qs != [] {
      var n := |qs| - 1;
      var init := qs[..n];
      BatchOfListsTakes(init, holdings, controller);
      assert forall k :: 0 <= k < n ==> init[k] == qs[k];
      var b0, ks0 := BatchOf(init, holdings, controller), TakenQueues(init, holdings, controller);
      var t := Take(qs[n], holdings, controller);
      var b, ks := BatchOf(qs, holdings, controller), TakenQueues(qs, holdings, controller);
      if t.Some? {
        assert b == b0 + [t.value] && ks == ks0 + [n];
      } else {
        assert b == b0 && ks == ks0;
      }
      forall k | 0 <= k < |qs|
        ensures Take(qs[k], holdings, controller).Some? <==> k in ks
      {
        if k < n {
          assert k in ks0 <==> k in ks;
        }
      }
    }
  }

  /** Every queue with a card for this player gives its head: the queue is non-empty and the player does not hold its request. */
  lemma BatchTakesEveryAvailableHead(qs: seq<SpecQueue>, holdings: seq<CardDetails>, controller: string, k: nat)
    requires k < |qs| && qs[k].cards != [] && !HoldsFromController(holdings, qs[k].spec, controller)
    ensures qs[k].cards[0] in BatchOf(qs, holdings, controller)
  {
    BatchOfListsTakes(qs, holdings, controller);
    var ks := TakenQueues(qs, holdings, controller);
    var m :| 0 <= m < |ks| && ks[m] == k;
    assert BatchOf(qs, holdings, controller)[m] == qs[k].cards[0];
  }

  /** Every card of a batch is what some queue contributes. */
  lemma {:induction false} BatchTakesFromQueues(qs: seq<SpecQueue>, holdings: seq<CardDetails>, controller: string, x: CardDetails)
    requires x in BatchOf(qs, holdings, controller)
    ensures exists k :: 0 <= k < |qs| && Take(qs[k], holdings, controller) == Some(x)
  {
    var n := |qs| - 1;
    var t := Take(qs[n], holdings, controller);
    if t == Some(x) {
    } else {
      assert x in BatchOf(qs[..n], holdings, controller);
      BatchTakesFromQueues(qs[..n], holdings, controller, x);
      var k :| 0 <= k < n && Take(qs[..n][k], holdings, controller) == Some(x);
      assert qs[..n][k] == qs[k];
    }
  }

  /**
   * A player's batch holds no card for a request the player already holds from
   * the controller, and takes only queue heads: every card of it is the head
   * of a queue whose request the player does not hold.
   */
  lemma BatchSkipsHeldRequests(qs: seq<SpecQueue>, holdings: seq<CardDetails>, controller: string, x: CardDetails)
    requires x in BatchOf(qs, holdings, controller)
    ensures exists k :: 0 <= k < |qs| && qs[k].cards != [] && qs[k].cards[0] == x &&
                        !HoldsFromController(holdings, qs[k].spec, controller)
  {
    BatchTakesFromQueues(qs, holdings, controller, x);
    var k :| 0 <= k < |qs| && Take(qs[k], holdings, controller) == Some(x);
  }

  /** Building a batch moves cards out of the queues and into the batch, losing and adding none. */
  lemma {:induction false} BatchConservesCards(qs: seq<SpecQueue>, holdings: seq<CardDetails>, controller: string)
    ensures multiset(AllCards(qs)) ==
            multiset(BatchOf(qs, holdings, controller)) + multiset(AllCards(AdvanceAll(qs, holdings, controller)))
  {
    if qs != [] {
      var n := |qs| - 1;
      var init, q := qs[..n], qs[n];
      var adv := AdvanceAll(qs, holdings, controller);
      var advInit := AdvanceAll(init, holdings, controller);
      assert adv[..n] == advInit;
      assert AllCards(adv) == AllCards(advInit) + Advance(q, holdings, controller).cards;
      assert AllCards(qs) == AllCards(init) + q.cards;
      BatchConservesCards(init, holdings, controller);
      BatchTakeConserves(q, holdings, controller);
    }
  }

  /** One queue's share of BatchConservesCards. */
  lemma BatchTakeConserves(q: SpecQueue, holdings: seq<CardDetails>, controller: string)
    ensures var t := Take(q, holdings, controller);
            multiset(q.cards) ==
            multiset(if t.Some? then [t.value] else []) + multiset(Advance(q, holdings, controller).cards)
  {
    if Take(q, holdings, controller).Some? {
      assert q.cards == [q.cards[0]] + q.cards[1..];
    }
  }

  /** Extending the visited queues by one adds at most that queue's head to the batch. */
  lemma BatchOfExtend(qs: seq<SpecQueue>, holdings: seq<CardDetails>, controller: string, k: nat)
    requires k < |qs|
    ensures var t := Take(qs[k], holdings, controller);
            BatchOf(qs[..k + 1], holdings, controller) ==
            BatchOf(qs[..k], holdings, controller) + (if t.Some? then [t.value] else [])
  {
    assert qs[..k + 1][..k] == qs[..k];
  }

  /** The inner loop of CardDelegationService.cs:120-137. */
  method BuildBatch(queues: seq<SpecQueue>, holdings: seq<CardDetails>, controller: string)
    returns (toDelegate: seq<CardDetails>, rest: seq<SpecQueue>)
    ensures toDelegate == BatchOf(queues, holdings, controller)
    ensures rest == AdvanceAll(queues, holdings, controller)
  {
    toDelegate := [];
    rest := queues;
    var k := 0;
    while k < |queues|
      invariant 0 <= k <= |queues|
      invariant toDelegate == BatchOf(queues[..k], holdings, controller)
      invariant |rest| == |queues|
      invariant forall j :: 0 <= j < k ==> rest[j] == Advance(queues[j], holdings, controller)
      invariant forall j :: k <= j < |queues| ==> rest[j] == queues[j]
    {
      BatchOfExtend(queues, holdings, controller, k);
      var q := rest[k];
      var contains := HoldsFromController(holdings, q.spec, controller);
      if contains {
        assert Take(q, holdings, controller).None?;
        k := k + 1;
        continue;
      }
      if |q.cards| == 0 {
        assert Take(q, holdings, controller).None?;
        k := k + 1;
        continue;
      }
      var card := q.cards[0];
      assert Take(q, holdings, controller) == Some(card);
      rest := rest[k := q.(cards := q.cards[1..])];
      toDelegate := toDelegate + [card];
      k := k + 1;
    }
    assert queues[..|queues|] == queues;
    assert rest == AdvanceAll(queues, holdings, controller);
  }

  // ---------------------------------------------------------------------------
  // The player loop
  // ---------------------------------------------------------------------------

  /**
   * The two resource-credit readings taken after the first transaction of a
   * batch size: `previous` from the account read before it, `refreshed` from
   * the account fetched again (None when `find_rc_accounts` gives null).
   */
  datatype RcProbe = RcProbe(previous: int, refreshed: Option<int>)

  /** What the remote side answers for one player. */
  datatype PlayerInput = PlayerInput(collection: Option<seq<CardDetails>>, tx: TxOutcome, probe: RcProbe)

  /** One `DelegateCards` call: the player (with its position in the list) and the cards sent. */
  datatype Delegated = Delegated(playerIndex: nat, player: string, cards: seq<CardDetails>)

  /**
   * The loop's state: the queues, `rcDict`, `initialRc`, whether `hiveAccount`
   * is non-null, the transactions issued so far, and every card dequeued so far.
   */
  datatype RunState = RunState(
    queues: seq<SpecQueue>,
    rcCache: map<int, int>,
    rc: int,
    hiveAccount: bool,
    delegations: seq<Delegated>,
    dequeued: seq<CardDetails>)

  datatype StepResult = Next(state: RunState) | Abort(state: RunState)

  function Abs(x: int): nat
  {
    if x < 0 then -x else x
  }

  /**
   * The try block after `DelegateCards` returned or threw (CardDelegationService.cs:154-186).
   * A thrown exception, or a null hive account at either reading, ends the
   * block with nothing further changed.
   */
  function AfterSubmit(s: RunState, n: int, tx: TxOutcome, probe: RcProbe): RunState
  {
    if tx.Threw? then s
    else if n in s.rcCache then
      (if tx.id != "" then s.(rc := s.rc - s.rcCache[n]) else s)
    else if !s.hiveAccount then s
    else match probe.refreshed
      case None => s.(hiveAccount := false)
      case Some(mana) =>
        var cost := Abs(mana - probe.previous);
        var s1 := s.(rcCache := if cost > 0 then s.rcCache[n := cost] else s.rcCache);
        if tx.id != "" then s1.(rc := s.rc - cost) else s1
  }

  /** One iteration of the player loop (CardDelegationService.cs:109-193). */
  function PlayerStep(s: RunState, controller: string, i: nat, player: string, input: PlayerInput): StepResult
  {
    match input.collection
    case None => Next(s)
    case Some(holdings) =>
      var batch := BatchOf(s.queues, holdings, controller);
      var s1 := s.(queues := AdvanceAll(s.queues, holdings, controller), dequeued := s.dequeued + batch);
      if batch == [] then Next(s1)
      else
        var n := |batch|;
        if n in s.rcCache && s.rc - s.rcCache[n] < 0 then Abort(s1)
        else Next(AfterSubmit(s1.(delegations := s1.delegations + [Delegated(i, player, batch)]), n, input.tx, input.probe))
  }

  /** How a run ends. */
  datatype CardRun =
    | InvalidPostingKey
    | HiveAccountMissing
    | CollectionMissing
    | NothingToDelegate
    | Finished(state: RunState)
    | Aborted(state: RunState, player: nat)

  /** The player loop from player `i` on. */
  function RunLoop(s: RunState, controller: string, players: seq<string>, inputs: seq<PlayerInput>, i: nat): (r: CardRun)
    requires |inputs| == |players| && i <= |players|
    ensures r.Finished? || r.Aborted?
    ensures r.Aborted? ==> i <= r.player < |players|
    decreases |players| - i
  {
    if i == |players| then Finished(s)
    else match PlayerStep(s, controller, i, players[i], inputs[i])
      case Abort(s1) => Aborted(s1, i)
      case Next(s1) => RunLoop(s1, controller, players, inputs, i + 1)
  }

  function InitialState(queues: seq<SpecQueue>, rc: int): RunState
  {
    RunState(queues, map[], rc, true, [], [])
  }

  /**
   * `Run`, from the posting-key check to the end of the player loop. A null
   * controller collection makes the queue building throw, unless no card is
   * requested.
   */
  function CardRunSpec(controller: string, postingKey: string, isValidWif: string -> bool, delegation: Delegation,
                       collection: Option<seq<CardDetails>>, currentMana: Option<int>,
                       inputs: seq<PlayerInput>): CardRun
    requires |inputs| == |delegation.players|
  {
    if !isValidWif(postingKey) then InvalidPostingKey
    else if currentMana.None? then HiveAccountMissing
    else if collection.None? && delegation.cards != [] then CollectionMissing
    else
      var queues := QueuesFor(delegation.cards, collection.GetOr([]));
      if queues == [] then NothingToDelegate
      else RunLoop(InitialState(queues, currentMana.value), controller, delegation.players, inputs, 0)
  }

  /**
   * The try block of CardDelegationService.cs:146-186 once `DelegateCards`
   * has been called for a batch of `n` cards: learn the cost of a new batch
   * size, then charge the cost if the transaction id is non-empty.
   */
  method SubmitBatch(st: RunState, n: int, result: TxOutcome, probe: RcProbe) returns (next: RunState)
    ensures next == AfterSubmit(st, n, result, probe)
  {
    next := st;
    if result.Threw? {
      return;
    }
    var cost: Option<int> := if n in st.rcCache then Some(st.rcCache[n]) else None;
    if n !in st.rcCache {
      if !st.hiveAccount {
        return;
      }
      var previous := probe.previous;
      next := next.(hiveAccount := probe.refreshed.Some?);
      if probe.refreshed.None? {
        return;
      }
      var spent := Abs(probe.refreshed.value - previous);
      cost := Some(spent);
      if spent > 0 {
        next := next.(rcCache := next.rcCache[n := spent]);
      }
    }
    if result.id != "" {
      next := next.(rc := next.rc - cost.value);
    }
  }

  /** The body of the player loop: CardDelegationService.cs:111-192. */
  method VisitPlayer(st: RunState, controller: string, i: nat, player: string, input: PlayerInput)
    returns (step: StepResult)
    ensures step == PlayerStep(st, controller, i, player, input)
  {
    var c := input.collection;
    if c.None? {
      return Next(st);
    }
    var toDelegate, rest := BuildBatch(st.queues, c.value, controller);
    var next := st.(queues := rest, dequeued := st.dequeued + toDelegate);
    if |toDelegate| == 0 {
      return Next(next);
    }
    var n := |toDelegate|;
    if n in st.rcCache && st.rc - st.rcCache[n] < 0 {
      return Abort(next);
    }
    next := next.(delegations := next.delegations + [Delegated(i, player, toDelegate)]);
    next := SubmitBatch(next, n, input.tx, input.probe);
    return Next(next);
  }

  /** `CardDelegationService.Run` with the remote answers as inputs. */
  method Run(controller: string, postingKey: string, isValidWif: string -> bool, delegation: Delegation,
             collection: Option<seq<CardDetails>>, currentMana: Option<int>, inputs: seq<PlayerInput>)
    returns (r: CardRun)
    requires |inputs| == |delegation.players|
    ensures r == CardRunSpec(controller, postingKey, isValidWif, delegation, collection, currentMana, inputs)
  {
    if !isValidWif(postingKey) {
      return InvalidPostingKey;
    }
    if currentMana.None? {
      return HiveAccountMissing;
    }
    var initialRc := currentMana.value;
    if collection.None? && |delegation.cards| > 0 {
      return CollectionMissing;
    }

    var queues := BuildQueues(delegation.cards, collection.GetOr([]));
    if |queues| == 0 {
      return NothingToDelegate;
    }

    var players := delegation.players;
    var st := InitialState(queues, initialRc);
    ghost var start := st;

    var i := 0;
    while i < |players|
      invariant 0 <= i <= |players|
      invariant RunLoop(start, controller, players, inputs, 0) == RunLoop(st, controller, players, inputs, i)
    {
      var step := VisitPlayer(st, controller, i, players[i], inputs[i]);
      if step.Abort? {
        return Aborted(step.state, i);
      }
      st := step.state;
      i := i + 1;
    }
    return Finished(st);
  }

  // ---------------------------------------------------------------------------
  // Properties of a run
  // ---------------------------------------------------------------------------

  /** The transactions a run issued, in order. */
  function Delegations(r: CardRun): seq<Delegated>
  {
    if r.Finished? || r.Aborted? then r.state.delegations else []
  }

  /** All cards sent by a list of transactions. */
  function Flatten(ds: seq<Delegated>): seq<CardDetails>
  {
    if ds == [] then [] else Flatten(ds[..|ds| - 1]) + ds[|ds| - 1].cards
  }

  predicate IsSuffix(a: seq<CardDetails>, b: seq<CardDetails>)
  {
    |a| <= |b| && b[|b| - |a|..] == a
  }

  /** No card occurs twice in a list of cards (as multiset counts). */
  ghost predicate DistinctCards(s: seq<CardDetails>)
  {
    forall x :: multiset(s)[x] <= 1
  }

  /**
   * When no requested card has an eligible controller card, the run stops
   * before the player loop: no collection is fetched and nothing is sent.
   */
  lemma NoEligibleCardsNoDelegation(controller: string, postingKey: string, isValidWif: string -> bool,
                                    delegation: Delegation, collection: Option<seq<CardDetails>>,
                                    currentMana: Option<int>, inputs: seq<PlayerInput>)
    requires |inputs| == |delegation.players|
    requires forall i :: 0 <= i < |delegation.cards| ==> Filter(collection.GetOr([]), delegation.cards[i]) == []
    ensures var r := CardRunSpec(controller, postingKey, isValidWif, delegation, collection, currentMana, inputs);
            !r.Finished? && !r.Aborted? && Delegations(r) == []
  {
  }

  /** A player whose collection could not be fetched is skipped: the state does not change. */
  lemma NullCollectionSkipsPlayer(s: RunState, controller: string, i: nat, player: string, input: PlayerInput)
    requires input.collection.None?
    ensures PlayerStep(s, controller, i, player, input) == Next(s)
  {
  }

  /**
   * The loop breaks exactly when the batch is non-empty, its size has a cached
   * cost and the credits left minus that cost are negative; a break sends nothing.
   */
  lemma StepAbortCondition(s: RunState, controller: string, i: nat, player: string, input: PlayerInput)
    ensures var step := PlayerStep(s, controller, i, player, input);
            step.Abort? <==>
              input.collection.Some? &&
              var b := BatchOf(s.queues, input.collection.value, controller);
              b != [] && |b| in s.rcCache && s.rc - s.rcCache[|b|] < 0
    ensures var step := PlayerStep(s, controller, i, player, input);
            step.Abort? ==> step.state.delegations == s.delegations
  {
  }

  /**
   * The resource-credit accounting of one player: cached costs are never
   * changed or dropped; a new cost is cached only for this batch size, only
   * when positive, and only when its transaction was sent; the credits change
   * only for a non-empty transaction id, and then by exactly the cost.
   */
  lemma StepCacheAndCredits(s: RunState, controller: string, i: nat, player: string, input: PlayerInput)
    ensures var t := PlayerStep(s, controller, i, player, input).state;
            forall n :: n in s.rcCache ==> n in t.rcCache && t.rcCache[n] == s.rcCache[n]
    ensures var t := PlayerStep(s, controller, i, player, input).state;
            forall n :: n in t.rcCache && n !in s.rcCache ==>
              && input.collection.Some? && input.tx.Returned? && input.probe.refreshed.Some?
              && n == |BatchOf(s.queues, input.collection.value, controller)|
              && |t.delegations| == |s.delegations| + 1
              && t.rcCache[n] == Abs(input.probe.refreshed.value - input.probe.previous) > 0
    ensures var t := PlayerStep(s, controller, i, player, input).state;
            CachePositive(s) ==> t.rc <= s.rc
    ensures var t := PlayerStep(s, controller, i, player, input).state;
            t.rc != s.rc ==>
              && input.collection.Some? && input.tx.Returned? && input.tx.id != ""
              && |t.delegations| == |s.delegations| + 1
              && var n := |BatchOf(s.queues, input.collection.value, controller)|;
                 if n in s.rcCache then t.rc == s.rc - s.rcCache[n] && t.rc >= 0
                 else t.rc == s.rc - Abs(input.probe.refreshed.value - input.probe.previous)
  {
  }

  /**
   * The converse of StepCacheAndCredits: the first sent transaction of an
   * uncached batch size caches its measured cost when that is positive, and
   * a non-empty transaction id lowers the credits by the cached cost, or by
   * the measured cost for a size not cached yet.
   */
  lemma StepCachesAndCharges(s: RunState, controller: string, i: nat, player: string, input: PlayerInput)
    ensures var t := PlayerStep(s, controller, i, player, input).state;
            input.collection.Some? ==>
            var n := |BatchOf(s.queues, input.collection.value, controller)|;
            && (n > 0 && n !in s.rcCache && s.hiveAccount && input.tx.Returned? && input.probe.refreshed.Some? &&
                Abs(input.probe.refreshed.value - input.probe.previous) > 0 ==>
                  n in t.rcCache && t.rcCache[n] == Abs(input.probe.refreshed.value - input.probe.previous))
            && (n > 0 && n in s.rcCache && s.rc - s.rcCache[n] >= 0 && input.tx.Returned? && input.tx.id != "" ==>
                  t.rc == s.rc - s.rcCache[n])
            && (n > 0 && n !in s.rcCache && s.hiveAccount && input.tx.Returned? && input.tx.id != "" &&
                input.probe.refreshed.Some? ==>
                  t.rc == s.rc - Abs(input.probe.refreshed.value - input.probe.previous))
  {
  }

  /** Every cached cost is positive. */
  ghost predicate CachePositive(s: RunState)
  {
    forall n :: n in s.rcCache ==> s.rcCache[n] > 0
  }

  /** Each queue is what is left of its initial content after removing some heads. */
  ghost predicate QueuesShrunk(q0: seq<SpecQueue>, s: RunState)
  {
    && |s.queues| == |q0|
    && forall k :: 0 <= k < |q0| ==>
         s.queues[k].index == q0[k].index && s.queues[k].spec == q0[k].spec &&
         IsSuffix(s.queues[k].cards, q0[k].cards)
  }

  /** Every initial card is either still queued or dequeued; every card sent was dequeued. */
  ghost predicate CardsConserved(q0: seq<SpecQueue>, s: RunState)
  {
    && multiset(AllCards(q0)) == multiset(s.dequeued) + multiset(AllCards(s.queues))
    && multiset(Flatten(s.delegations)) <= multiset(s.dequeued)
  }

  /** Transactions go to players before `i`, at most one per player, in player order. */
  ghost predicate PlayersInOrder(s: RunState, i: nat)
  {
    && (forall j :: 0 <= j < |s.delegations| ==> s.delegations[j].playerIndex < i)
    && (forall j, l :: 0 <= j < l < |s.delegations| ==>
          s.delegations[j].playerIndex < s.delegations[l].playerIndex)
  }

  /** What the player loop keeps true relative to the queues `q0` it started with, before player `i`. */
  ghost predicate Accounted(q0: seq<SpecQueue>, s: RunState, i: nat)
  {
    QueuesShrunk(q0, s) && CardsConserved(q0, s) && PlayersInOrder(s, i) && CachePositive(s)
  }

  lemma AfterSubmitKeepsTheRest(s: RunState, n: int, tx: TxOutcome, probe: RcProbe)
    ensures var t := AfterSubmit(s, n, tx, probe);
            t.queues == s.queues && t.delegations == s.delegations && t.dequeued == s.dequeued
    ensures CachePositive(s) ==> CachePositive(AfterSubmit(s, n, tx, probe))
  {
  }

  /** The state after a player's batch has been taken from the queues. */
  function Dequeue(s: RunState, holdings: seq<CardDetails>, controller: string): RunState
  {
    s.(queues := AdvanceAll(s.queues, holdings, controller),
       dequeued := s.dequeued + BatchOf(s.queues, holdings, controller))
  }

  lemma DequeueKeepsQueuesShrunk(q0: seq<SpecQueue>, s: RunState, holdings: seq<CardDetails>, controller: string)
    requires QueuesShrunk(q0, s)
    ensures QueuesShrunk(q0, Dequeue(s, holdings, controller))
  {
    var s1 := Dequeue(s, holdings, controller);
    forall k | 0 <= k < |q0|
      ensures IsSuffix(s1.queues[k].cards, q0[k].cards)
    {
      var c0, c := q0[k].cards, s.queues[k].cards;
      assert c0[|c0| - |c|..] == c;
      if Advance(s.queues[k], holdings, controller) != s.queues[k] {
        assert c0[|c0| - |c| + 1..] == c[1..];
      }
    }
  }

  lemma DequeueKeepsCardsConserved(q0: seq<SpecQueue>, s: RunState, holdings: seq<CardDetails>, controller: string)
    requires CardsConserved(q0, s)
    ensures CardsConserved(q0, Dequeue(s, holdings, controller))
  {
    BatchConservesCards(s.queues, holdings, controller);
  }

  lemma SendKeepsCardsConserved(q0: seq<SpecQueue>, s: RunState, holdings: seq<CardDetails>, controller: string,
                                i: nat, player: string)
    requires CardsConserved(q0, s)
    ensures var s1 := Dequeue(s, holdings, controller);
            CardsConserved(q0, s1.(delegations := s1.delegations + [Delegated(i, player, BatchOf(s.queues, holdings, controller))]))
  {
    var batch := BatchOf(s.queues, holdings, controller);
    DequeueKeepsCardsConserved(q0, s, holdings, controller);
    var ds := s.delegations + [Delegated(i, player, batch)];
    assert ds[..|ds| - 1] == s.delegations;
    assert Flatten(ds) == Flatten(s.delegations) + batch;
  }

  lemma StepKeepsQueuesShrunk(q0: seq<SpecQueue>, s: RunState, controller: string, i: nat,
                              player: string, input: PlayerInput)
    requires QueuesShrunk(q0, s)
    ensures QueuesShrunk(q0, PlayerStep(s, controller, i, player, input).state)
  {
    if input.collection.Some? {
      var holdings := input.collection.value;
      var batch := BatchOf(s.queues, holdings, controller);
      var s1 := Dequeue(s, holdings, controller);
      DequeueKeepsQueuesShrunk(q0, s, holdings, controller);
      AfterSubmitKeepsTheRest(s1.(delegations := s1.delegations + [Delegated(i, player, batch)]),
                              |batch|, input.tx, input.probe);
    }
  }

  lemma StepKeepsCardsConserved(q0: seq<SpecQueue>, s: RunState, controller: string, i: nat,
                                player: string, input: PlayerInput)
    requires CardsConserved(q0, s)
    ensures CardsConserved(q0, PlayerStep(s, controller, i, player, input).state)
  {
    if input.collection.Some? {
      var holdings := input.collection.value;
      var batch := BatchOf(s.queues, holdings, controller);
      var s1 := Dequeue(s, holdings, controller);
      DequeueKeepsCardsConserved(q0, s, holdings, controller);
      SendKeepsCardsConserved(q0, s, holdings, controller, i, player);
      AfterSubmitKeepsTheRest(s1.(delegations := s1.delegations + [Delegated(i, player, batch)]),
                              |batch|, input.tx, input.probe);
    }
  }

  lemma StepKeepsPlayersInOrder(s: RunState, controller: string, i: nat, player: string, input: PlayerInput)
    requires PlayersInOrder(s, i)
    ensures PlayersInOrder(PlayerStep(s, controller, i, player, input).state, i + 1)
  {
    if input.collection.Some? {
      var holdings := input.collection.value;
      var batch := BatchOf(s.queues, holdings, controller);
      var s1 := Dequeue(s, holdings, controller);
      var s2 := s1.(delegations := s1.delegations + [Delegated(i, player, batch)]);
      assert PlayersInOrder(s2, i + 1);
      AfterSubmitKeepsTheRest(s2, |batch|, input.tx, input.probe);
    }
  }

  lemma StepKeepsCachePositive(s: RunState, controller: string, i: nat, player: string, input: PlayerInput)
    requires CachePositive(s)
    ensures CachePositive(PlayerStep(s, controller, i, player, input).state)
  {
    if input.collection.Some? {
      var holdings := input.collection.value;
      var batch := BatchOf(s.queues, holdings, controller);
      var s1 := Dequeue(s, holdings, controller);
      AfterSubmitKeepsTheRest(s1.(delegations := s1.delegations + [Delegated(i, player, batch)]),
                              |batch|, input.tx, input.probe);
    }
  }

  /** One player's turn keeps Accounted. */
  lemma StepKeepsAccounted(q0: seq<SpecQueue>, s: RunState, controller: string, i: nat,
                           player: string, input: PlayerInput)
    requires Accounted(q0, s, i)
    ensures Accounted(q0, PlayerStep(s, controller, i, player, input).state, i + 1)
  {
    StepKeepsQueuesShrunk(q0, s, controller, i, player, input);
    StepKeepsCardsConserved(q0, s, controller, i, player, input);
    StepKeepsPlayersInOrder(s, controller, i, player, input);
    StepKeepsCachePositive(s, controller, i, player, input);
  }


  /**
   * The player loop from player `i` keeps Accounted; a break at player `k`
   * leaves every transaction with a player before `k`. The credits never grow.
   */
  lemma {:induction false} RunLoopAccounted(q0: seq<SpecQueue>, s: RunState, controller: string,
                                            players: seq<string>, inputs: seq<PlayerInput>, i: nat)
    requires |inputs| == |players| && i <= |players|
    requires Accounted(q0, s, i)
    ensures var r := RunLoop(s, controller, players, inputs, i);
            r.Finished? ==> Accounted(q0, r.state, |players|)
    ensures var r := RunLoop(s, controller, players, inputs, i);
            r.Aborted? ==> Accounted(q0, r.state, r.player)
    ensures RunLoop(s, controller, players, inputs, i).state.rc <= s.rc
    decreases |players| - i
  {
    if i < |players| {
      var step := PlayerStep(s, controller, i, players[i], inputs[i]);
      StepKeepsAccounted(q0, s, controller, i, players[i], inputs[i]);
      StepCacheAndCredits(s, controller, i, players[i], inputs[i]);
      if step.Abort? {
        StepAbortCondition(s, controller, i, players[i], inputs[i]);
      } else {
        RunLoopAccounted(q0, step.state, controller, players, inputs, i + 1);
      }
    }
  }

  lemma InitialStateAccounted(q0: seq<SpecQueue>, rc: int)
    ensures Accounted(q0, InitialState(q0, rc), 0)
  {
    var s := InitialState(q0, rc);
    forall k | 0 <= k < |q0|
      ensures IsSuffix(s.queues[k].cards, q0[k].cards)
    {
      assert q0[k].cards[0..] == q0[k].cards;
    }
  }

  /**
   * What a whole run guarantees about the cards it hands out: every card sent
   * came out of a queue, so no card is sent more often than it was queued (in
   * particular none twice when the queued cards are distinct); at most the
   * initial content of each queue is handed out; each player gets at most one
   * transaction, in player order, and none at or after a break; the credits
   * never exceed the initial reading.
   */
  lemma {:induction false} CardRunGuarantees(controller: string, postingKey: string, isValidWif: string -> bool,
                                             delegation: Delegation, collection: Option<seq<CardDetails>>,
                                             currentMana: Option<int>, inputs: seq<PlayerInput>)
    requires |inputs| == |delegation.players|
    ensures var r := CardRunSpec(controller, postingKey, isValidWif, delegation, collection, currentMana, inputs);
            var q0 := QueuesFor(delegation.cards, collection.GetOr([]));
            (r.Finished? || r.Aborted?) ==>
              && multiset(Flatten(r.state.delegations)) <= multiset(AllCards(q0))
              && (DistinctCards(AllCards(q0)) ==> DistinctCards(Flatten(r.state.delegations)))
              && |r.state.queues| == |q0|
              && (forall k :: 0 <= k < |q0| ==> IsSuffix(r.state.queues[k].cards, q0[k].cards))
              && (forall j, l :: 0 <= j < l < |r.state.delegations| ==>
                    r.state.delegations[j].playerIndex < r.state.delegations[l].playerIndex)
              && (r.Aborted? ==> forall j :: 0 <= j < |r.state.delegations| ==>
                                   r.state.delegations[j].playerIndex < r.player)
              && r.state.rc <= currentMana.value
  {
    var r := CardRunSpec(controller, postingKey, isValidWif, delegation, collection, currentMana, inputs);
    if r.Finished? || r.Aborted? {
      var q0 := QueuesFor(delegation.cards, collection.GetOr([]));
      var s0 := InitialState(q0, currentMana.value);
      InitialStateAccounted(q0, currentMana.value);
      RunLoopAccounted(q0, s0, controller, delegation.players, inputs, 0);
      var sent, all := multiset(Flatten(r.state.delegations)), multiset(AllCards(q0));
      assert sent <= multiset(r.state.dequeued) <= all;
      if DistinctCards(AllCards(q0)) {
        forall x ensures sent[x] <= 1 {
          assert sent[x] <= all[x];
        }
      }
    }
  }

  // A worked run: the controller "ctl" owns two eligible instances of card 7
  // at BCX 1; of the players A, B and C, A already holds one from the
  // controller. Every transaction succeeds and costs 10 credits.

  const ExampleSpec := DelegationCard(7, Some(1), false)
  const ExampleCard1 := CardDetails("a", 7, 4, false, 1, None, "ctl", false, false, false)
  const ExampleCard2 := CardDetails("b", 7, 4, false, 1, None, "ctl", false, false, false)
  const ExampleHeld := CardDetails("z", 7, 4, false, 1, None, "ctl", false, false, true)
  const ExampleProbe := RcProbe(1000, Some(990))
  const ExampleInputs := [PlayerInput(Some([ExampleHeld]), Returned("t0"), ExampleProbe),
                          PlayerInput(Some([]), Returned("t1"), ExampleProbe),
                          PlayerInput(Some([]), Returned("t2"), ExampleProbe)]
  const ExampleDelegation := Delegation(["A", "B", "C"], [ExampleSpec], DelegationTokens(None, 0, 0))

  lemma ExampleQueues()
    ensures QueuesFor([ExampleSpec], [ExampleCard1, ExampleCard2]) == [SpecQueue(0, ExampleSpec, [ExampleCard1, ExampleCard2])]
  {
    assert Filter([ExampleCard1, ExampleCard2], ExampleSpec) == [ExampleCard1, ExampleCard2] by {
      assert [ExampleCard1, ExampleCard2][1..] == [ExampleCard2];
    }
    assert [ExampleSpec][..0] == [];
  }

  /** Player A already holds the card from the controller: nothing changes. */
  lemma ExampleFirstPlayerSkipped(s: RunState)
    requires s.queues == [SpecQueue(0, ExampleSpec, [ExampleCard1, ExampleCard2])]
    ensures PlayerStep(s, "ctl", 0, "A", ExampleInputs[0]) == Next(s)
  {
    var q := s.queues;
    assert HoldsFromController([ExampleHeld], ExampleSpec, "ctl") by {
      assert ExampleHeld in [ExampleHeld];
    }
    assert q[..0] == [];
    assert BatchOf(q, [ExampleHeld], "ctl") == [];
    assert AdvanceAll(q, [ExampleHeld], "ctl") == q;
  }

  /** Player B gets the first card; the cost of a one-card batch, 10, is learnt and charged. */
  lemma ExampleSecondPlayer()
    ensures PlayerStep(InitialState([SpecQueue(0, ExampleSpec, [ExampleCard1, ExampleCard2])], 1000),
                       "ctl", 1, "B", ExampleInputs[1])
            == Next(RunState([SpecQueue(0, ExampleSpec, [ExampleCard2])], map[1 := 10], 990, true,
                             [Delegated(1, "B", [ExampleCard1])], [ExampleCard1]))
  {
    var q := [SpecQueue(0, ExampleSpec, [ExampleCard1, ExampleCard2])];
    assert q[..0] == [];
    assert Take(q[0], [], "ctl") == Some(ExampleCard1);
    assert BatchOf(q, [], "ctl") == [ExampleCard1];
    assert q[0].cards[1..] == [ExampleCard2];
    assert AdvanceAll(q, [], "ctl") == [SpecQueue(0, ExampleSpec, [ExampleCard2])];
  }

  /** Player C gets the second card, charged at the cached cost. */
  lemma ExampleThirdPlayer()
    ensures PlayerStep(RunState([SpecQueue(0, ExampleSpec, [ExampleCard2])], map[1 := 10], 990, true,
                                [Delegated(1, "B", [ExampleCard1])], [ExampleCard1]),
                       "ctl", 2, "C", ExampleInputs[2])
            == Next(RunState([SpecQueue(0, ExampleSpec, [])], map[1 := 10], 980, true,
                             [Delegated(1, "B", [ExampleCard1]), Delegated(2, "C", [ExampleCard2])],
                             [ExampleCard1, ExampleCard2]))
  {
    var q := [SpecQueue(0, ExampleSpec, [ExampleCard2])];
    assert q[..0] == [];
    assert Take(q[0], [], "ctl") == Some(ExampleCard2);
    assert BatchOf(q, [], "ctl") == [ExampleCard2];
    assert q[0].cards[1..] == [];
    assert AdvanceAll(q, [], "ctl") == [SpecQueue(0, ExampleSpec, [])];
  }

  /**
   * The whole worked run: A is skipped, B and C get one card each, the queue
   * is drained and 20 credits are spent.
   */
  lemma {:induction false} ExampleRun()
    ensures var r := CardRunSpec("ctl", "key", _ => true, ExampleDelegation,
                                 Some([ExampleCard1, ExampleCard2]), Some(1000), ExampleInputs);
            r.Finished? &&
            r.state.delegations == [Delegated(1, "B", [ExampleCard1]), Delegated(2, "C", [ExampleCard2])] &&
            r.state.queues == [SpecQueue(0, ExampleSpec, [])] &&
            r.state.rcCache == map[1 := 10] && r.state.rc == 980
  {
    var s0 := InitialState([SpecQueue(0, ExampleSpec, [ExampleCard1, ExampleCard2])], 1000);
    var players := ExampleDelegation.players;
    var s1 := RunState([SpecQueue(0, ExampleSpec, [ExampleCard2])], map[1 := 10], 990, true,
                       [Delegated(1, "B", [ExampleCard1])], [ExampleCard1]);
    var s2 := RunState([SpecQueue(0, ExampleSpec, [])], map[1 := 10], 980, true,
                       [Delegated(1, "B", [ExampleCard1]), Delegated(2, "C", [ExampleCard2])],
                       [ExampleCard1, ExampleCard2]);
    assert RunLoop(s1, "ctl", players, ExampleInputs, 2) == Finished(s2) by {
      ExampleThirdPlayer();
      assert RunLoop(s2, "ctl", players, ExampleInputs, 3) == Finished(s2);
    }
    assert RunLoop(s0, "ctl", players, ExampleInputs, 1) == Finished(s2) by {
      ExampleSecondPlayer();
    }
    assert RunLoop(s0, "ctl", players, ExampleInputs, 0) == Finished(s2) by {
      ExampleFirstPlayerSkipped(s0);
    }
    ExampleQueues();
  }
}
