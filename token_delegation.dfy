/**
 * TokenDelegationService.cs: send a fixed quantity of a token to every
 * configured player whose balance is at or below a threshold, keeping a local
 * count of the controller's balance and stopping when it would go negative.
 *
 * The balance fetches and the transfer results are inputs; the key-format
 * check is the parameter `isValidWif`.
 */
module TokenDelegation {
  import opened Wrappers
  import opened Text
  import opened Connectors
  import opened Models

  /** The token used when none is configured. */
  const DefaultToken: string := "DEC"

  /** `balances.FirstOrDefault(b => string.Equals(b.Token, token, ignoring case))`. */
  function FindBalance(balances: seq<TokenBalance>, token: string): (r: Option<TokenBalance>)
    ensures r.None? <==> forall k :: 0 <= k < |balances| ==> !EqualsIgnoreCase(balances[k].token, token)
    ensures r.Some? ==> exists k :: 0 <= k < |balances| && balances[k] == r.value &&
                          EqualsIgnoreCase(r.value.token, token) &&
                          forall j :: 0 <= j < k ==> !EqualsIgnoreCase(balances[j].token, token)
  {
    if balances == [] then None
    else if EqualsIgnoreCase(balances[0].token, token) then Some(balances[0])
    else
      var r := FindBalance(balances[1..], token);
      assert r.Some? ==> exists k :: 0 <= k < |balances[1..]| && balances[1..][k] == r.value &&
                            EqualsIgnoreCase(r.value.token, token) &&
                            balances[k + 1] == r.value &&
                            (forall j :: 1 <= j < k + 1 ==> !EqualsIgnoreCase(balances[j].token, token));
      r
  }

  /** What the remote side answers for one player: its balances, and the transfer outcome. */
  datatype TokenPlayerInput = TokenPlayerInput(balances: Option<seq<TokenBalance>>, tx: TxOutcome)

  /** One `TransferTokens(player, quantity, symbol)` call. */
  datatype TokenTransfer = TokenTransfer(playerIndex: nat, player: string, quantity: int, symbol: string)

  /** The loop's state: the tracked controller balance and the transfers sent so far. */
  datatype TokenState = TokenState(balance: real, transfers: seq<TokenTransfer>)

  datatype TokenStep = Continue(state: TokenState) | Stop(state: TokenState)

  /** The balance a player is judged by: its balance of the token, None when absent or not fetched. */
  function PlayerBalance(input: TokenPlayerInput, token: string): Option<real>
  {
    if input.balances.None? then None
    else match FindBalance(input.balances.value, token)
      case None => None
      case Some(b) => Some(b.balance)
  }

  /** Whether a player is due a transfer: its balance is known and at most the threshold. */
  predicate Due(input: TokenPlayerInput, token: string, threshold: int)
  {
    var b := PlayerBalance(input, token);
    b.Some? && b.value <= threshold as real
  }

  /** Whether a transfer returned a transaction id. */
  predicate Succeeded(tx: TxOutcome)
  {
    tx.Returned? && tx.id != ""
  }

  /** One iteration of the player loop (TokenDelegationService.cs:106-152). */
  function TokenPlayerStep(st: TokenState, token: string, threshold: int, quantity: int,
                           i: nat, player: string, input: TokenPlayerInput): TokenStep
  {
    if !Due(input, token, threshold) then Continue(st)
    else if st.balance - quantity as real < 0.0 then Stop(st)
    else
      var st1 := st.(transfers := st.transfers + [TokenTransfer(i, player, quantity, ToUpper(token))]);
      if Succeeded(input.tx) then Continue(st1.(balance := st.balance - quantity as real))
      else Continue(st1)
  }

  datatype LoopEnd = LoopEnd(state: TokenState, abortedAt: Option<nat>)

  /** The player loop from player `i` on. */
  function TokenLoop(st: TokenState, token: string, threshold: int, quantity: int,
                     players: seq<string>, inputs: seq<TokenPlayerInput>, i: nat): (r: LoopEnd)
    requires |inputs| == |players| && i <= |players|
    ensures r.abortedAt.Some? ==> i <= r.abortedAt.value < |players|
    decreases |players| - i
  {
    if i == |players| then LoopEnd(st, None)
    else match TokenPlayerStep(st, token, threshold, quantity, i, players[i], inputs[i])
      case Stop(st1) => LoopEnd(st1, Some(i))
      case Continue(st1) => TokenLoop(st1, token, threshold, quantity, players, inputs, i + 1)
  }

  /** How a run ends. */
  datatype TokenRun =
    | ActiveKeyMissing
    | ActiveKeyInvalid
    | BalancesMissing
    | HiveAccountMissing
    | TokenBalanceMissing
    | Ran(lowBalanceWarning: bool, initialBalance: real, state: TokenState, abortedAt: Option<nat>)

  /**
   * `Run`, from the active-key checks to the end of the player loop. A
   * controller without a balance of the token makes the source throw (a null
   * dereference at TokenDelegationService.cs:85): TokenBalanceMissing.
   */
  function TokenRunSpec(activeKey: Option<string>, isValidWif: string -> bool, tokens: DelegationTokens,
                        players: seq<string>, controllerBalances: Option<seq<TokenBalance>>,
                        hiveAccountFound: bool, inputs: seq<TokenPlayerInput>): TokenRun
    requires |inputs| == |players|
  {
    if activeKey.None? || activeKey.value == "" then ActiveKeyMissing
    else if !isValidWif(activeKey.value) then ActiveKeyInvalid
    else if controllerBalances.None? then BalancesMissing
    else
      var token := tokens.token.GetOr(DefaultToken);
      if !hiveAccountFound then HiveAccountMissing
      else match FindBalance(controllerBalances.value, token)
        case None => TokenBalanceMissing
        case Some(initial) =>
          var required := tokens.quantity * |players|;
          var end := TokenLoop(TokenState(initial.balance, []), token, tokens.threshold, tokens.quantity,
                               players, inputs, 0);
          Ran(initial.balance < required as real, initial.balance, end.state, end.abortedAt)
  }

  /** `TokenDelegationService.Run` with the remote answers as inputs. */
  method Run(activeKey: Option<string>, isValidWif: string -> bool, tokens: DelegationTokens,
             players: seq<string>, controllerBalances: Option<seq<TokenBalance>>,
             hiveAccountFound: bool, inputs: seq<TokenPlayerInput>) returns (r: TokenRun)
    requires |inputs| == |players|
    ensures r == TokenRunSpec(activeKey, isValidWif, tokens, players, controllerBalances, hiveAccountFound, inputs)
  {
    if activeKey.None? || activeKey.value == "" {
      return ActiveKeyMissing;
    }
    if !isValidWif(activeKey.value) {
      return ActiveKeyInvalid;
    }
    if controllerBalances.None? {
      return BalancesMissing;
    }
    var token := tokens.token.GetOr(DefaultToken);
    var threshold := tokens.threshold;
    var quantity := tokens.quantity;
    if !hiveAccountFound {
      return HiveAccountMissing;
    }

    var initialBalance := FindBalance(controllerBalances.value, token);
    if initialBalance.None? {
      return TokenBalanceMissing;
    }
    var requiredBalance := quantity * |players|;
    var warned := initialBalance.value.balance < requiredBalance as real;

    var balance := initialBalance.value.balance;
    var transfers: seq<TokenTransfer> := [];
    ghost var start := TokenState(balance, []);
    var i := 0;
    while i < |players|
      invariant 0 <= i <= |players|
      invariant TokenLoop(start, token, threshold, quantity, players, inputs, 0) ==
                TokenLoop(TokenState(balance, transfers), token, threshold, quantity, players, inputs, i)
    {
      ghost var before := TokenState(balance, transfers);
      var c := inputs[i].balances;
      if c.Some? {
        var tokenBalance := FindBalance(c.value, token);
        if tokenBalance.None? {
          i := i + 1;
          continue;
        }
        if tokenBalance.value.balance > threshold as real {
          i := i + 1;
          continue;
        }
        if balance - quantity as real < 0.0 {
          assert TokenPlayerStep(before, token, threshold, quantity, i, players[i], inputs[i]) == Stop(before);
          return Ran(warned, initialBalance.value.balance, TokenState(balance, transfers), Some(i));
        }
        transfers := transfers + [TokenTransfer(i, players[i], quantity, ToUpper(token))];
        var result := inputs[i].tx;
        if result.Returned? {
          if result.id == "" {
            i := i + 1;
            continue;
          }
          balance := balance - quantity as real;
        }
      }
      assert TokenPlayerStep(before, token, threshold, quantity, i, players[i], inputs[i])
             == Continue(TokenState(balance, transfers));
      i := i + 1;
    }
    return Ran(warned, initialBalance.value.balance, TokenState(balance, transfers), None);
  }

  // ---------------------------------------------------------------------------
  // Properties of a run
  // ---------------------------------------------------------------------------

  /** The transfers a run sent, in order. */
  function Transfers(r: TokenRun): seq<TokenTransfer>
  {
    if r.Ran? then r.state.transfers else []
  }

  /**
   * The checks before the player loop, in their order: a missing or empty
   * active key, an invalid one, missing controller balances, a missing hive
   * account. Each returns before any transfer.
   */
  lemma PreChecksComeFirst(activeKey: Option<string>, isValidWif: string -> bool, tokens: DelegationTokens,
                           players: seq<string>, controllerBalances: Option<seq<TokenBalance>>,
                           hiveAccountFound: bool, inputs: seq<TokenPlayerInput>)
    requires |inputs| == |players|
    ensures var r := TokenRunSpec(activeKey, isValidWif, tokens, players, controllerBalances, hiveAccountFound, inputs);
            && (r == ActiveKeyMissing <==> activeKey.None? || activeKey.value == "")
            && (r == ActiveKeyInvalid <==> activeKey.Some? && activeKey.value != "" && !isValidWif(activeKey.value))
            && (r == BalancesMissing <==>
                  activeKey.Some? && activeKey.value != "" && isValidWif(activeKey.value) && controllerBalances.None?)
            && (r == HiveAccountMissing <==>
                  activeKey.Some? && activeKey.value != "" && isValidWif(activeKey.value) &&
                  controllerBalances.Some? && !hiveAccountFound)
            && (!r.Ran? ==> Transfers(r) == [])
  {
  }

  /**
   * Once the checks pass and the controller has a balance of the token
   * (matched ignoring case, "DEC" by default), the loop runs; a balance below
   * quantity times the number of players only raises the warning.
   */
  lemma LowBalanceOnlyWarns(activeKey: Option<string>, isValidWif: string -> bool, tokens: DelegationTokens,
                            players: seq<string>, controllerBalances: Option<seq<TokenBalance>>,
                            hiveAccountFound: bool, inputs: seq<TokenPlayerInput>)
    requires |inputs| == |players|
    requires activeKey.Some? && activeKey.value != "" && isValidWif(activeKey.value)
    requires controllerBalances.Some? && hiveAccountFound
    requires FindBalance(controllerBalances.value, tokens.token.GetOr(DefaultToken)).Some?
    ensures var r := TokenRunSpec(activeKey, isValidWif, tokens, players, controllerBalances, hiveAccountFound, inputs);
            var initial := FindBalance(controllerBalances.value, tokens.token.GetOr(DefaultToken)).value;
            r.Ran? && r.initialBalance == initial.balance &&
            (r.lowBalanceWarning <==> initial.balance < (tokens.quantity * |players|) as real)
  {
  }

  /** The number of transfers in `ts` whose call returned a transaction id. */
  function SuccessCount(ts: seq<TokenTransfer>, inputs: seq<TokenPlayerInput>): nat
  {
    if ts == [] then 0
    else
      var t := ts[|ts| - 1];
      SuccessCount(ts[..|ts| - 1], inputs) +
        (if t.playerIndex < |inputs| && Succeeded(inputs[t.playerIndex].tx) then 1 else 0)
  }

  /** Every transfer goes to a due player before `i`, for `quantity` of the upper-cased token, one per player, in order. */
  ghost predicate TransfersSound(ts: seq<TokenTransfer>, token: string, threshold: int, quantity: int,
                                 players: seq<string>, inputs: seq<TokenPlayerInput>, i: nat)
    requires |inputs| == |players|
  {
    && (forall j :: 0 <= j < |ts| ==>
          ts[j].playerIndex < i && ts[j].playerIndex < |players| &&
          ts[j].player == players[ts[j].playerIndex] &&
          ts[j].quantity == quantity && ts[j].symbol == ToUpper(token) &&
          Due(inputs[ts[j].playerIndex], token, threshold))
    && (forall j, l :: 0 <= j < l < |ts| ==> ts[j].playerIndex < ts[l].playerIndex)
  }

  /**
   * The tracked balance is the initial balance less `quantity` per successful
   * transfer, and is never negative once it has been decremented.
   */
  ghost predicate BalanceTracked(st: TokenState, initial: real, quantity: int, inputs: seq<TokenPlayerInput>)
  {
    && st.balance == initial - (quantity * SuccessCount(st.transfers, inputs)) as real
    && (SuccessCount(st.transfers, inputs) > 0 ==> st.balance >= 0.0)
  }

  lemma StepKeepsTransfersSound(st: TokenState, token: string, threshold: int, quantity: int,
                                players: seq<string>, inputs: seq<TokenPlayerInput>, i: nat)
    requires |inputs| == |players| && i < |players|
    requires TransfersSound(st.transfers, token, threshold, quantity, players, inputs, i)
    ensures TransfersSound(TokenPlayerStep(st, token, threshold, quantity, i, players[i], inputs[i]).state.transfers,
                           token, threshold, quantity, players, inputs, i + 1)
  {
    var ts := TokenPlayerStep(st, token, threshold, quantity, i, players[i], inputs[i]).state.transfers;
    if ts != st.transfers {
      assert ts == st.transfers + [TokenTransfer(i, players[i], quantity, ToUpper(token))];
      assert Due(inputs[i], token, threshold);
    }
  }

  lemma StepKeepsBalanceTracked(st: TokenState, initial: real, token: string, threshold: int, quantity: int,
                                players: seq<string>, inputs: seq<TokenPlayerInput>, i: nat)
    requires |inputs| == |players| && i < |players|
    requires BalanceTracked(st, initial, quantity, inputs)
    ensures BalanceTracked(TokenPlayerStep(st, token, threshold, quantity, i, players[i], inputs[i]).state,
                           initial, quantity, inputs)
  {
    var step := TokenPlayerStep(st, token, threshold, quantity, i, players[i], inputs[i]);
    if step.state.transfers != st.transfers {
      var ts := st.transfers + [TokenTransfer(i, players[i], quantity, ToUpper(token))];
      assert step.state.transfers == ts;
      assert ts[..|ts| - 1] == st.transfers;
      var n := SuccessCount(st.transfers, inputs);
      if Succeeded(inputs[i].tx) {
        assert SuccessCount(ts, inputs) == n + 1;
        assert step.state.balance == st.balance - quantity as real;
        assert (quantity * (n + 1)) as real == (quantity * n) as real + quantity as real;
      } else {
        assert SuccessCount(ts, inputs) == n;
        assert step.state.balance == st.balance;
      }
    }
  }

  /** Over the whole loop, every transfer goes to a due player before the break, one per player, in order. */
  lemma {:induction false} TokenLoopTransfersSound(st: TokenState, token: string, threshold: int, quantity: int,
                                                   players: seq<string>, inputs: seq<TokenPlayerInput>, i: nat)
    requires |inputs| == |players| && i <= |players|
    requires TransfersSound(st.transfers, token, threshold, quantity, players, inputs, i)
    ensures var e := TokenLoop(st, token, threshold, quantity, players, inputs, i);
            TransfersSound(e.state.transfers, token, threshold, quantity, players, inputs,
                           if e.abortedAt.Some? then e.abortedAt.value else |players|)
    decreases |players| - i
  {
    if i < |players| {
      var step := TokenPlayerStep(st, token, threshold, quantity, i, players[i], inputs[i]);
      if step.Continue? {
        StepKeepsTransfersSound(st, token, threshold, quantity, players, inputs, i);
        TokenLoopTransfersSound(step.state, token, threshold, quantity, players, inputs, i + 1);
      } else {
        assert TokenLoop(st, token, threshold, quantity, players, inputs, i) == LoopEnd(st, Some(i));
      }
    }
  }

  /** Over the whole loop, the tracked balance stays the initial one less `quantity` per success. */
  lemma {:induction false} TokenLoopBalanceTracked(st: TokenState, initial: real, token: string, threshold: int,
                                                   quantity: int, players: seq<string>, inputs: seq<TokenPlayerInput>,
                                                   i: nat)
    requires |inputs| == |players| && i <= |players|
    requires BalanceTracked(st, initial, quantity, inputs)
    ensures BalanceTracked(TokenLoop(st, token, threshold, quantity, players, inputs, i).state, initial, quantity, inputs)
    decreases |players| - i
  {
    if i < |players| {
      var step := TokenPlayerStep(st, token, threshold, quantity, i, players[i], inputs[i]);
      if step.Continue? {
        StepKeepsBalanceTracked(st, initial, token, threshold, quantity, players, inputs, i);
        TokenLoopBalanceTracked(step.state, initial, token, threshold, quantity, players, inputs, i + 1);
      } else {
        assert TokenLoop(st, token, threshold, quantity, players, inputs, i) == LoopEnd(st, Some(i));
      }
    }
  }

  /** The loop breaks only at a due player whose transfer would take the tracked balance below zero. */
  lemma {:induction false} TokenLoopBreak(st: TokenState, token: string, threshold: int, quantity: int,
                                          players: seq<string>, inputs: seq<TokenPlayerInput>, i: nat)
    requires |inputs| == |players| && i <= |players|
    ensures var e := TokenLoop(st, token, threshold, quantity, players, inputs, i);
            e.abortedAt.Some? ==>
              Due(inputs[e.abortedAt.value], token, threshold) && e.state.balance - quantity as real < 0.0
    decreases |players| - i
  {
    if i < |players| {
      var step := TokenPlayerStep(st, token, threshold, quantity, i, players[i], inputs[i]);
      if step.Continue? {
        TokenLoopBreak(step.state, token, threshold, quantity, players, inputs, i + 1);
      }
    }
  }

  /** The loop only appends: the transfers it starts with are a prefix of those it ends with. */
  lemma {:induction false} TokenLoopExtends(st: TokenState, token: string, threshold: int, quantity: int,
                                            players: seq<string>, inputs: seq<TokenPlayerInput>, i: nat)
    requires |inputs| == |players| && i <= |players|
    ensures var e := TokenLoop(st, token, threshold, quantity, players, inputs, i);
            |st.transfers| <= |e.state.transfers| && e.state.transfers[..|st.transfers|] == st.transfers
    decreases |players| - i
  {
    if i < |players| {
      var step := TokenPlayerStep(st, token, threshold, quantity, i, players[i], inputs[i]);
      if step.Continue? {
        TokenLoopExtends(step.state, token, threshold, quantity, players, inputs, i + 1);
        assert step.state.transfers[..|st.transfers|] == st.transfers;
      }
    }
  }

  /** Every due player the loop gets to before its break (or its end) is sent a transfer. */
  lemma {:induction false} TokenLoopServesDuePlayers(st: TokenState, token: string, threshold: int, quantity: int,
                                                     players: seq<string>, inputs: seq<TokenPlayerInput>, i: nat)
    requires |inputs| == |players| && i <= |players|
    ensures var e := TokenLoop(st, token, threshold, quantity, players, inputs, i);
            forall j :: i <= j < (if e.abortedAt.Some? then e.abortedAt.value else |players|) &&
                        Due(inputs[j], token, threshold) ==>
              exists m :: 0 <= m < |e.state.transfers| && e.state.transfers[m].playerIndex == j
    decreases |players| - i
  {
    if i < |players| {
      var step := TokenPlayerStep(st, token, threshold, quantity, i, players[i], inputs[i]);
      if step.Continue? {
        TokenLoopServesDuePlayers(step.state, token, threshold, quantity, players, inputs, i + 1);
        if Due(inputs[i], token, threshold) {
          TokenLoopExtends(step.state, token, threshold, quantity, players, inputs, i + 1);
          var e := TokenLoop(step.state, token, threshold, quantity, players, inputs, i + 1);
          var m := |st.transfers|;
          assert step.state.transfers[m].playerIndex == i;
          assert e.state.transfers[m] == step.state.transfers[..|step.state.transfers|][m];
        }
      }
    }
  }

  /** Where the loop stands on reaching player `j`: the loop run over the players before `j` only. */
  function LoopUpTo(st: TokenState, token: string, threshold: int, quantity: int,
                    players: seq<string>, inputs: seq<TokenPlayerInput>, i: nat, j: nat): LoopEnd
    requires |inputs| == |players| && i <= j <= |players|
  {
    TokenLoop(st, token, threshold, quantity, players[..j], inputs[..j], i)
  }

  /** The loop over all players is the loop up to `j`, then, unless it broke before `j`, the loop from `j` on. */
  lemma {:induction false} TokenLoopResumes(st: TokenState, token: string, threshold: int, quantity: int,
                                            players: seq<string>, inputs: seq<TokenPlayerInput>, i: nat, j: nat)
    requires |inputs| == |players| && i <= j <= |players|
    ensures var p := LoopUpTo(st, token, threshold, quantity, players, inputs, i, j);
            var e := TokenLoop(st, token, threshold, quantity, players, inputs, i);
            if p.abortedAt.Some? then e == p
            else e == TokenLoop(p.state, token, threshold, quantity, players, inputs, j)
    decreases j - i
  {
    if i < j {
      assert players[..j][i] == players[i] && inputs[..j][i] == inputs[i];
      var step := TokenPlayerStep(st, token, threshold, quantity, i, players[i], inputs[i]);
      if step.Continue? {
        TokenLoopResumes(step.state, token, threshold, quantity, players, inputs, i + 1, j);
      }
    }
  }

  /**
   * The loop breaks at player `j` exactly when it gets to `j` without an
   * earlier break, `j` is due, and the tracked balance minus `quantity` is
   * negative there.
   */
  lemma TokenLoopBreaksWhenShort(st: TokenState, token: string, threshold: int, quantity: int,
                                 players: seq<string>, inputs: seq<TokenPlayerInput>, i: nat, j: nat)
    requires |inputs| == |players| && i <= j < |players|
    ensures var p := LoopUpTo(st, token, threshold, quantity, players, inputs, i, j);
            TokenLoop(st, token, threshold, quantity, players, inputs, i).abortedAt == Some(j) <==>
              p.abortedAt.None? && Due(inputs[j], token, threshold) && p.state.balance - quantity as real < 0.0
  {
    TokenLoopResumes(st, token, threshold, quantity, players, inputs, i, j);
  }

  /**
   * What a run that reaches the loop guarantees: before the break (or the
   * end) a player gets a transfer exactly when its balance of the token is
   * known and at most the threshold, always of `quantity` in the upper-cased
   * token, once and in player order; the loop breaks at player `j` exactly
   * when it gets there, `j` is due and the tracked balance minus `quantity`
   * is negative, and nothing is sent at or after the break; the tracked
   * balance is the initial one less `quantity` per successful transfer and
   * never becomes negative by a decrement.
   */
  lemma TokenRunGuarantees(activeKey: Option<string>, isValidWif: string -> bool, tokens: DelegationTokens,
                           players: seq<string>, controllerBalances: Option<seq<TokenBalance>>,
                           hiveAccountFound: bool, inputs: seq<TokenPlayerInput>)
    requires |inputs| == |players|
    ensures var r := TokenRunSpec(activeKey, isValidWif, tokens, players, controllerBalances, hiveAccountFound, inputs);
            var token := tokens.token.GetOr(DefaultToken);
            r.Ran? ==>
              && TransfersSound(r.state.transfers, token, tokens.threshold, tokens.quantity, players, inputs,
                                if r.abortedAt.Some? then r.abortedAt.value else |players|)
              && BalanceTracked(r.state, r.initialBalance, tokens.quantity, inputs)
              && (r.abortedAt.Some? ==>
                    Due(inputs[r.abortedAt.value], token, tokens.threshold) &&
                    r.state.balance - tokens.quantity as real < 0.0)
              && (forall j :: 0 <= j < (if r.abortedAt.Some? then r.abortedAt.value else |players|) ==>
                    (Due(inputs[j], token, tokens.threshold) <==>
                     exists m :: 0 <= m < |r.state.transfers| && r.state.transfers[m].playerIndex == j))
              && (forall j :: 0 <= j < |players| ==>
                    var p := LoopUpTo(TokenState(r.initialBalance, []), token, tokens.threshold, tokens.quantity,
                                      players, inputs, 0, j);
                    (r.abortedAt == Some(j) <==>
                     p.abortedAt.None? && Due(inputs[j], token, tokens.threshold) &&
                     p.state.balance - tokens.quantity as real < 0.0))
  {
    var r := TokenRunSpec(activeKey, isValidWif, tokens, players, controllerBalances, hiveAccountFound, inputs);
    if r.Ran? {
      var token := tokens.token.GetOr(DefaultToken);
      TokenLoopTransfersSound(TokenState(r.initialBalance, []), token, tokens.threshold, tokens.quantity,
                              players, inputs, 0);
      TokenLoopBalanceTracked(TokenState(r.initialBalance, []), r.initialBalance, token, tokens.threshold,
                              tokens.quantity, players, inputs, 0);
      TokenLoopBreak(TokenState(r.initialBalance, []), token, tokens.threshold, tokens.quantity, players, inputs, 0);
      TokenLoopServesDuePlayers(TokenState(r.initialBalance, []), token, tokens.threshold, tokens.quantity,
                                players, inputs, 0);
      forall j | 0 <= j < |players|
        ensures var p := LoopUpTo(TokenState(r.initialBalance, []), token, tokens.threshold, tokens.quantity,
                                  players, inputs, 0, j);
                r.abortedAt == Some(j) <==>
                p.abortedAt.None? && Due(inputs[j], token, tokens.threshold) &&
                p.state.balance - tokens.quantity as real < 0.0
      {
        TokenLoopBreaksWhenShort(TokenState(r.initialBalance, []), token, tokens.threshold, tokens.quantity,
                                 players, inputs, 0, j);
      }
    }
  }
}
