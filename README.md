# Splintermate delegation engine in Dafny

A verified model of the delegation core of Splintermate.Delegation. This is the tool a Splinterlands player uses to lend cards to a list of other players and to top up their token balances.

It covers:

- **Card delegation.** `CardDelegationService.Run` builds one FIFO queue of eligible controller cards per requested card. It then walks the players in order. Each player gets, in one transaction, the head of every queue whose request they do not already hold from the controller. The resource-credit (RC) cost of a transaction is learnt per batch size. Once a size's cost is known, a transaction of that size is sent only if the remaining credits cover it. A transaction of a size with no known cost is sent unchecked.
- **Token top-up.** `TokenDelegationService.Run` sends a fixed quantity of a token to every player at or below a threshold. It tracks the controller's balance locally and stops before that balance would go negative.
- **Card levels.** `LevelCalculator` (C#) and its front-end twin `convertCardLevel` (TypeScript) read a card's level from the game's level tables. The model has the table semantics once, the two xp normalisations separately, and lemmas on where the two agree and where they do not.
- **Account configuration.** `Models/Account.cs` reads the controller account from the configuration. Its checks run in a fixed order.
- **Front-end helpers.** The cart store (`src/stores/cart.ts`): two lists edited in place. The numeric comparators and `ucFirst` (`src/composables/useLinq.ts`). The edition, colour and image-address helpers (`src/composables/useSplinterlands.ts`).

Every remote answer is an input value:

- a player's collection or balances: `Option`, None for a null response;
- a transaction's result: a returned id, or `Threw`;
- each resource-credit reading: an integer.

The key-format check `CBase58.ValidatePrivateWif` is a function parameter `isValidWif`. With these inputs each service run is a deterministic function, and its method is proved equal to it.

Modules, one file each:

- `Wrappers`: Option and Result.
- `Text`: ASCII case folding and the decimal rendering of integers.
- `Connectors`: the connector DTOs.
- `Models`: the `Delegation` configuration.
- `Levels`: the level tables and their semantics, shared by both calculators.
- `LevelCalculator`: `LevelCalculator.cs`.
- `CardDelegation`: `CardDelegationService.cs`.
- `TokenDelegation`: `TokenDelegationService.cs`.
- `Accounts`: `Models/Account.cs`.
- `Splinterlands`: `useSplinterlands.ts`.
- `Cart`: `cart.ts`.
- `Linq`: `useLinq.ts`.

Behaviour of the code that a reader might not expect, and that the model keeps:

- The players are visited as configured. The controller's own account is not removed from the list.
- Card requests are `DelegationCard` objects, which compare by reference. Two equal entries are therefore two distinct dictionary keys, and both queue the same instances (`CardDelegation.EqualRequestsShareCards`). An instance can be sent twice when requests overlap. `CardDelegation.CardRunGuarantees` promises no duplicates only when the queued cards are distinct.
- A request is matched by BCX (`CompareBxc`). The level calculator plays no part in card delegation.
- A token balance below quantity × players only raises a warning and waits for a key press; the loop then runs (`TokenDelegation.LowBalanceOnlyWarns`).
- The token loop breaks only when the tracked balance minus the quantity is below 0, so the balance may reach exactly 0.
- Resource credits are measured only after a transaction of a batch size with no cached cost.
  - A measured difference of 0 caches nothing, so that size is measured again next time.
  - A transaction that throws is not measured.
  - A null account refresh makes every later measurement throw. Later batches of an uncached size are still sent, but nothing is measured or charged for them.
  - A transaction of a cached size is charged the cached cost without a new reading.
- There is no run controller (start, cancel, `IsRunning`) and no separate "topup" token mode in the service code.

## Model

| member | source | states |
|---|---|---|
| Text.ToLower | src/composables/useSplinterlands.ts:159 | `toLowerCase` on ASCII: same length, each character lower-cased |
| Text.ToUpper | TokenDelegationService.cs:136 | `ToUpper` on ASCII: same length, each character upper-cased |
| Levels.StepsReached | LevelCalculator.cs:53-59 | the number of leading row entries at most xp: every counted entry is ≤ xp, and the next entry, if any, is > xp |
| Levels.StepsReachedUnique | LevelCalculator.cs:53-59 | any prefix length with that property is StepsReached, so the merge scan's count is determined |
| Levels.StepsReachedIsLongestPrefix | LevelCalculator.cs:53-59 | StepsReached is the longest prefix whose entries are all ≤ xp |
| Levels.StepsReachedMonotone | LevelCalculator.cs:53-59 | more xp never reaches fewer steps, on any row |
| Levels.StepsReachedCountsSortedRow | LevelCalculator.cs:69-76 | on a non-decreasing row, entry i is counted iff it is ≤ xp |
| Levels.MergeLevel | LevelCalculator.cs:47-64 | merge regime: xp 0 gives level 1, otherwise at most one level per rate; level ≤ max(1, \|rates\|) |
| Levels.ThresholdLevel | LevelCalculator.cs:67-81 | threshold regime: 1 ≤ level ≤ \|levels\|+1; xp is below levels[level-1] when that exists, and at or above every earlier level |
| Levels.ThresholdLevelAtFirstLevelAbove | LevelCalculator.cs:69-76 | the level is i+1 for the least i with xp < levels[i] |
| Levels.ThresholdLevelPastLastLevel | LevelCalculator.cs:78-79 | xp at or past every level gives \|levels\|+1 |
| Levels.ThresholdLevelMonotone | LevelCalculator.cs:67-81 | threshold-regime level is non-decreasing in xp |
| Levels.MergeLevelMonotone | LevelCalculator.cs:47-59 | for positive xp, merge-regime level is non-decreasing in xp |
| Levels.DefaultSettingsWellFormed | src/composables/useSplinterlands.ts:1-24 | the built-in tables have four rows each, every row non-decreasing |
| Levels.DefaultLevelsAtMostTen | src/composables/useSplinterlands.ts:1-24 | with the built-in tables each rarity 1..4 has a row in both regimes and every level is ≤ 10 |
| LevelCalculator.FindCard | LevelCalculator.cs:22 | `FirstOrDefault` by id: None iff no entry has the id, else the first entry with it |
| LevelCalculator.NormalizedXp | LevelCalculator.cs:42-45 | xp 0 becomes 1 iff edition is 4 or tier is 4, stays 0 otherwise; non-zero xp is kept |
| LevelCalculator.CardLevel | LevelCalculator.cs:37-82 | merge-regime level at most max(1, \|rates\|), and 1 for an xp left at 0; threshold-regime level in 1..\|levels\|+1 |
| LevelCalculator.CalculatedLevel | LevelCalculator.cs:20-35 | a card id absent from the catalogue gives level 0 |
| LevelCalculator.GetCardLevelInfo | LevelCalculator.cs:37-82 | the loops with `break` compute CardLevel (table level for the normalised xp); merge level in 0..max(1,\|rates\|), threshold level in 1..\|levels\|+1; requires the rarity to index a row (otherwise the source throws) |
| LevelCalculator.Calculate | LevelCalculator.cs:20-35 | returns CalculatedLevel: 0 for a missing card, else GetCardLevelInfo of the first catalogue match |
| LevelCalculator.ZeroXpMergeLevelIsOne | LevelCalculator.cs:42-64 | xp 0 on a tier ≥ 5, non-edition-4 card stays 0 and forces level 1 |
| LevelCalculator.ZeroXpEditionFourCountsAsOne | LevelCalculator.cs:42-59 | xp 0 on an edition-4 or tier-4 card is counted as xp 1 against the rates |
| LevelCalculator.MergeLevelZero | LevelCalculator.cs:47-64 | a merge-regime level is 0 iff the normalised xp is non-zero and below the first rate (or there are no rates) |
| CardDelegation.CompareBxc | CardDelegationService.cs:198-208 | the BCX match itself; its meaning is stated by CompareBxcMeaning |
| CardDelegation.CompareBxcMeaning | CardDelegationService.cs:198-208 | CompareBxc holds iff the requested Bcx equals Xp or AlphaXp (absent = 0), or Bcx is 1 and Xp is 0; a null Bcx matches nothing |
| CardDelegation.Filter | CardDelegationService.cs:81-89 | the selected cards are exactly the collection's cards with matching id and gold, not for sale, rent or delegated, and CompareBxc |
| CardDelegation.FilterAppend | CardDelegationService.cs:81-89 | the filter keeps collection order (it distributes over concatenation) |
| CardDelegation.QueuesFor | CardDelegationService.cs:79-101 | at most one queue per request, in request order, each non-empty and holding exactly the request's filtered cards |
| CardDelegation.QueueIffEligible | CardDelegationService.cs:91-96 | a request gets a queue iff some card of the collection is eligible for it |
| CardDelegation.BuildQueues | CardDelegationService.cs:79-101 | the queue-building loop returns QueuesFor |
| CardDelegation.EqualRequestsShareCards | CardDelegationService.cs:79-96 | two equal requests get two queues of the same cards |
| CardDelegation.BatchOf | CardDelegationService.cs:118-137 | a batch is no longer than the list of queues |
| CardDelegation.BatchOfListsTakes | CardDelegationService.cs:120-137 | the batch is exactly the heads of the contributing queues, in queue order, one per queue; a queue contributes iff it is non-empty and the player does not hold its request |
| CardDelegation.BatchTakesEveryAvailableHead | CardDelegationService.cs:120-137 | the head of every non-empty queue whose request the player does not hold is in the batch |
| CardDelegation.BatchTakesFromQueues | CardDelegationService.cs:129-136 | every batch card is the card some queue contributes to this player |
| CardDelegation.BatchSkipsHeldRequests | CardDelegationService.cs:120-137 | every batch card is the head of a non-empty queue whose request the player does not already hold from the controller |
| CardDelegation.BatchTakeConserves | CardDelegationService.cs:129-136 | one queue: its cards are the taken card plus what remains |
| CardDelegation.BatchConservesCards | CardDelegationService.cs:129-136 | queued cards before = batch + queued cards after, as multisets |
| CardDelegation.BuildBatch | CardDelegationService.cs:118-137 | the inner loop with `continue` yields BatchOf and dequeues exactly the taken heads |
| CardDelegation.SubmitBatch | CardDelegationService.cs:144-186 | the try block equals AfterSubmit: a throw changes nothing; a cached cost is charged on a non-empty id; an unseen size re-reads the RC, caches a positive \|difference\|, charges it on a non-empty id |
| CardDelegation.VisitPlayer | CardDelegationService.cs:111-192 | one loop iteration equals PlayerStep |
| CardDelegation.RunLoop | CardDelegationService.cs:109-193 | the loop ends finished, or aborted at a player index in range |
| CardDelegation.Run | CardDelegationService.cs:37-196 | the whole method equals CardRunSpec: invalid key, missing hive account, missing collection, nothing to delegate, then the player loop |
| CardDelegation.NoEligibleCardsNoDelegation | CardDelegationService.cs:91-107 | when no request has an eligible card, the run stops before the player loop and sends nothing |
| CardDelegation.NullCollectionSkipsPlayer | CardDelegationService.cs:116-192 | a player whose collection is null leaves the whole state, queues included, unchanged |
| CardDelegation.StepAbortCondition | CardDelegationService.cs:146-152 | the loop breaks iff the batch is non-empty, its size has a cached cost and credits − cost < 0; a break sends nothing |
| CardDelegation.StepCacheAndCredits | CardDelegationService.cs:156-177 | cached costs are never changed; a new entry is only for this batch size, positive, after a sent transaction; credits change only on a non-empty id and by exactly the cost |
| CardDelegation.StepCachesAndCharges | CardDelegationService.cs:156-177 | conversely: the first sent transaction of an uncached size caches a positive measured cost, and a non-empty id lowers the credits by the cached cost, or by the measured cost for an uncached size |
| CardDelegation.AfterSubmitKeepsTheRest | CardDelegationService.cs:154-186 | the try block touches neither queues nor transactions, and keeps all cached costs positive |
| CardDelegation.DequeueKeepsQueuesShrunk | CardDelegationService.cs:135 | dequeuing keeps each queue a suffix of its initial content |
| CardDelegation.DequeueKeepsCardsConserved | CardDelegationService.cs:135-136 | dequeuing keeps initial cards = dequeued + still queued |
| CardDelegation.SendKeepsCardsConserved | CardDelegationService.cs:136-154 | cards sent stay a sub-multiset of cards dequeued |
| CardDelegation.StepKeepsQueuesShrunk | CardDelegationService.cs:118-137 | after one player's turn every queue is still its initial content with some heads removed |
| CardDelegation.StepKeepsCardsConserved | CardDelegationService.cs:118-154 | after one player's turn initial cards = dequeued + queued, and sent ≤ dequeued |
| CardDelegation.StepKeepsPlayersInOrder | CardDelegationService.cs:109-154 | after player i's turn every transaction is for a player up to i, in strictly increasing order |
| CardDelegation.StepKeepsCachePositive | CardDelegationService.cs:156-177 | one player's turn only ever caches positive costs |
| CardDelegation.StepKeepsAccounted | CardDelegationService.cs:109-193 | one player's turn preserves the loop invariant (queues shrink, cards conserved, players in order, costs positive) |
| CardDelegation.RunLoopAccounted | CardDelegationService.cs:109-193 | the loop preserves the invariant to its end or break, and never raises the credits |
| CardDelegation.InitialStateAccounted | CardDelegationService.cs:75-77 | the invariant holds with empty dictionaries before the loop |
| CardDelegation.CardRunGuarantees | CardDelegationService.cs:109-193 | sent ≤ queued as multisets (no duplicates if the queued cards are distinct); queues only lose heads; one transaction per player in order; none at or after a break; credits ≤ initial |
| CardDelegation.ExampleQueues | CardDelegationService.cs:79-96 | worked example: two eligible cards give one queue of both |
| CardDelegation.ExampleFirstPlayerSkipped | CardDelegationService.cs:120-127 | worked example: a player holding the card from the controller is skipped |
| CardDelegation.ExampleSecondPlayer | CardDelegationService.cs:135-177 | worked example: the first transaction learns and charges the cost of 10 |
| CardDelegation.ExampleThirdPlayer | CardDelegationService.cs:146-177 | worked example: the second transaction is charged at the cached cost |
| CardDelegation.ExampleRun | CardDelegationService.cs:37-196 | worked example: A skipped, B and C one card each, queue drained, credits 1000 → 980 |
| TokenDelegation.FindBalance | TokenDelegationService.cs:82 | the first balance whose token equals the symbol ignoring case; None iff there is none |
| TokenDelegation.TokenLoop | TokenDelegationService.cs:104-153 | a break is reported at a player index in range |
| TokenDelegation.Run | TokenDelegationService.cs:36-156 | the whole method, with `continue`/`break`, equals TokenRunSpec |
| TokenDelegation.PreChecksComeFirst | TokenDelegationService.cs:40-74 | empty key, invalid key, null balances, missing hive account, in that order, each iff its condition and earlier ones pass; none sends a transfer |
| TokenDelegation.LowBalanceOnlyWarns | TokenDelegationService.cs:82-91 | once the checks pass and the token (default "DEC") is found, the loop runs; the warning is raised iff balance < quantity × players |
| TokenDelegation.StepKeepsTransfersSound | TokenDelegationService.cs:110-136 | a transfer is added only for a due player, of `quantity`, in the upper-cased token |
| TokenDelegation.StepKeepsBalanceTracked | TokenDelegationService.cs:136-149 | the balance drops by `quantity` exactly on a non-empty result, is unchanged on an empty one or a throw, and never goes negative by a decrement |
| TokenDelegation.TokenLoopTransfersSound | TokenDelegationService.cs:104-153 | over the loop every transfer goes to a due player before the break, for `quantity` of the upper-cased token, one per player, in order |
| TokenDelegation.TokenLoopBalanceTracked | TokenDelegationService.cs:104-153 | over the loop balance = initial − quantity × successes, never negative once decremented |
| TokenDelegation.TokenLoopExtends | TokenDelegationService.cs:104-153 | the loop only appends transfers |
| TokenDelegation.TokenLoopServesDuePlayers | TokenDelegationService.cs:110-136 | every due player before the break (or the end) gets a transfer |
| TokenDelegation.TokenLoopResumes | TokenDelegationService.cs:104-153 | the loop over all players is the loop up to player j followed, unless it broke earlier, by the loop from j |
| TokenDelegation.TokenLoopBreaksWhenShort | TokenDelegationService.cs:126-130 | the loop breaks at player j iff it gets to j, j is due, and the tracked balance − quantity < 0 there |
| TokenDelegation.TokenLoopBreak | TokenDelegationService.cs:126-130 | the loop breaks only at a due player with tracked balance − quantity < 0 |
| TokenDelegation.TokenRunGuarantees | TokenDelegationService.cs:104-153 | a run that reaches the loop: before the break a player gets a transfer iff it is due (balance present, ≤ threshold); amount `quantity`, symbol upper-cased, one per player in order, none at or after a break; the break is at j iff the loop reaches j with j due and balance − quantity < 0; balance accounting as above |
| Accounts.AccountFromConfig | Models/Account.cs:19-43 | on success username and posting key are non-empty and equal the configured values; the active key is whatever is configured, possibly none |
| Accounts.AccountChecksInOrder | Models/Account.cs:21-36 | missing section, then null/empty username, then null/empty posting key: each error iff the earlier checks pass and its own fails; success iff all three pass |
| Accounts.UsernameImpliesSection | Models/Account.cs:21-26 | a configured username already makes the account section exist |
| Accounts.ActiveKeyOptional | Models/Account.cs:40-42 | removing the active key from an accepted configuration still succeeds, with no active key |
| Accounts.OnlyAccountSettingsMatter | Models/Account.cs:19-43 | the outcome depends only on the section's existence and the three account settings |
| Accounts.Account.Unset | Models/Account.cs:15-17 | the account's properties start out null |
| Accounts.Account.ValidateConfigurationAndSetInstance | Models/Account.cs:19-43 | fails with AccountFromConfig's error or sets all three properties to its values; a missing posting key leaves the username already assigned |
| Accounts.NewAccount | Models/Account.cs:10-13 | `new Account(configuration)` yields a fresh account with the validated values, or the error the constructor throws |
| Linq.OrderBy | src/composables/useLinq.ts:14 | 1 iff a > b, −1 iff a < b, 0 iff a = b |
| Linq.OrderByDescending | src/composables/useLinq.ts:32 | −1 iff a > b, 1 iff a < b, 0 iff a = b |
| Linq.OrderByAntisymmetric | src/composables/useLinq.ts:14 | orderBy(a, b) = −orderBy(b, a) |
| Linq.OrderByDescendingReverses | src/composables/useLinq.ts:14-32 | orderByDescending(a, b) = −orderBy(a, b) = orderBy(b, a) |
| Linq.OrderByTransitive | src/composables/useLinq.ts:14 | "not after" is transitive, as `Array.sort` needs |
| Linq.SortedByReversed | src/composables/useLinq.ts:14-32 | a list is sorted by orderBy iff its reverse is sorted by orderByDescending |
| Linq.UcFirst | src/composables/useLinq.ts:37-39 | same length, first character upper-cased, the rest unchanged; "" maps to "" |
| Linq.UcFirstIdempotent | src/composables/useLinq.ts:37-39 | applying ucFirst twice is applying it once |
| Splinterlands.CollectionCard.constructor | src/composables/useSplinterlands.ts:26 | a collection card holds the given fields |
| Splinterlands.TsCardLevel | src/composables/useSplinterlands.ts:26-56 | the same bounds for the front end: merge level at most max(1, \|rates\|), and 1 for a normalised xp of 0; threshold level in 1..\|levels\|+1 |
| Splinterlands.TsNormalizedXp | src/composables/useSplinterlands.ts:30-31 | a non-numeric xp becomes 1 iff edition ≠ 4 and tier = 4, else 0; a numeric xp is kept |
| Splinterlands.ConvertCardLevel | src/composables/useSplinterlands.ts:26-56 | overwrites a non-numeric card.xp with its normalised value and nothing else; returns the table level from the given or the built-in tables; level bounds per regime |
| Splinterlands.DefaultConversionDefined | src/composables/useSplinterlands.ts:27-28 | with null settings (built-in tables) every rarity 1..4 converts, to a level ≤ 10 |
| Splinterlands.AgreesWithLevelCalculator | src/composables/useSplinterlands.ts:33-55 | for numeric xp ≠ 0 and the same tables, convertCardLevel equals GetCardLevelInfo |
| Splinterlands.ZeroXpAgreementOutsideEditionFourAndTierFour | src/composables/useSplinterlands.ts:30-44 | for xp 0 they also agree unless the card is edition 4 or tier 4 |
| Splinterlands.ZeroXpDisagreement | src/composables/useSplinterlands.ts:30-44 | a gold edition-4 rarity-1 card with xp 0: level 3 in C#, level 1 in the front end (xp 0 or non-numeric) |
| Splinterlands.ConvertEditionToString | src/composables/useSplinterlands.ts:129-150 | 0..7 map to alpha … chaos, any other edition to its own decimal rendering |
| Splinterlands.EditionNamesIdentify | src/composables/useSplinterlands.ts:129-150 | a named edition's string is produced by no other edition |
| Splinterlands.ConvertCardImageUri | src/composables/useSplinterlands.ts:152-156 | the address starts with the image base and the edition string |
| Splinterlands.LevelTailSuffix | src/composables/useSplinterlands.ts:155 | after a decimal level the address ends in `_gold.png` iff gold |
| Splinterlands.ImageUriSuffix | src/composables/useSplinterlands.ts:152-156 | ends in `_lv{level}_gold.png` for gold, `_lv{level}.png` otherwise, and in `_gold.png` iff gold |
| Splinterlands.ConvertToType | src/composables/useSplinterlands.ts:158-177 | a colour in any case maps to its element by the reference table; any other input is returned unchanged, in its own case |
| Splinterlands.ConvertToTypeIgnoresCase | src/composables/useSplinterlands.ts:159 | spellings of a colour differing only in case give the same element |
| Splinterlands.ElementIsNotColour | src/composables/useSplinterlands.ts:158-177 | no element name folds to a colour |
| Splinterlands.ConvertToTypeIdempotent | src/composables/useSplinterlands.ts:158-177 | converting twice is converting once |
| Cart.CardIndex | src/stores/cart.ts:96-103 | the least index with matching id (`card_detail_id ?? id`), gold and level, or −1 iff none |
| Cart.FirstCard | src/stores/cart.ts:87-94 | None iff no entry matches, else a matching entry |
| Cart.FirstCardAtCardIndex | src/stores/cart.ts:87-103 | `find` and `findIndex` with the same key pick the same entry |
| Cart.PlayerIndex | src/stores/cart.ts:105-109 | the least index holding the name, or −1 iff absent |
| Cart.RemoveAt | src/stores/cart.ts:83 | one element gone, the rest in order, multiset minus that element |
| Cart.SpliceOne | src/stores/cart.ts:66 | JavaScript `splice(i, 1)`: removes element i inside the list, counts negative i from the end, removes nothing past the end |
| Cart.WithPlayer | src/stores/cart.ts:52-61 | "" and a name already present change nothing; a new name is appended last |
| Cart.WithoutPlayer | src/stores/cart.ts:76-85 | "" or an absent name changes nothing; otherwise the first occurrence is removed and the rest keep their order |
| Cart.WithPlayerKeepsDistinct | src/stores/cart.ts:52-61 | addPlayer keeps the players duplicate-free |
| Cart.WithoutPlayerRemovesName | src/stores/cart.ts:76-85 | on duplicate-free players the name is gone afterwards, everyone else stays |
| Cart.AddThenDeletePlayer | src/stores/cart.ts:52-85 | adding a new player and deleting it restores the list |
| Cart.ToggleRoundTrip | src/stores/cart.ts:34-50 | an added entry with the searched id and level is found at the end by the next toggle, and removing it restores the list |
| Cart.ToggleMissesOtherLevel | src/stores/cart.ts:34-50 | when the computed level differs from the card's `level`, the next toggle does not find the entry |
| Cart.CartStore.constructor | src/stores/cart.ts:20-24 | the store starts with the restored lists |
| Cart.CartStore.AddCard | src/stores/cart.ts:27-32 | a missing item changes nothing; otherwise it is appended and nothing else changes |
| Cart.CartStore.AddOrDeleteCard | src/stores/cart.ts:34-50 | a match is removed (first one); otherwise one entry is appended with the level convertCardLevel(null, …) computes, and card.xp is normalised |
| Cart.CartStore.AddPlayer | src/stores/cart.ts:52-61 | players become WithPlayer; cards unchanged |
| Cart.CartStore.DeleteCard | src/stores/cart.ts:63-68 | −1 changes nothing; any other index is spliced out; players unchanged |
| Cart.CartStore.DeleteByCard | src/stores/cart.ts:70-74 | removes the first matching entry, if any |
| Cart.CartStore.DeleteByPlayer | src/stores/cart.ts:76-85 | players become WithoutPlayer; cards unchanged |
| Cart.CartStore.FindByCard | src/stores/cart.ts:87-94 | the first entry of the list matching `card_detail_id`, foil and level, None iff there is none |
| Cart.CartStore.FindIndexByCard | src/stores/cart.ts:96-103 | the index of the first entry matching `card_detail_id ?? id`, foil and level, or −1 iff there is none |
| Cart.CartStore.PlayerExists | src/stores/cart.ts:105-109 | playerExists(name) iff name is in the list |
| Cart.CountsAreLengths | src/stores/cart.ts:112-122 | the four getters: getCards and getPlayers give the stored lists, and the count getters are their lengths |
| Cart.FindByCardAtFindIndex | src/stores/cart.ts:87-103 | for a card with `card_detail_id`, findByCard returns the entry at findIndexByCard's index |

## Left out

- Remote connectors and Hive calls (settings, collections, balances, `DelegateCards`, `TransferTokens`, `get_dynamic_global_properties`, `find_rc_accounts`). These are network I/O. Their results are inputs.
- `CBase58.ValidatePrivateWif`. Foreign key-format code. It is the parameter `isValidWif`.
- `CalculateCurrentMana` and `GetCurrentManaPercentage`. Time-based mana regeneration in foreign code. Each reading is a given integer (`currentMana`, `RcProbe`). `MaxRc` and the percentage are only logged.
- `Task.Delay`, `Console.ReadKey` and all Serilog logging. Timing, console input and output only. A key press is taken to continue.
- The settings fetch in `CardDelegationService.Run` (CardDelegationService.cs:47). Its result only builds the transactions connector.
- `convertCardCollectionPower`. Floating-point division, `Math.floor` and external `settings.dec` factors.
- The other built-in tables (`alpha_xp`, `gold_xp`, `beta_xp`, `beta_gold_xp`). Only `convertCardCollectionPower` reads them.
- The string branch of `orderBy` and `orderByDescending`. It relies on the `Intl.Collator` locale library, and on JavaScript's comparison of mixed types.
- Culture-dependent case handling (`CurrentCultureIgnoreCase`, `ToUpper`, `toLowerCase`, `toUpperCase`). It is modelled as ASCII case folding, so characters that expand or fold differently outside ASCII are not.
- Linq.UcFirst: a null or undefined value gives `NaN` in the source. The model takes a string.
- Splinterlands.TsNormalizedXp: only "not a number" is modelled (`isNaN(card.xp)`, the case of an absent xp). JavaScript's coercion of other non-numeric values is not. For instance, `isNaN(null)` is false, so a null xp is left as is. It then compares as 0 against the rates but is not `== 0`, so in the merge regime it does not get level 1.
- `sessionStorage` and `localStorage` persistence in the cart store. Browser I/O. The restored lists are constructor arguments.
- Accounts: .NET matches configuration keys ignoring case. The model looks them up exactly as written.
- CardDelegation: the queues are visited in insertion order, which is how `Dictionary` enumerates when nothing has been removed from it.
- CardDelegation: `delegationDict` is a Dictionary of Queues filled and drained in place. The model keeps the queues as a sequence of values inside the loop state and replaces them on each dequeue. For the card loop this loses nothing, because no other code can see the queues.
- TokenDelegation: balances and quantities are unbounded numbers (`real`, `int`). The connector's numeric type is not part of this model. `quantity × players` is exact, with no overflow.
- Linq.OrderBy: property values are modelled as integers. In JavaScript a `NaN` or missing (`undefined`) value compares as 0 against everything. For those values `r == 0 <==> a == b` fails, and so does transitivity: 1 vs `NaN` gives 0, `NaN` vs 0 gives 0, yet 1 vs 0 gives 1.
- Linq.OrderByDescending: the same integer narrowing as Linq.OrderBy.
- Linq.OrderByTransitive: holds on integers only; with `NaN` or `undefined` values it fails in the source, as above.
- Splinterlands.ConvertEditionToString: the parameter is modelled as an integer. The source takes a string and switches on `Number(edition)`, so `""` gives `'alpha'`. A string that matches no case is returned unchanged, as written (`"08"`, `"abc"`), rather than re-rendered from a number.
- CardDelegation.RcProbe: the reading taken before each cost measurement (`previous`) is a free input. The source derives it from the most recently fetched account, so the model over-approximates: every property proved holds for any reading.
- CardDelegation: `initialRc` and costs are unbounded integers. `Convert.ToInt64` overflow is not modelled.
- `Controllers/ApiController.cs`, `IsRunning` and `Cancel`. HTTP routing and cross-task run exclusion (concurrency). The shown service classes do not have them.
- `Sinks/`, `Program.cs`, `vite.config.ts`, `src/main.ts`, `src/router/index.ts`, `src/composables/useTheme.ts`, `src/services/api.ts`, `src/services/splinterlands.ts`. Logging sinks, hosting, build configuration, UI bootstrapping and fetch wrappers.
