# Coin Clicker: a verified model of the game logic

Coin Clicker is a browser clicker game. This project models its game logic in
Dafny and proves properties of the model. The logic lives in a few React
components and helper modules:

- **The progression reducer** (`game_reducer.dfy`). The game state is a coin
  balance, rebirths, total clicks, a sparse map of upgrade levels, collected
  airdrops and a lucky-event flag. The reducer is a total function over ten
  actions. Purchases are guarded no-ops when the player cannot pay, coin
  removal clamps at zero, and there are two resets. `game_store.dfy` is the
  `useReducer` store: a class whose state is always the reducer folded over
  the actions dispatched so far.
- **The upgrade catalog** (`upgrades_config.dfy`). Six entries with base
  cost, cost increment, optional maximum level, and a per-level effect.
- **The gain calculator and the rebirth price** (`gain.dfy`). The calculator
  folds the catalog's effects into a bonus, a multiplier and a crit chance with
  a loop. It applies the rebirth factor and the 2.5x critical, and returns 0
  passive gain without an auto clicker. The random sample is a parameter.
- **The upgrade card's affordability solver** (`upgrade_card.dfy`). It
  computes the single price, affordability, and the largest bulk purchase the
  coins cover, found by a binary search over the arithmetic series of level
  prices and capped by the levels left. It also models the two buttons that
  dispatch purchases.
- **The rebirth button** (`navigation.dfy`). It checks the price, then
  dispatches RemoveCoins, AddRebirth and ResetProgress in that order.
- **Achievements** (`achievements.dfy`, `achievement_store.dfy`, `game.dfy`).
  These cover the twelve milestone conditions, the UNLOCK and LOAD_SAVED
  reducer, and the game screen's scan. The scan unlocks each entry whose
  condition holds and shows a toast for it.
- **The developer terminal** (`terminal.dfy`, with the JavaScript string
  functions it relies on in `js_strings.dfy`). It covers the command table,
  the line interpreter with its error messages, tab-completion suggestions,
  and the history cursor of the arrow keys.

Coins, gains and coin payloads are `real`: the 2.5x critical and the 0.05
steps of the effects make them fractional. Levels, prices and counters are
`int`. Stateful parts are classes: the two stores, the toast list and the
terminal window. Their methods state their whole new state, in terms of the
pure functions the lemmas are about.

Facts about the code that the model keeps:

- Coins are fractional.
- The reducer does not check that an AddCoins amount is non-negative, so the
  terminal's `coins add -5` lowers the balance, below zero from an empty one
  (`Terminal.NegativeAddLowersCoins`).
- The reducer does not enforce `maxLevel`. The upgrade card never dispatches
  a purchase that passes it (`UpgradeCard.CardPurchasesApply`).
- The source calls two state fields `airdrops_collected` and
  `lucky_event_triggered`. The model calls them `airdropsCollected` and
  `luckyEventTriggered`.

## Model

| member | source | states |
|---|---|---|
| GameReducer.Reduce | src/app/components/types/gameReducer.ts:52-120 | Every action keeps a valid state (non-negative coins, counters and levels), given a non-negative payload; RemoveCoins never leaves negative coins; rebirths only fall on ResetGame; the lucky flag is set by TriggerLuckyEvent and otherwise kept except by the resets |
| GameReducer.ApplyAllKeepsValid | src/app/components/types/gameReducer.ts:52-120 | Any sequence of actions with non-negative payloads keeps a valid state valid |
| GameReducer.RemoveCoinsClamps | src/app/components/types/gameReducer.ts:57-58 | RemoveCoins sets coins to max(0, coins - amount) and changes no other field |
| GameReducer.AddThenRemoveRestores | src/app/components/types/gameReducer.ts:54-58 | For amount >= 0 and coins >= 0, AddCoins then RemoveCoins of the same amount gives back the exact state |
| GameReducer.AddClickCounts | src/app/components/types/gameReducer.ts:60-61 | AddClick adds one to totalClicks and changes nothing else |
| GameReducer.BuyUpgradeUnaffordable | src/app/components/types/gameReducer.ts:63-65 | BuyUpgrade with coins below the cost returns the identical state |
| GameReducer.BuyUpgradeApplies | src/app/components/types/gameReducer.ts:63-76 | An affordable BuyUpgrade lowers coins by exactly the cost, sets the id's level to its old level (0 if absent) plus one, and keeps every other id and field |
| GameReducer.BuyUpgradeBulkUnaffordable | src/app/components/types/gameReducer.ts:78-80 | BuyUpgradeBulk with coins below the total returns the identical state |
| GameReducer.BuyUpgradeBulkApplies | src/app/components/types/gameReducer.ts:78-91 | An affordable BuyUpgradeBulk lowers coins by the total and raises the id's level by the quantity, with no maximum check, keeping all else |
| GameReducer.CollectAirdropEffect | src/app/components/types/gameReducer.ts:93-98 | CollectAirdrop adds one collected airdrop and the amount to coins, and nothing else |
| GameReducer.TriggerLuckyEventSticky | src/app/components/types/gameReducer.ts:100-112 | TriggerLuckyEvent only sets the flag, and ResetProgress keeps it set |
| GameReducer.AddRebirthCounts | src/app/components/types/gameReducer.ts:103-104 | AddRebirth adds one rebirth and nothing else |
| GameReducer.ResetProgressEffect | src/app/components/types/gameReducer.ts:106-112 | ResetProgress zeroes coins, upgrades and airdrops, keeps rebirths, clicks and the lucky flag, and applying it twice equals once |
| GameReducer.ResetGameForgetsState | src/app/components/types/gameReducer.ts:114-115 | ResetGame returns the initial state whatever the input, so it is idempotent |
| GameReducer.InitialStateValid | src/app/components/types/gameReducer.ts:43-50 | The initial state is valid |
| GameStore.Store.constructor | src/app/components/utils/hooks.ts:6-9 | A new store holds the given state and an empty dispatch log |
| GameStore.Store.Dispatch | src/app/components/utils/hooks.ts:6-9 | Dispatching appends the action to the log and sets the state to the reducer's result, so the state stays the fold of the reducer over the log |
| UpgradesConfig.GetEffects | src/app/components/utils/upgradesConfig.ts:33-131 | Every getEffects returns exactly one effect |
| UpgradesConfig.CatalogIdsDistinct | src/app/components/utils/upgradesConfig.ts:26-132 | The six catalog ids are distinct and the catalog lists every entry |
| UpgradesConfig.GetLevelStoredOrZero | src/app/components/utils/upgradesConfig.ts:32-120 | Every getLevel returns the stored level for its id, or 0 when the id is absent |
| UpgradesConfig.EffectShapeFixed | src/app/components/utils/upgradesConfig.ts:33-131 | Each entry's effect has the same target and type in every state, and its value depends only on the entry's level |
| UpgradesConfig.LevelEffects | src/app/components/utils/upgradesConfig.ts:33-77 | Auto Clicker's effect is additive on the autoclicker with value = level; Click Power's is additive on the click with value = level |
| UpgradesConfig.LuckyCoinsChance | src/app/components/utils/upgradesConfig.ts:44-60 | Lucky Coins' chance is min(0.05 * level, 0.5), never above 0.5, reaching it at the maximum level 10 |
| UpgradesConfig.AirdropChanceChance | src/app/components/utils/upgradesConfig.ts:79-95 | Airdrop Chance's chance is min(0.02 * level, 0.5): 0.02 * level up to level 25 and 0.5 from there, at most 0.4 within the maximum level 20 |
| UpgradesConfig.AirdropSpeedMultiplier | src/app/components/utils/upgradesConfig.ts:97-113 | Airdrop Speed's multiplier is 1 - min(0.05 * level, 0.75): 1 - 0.05 * level up to level 15 and 0.25 from there, within [0.25, 1] for level >= 0, with maximum level 15 |
| UpgradesConfig.ExtraDropValueMultiplier | src/app/components/utils/upgradesConfig.ts:115-131 | Extra Drop Value's multiplier is at least 1 for level >= 0, with no maximum level |
| Gain.CalculateClickGain | src/app/components/utils/utils.ts:4-32 | The loop over the catalog and its effects computes exactly the gain ClickGain defines from the folded totals |
| Gain.FoldCatalog | src/app/components/utils/utils.ts:10-21 | The outer loop leaves the bonus, multiplier and chance at the fold of every entry's effects, entry by entry in catalog order |
| Gain.FoldEffects | src/app/components/utils/utils.ts:12-20 | The inner loop applies one entry's effects in order: click effects feed the three terms by kind, an autoclicker additive feeds the bonus less one on a passive tick only |
| Gain.CatalogTotals | src/app/components/utils/utils.ts:10-21 | Folding the catalog gives a bonus of the Click Power level (plus the Auto Clicker level less one on a passive tick), a multiplier of 1 and a chance of the Lucky Coins chance; airdrop effects contribute nothing |
| Gain.CatalogHead | src/app/components/utils/utils.ts:10-21 | After Auto Clicker, Lucky Coins and Click Power the totals are the click bonus plus the passive auto bonus, a multiplier of 1 and the Lucky Coins chance |
| Gain.CatalogTail | src/app/components/utils/utils.ts:10-21 | The three airdrop entries leave the totals unchanged |
| Gain.KeyStep | src/app/components/utils/upgradesConfig.ts:33-131 | What each catalog entry adds to the totals: Auto Clicker its level less one to the bonus on a tick, Lucky Coins its chance, Click Power its level, the airdrop entries nothing |
| Gain.ClickGainClosedForm | src/app/components/utils/utils.ts:4-32 | The gain is (1 + Click Power) times the rebirth factor for a click and (Click Power + Auto Clicker) times it for a tick, times 2.5 exactly when the sample is below the Lucky Coins chance, and 0 on a tick without an auto clicker |
| Gain.PassiveGainNeedsAutoClicker | src/app/components/utils/utils.ts:31 | In passive mode the gain is 0 whenever the auto clicker's level is 0 |
| Gain.FreshStateClickGainsOne | src/app/components/utils/utils.ts:5-25 | With no upgrades, no rebirths and any sample >= 0, a manual click gains 1 |
| Gain.RebirthsScaleGain | src/app/components/utils/utils.ts:23-25 | With rebirths > 0 the gain is rebirths + 1 times the gain without rebirths |
| Gain.CriticalExactlyBelowChance | src/app/components/utils/utils.ts:27-29 | Any sample gives 2.5 times the plain gain when it is below the click chance, and the plain gain otherwise |
| Gain.NextRebirthCost | src/app/components/utils/utils.ts:34-37 | The rebirth price is non-negative, and at least 100000 when rebirths >= 0 |
| Gain.RebirthCostExamples | src/app/components/utils/utils.ts:34-37 | The price is 100000 at 0 rebirths, 400000 at 1 and 900000 at 2 |
| Gain.RebirthCostIncreasing | src/app/components/utils/utils.ts:34-37 | More rebirths (from 0 up) always cost strictly more |
| UpgradeCard.MaxPossible | src/app/components/UpgradeCard.tsx:34 | At least one level is left, and with a (truthy) maximum, level + levels left = maximum |
| UpgradeCard.ComputeQuote | src/app/components/UpgradeCard.tsx:16-55 | The single price, affordability and bulk figures satisfy IsQuote: zeros at the maximum level, price = base + increment * level, affordable iff coins >= price, and a bulk quantity within the levels left that fits the coins while one more would not |
| UpgradeCard.SearchBulk | src/app/components/UpgradeCard.tsx:38-54 | The binary search ends with a level count within the levels left whose summed price fits the coins while one more does not, and with that sum as the bulk price |
| UpgradeCard.SeriesTotalIsWhole | src/app/components/UpgradeCard.tsx:40-42 | The card's closed form n * (first + last) / 2 halves an even number, so the bulk price is a whole number |
| UpgradeCard.SeriesTotalIsPriceSum | src/app/components/UpgradeCard.tsx:39-46 | The closed form equals the sum of the n level prices bought one at a time |
| UpgradeCard.SeriesIncreasing | src/app/components/UpgradeCard.tsx:38-51 | With a positive first price and a non-negative increment, buying more levels always costs strictly more |
| UpgradeCard.SeriesAtLeastFirst | src/app/components/UpgradeCard.tsx:38-51 | One or more levels cost at least the first level's price |
| UpgradeCard.BulkIsLargest | src/app/components/UpgradeCard.tsx:34-51 | The bulk quantity is the largest affordable one: no larger quantity up to the levels left fits, and with coins >= 0 every smaller one does |
| UpgradeCard.BracketIsUnique | src/app/components/UpgradeCard.tsx:38-51 | With rising prices and coins >= 0, only one quantity satisfies the search's bracket, so the result is determined |
| UpgradeCard.QuoteRespectsMaxLevel | src/app/components/UpgradeCard.tsx:27-34 | An affordable single level stays within the maximum, and a positive bulk quantity keeps level + quantity <= maximum |
| UpgradeCard.QuoteAtMaxLevel | src/app/components/UpgradeCard.tsx:14-19 | At or above the maximum level the figures are cost 0, not affordable, quantity 0, total 0 |
| UpgradeCard.CardPurchasesApply | src/app/components/UpgradeCard.tsx:106-143 | For every catalog entry, a purchase either button dispatches is applied by the reducer as a real purchase, never a no-op, and never takes the level past the entry's maximum |
| UpgradeCard.SinglePurchaseApplies | src/app/components/UpgradeCard.tsx:106-121 | A single-level purchase the button dispatches is a real purchase at the quoted price and stays within the maximum level |
| UpgradeCard.BulkPurchaseApplies | src/app/components/UpgradeCard.tsx:123-143 | A bulk purchase the button dispatches buys the quoted count at the quoted total and stays within the maximum level |
| UpgradeCard.CatalogPricesRise | src/app/components/utils/upgradesConfig.ts:26-132 | Every catalog entry has a positive base cost and increment, and no zero maximum |
| UpgradeCard.AutoClickerQuoteAtLevelZero | src/app/components/UpgradeCard.tsx:21-34 | For Auto Clicker at level 0 the price is 10, affordable iff coins >= 10, and the bulk figures satisfy the bracket for base 10, increment 10 and no maximum |
| UpgradeCard.ThousandCoinsBracket | src/app/components/UpgradeCard.tsx:34-51 | The only bracket for base 10, increment 10 and 1000 coins is 13 levels for 910 |
| UpgradeCard.NoCoinsBracket | src/app/components/UpgradeCard.tsx:34-51 | The only bracket for base 10, increment 10 and 0 coins is 0 levels for 0 |
| UpgradeCard.ThousandCoinsBuyThirteen | src/app/components/UpgradeCard.tsx:34-51 | Auto Clicker at level 0 with 1000 coins is quoted {10, affordable, 13, 910} |
| UpgradeCard.NoCoinsBuyNothing | src/app/components/UpgradeCard.tsx:34-51 | Auto Clicker at level 0 with 0 coins is quoted {10, not affordable, 0, 0} |
| UpgradeCard.AutoClickerQuotes | src/app/components/UpgradeCard.tsx:16-55 | Running the solver on those two inputs yields those two quotes |
| Achievements.MilestoneIndex | src/app/components/lib/Achievement.tsx:6-103 | Every condition belongs to one entry of the list |
| Achievements.AchievementsListWellFormed | src/app/components/lib/Achievement.tsx:6-103 | The list has twelve entries, none achieved, each with its own condition |
| Achievements.AchievementsListIdsDistinct | src/app/components/lib/Achievement.tsx:6-103 | The twelve ids are distinct |
| Achievements.CoinMilestonesNested | src/app/components/lib/Achievement.tsx:12-42 | Billionaire implies Millionaire, which implies Getting Rich, which implies First Click |
| Achievements.RebirthMilestonesNested | src/app/components/lib/Achievement.tsx:79-93 | Twenty rebirths imply five, which imply one |
| Achievements.UpgradeMilestonesNested | src/app/components/lib/Achievement.tsx:51-70 | A level sum >= 100 implies >= 10, which implies some level >= 1; in a valid state one level >= 10 already gives Upgrade Enthusiast |
| Achievements.SumOverNonNegative | src/app/components/lib/Achievement.tsx:60 | With non-negative levels, the sum of levels is non-negative |
| Achievements.SumOverBoundsLevel | src/app/components/lib/Achievement.tsx:60 | With non-negative levels, each level is at most the sum |
| Achievements.SumOverNoLevel | src/app/components/lib/Achievement.tsx:60 | When no level is positive, the sum is at most 0 |
| Achievements.SumLevels | src/app/components/lib/Achievement.tsx:60 | The loop over the upgrade map returns the sum of all its levels |
| Achievements.AnyLevelAtLeastOne | src/app/components/lib/Achievement.tsx:52 | The loop over the map returns true iff some level is >= 1 |
| Achievements.CheckCondition | src/app/components/lib/Achievement.tsx:12-101 | Evaluating an entry's condition on a state returns exactly whether the milestone holds |
| Achievements.UnlockAll | src/app/components/lib/Achievement.tsx:129-134 | UNLOCK's map keeps length, order, ids, texts and conditions, and sets achieved exactly on the entries with the id, keeping the rest |
| Achievements.SavedFlagsKeys | src/app/components/lib/Achievement.tsx:136-138 | The saved map has an id iff the payload lists it |
| Achievements.SavedFlagsLastWins | src/app/components/lib/Achievement.tsx:136-138 | For an id listed more than once, the map keeps the last entry's flag |
| Achievements.LastOccurrence | src/app/components/lib/Achievement.tsx:136-138 | A listed id has a last occurrence in the payload |
| Achievements.Hydrate | src/app/components/lib/Achievement.tsx:140-143 | LOAD_SAVED keeps length, order, ids, titles, descriptions and conditions |
| Achievements.HydrateFlags | src/app/components/lib/Achievement.tsx:135-145 | An entry missing from the payload keeps its flag; one present takes the flag of its last occurrence |
| Achievements.SavedFlagsAppendOther | src/app/components/lib/Achievement.tsx:136-138 | Saved entries with other ids do not change an id's flag |
| Achievements.HydrateIgnoresUnknownIds | src/app/components/lib/Achievement.tsx:135-145 | Saved entries with ids not in the list are ignored |
| Achievements.ReduceAchievements | src/app/components/lib/Achievement.tsx:127-149 | Both actions keep the entries and distinct ids, and UNLOCK never clears a flag |
| Achievements.UnlockIdempotent | src/app/components/lib/Achievement.tsx:129-134 | UNLOCK twice equals UNLOCK once |
| Achievements.UnlockCommutes | src/app/components/lib/Achievement.tsx:129-134 | Two UNLOCKs give the same list in either order |
| Achievements.Saved | src/app/components/lib/Achievement.tsx:162 | The stored list carries each entry's id and flag, in order, and when the ids are distinct the map read back from it gives every entry's id that entry's own flag |
| Achievements.SavedFlagsDistinct | src/app/components/lib/Achievement.tsx:136-138 | When no two saved entries share an id, every saved id maps to its own entry's flag |
| Achievements.SaveThenLoadRestores | src/app/components/lib/Achievement.tsx:135-145 | Loading a saved copy of a list with the same entries and distinct ids restores that list exactly |
| AchievementStore.ApplyAllKeepsEntries | src/app/components/lib/Achievement.tsx:127-149 | Any sequence of actions keeps the list's entries and distinct ids |
| AchievementStore.Store.constructor | src/app/components/lib/Achievement.tsx:118-120 | The store starts from the static list with an empty log |
| AchievementStore.Store.Dispatch | src/app/components/lib/Achievement.tsx:152 | Dispatching appends the action and applies the reducer, so the state stays the fold over the log |
| Navigation.RebirthDispatches | src/app/components/Navigation.tsx:29-38 | A click dispatches no action or exactly three |
| Navigation.ButtonVisibleIffRebirthDispatches | src/app/components/Navigation.tsx:42 | The button is shown iff a click would dispatch, iff coins >= the price (100000 at 0 rebirths, so 99999 dispatches nothing) |
| Navigation.UnaffordableRebirthChangesNothing | src/app/components/Navigation.tsx:30-33 | Below the price nothing is dispatched and the state is unchanged |
| Navigation.RebirthSteps | src/app/components/Navigation.tsx:35-37 | The three dispatches are RemoveCoins(price), AddRebirth, ResetProgress, in that order |
| Navigation.RebirthNetEffect | src/app/components/Navigation.tsx:35-37 | A rebirth's net effect is one more rebirth, coins 0, no upgrades, no airdrops, with clicks and the lucky flag kept |
| Navigation.HandleRebirthClick | src/app/components/Navigation.tsx:29-38 | The handler appends exactly those dispatches to the store's log and leaves the state they produce |
| Game.NewlyUnlocked | src/app/components/Game.tsx:22-27 | A scan unlocks at most as many entries as the list has |
| Game.NewlyUnlockedExactly | src/app/components/Game.tsx:22-24 | The scan unlocks an entry iff it is not achieved and its condition holds |
| Game.ToastPerUnlock | src/app/components/Game.tsx:24-25 | Each unlock comes with one toast carrying that entry's id, title and description, in the same position |
| Game.VisitAchievement | src/app/components/Game.tsx:23-26 | One entry adds its UNLOCK and its toast when eligible, and nothing otherwise |
| Game.EvaluateAchievements | src/app/components/Game.tsx:21-28 | The scan adds exactly one UNLOCK and one toast per eligible entry, in list order, and no dispatch or toast otherwise |
| Game.UnlockNext | src/app/components/Game.tsx:24 | With distinct ids, unlocking the next eligible entry touches only that entry |
| Game.ScanEffect | src/app/components/Game.tsx:22-27 | After the scan, each entry is achieved iff it was already or its condition holds, so no flag goes from true to false |
| Game.NothingToUnlock | src/app/components/Game.tsx:23 | When every entry is achieved or its condition fails, the scan unlocks nothing |
| Game.ScanSettles | src/app/components/Game.tsx:21-28 | Re-running the scan on the same game state after its unlocks dispatches nothing more |
| JsStrings.TrimStart | src/app/components/Terminal.tsx:164 | The result is a suffix of the input, what is cut is whitespace, and the result does not start with whitespace |
| JsStrings.TrimEnd | src/app/components/Terminal.tsx:164 | The result is a prefix of the input, what is cut is whitespace, and the result does not end with whitespace |
| JsStrings.SpaceRunFrom | src/app/components/Terminal.tsx:164 | The index ends a run of whitespace from the start index, and the next character, if any, is not whitespace |
| JsStrings.SpaceRunBefore | src/app/components/Terminal.tsx:164 | The index starts a run of whitespace up to the end index, and the character before it, if any, is not whitespace |
| JsStrings.Trim | src/app/components/Terminal.tsx:164 | The result is the input between a leading and a trailing run of whitespace, and has no whitespace at either end |
| JsStrings.TrimOfTrimmed | src/app/components/Terminal.tsx:164 | A string with no whitespace at either end is its own trim |
| JsStrings.TrimIdempotent | src/app/components/Terminal.tsx:164 | Trimming twice equals trimming once |
| JsStrings.Split | src/app/components/Terminal.tsx:164 | Splitting gives at least one part, and no part contains the separator |
| JsStrings.JoinSplit | src/app/components/Terminal.tsx:164 | Joining the parts of a split with the separator gives back the string |
| JsStrings.SplitJoin | src/app/components/Terminal.tsx:164 | Splitting a join of parts without the separator gives back the parts |
| JsStrings.SplitAfter | src/app/components/Terminal.tsx:164 | Splitting a string whose first separator ends a separator-free piece gives that piece followed by the split of the rest |
| JsStrings.ParseIntToString | src/app/components/Terminal.tsx:29-37 | parseInt reads back every integer the template literal renders |
| JsStrings.ParseIntStopsAtNonDigit | src/app/components/Terminal.tsx:29 | parseInt reads the longest digit prefix: "12abc" gives 12 |
| JsStrings.ParseIntNoLeadingDigit | src/app/components/Terminal.tsx:29-30 | Text with no digit after its leading whitespace (and no sign) parses to NaN |
| JsStrings.ParseIntUndefined | src/app/components/Terminal.tsx:29-30 | A missing argument, read as "undefined", parses to NaN |
| JsStrings.ParseIntHex | src/app/components/Terminal.tsx:29 | A 0x prefix reads hexadecimal: "0x1F" gives 31 |
| JsStrings.NatToString | src/app/components/Terminal.tsx:37 | A rendered natural number is one or more decimal digits |
| JsStrings.DigitsValueOfNatToString | src/app/components/Terminal.tsx:37 | The rendered digits have the number as their decimal value |
| Terminal.FindCommand | src/app/components/Terminal.tsx:170-171 | The lookup returns a command of the table with that name, and none iff no command has it |
| Terminal.FindCommandFirst | src/app/components/Terminal.tsx:170-171 | The command found is the first of the table with that name: no earlier command has it |
| Terminal.FindSub | src/app/components/Terminal.tsx:174-175 | The lookup returns a subcommand with that name, and none iff no subcommand has it |
| Terminal.FindSubFirst | src/app/components/Terminal.tsx:174-175 | The subcommand found is the first with that name: no earlier subcommand has it |
| Terminal.CommandLookup | src/app/components/Terminal.tsx:20-91 | The table resolves coins, reset, clear and help to their entries and every other name to nothing |
| Terminal.CoinsLookup | src/app/components/Terminal.tsx:24-68 | coins resolves add, remove and reset to its three subcommands and every other name to nothing |
| Terminal.Tokens | src/app/components/Terminal.tsx:164 | A line always has a first word |
| Terminal.TokensOfJoin | src/app/components/Terminal.tsx:164 | A line made of space-free words joined by single spaces, with no blank ends, splits back into those words |
| Terminal.InterpretActions | src/app/components/Terminal.tsx:163-194 | A line dispatches at most one action, and only AddCoins, RemoveCoins, ResetProgress or ResetGame |
| Terminal.RunHandlerActions | src/app/components/Terminal.tsx:26-90 | A run function dispatches at most a coin change or a reset; clear and help dispatch nothing |
| Terminal.UnknownCommand | src/app/components/Terminal.tsx:171-172 | An unknown first word logs "<cmd>: command not found" and dispatches nothing |
| Terminal.UnknownSubcommand | src/app/components/Terminal.tsx:174-184 | coins with an unknown non-empty second word logs "<sub>: subcommand not found" and dispatches nothing |
| Terminal.MissingSubcommand | src/app/components/Terminal.tsx:185-193 | coins with no (or an empty) second word logs "coins: missing subcommand" and dispatches nothing |
| Terminal.AmountHandlers | src/app/components/Terminal.tsx:26-59 | coins add and coins remove dispatch AddCoins or RemoveCoins of the parsed amount with a confirmation when the parse is not NaN, and otherwise log their usage line and dispatch nothing |
| Terminal.MessagesPrinted | src/app/components/Terminal.tsx:38-56 | Neither the confirmation nor the usage line of coins add and coins remove is the clear marker, so each is printed |
| Terminal.ExecuteAmount | src/app/components/Terminal.tsx:174-184 | The words coins add/remove run that handler on the words after them |
| Terminal.CoinsAmount | src/app/components/Terminal.tsx:26-59 | A coins add/remove line has exactly that outcome for its third word |
| Terminal.CoinsAddExample | src/app/components/Terminal.tsx:26-41 | "coins add 1000" dispatches AddCoins(1000) and logs "✔ Added 1000 coins" |
| Terminal.ExecuteThousand | src/app/components/Terminal.tsx:26-41 | The words coins, add, 1000 have that outcome |
| Terminal.AmountOfThousand | src/app/components/Terminal.tsx:29-37 | The amount text "1000" gives AddCoins(1000) and its confirmation |
| Terminal.ThousandRendered | src/app/components/Terminal.tsx:37 | 1000 renders as "1000" and -5 as "-5" |
| Terminal.CoinsAddWithoutAmount | src/app/components/Terminal.tsx:29-40 | "coins add" with no amount logs "✖ Invalid amount. Usage: coins add <amount>" and dispatches nothing |
| Terminal.AmountMissing | src/app/components/Terminal.tsx:29-40 | The missing amount, read as "undefined", gives the usage line |
| Terminal.NegativeAddLowersCoins | src/app/components/Terminal.tsx:26-41 | "coins add -5" dispatches AddCoins(-5), which lowers the coins by 5 and from 0 leaves an invalid state |
| Terminal.AmountOfMinusFive | src/app/components/Terminal.tsx:29-37 | The amount text "-5" gives AddCoins(-5) |
| Terminal.CoinsResetCommand | src/app/components/Terminal.tsx:62-67 | "coins reset" dispatches ResetProgress and logs nothing |
| Terminal.ExecuteCoinsReset | src/app/components/Terminal.tsx:62-67 | The words coins, reset dispatch ResetProgress |
| Terminal.ResetCommand | src/app/components/Terminal.tsx:70-76 | "reset" dispatches ResetGame and logs nothing |
| Terminal.ClearCommand | src/app/components/Terminal.tsx:77-81 | "clear" empties the log and dispatches nothing |
| Terminal.HelpCommand | src/app/components/Terminal.tsx:82-90 | "help" logs the help lines of the table and dispatches nothing |
| Terminal.HelpLinesArePrinted | src/app/components/Terminal.tsx:86-88 | No help line is the clear marker, so help only appends |
| Terminal.CommandNamesPlain | src/app/components/Terminal.tsx:20-91 | Every command name is non-empty and does not start with an underscore |
| Terminal.LoggedAllAppends | src/app/components/Terminal.tsx:177-181 | Messages other than the clear marker are appended to the log in order |
| Terminal.LoggedAll | src/app/components/Terminal.tsx:177-181 | One log change per message |
| Terminal.SubLines | src/app/components/Terminal.tsx:88 | One indented "name - description" line per subcommand, none of which is the clear marker |
| Terminal.Complete | src/app/components/Terminal.tsx:206-214 | The completion is "" when no name starts with the prefix, and otherwise prefix + completion is the first name that does |
| Terminal.CommandNames | src/app/components/Terminal.tsx:206 | The names of the commands, in table order: a name is among them exactly when the lookup by name finds a command |
| Terminal.SubNames | src/app/components/Terminal.tsx:212 | The names of the subcommands, in table order: a name is among them exactly when the lookup by name finds a subcommand |
| Terminal.SuggestionCompletesCommand | src/app/components/Terminal.tsx:205-208 | For one word, a non-empty suggestion completes the word to a command name, and an empty one means no command extends it beyond itself |
| Terminal.FirstStarting | src/app/components/Terminal.tsx:206-207 | When some name starts with the prefix, there is a first one |
| Terminal.SuggestEmpty | src/app/components/Terminal.tsx:198-201 | An empty input gives an empty suggestion |
| Terminal.SuggestCommandExamples | src/app/components/Terminal.tsx:205-208 | "co" suggests "ins" and "x" suggests nothing |
| Terminal.SuggestSubcommandExample | src/app/components/Terminal.tsx:209-214 | "coins a" suggests "dd" |
| Terminal.SuggestKeepsExample | src/app/components/Terminal.tsx:209-216 | A second word after a command without subcommands keeps the suggestion |
| Terminal.CursorUp | src/app/components/Terminal.tsx:237 | ArrowUp moves the cursor to min(place + 1, length - 1) |
| Terminal.CursorDown | src/app/components/Terminal.tsx:248 | ArrowDown moves the cursor to max(place - 1, 0) |
| Terminal.CursorStaysInHistory | src/app/components/Terminal.tsx:233-253 | From a valid cursor both keys land on an entry, and ArrowUp stops only at the oldest entry |
| Terminal.TerminalView.constructor | src/app/components/Terminal.tsx:100-119 | The window starts with the banner, empty input, suggestion and history, and cursor -1 |
| Terminal.TerminalView.Log | src/app/components/Terminal.tsx:177-181 | The log callback empties the log on the marker and appends any other message |
| Terminal.TerminalView.RunHelp | src/app/components/Terminal.tsx:85-89 | help appends each command's line followed by its subcommands' lines |
| Terminal.TerminalView.LogCommands | src/app/components/Terminal.tsx:85-89 | Logging the help of a table of commands appends each command's lines in table order |
| Terminal.TerminalView.LogCommand | src/app/components/Terminal.tsx:86-87 | One command's help is its "name - description" line followed by its subcommands' lines |
| Terminal.TerminalView.LogSubcommands | src/app/components/Terminal.tsx:87 | Each subcommand adds its indented "name - description" line, in order |
| Terminal.TerminalView.Run | src/app/components/Terminal.tsx:26-90 | A run function changes the log and the store exactly as its outcome says |
| Terminal.TerminalView.RunAmount | src/app/components/Terminal.tsx:28-59 | coins add and coins remove change the log and the store exactly as AmountOutcome says: dispatch and confirm a parsed amount, or log the usage |
| Terminal.TerminalView.RunCommand | src/app/components/Terminal.tsx:163-194 | The line is prepended to the history, and the log and the store change exactly as the interpreter's outcome says |
| Terminal.TerminalView.Submit | src/app/components/Terminal.tsx:306-312 | A blank input changes nothing; otherwise the prompt line is logged, the line is run and recorded, and the input is emptied |
| Terminal.TerminalView.InputChange | src/app/components/Terminal.tsx:196-217 | The input takes the new value and the suggestion is Suggest's result |
| Terminal.TerminalView.KeyDown | src/app/components/Terminal.tsx:219-254 | Tab and ArrowRight accept a pending suggestion; ArrowUp and ArrowDown, with a non-empty history, move the cursor and show that entry; everything else is unchanged |

## Left out

- React rendering: JSX, CSS classes, the terminal window's dragging,
  minimising and opening shortcut, focus, scrolling and toast animation. They
  are presentation.
- Persistence. Reading and writing localStorage with JSON is I/O. Loading is
  modelled only as the LOAD_SAVED merge. The saved payload is a list of
  (id, achieved) pairs; any other saved fields are ignored, as the merge
  ignores them.
- Timers and randomness. The one-second passive tick, the airdrop spawner and
  the toast timeouts are scheduling. `Math.random` is a parameter of the gain
  calculator.
- Floating point. Coins and effect values are exact reals. The model does not
  claim bit-exact agreement with IEEE rounding of the 0.05, 0.02 and 0.1
  steps. Number formatting (`formatNumber`) is not modelled.
  UpgradeCard.SearchBulk and SeriesTotal use exact integer sums. With no
  maximum level the source searches up to 1e9 levels, and once the coins pass
  about 9e15 its `mid * (firstCost + lastCost) / 2` goes past 2^53 and is
  rounded in doubles; the model does not capture that rounding.
- React's update batching. Dispatches and state setters are applied at once,
  in call order. For the terminal log this matches React, which applies
  queued updates in order (a clear replaces the log, later appends extend it).
- `console.log` when a rebirth is unaffordable, and the rebirth button's
  label. They are output only.
- The upgrade card's effect-description text.
- The achievement reducer's default branch. The model's action type has only
  UNLOCK and LOAD_SAVED, so that branch cannot be reached. The optional `icon`
  field of an achievement is not modelled.
- The terminal banner's text. It is a parameter of the constructor.
- UpgradeCard.ComputeQuote: requires a non-zero price when the increment is
  0. With price 0 the source divides by zero and gets Infinity or NaN. No
  catalog entry has increment 0.
- JsStrings.ParseInt: exact on unbounded integers. It does not model the loss
  of precision above 2^53. NatToString does not model the exponent notation
  JavaScript uses from 1e21 upwards.
- Test.tsx duplicates the unlock scan for debugging. CoinClicker.tsx and
  AirDrop.tsx only dispatch actions the reducer model covers. Stats, Store and
  the achievements tab are presentation. None of these is part of this model.
