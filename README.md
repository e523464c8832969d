# FleaMarketBot core, modelled in Dafny

FleaMarketBot combines a stock-quote WebSocket service and a browser RPG with a player-to-player
market. This project models the core of both parts and proves properties about the model:

- **Quote subscriptions** (`backend/main.py`). The `ConnectionManager` registry maps each connection
  to its set of upper-cased ticker symbols. The endpoint's receive loop turns messages into registry
  changes plus one immediate push. One tick of the 10-second price updater pushes a quote for every
  (connection, symbol) pair. Module `Quotes`, class `Quotes.ConnectionManager`.
- **Server economy routes** (`server/routes/*.js`). Each route is a guarded transition over per-user
  player saves (gold, inventory, level, capacity) and rows whose `status` only moves out of
  `pending`/`active`:
  - market listing, buying and cancelling (`Market.MarketRoutes`);
  - friend-to-friend barter (`Trades`);
  - friend invites (`Invites`);
  - daily-login streaks (`DailyRewards`).
  Player saves are shared in `ServerSaves`.
- **Client game engine.**
  - The React reducer (`GameReducer`) and the older imperative canvas engine (`Engine.Game`). Both use
    the same hero transitions.
  - Skill effects (`SkillEffects`), passives (`Passives`), combat formulas (`Combat`).
  - Loot and shops (`Loot`, `GameData`, `JsData`), monster scaling (`Scaling`).
  - Seeded task selection (`Tasks`), base-building buffs (`BaseData`), skill-tree lookups (`SkillTrees`).
  - The market screen's sorting, categories and price check (`MarketScreen`).
  - Helpers: the uid counters, the weighted pick and the Lehmer generator (`Utils`). Game records
    shared by the client modules are in `GameTypes`. `Common` holds option/result types and integer
    helpers.

Imperative source code is modelled as classes with `modifies` clauses and loops with invariants. Each
method is proved against a specification function, and the properties are proved about those
functions. Pure source code is modelled as functions and lemmas.

## Model

| member | source | states |
|---|---|---|
| Quotes.Upper | backend/main.py:155 | `str.upper()` on the ASCII letters: same length, each of a-z becomes its capital, every other character is kept, and no lower-case ASCII letter remains |
| Quotes.UpperIdempotent | backend/main.py:178 | upper-casing twice is the same as once, so the endpoint's `.upper()` and the registry's `.upper()` agree |
| Quotes.UpperExample | backend/main.py:155-159 | "aapl" and "AAPL" name the same subscription |
| Quotes.ConnectSpec | backend/main.py:145-147 | connect registers the connection with an empty set and keeps every other connection's set |
| Quotes.DisconnectSpec | backend/main.py:149-151 | disconnect removes exactly that connection and its set; absent connection: no change |
| Quotes.SubscribeSpec | backend/main.py:153-155 | subscribe adds the upper-cased symbol to that connection only; unregistered connection: no change |
| Quotes.UnsubscribeSpec | backend/main.py:157-159 | unsubscribe discards the upper-cased symbol, no error when absent; other connections unchanged; unregistered: no change |
| Quotes.SubscribeThenUnsubscribe | backend/main.py:153-159 | subscribing to a new symbol and unsubscribing from any spelling with the same upper case restores the registry |
| Quotes.SubscribeAaplUnsubscribeAapl | backend/main.py:153-159 | subscribe "aapl" then unsubscribe "AAPL" gives back the registry from before |
| Quotes.Decode | backend/main.py:173-190 | a close ends the loop; an unparseable or non-object message escapes it; subscribe yields a non-empty upper-case symbol; other actions are ignored |
| Quotes.SubscribeWithoutSymbolIgnored | backend/main.py:177-180 | a subscribe with a missing or empty symbol does nothing |
| Quotes.SubscribeDecodes | backend/main.py:177-180 | a subscribe with a non-empty symbol subscribes to its upper-cased form |
| Quotes.InitialPush | backend/main.py:182-186 | the push after a subscribe is the quote when the lookup succeeds, else the error "Invalid symbol: SYM" |
| Quotes.SubscribeReply | backend/main.py:182-186 | the quote is sent exactly when its send succeeds; a failed lookup or a failed quote send is answered with "Invalid symbol: SYM"; the endpoint escapes exactly when that send fails too, and then nothing is sent |
| Quotes.StepOutcome | backend/main.py:172-193 | a pass ends the loop as a disconnect exactly on a client close, and escapes exactly on a bad frame or a subscribe whose reply cannot be sent |
| Quotes.StepPushes | backend/main.py:177-190 | one pass sends at most one message, only on its own connection, and only for a subscribe |
| Quotes.Run | backend/main.py:172-193 | the receive loop on values handles at most the given events, and all of them when it does not stop early |
| Quotes.RunOnlySendsOnWs | backend/main.py:172-193 | serving one connection only appends to the outbox, and only messages on that connection |
| Quotes.RunKeepsOthers | backend/main.py:172-193 | however the endpoint of one connection ends, every other connection keeps its symbol set |
| Quotes.StepKeepsOthers | backend/main.py:153-159 | an event on one connection never changes any other connection's set |
| Quotes.StepKeys | backend/main.py:168-193 | only a disconnect removes a connection, and no event adds one |
| Quotes.TickPushes | backend/main.py:200-206 | a tick pushes at most one message per visited pair |
| Quotes.TickPushesFromVisited | backend/main.py:200-206 | every pushed message is a successful quote for a visited pair, sent to that pair's connection; failures are swallowed |
| Quotes.TickPushesAppend | backend/main.py:200-206 | the pushes of a walk split at any point into the pushes of its parts, so one failure does not stop the rest |
| Quotes.ConnectionManager.constructor | backend/main.py:142-143 | the registry starts empty |
| Quotes.ConnectionManager.Connect | backend/main.py:145-147 | the new registry is `ConnectSpec` of the old one |
| Quotes.ConnectionManager.Disconnect | backend/main.py:149-151 | the new registry is `DisconnectSpec` of the old one |
| Quotes.ConnectionManager.Subscribe | backend/main.py:153-155 | the new registry is `SubscribeSpec` of the old one |
| Quotes.ConnectionManager.Unsubscribe | backend/main.py:157-159 | the new registry is `UnsubscribeSpec` of the old one |
| Quotes.ConnectionManager.SendUpdate | backend/main.py:161-162 | appends exactly one message for that connection to the outbox |
| Quotes.ConnectionManager.HandleEvent | backend/main.py:174-190 | one loop pass: the registry steps by the decoded action, the outbox gains exactly the subscribe's reply, and the loop goes on, escapes or ends as `StepOutcome` says |
| Quotes.ConnectionManager.Serve | backend/main.py:168-193 | the final registry, outbox, outcome and event count are those of `Run` from the freshly connected registry; after a close the connection is gone, and after an escaping exception it stays registered |
| Quotes.ConnectionManager.TickConnection | backend/main.py:201-206 | the inner loop fetches each symbol of one connection exactly once |
| Quotes.ConnectionManager.Tick | backend/main.py:196-206 | one tick fetches each (connection, symbol) pair of the snapshot exactly once and pushes only successful quotes |
| ServerSaves.EffectiveLevel | server/routes/market.js:138 | a missing (zero) level counts as 1, any other level as itself |
| ServerSaves.Capacity | server/routes/market.js:280 | a missing (zero) capacity counts as 20, any other as itself |
| ServerSaves.FindIndex | server/routes/market.js:150 | the first index holding the id, or -1 exactly when no entry has it |
| Market.ListingFee | server/routes/market.js:157 | the fee is at least 1 and is the price divided by 20, floored, from a price of 20 up |
| Market.SaleTax | server/routes/market.js:296 | the tax is at least 1, is the price divided by 10, floored, and is below any allowed price |
| Market.ItemCategory | server/routes/market.js:104-114 | the type is checked before the slot: 'potions' for a potion, 'energy-drinks' for an energy drink, otherwise the category named after the gear slot, and 'misc' exactly for items with neither a known type nor a gear slot |
| Market.GearCategoriesDistinct | server/routes/market.js:107-112 | two gear items of any non-consumable type share a category exactly when they share a slot |
| Market.SlotOfCategory | server/routes/market.js:107-112 | a category leads back to a gear slot exactly when it is one of the six gear categories |
| Market.SlotRecovered | server/routes/market.js:104-114 | a gear item's category names its slot, whatever its type |
| Market.SwordIsWeapon | server/routes/market.js:104-108 | a dropped sword (type 'sword', slot 'weapon') is listed under 'weapons' |
| Market.ListErrorStatus | server/routes/market.js:120-160 | only the level check answers 403; every other refusal answers 400 |
| Market.ListCheck | server/routes/market.js:120-160 | a listing is accepted exactly when: the item id is given, the price is within [10, 999999], the save exists, level ≥ 10, fewer than 8 active listings, the item is held and gold covers the fee; a missing id and a bad price are the first refusals |
| Market.NewListing | server/routes/market.js:169-178 | the inserted row is active, unsold, at the floored price, with the category and the defaults for rarity, level and name |
| Market.ListSucceeds | server/routes/market.js:162-186 | a listing removes exactly that one inventory entry, lowers gold by exactly the fee without going negative, adds one active listing and touches no other save |
| Market.BuyErrorStatus | server/routes/market.js:248-289 | a missing listing answers 404, a low level 403, missing seller data 500, the rest 400 |
| Market.BuyCheck | server/routes/market.js:249-289 | a purchase is accepted exactly when the listing exists and is active, the buyer is not the seller, has level ≥ 10, enough gold and a free slot, and the seller's save exists |
| Market.BuySucceeds | server/routes/market.js:293-312 | the buyer pays the price, the seller gets the price less the tax, so together they lose exactly the tax; the buyer gains the item and the listing is sold to them |
| Market.CancelErrorStatus | server/routes/market.js:325-348 | a missing listing answers 404, another user's listing 403, the rest 400 |
| Market.CancelCheck | server/routes/market.js:325-348 | a cancel is accepted exactly for the seller, while the listing is active and their inventory has room |
| Market.CancelReturnsItem | server/routes/market.js:350-360 | a cancel returns the item to the seller's inventory, keeps their gold and marks the listing cancelled |
| Market.RoutesKeepInvariant | server/routes/market.js:117-361 | every route keeps the table invariant, and a sold or cancelled listing never changes again |
| Market.RefusalsChangeNothing | server/routes/market.js:117-361 | a refused list, buy or cancel leaves every table as it was |
| Market.MarketRoutes.constructor | server/routes/market.js:1-11 | the market starts with no listings |
| Market.MarketRoutes.List | server/routes/market.js:117-187 | the route's step-by-step updates give the tables and response of `ListSpec` |
| Market.MarketRoutes.Buy | server/routes/market.js:248-321 | the route's step-by-step updates give the tables and response of `BuySpec` |
| Market.MarketRoutes.Cancel | server/routes/market.js:324-361 | the route's step-by-step updates give the tables and response of `CancelSpec` |
| Trades.ClampGold | server/routes/trades.js:97 | a client's gold amount becomes its floor, and never less than 0; a missing amount is 0 |
| Trades.RemoveIds | server/routes/trades.js:233-234 | the filter keeps only inventory entries whose id is not given away |
| Trades.KeepIds | server/routes/trades.js:233-234 | the complementary filter keeps only the entries given away |
| Trades.SplitByIds | server/routes/trades.js:233-241 | the two filters split an inventory: nothing is lost and nothing is made up |
| Trades.RemoveIdsCount | server/routes/trades.js:218-219 | with distinct ids, removing ids that are all held removes exactly that many entries, the size the route predicts |
| Trades.SendErrorStatus | server/routes/trades.js:89-132 | only a missing friendship answers 403; every other refusal answers 400 |
| Trades.SendCheck | server/routes/trades.js:89-132 | an offer is accepted exactly when: the recipient is given, non-zero and not the sender, something is offered, the two are friends either way, the sender has the gold, and the offered ids are distinct and all held |
| Trades.SendKeepsInv | server/routes/trades.js:134-135 | sending inserts one new pending trade between friends and changes no save |
| Trades.AcceptErrorStatus | server/routes/trades.js:154-226 | a missing trade answers 404, another user's trade 403, the rest 400 |
| Trades.AcceptCheck | server/routes/trades.js:154-226 | an accept passes only for the recipient of a pending trade when both saves exist, the sender still covers the offer, the return ids are distinct and held, the return gold is covered and both predicted sizes fit, and it passes whenever all of these hold; a stale offer is refused as such |
| Trades.AcceptCompletes | server/routes/trades.js:228-252 | a completed trade keeps the two players' combined gold, leaves neither negative, swaps the items and marks the trade completed; other saves are untouched |
| Trades.AcceptRespectsCapacity | server/routes/trades.js:214-226 | when both inventories hold distinct ids, neither side ends above its capacity |
| Trades.StaleOfferCancelled | server/routes/trades.js:185-196 | an offer the sender can no longer cover is cancelled and no save changes |
| Trades.ForgedReturnItem | server/routes/trades.js:205-235 | as written, the sender can receive a client-made item object that only shares its id with a held item |
| Trades.CorrectedAcceptConservesItems | server/routes/trades.js:228-242 | when the handed-over items are the stored inventory entries, the two inventories together keep exactly their items, and the combined gold is kept |
| Trades.CloseErrorStatus | server/routes/trades.js:258-285 | a missing trade answers 404 and the wrong party 403 |
| Trades.CloseOnlyPending | server/routes/trades.js:258-289 | decline (recipient) and cancel (sender) succeed exactly on a pending trade of the right party, set declined or cancelled and touch no save; a refusal changes nothing |
| Trades.SendKeepsSettled | server/routes/trades.js:86-136 | sending never changes a trade that has left pending |
| Trades.AcceptKeepsSettled | server/routes/trades.js:153-255 | accepting never changes a trade that has left pending, and keeps the stored-offer invariant |
| Trades.CloseKeepsSettled | server/routes/trades.js:258-289 | declining and cancelling never change a trade that has left pending |
| Trades.TradeRoutes.constructor | server/routes/trades.js:1-20 | no trades at first |
| Trades.TradeRoutes.Send | server/routes/trades.js:86-136 | the route's steps give the tables and response of `SendSpec` |
| Trades.ZeroRecipientRequired | server/routes/trades.js:89-91 | a recipient id of 0 is refused with 400 "Recipient is required" and changes no table, as the falsy test does |
| Trades.TradeRoutes.Accept | server/routes/trades.js:153-255 | the route's steps give the tables and response of `AcceptSpec` |
| Trades.TradeRoutes.Close | server/routes/trades.js:258-289 | the decline and cancel routes give the tables and response of `CloseSpec` |
| Invites.AcceptedPairs | server/routes/invites.js:50-52 | the (from, to) pairs of exactly the accepted invites, which decide who may trade |
| Invites.SendErrorStatus | server/routes/invites.js:71-93 | an unknown player answers 404, "already friends" and "already sent" 409, the rest 400 |
| Invites.SendCheck | server/routes/invites.js:71-93 | an invite is sent exactly when a username is given, the user exists, is not the sender, is not already a friend in either direction, and no row exists for the ordered pair; self-invites are refused as such |
| Invites.SendKeepsInv | server/routes/invites.js:90-95 | sending keeps one row per ordered pair (the insert-or-ignore of line 11) and never stores a self-invite |
| Invites.DeclinedInviteBlocksResend | server/routes/invites.js:90-93 | after a declined invite, inviting the same user again is refused as already sent (the pair's row is kept by the insert-or-ignore of line 11) and changes nothing |
| Invites.AnswerErrorStatus | server/routes/invites.js:109-118 | a missing invite answers 404, another user's invite 403, a handled one 400 |
| Invites.AnswerEffects | server/routes/invites.js:108-139 | accept and decline succeed exactly for the recipient of a pending invite; they set only the status, and an accepted invite makes the two friends both ways; a refusal changes nothing |
| Invites.DecidedInvitesStay | server/routes/invites.js:116-135 | an accepted or declined invite never changes again under any route |
| Invites.InviteRoutes.constructor | server/routes/invites.js:1-13 | no invites at first |
| Invites.InviteRoutes.Send | server/routes/invites.js:69-96 | the route's steps give the table and response of `SendSpec` |
| Invites.InviteRoutes.Answer | server/routes/invites.js:108-139 | the accept and decline routes give the table and response of `AnswerSpec` |
| DailyRewards.Latest | server/routes/dailyRewards.js:8-10 | the user's row with the latest day, or none exactly when the user has no row |
| DailyRewards.StatusOf | server/routes/dailyRewards.js:47-54 | with no login history the status is streak 0, reward day 0, not claimed today |
| DailyRewards.StatusMeaning | server/routes/dailyRewards.js:56-61 | the stored streak and reward day are reported exactly when the latest claim was today or yesterday, otherwise 0 and 0; claimed-today means the latest row is today's |
| DailyRewards.NextStreak | server/routes/dailyRewards.js:85-96 | after yesterday's claim: streak + 1 and reward day + 1, wrapping from 30 to 1; otherwise 1 and 1 |
| DailyRewards.ClaimKeepsInv | server/routes/dailyRewards.js:81-98 | a claim adds exactly one row, today's, with a reward day in 1..30; a refused claim adds nothing |
| DailyRewards.StepCycle | server/routes/dailyRewards.js:93 | stepping the reward day with wrap-around is counting the streak modulo 30 |
| DailyRewards.ConsecutiveClaim | server/routes/dailyRewards.js:88-94 | a claim the day after the last continues both the streak and the reward day, wrapping from 30 to 1 |
| DailyRewards.ClaimThenStatus | server/routes/dailyRewards.js:56-83 | a claim shows in the status at once, and a second claim the same day is refused |
| DailyRewards.BrokenStreakResets | server/routes/dailyRewards.js:85-95 | a first claim or one after a gap starts again at streak 1, reward day 1 |
| DailyRewards.DailyLogins.constructor | server/routes/dailyRewards.js:8-16 | no logins at first |
| DailyRewards.DailyLogins.Claim | server/routes/dailyRewards.js:76-105 | the route's steps give the rows and response of `ClaimSpec` |
| Common.FloorFrac | src/hooks/useGameState.js:357 | `Math.floor(x * rate)` for a rational rate num/den: the largest integer whose product with den does not exceed x·num |
| Common.FloorFracBounds | src/hooks/useGameState.js:357-358 | a rate between 0 and 1 of a non-negative amount stays between 0 and the amount |
| Common.FloorFracMono | src/engine/scaling.js:8 | a larger rate never gives a smaller floored amount |
| Common.FloorFracGrows | src/engine/scaling.js:28 | a rate of at least 1 never lowers a non-negative amount |
| Common.ISqrt | src/data/gameData.js:107 | the integer square root: the largest r with r·r ≤ n, the form `Math.pow(level, 1.5)` is floored through |
| Common.ISqrtUnique | src/data/gameData.js:107 | only one number has the square-root property, so the floor of 50·level^1.5 is well defined |
| Common.ISqrtMaximal | src/data/gameData.js:107 | every number whose square fits under n is at most its square root |
| Common.RemoveAt | src/hooks/useGameState.js:159-160 | removing one index keeps the order of the rest and removes exactly that element from the multiset |
| Utils.Decimal | src/engine/utils.js:6 | `String(n)` of a counter is a non-empty run of decimal digits |
| Utils.DecimalInjective | src/engine/utils.js:6 | different counters print differently |
| Utils.UidTextDistinct | src/engine/utils.js:5-7 | two uids with different counters differ, whatever the clock said |
| Utils.UidCounter.constructor | src/engine/utils.js:3 | the module counter starts at 0 |
| Utils.UidCounter.Uid | src/engine/utils.js:5-7 | `uid()` increments the counter by one and returns the text of the new value |
| Utils.SuccessiveUidsDiffer | src/engine/utils.js:5-7 | two successive `uid()` calls return different ids |
| Utils.PickFrom | src/engine/utils.js:12-16 | the loop returns an index of the list, and the last one when the weights run out |
| Utils.PickIndex | src/engine/utils.js:9-17 | `pickWeighted` always returns an element of a non-empty list |
| Utils.PickFromMeaning | src/engine/utils.js:12-16 | from any start, the chosen index is the first whose running total reaches the roll, else the last |
| Utils.PickIndexMeaning | src/engine/utils.js:9-17 | the chosen index is the first whose running total of weights reaches the roll; when none does, the last |
| Utils.PickWeighted | src/engine/utils.js:9-17 | the summing loop and the subtracting loop give the total and `PickIndex` of the scaled roll |
| Utils.JsRem | src/engine/utils.js:23 | JavaScript `%`: the Euclidean remainder for a non-negative dividend, a non-positive one otherwise |
| Utils.LehmerStep | src/engine/utils.js:23 | one step `s ← s·16807 mod 2147483647` keeps a non-negative state in [0, 2147483647) |
| Utils.LehmerStateInRange | src/engine/utils.js:20-26 | from a non-negative seed every state stays in range and every draw is in [-1/2147483646, 1) |
| Utils.StepStaysPositive | src/engine/utils.js:23 | a state strictly inside (0, 2147483647) never steps to the stuck state 0 |
| Utils.StepInvertible | src/engine/utils.js:23 | a step loses nothing: multiplying its result by 1407677000, the inverse of 16807 modulo 2147483647, gives the state back |
| Utils.DrawInUnit | src/engine/utils.js:24 | a state strictly inside the range draws a number in [0, 1) |
| Utils.SeededRandom.constructor | src/engine/utils.js:20-21 | the generator starts at the seed with no draws |
| Utils.SeededRandom.Next | src/engine/utils.js:22-25 | each `rng()` call steps the state once and returns the draw for the new state |
| Utils.SameSeedSameDraws | src/engine/utils.js:20-26 | two generators from the same seed give the same draw |
| Utils.SeededPickWeighted | src/engine/utils.js:28-36 | `seededPickWeighted` is `pickWeighted` with the roll taken from one `rng()` draw |
| GameTypes.AllSlotsComplete | src/hooks/useGameState.js:36-50 | the six equipment slots are all summed over |
| GameTypes.EquipStatsNonNegative | src/engine/combat.js:70-75 | equipment with no negative stats adds no negative attack or defence |
| GameTypes.RemoveId | src/hooks/useGameState.js:266 | `inventory.filter(i => i.id !== id)` keeps only entries with other ids, shrinks when the id is held and changes nothing otherwise |
| GameTypes.RemoveIdKeepsOthers | src/hooks/useGameState.js:266 | the filter keeps every item with another id, with its multiplicity |
| GameData.ExpForLevel | src/data/gameData.js:106-108 | `Math.floor(50 * Math.pow(level, 1.5))` is the integer square root of 2500·level³ |
| GameData.ExpForLevelOne | src/data/gameData.js:106-108 | a level-1 hero needs 50 experience |
| GameData.ExpForLevelAtLeast | src/data/gameData.js:106-108 | each level needs at least 50·level experience, never zero |
| GameData.ExpForLevelMono | src/data/gameData.js:106-108 | higher levels never need less experience |
| GameData.RarityTable | src/data/gameData.js:85-91 | five rarities with weights summing to 100 and multipliers of at least 1 |
| GameData.GearStat | src/data/gameData.js:148-150 | a gear stat is 0 when the template has none, and otherwise at least the base |
| GameData.PotionHeal | src/data/gameData.js:139 | a dropped potion heals at least 20 |
| GameData.GenerateItem | src/data/gameData.js:130-158 | null exactly for unknown types; the name index is min(rarity index, names − 1); potions have no slot or stats and sell for half their heal; gear keeps only the stats its template has |
| GameData.ShopPotion | src/data/gameData.js:161-171 | potion i heals 30 + 8·level + 15·i, costs heal + heal/2 and sells for heal/2 |
| GameData.ShopItems | src/data/gameData.js:160-173 | the shop sells exactly three potions, in order |
| GameData.ShopPrices | src/data/gameData.js:160-173 | buying then selling a shop potion costs exactly its heal; each sells for less than it costs and heals 15 more than the one before |
| GameData.DropWeights | src/data/gameData.js:177 | the weights of the drop table, entry by entry |
| GameData.RollDrop | src/data/gameData.js:175-181 | a missing table, or a chance at or above its total weight, drops nothing; otherwise the item is generated for the picked entry's type |
| GameData.DamageBase | src/data/gameData.js:184 | the base damage is at least 1 |
| GameData.CalcDamage | src/data/gameData.js:183-187 | the damage is at least 1 and lies between 85 % and 115 % of the base |
| JsData.ScaleMonster | js/data.js:328-345 | without a null check the id must be known; the result is the shared scaling's, at full hp and the area's level |
| JsData.Data.constructor | js/data.js:437 | `_uidCounter` starts at 0 |
| JsData.Data.Uid | js/data.js:438-440 | `_uid()` increments the counter by one and returns the text of the new value |
| JsData.Data.GenerateItem | js/data.js:279-325 | the item is `GameData.GenerateItem`'s with the drawn uid; a uid is drawn only for a known type |
| JsData.Data.GetShopItems | js/data.js:348-368 | the loop pushes the three shop potions, drawing three consecutive uids |
| Scaling.ScaleMonster | src/engine/scaling.js:5-23 | null exactly for unknown ids; otherwise full hp, the area's level, the table's name, skills and drops, and gold 0..4 above the scaled base |
| Scaling.ScaleBoss | src/engine/scaling.js:25-45 | null exactly for unknown ids; otherwise a boss with its title, full hp, the area's level and gold 0..14 above the scaled base |
| Scaling.LevelOneIsUnscaled | src/engine/scaling.js:8-28 | at area level 1 the factor is 1, so the spawned stats are the table's |
| Scaling.MonsterStatsGrowWithLevel | src/engine/scaling.js:8-18 | a deeper area never spawns a weaker monster |
| Scaling.BossScalesFaster | src/engine/scaling.js:8-28 | from area level 1 the boss factor is at least the monster factor |
| Combat.CalcDamage | src/engine/combat.js:7-11 | the same damage as the data module's: at least 1 and at most 115 % of the base |
| Combat.ClassPassive | src/engine/combat.js:13-15 | the class passive exists exactly when the hero has a class that the table knows |
| Combat.Boost | src/engine/combat.js:36-73 | one conditional percentage bonus: nothing without its condition, never lowers a non-negative attack at a rate of at least 1 |
| Combat.MissingTenths | src/engine/combat.js:41 | Blood Frenzy's missing-hp tenths lie in 0..10 for hp in 0..maxHp |
| Combat.AtkBeforeDebuff | src/engine/combat.js:29-74 | for hp in 0..maxHp and no negative mana, no bonus ever lowers the attack below base plus equipment |
| Combat.PlayerAtk | src/engine/combat.js:75 | `getPlayerAtk` is never below 1, whatever the debuff |
| Combat.PlainAtk | src/engine/combat.js:29-75 | with no skills and no Rage the attack is max(1, base + equipment − debuff) |
| Combat.AtkBonusesAndDebuff | src/engine/combat.js:29-75 | the attack is at least the unbuffed one, and a larger debuff never raises it |
| Combat.DefBeforeDebuff | src/engine/combat.js:78-106 | no defence bonus ever lowers base plus equipment |
| Combat.PlayerDef | src/engine/combat.js:107 | `getPlayerDef` is never below 0, whatever the debuff |
| Combat.PlainDef | src/engine/combat.js:78-107 | with no skills and no Avatar buff the defence is max(0, base + equipment − debuff) |
| Combat.EffectiveManaCost | src/engine/combat.js:21-27 | the base cost without Mana Surge; with it the floor of three quarters; never above the base cost |
| Combat.BattleMaxHp | src/engine/combat.js:120-125 | never below `maxHp`, and equal to it without either skill |
| Combat.BattleMaxMana | src/engine/combat.js:128-132 | never below `maxMana` for non-negative wisdom, and equal to it without wisdom |
| Combat.EffectiveDef | src/engine/combat.js:149-158 | 0 for true damage and Phantom Blade, the floored fraction for a pierce (at most the defence), the defence otherwise |
| Combat.ExecuteMultiplier | src/engine/combat.js:167-172 | not 1 exactly when an execute effect's hp threshold holds; `counter` always gives 1 |
| Passives.Pct | src/engine/passives.js:18 | a percentage of a non-negative amount is between 0 and the amount |
| Passives.HealStep | src/engine/passives.js:17-31 | a heal that fires raises hp up to the cap and never past it, changing nothing but hp and the log |
| Passives.ManaStep | src/engine/passives.js:32-52 | a mana gain that fires never lifts mana above its cap, changing nothing but mana and the log |
| Passives.BloodlustHeal | src/engine/passives.js:38-42 | Bloodlust's heal is never negative for a non-negative hit |
| Passives.MonsterStep | src/engine/passives.js:53-68 | Necrotic Touch lowers a positive defence by exactly 1, Opportunist never revives the monster, and Spellweaver is always cleared |
| Passives.EarlySteps | src/engine/passives.js:16-37 | Lifetap, Vampiric Aura and Soul Siphon only raise hp up to the battle max hp and mana up to the battle max mana |
| Passives.LateSteps | src/engine/passives.js:38-52 | Bloodlust and Adrenaline Rush only raise hp up to the battle max hp and mana up to the battle max mana |
| Passives.ApplyAttackPassives | src/engine/passives.js:10-71 | only the player's hp and mana change, within the battle maxima; Necrotic Touch keeps def ≥ 0; monster hp stays ≥ 0; Spellweaver is always cleared; the log only grows |
| Passives.ApplyLifeTap | src/engine/passives.js:110-114 | unchanged without Life Tap or for a free skill; otherwise only hp changes, never above the battle max hp and never down |
| Passives.RegenStep | src/engine/passives.js:145-152 | Regeneration raises hp, never past the battle max hp |
| Passives.RegainStep | src/engine/passives.js:153-165 | a mana regeneration that fires never lifts mana past the battle max mana |
| Passives.ApplyTurnStartPassives | src/engine/passives.js:141-175 | only hp and mana change; mana gains stop at the battle max mana; without Dark Pact hp only rises up to the battle max; Dark Pact never drops hp below 1 |
| Passives.Shrink | src/engine/passives.js:183-201 | a reducing percentage moves the hit toward 0, never past it |
| Passives.BlockPct | src/engine/passives.js:184-188 | the share of a defended hit is at most 100 % |
| Passives.ApplyDamageReduction | src/engine/passives.js:180-204 | the hit is at least 1 and never more than max(hit, 1); with no reduction it is exactly max(1, hit) |
| Passives.ApplyManaShield | src/engine/passives.js:209-215 | hit = returned damage + mana used; nothing is absorbed without the skill or mana; the mana used never exceeds the mana there is, or 40 % of the hit |
| Passives.CheckDodge | src/engine/passives.js:221-253 | a pending shadow dodge is used first; otherwise a dodge charge, exactly one; otherwise the chance rolls decide and the battle is unchanged; a dodge logs one line |
| Passives.ApplySurvivalPassives | src/engine/passives.js:260-281 | Undying Will lifts a lethal hit to 1 hp exactly when unused and sets its flag; Death's Embrace fires exactly when unused, learnt, and the hp after Undying Will is above 0 and below a quarter of the battle max hp, healing to min(battle max, hp + floor(15 %)); when it does not fire hp is what Undying Will left; used flags stay set; with both flags set nothing changes |
| Passives.UndyingWillOncePerBattle | src/engine/passives.js:266-270 | Undying Will saves the first lethal hit of a battle, and a second lethal hit is not survived |
| Passives.ApplyCursedBlood | src/engine/passives.js:285-291 | when it fires the monster is poisoned for at least 2 turns; a longer poison is never shortened; otherwise nothing changes |
| SkillEffects.PctNonNegative | src/engine/skillEffects.js:11 | a floored percentage of a non-negative amount is never negative |
| SkillEffects.Recoil | src/engine/skillEffects.js:10-33 | a recoil changes only player hp, never below 1 and never up from 1 or more, and logs one line |
| SkillEffects.Reduced | src/engine/skillEffects.js:36-77 | a lowered stat takes at least 1 off or stops at its floor, never going below the floor |
| SkillEffects.ReduceAtk | src/engine/skillEffects.js:36-77 | the attack-lowering handlers change only monster attack, never below 1, and take at least 1 off an attack above 1 |
| SkillEffects.ReduceDef | src/engine/skillEffects.js:80-101 | the defence-lowering handlers change only monster defence, never below 0, and take at least 1 off a positive defence |
| SkillEffects.ReduceBoth | src/engine/skillEffects.js:103-118 | `blizzard` and `wither` lower attack (never below 1) and defence (never below 0) and nothing else |
| SkillEffects.BattleOnly | src/engine/skillEffects.js:121-162 | the poison, doom and dodge handlers update only the battle record |
| SkillEffects.Heal | src/engine/skillEffects.js:165-199 | a heal-on-hit changes only hp, never above the battle max hp, and heals either fully or by exactly the amount |
| SkillEffects.RestoreMana | src/engine/skillEffects.js:202-212 | a mana handler changes only mana, never above max mana |
| SkillEffects.Handle | src/engine/skillEffects.js:8-260 | a handler returns `{}` exactly when it is one of the registered no-ops |
| SkillEffects.ApplySkillEffect | src/engine/skillEffects.js:276-280 | `{}` exactly for an unknown name or a registered no-op, otherwise the handler's update |
| SkillEffects.RecoilNeverKills | src/engine/skillEffects.js:10-33 | every recoil effect leaves the player at 1 hp or more and never heals |
| SkillEffects.AtkCutsKeepOne | src/engine/skillEffects.js:36-118 | every attack-lowering effect leaves monster attack at 1 or more and takes at least 1 off an attack above 1 |
| SkillEffects.DefCutsKeepZero | src/engine/skillEffects.js:80-118 | every defence-lowering effect leaves monster defence at 0 or more; `armor_break` sets it to 0 with 2 turns |
| SkillEffects.HealsCapped | src/engine/skillEffects.js:165-199 | no heal-on-hit effect raises hp above the battle max hp |
| SkillEffects.ManaCapped | src/engine/skillEffects.js:202-212 | no mana effect raises mana above max mana |
| SkillEffects.PoisonTurns | src/engine/skillEffects.js:121-140 | `apply_poison` and `strong_poison` set 3 and 4 turns; the extending poisons never shorten a longer one |
| SkillEffects.CorpseExplodeOnlyWhenPoisoned | src/engine/skillEffects.js:237-245 | bonus damage only while the monster is poisoned, and monster hp stays ≥ 0 |
| SkillEffects.NoOpsRegistered | src/engine/skillEffects.js:263-270 | the pierce, execute, true-damage and counter names are registered and change nothing |
| SkillEffects.HasEffect | src/engine/skillEffects.js:285-287 | `hasEffect` is true exactly for the registered names |
| SkillTrees.InsertMeaning | src/data/skillTrees.js:231-238 | the lookup holds exactly the ids of the choices, each mapped to the last choice with that id |
| SkillTrees.InsertAppend | src/data/skillTrees.js:232-237 | filling the lookup from two runs of choices is filling it from their concatenation |
| SkillTrees.AddChoices | src/data/skillTrees.js:234-236 | the innermost loop inserts the tier's choices in order |
| SkillTrees.AddTiers | src/data/skillTrees.js:233-237 | the middle loop inserts every choice of every tier in order |
| SkillTrees.BuildLookup | src/data/skillTrees.js:231-238 | the module-load loops build the lookup of all the classes' choices |
| SkillTrees.GetTreeSkill | src/data/skillTrees.js:240-242 | null exactly for an unknown id, otherwise the choice stored for it |
| SkillTrees.TreeSkillFound | src/data/skillTrees.js:231-242 | an id is found exactly when some tier choice has it, and what is found is such a choice |
| SkillTrees.Unlocked | src/data/skillTrees.js:258-264 | the filter never lists more skills than the tree has ids |
| SkillTrees.UnlockedMeaning | src/data/skillTrees.js:259-263 | a skill is listed exactly when a tree id looks it up and it has the requested type |
| SkillTrees.UnlockedAppend | src/data/skillTrees.js:259-263 | the filter keeps the tree's order |
| SkillTrees.ClassOf | src/data/skillTrees.js:246 | the class entry exists exactly when the hero has a class the table knows |
| SkillTrees.PlayerActiveSkills | src/data/skillTrees.js:245-266 | [] without a class; otherwise the class skill first, then exactly the active tree skills in tree order, unknown ids skipped |
| SkillTrees.PlayerPassiveSkills | src/data/skillTrees.js:269-286 | [] without a class; otherwise the class passive first, then exactly the passive tree skills in tree order |
| Loot.RarityOf | src/engine/loot.js:24 | the looked-up rarity when the name is known, otherwise the first rarity |
| Loot.RoundFrac | src/engine/loot.js:28 | `Math.round`: the nearest integer to num / den, a half rounded up |
| Loot.GearStat | src/engine/loot.js:27-32 | 0 for a non-positive base; never negative; never below the base when the factor is at least 1 |
| Loot.FactorAtLeast | src/engine/loot.js:25-26 | the level and adaptation factors and a rarity multiplier of at least 1 multiply to at least 1 |
| Loot.BuildGearDrop | src/engine/loot.js:23-48 | the drop keeps the template's name, slot and rarity; its level is the higher of template and monster level; stats are 0 for a non-positive base and never below the base at multiplier ≥ 1; sells for at least 10 |
| Loot.TierIndex | src/engine/loot.js:54 | a valid index into the potion tiers |
| Loot.PotionItem | src/engine/loot.js:52-69 | a slotless potion named after the level's tier, healing at least the tier's base at a non-negative multiplier, selling for at most what it heals |
| Loot.LibraryWeight | src/engine/loot.js:9-13 | every template weighs at least 1 |
| Loot.LibraryWeights | src/engine/loot.js:9-13 | one weight per template, in pool order |
| Loot.PickFromLibrary | src/engine/loot.js:7-21 | null exactly for an empty pool, otherwise a template of the pool |
| Loot.RarityWeights | src/data/gameData.js:85-91 | one weight per rarity, in table order |
| Loot.PickRarity | src/engine/loot.js:53 | the pick is one of the rarities |
| Loot.GenerateItem | src/engine/loot.js:51-78 | a potion always for the potion type; otherwise null exactly when the type has no (or an empty) pool, and else an item of that type from one of the pool's templates, at least at the monster's level and selling for at least 10 |
| Loot.RollDrop | src/engine/loot.js:80-84 | nothing for an empty table; otherwise the item generated for the table entry the roll picks |
| Loot.EffectiveLevel | src/engine/loot.js:89 | the larger of the player's level and the spec's minimum level (1 when unset) |
| Loot.OfRarity | src/engine/loot.js:115-118 | exactly the pool's templates of the rarity (and level bound), in pool order |
| Loot.RollIndex | src/engine/loot.js:121 | a valid index |
| Loot.GenerateRewardItem | src/engine/loot.js:88-123 | a potion spec gives a potion of the spec's rarity at the effective level; an unknown type gives nothing; gear is of the spec's type from its pool, at least at the effective level, and of the spec's rarity whenever the pool has one |
| Loot.ShopWindow | src/engine/loot.js:126-130 | min(3, tiers) contiguous tiers that include the player's tier |
| Loot.ShopPotion | src/engine/loot.js:132-152 | the potion of one tier: rarity climbing with the tier, level `4 * idx + 1`, heal `base + 3 * level + 10 * idx`, selling for less than it costs |
| Loot.ShopItems | src/engine/loot.js:125-154 | min(3, tiers) potions, the k-th made from the k-th tier of the window |
| Loot.ShopOrder | src/engine/loot.js:125-154 | the shop offers the player's own tier, levels climb by 4, and nothing sells for as much as it costs |
| Loot.DaySeed | src/engine/loot.js:158 | the seed's decimal digits hold the day, the month and the year |
| Loot.DaySeedInjective | src/engine/loot.js:158 | different dates give different seeds |
| Loot.Extraordinary | src/engine/loot.js:161 | exactly the Rare, Epic and Legendary rarities of the table |
| Loot.FeaturedItem | src/engine/loot.js:181-206 | the item keeps the template's name, slot, rarity and level; stats never negative and never below the base at multiplier ≥ 1; sells for at least 10, and costs twice its sell price above that |
| Loot.NextState | src/engine/utils.js:20-26 | the Lehmer generator's state stays strictly between 0 and the modulus |
| Loot.NextDraw | src/engine/utils.js:20-26 | every draw is in [0, 1) |
| Loot.DrawKind | src/engine/loot.js:168-169 | one of the six gear types |
| Loot.DrawRarity | src/engine/loot.js:173 | one of the extraordinary rarities |
| Loot.DrawTemplate | src/engine/loot.js:177 | one of the candidates |
| Loot.FeaturedRound | src/engine/loot.js:168-179 | the generator's state stays valid |
| Loot.FeaturedRoundSound | src/engine/loot.js:170-179 | a round picks only a template of the drawn type's pool, of an extraordinary rarity, within the level bound, under a name not yet used |
| Loot.FeaturedRun | src/engine/loot.js:166-207 | the generator's state stays valid and there is at most one pick per round |
| Loot.Advance | src/engine/loot.js:178-192 | a pick is appended and its name marked used; a skipped round changes nothing but the state |
| Loot.AdvanceSound | src/engine/loot.js:178-179 | a sound pick under a fresh name keeps the run sound and the used set equal to the picked names |
| Loot.FeaturedRunSound | src/engine/loot.js:163-207 | every run's picks are sound, with no name twice |
| Loot.FeaturedItems | src/engine/loot.js:192-206 | one item per pick, in order, each with the next uid |
| Loot.FeaturedItemsSnoc | src/engine/loot.js:192 | one more pick appends one more item with the next id |
| Loot.FeaturedStep | src/engine/loot.js:168-178 | the loop body's draws on the generator agree with `FeaturedRound` |
| Loot.FeaturedIteration | src/engine/loot.js:167-207 | one pass of the loop advances the run and keeps the pushed items equal to the items of the picks |
| Loot.DailyFeaturedItems | src/engine/loot.js:156-210 | the items are those of the three-round run from `daySeed + playerLevel`, with one uid consumed per item |
| Loot.FeaturedItemsSound | src/engine/loot.js:181-206 | items made from sound picks are of a library gear type, an extraordinary rarity, within the level bound, selling for at least 10, with distinct names and ids |
| Loot.DailyFeaturedSound | src/engine/loot.js:156-210 | for any seed, at most one item per round and every item sound |
| Tasks.Swap | src/data/tasks.js:376 | the two positions trade entries and every other position is unchanged |
| Tasks.SwapPermutes | src/data/tasks.js:376 | a swap keeps the multiset of entries |
| Tasks.SwapIndex | src/data/tasks.js:375 | the partner of position i lies in [0, i] |
| Tasks.ShufflePermutes | src/data/tasks.js:372-377 | the seeded shuffle is a permutation of the pool |
| Tasks.SliceEnd | src/data/tasks.js:378 | `slice(0, count)` keeps min(count, length) entries for a non-negative count, never more than the array has |
| Tasks.SelectionSound | src/data/tasks.js:369-379 | min(count, pool) entries, all from the pool, none more often than the pool holds it, so a pool without repeats gives a selection without repeats |
| Tasks.SelectTasks | src/data/tasks.js:369-379 | the in-place shuffle of a copy, sliced, equals the value-level selection; the pool itself is not written |
| Tasks.DailySeed | src/data/tasks.js:382-384 | the whole number of days since the epoch: the day window that holds `now` |
| Tasks.WeeklySeed | src/data/tasks.js:386-388 | the whole number of weeks since the epoch: the week window that holds `now` |
| Tasks.WindowUnique | src/data/tasks.js:382-388 | a window index is the seed exactly when its window holds `now` |
| Tasks.ExpiryMeaning | src/data/tasks.js:409-415 | the daily (weekly) tasks are current exactly when `now` lies in the day (week) the stored seed names |
| Tasks.PoolsHaveDistinctIds | src/data/tasks.js:35-199 | no two tasks of the daily, weekly or monthly pool share an id |
| Tasks.DistinctIdsDistinct | src/data/tasks.js:35-199 | tasks with distinct ids are distinct tasks |
| Tasks.DistinctFromPool | src/data/tasks.js:369-379 | distinct tasks drawn from a pool with distinct ids have distinct ids |
| Tasks.ActiveFromPool | src/data/tasks.js:369-379 | a cycle's selection has exactly `count` tasks of the pool, no id twice |
| Tasks.ActiveTasksSound | src/data/tasks.js:396-406 | four daily, three weekly and three monthly tasks, each from its pool, none twice |
| Tasks.InitialTaskProgress | src/data/tasks.js:422-438 | nothing counted or claimed, and no cycle expired at the instant of creation |
| Tasks.InitialStats | src/data/tasks.js:441-461 | exactly the seventeen counters, all at zero |
| BaseData.InitialBase | src/data/baseData.js:667-690 | a fresh base has nothing built, stored, borrowed, queued or boosted |
| BaseData.AddNothing | src/data/baseData.js:696 | the zero buffs are the starting point of the sum |
| BaseData.Contribution | src/data/baseData.js:700-711 | a sub-upgrade adds nothing at level ≤ 0 or past its last level, otherwise exactly that level's buffs |
| BaseData.GetChamberBuffs | src/data/baseData.js:693-713 | the loop's buffs equal the value-level chamber buffs |
| BaseData.AccumulateBuffs | src/data/baseData.js:698-712 | the loop over the sub-upgrades sums their contributions |
| BaseData.UnnamedAddNothing | src/data/baseData.js:699 | a sub-upgrade without a stored level adds nothing |
| BaseData.MissingChamberNoBuffs | src/data/baseData.js:694 | a missing base or empty chamber gives zero buffs |
| BaseData.ThreeContributions | src/data/baseData.js:698-712 | the loop over three sub-upgrades is the sum of their contributions |
| BaseData.ChamberContributions | src/data/baseData.js:698-712 | the chamber's buffs are the bed's, the kitchen's and the study's contributions, with the levels of lines 254-280 |
| BaseData.ChamberBuffsAreContributions | src/data/baseData.js:693-713 | each sub-upgrade contributes its own level's buffs alone: levels replace, they do not add up |
| BaseData.ContributionWithin | src/data/baseData.js:700-711 | a three-level sub-upgrade whose levels all lie within a bound adds, at any stored level, something within that bound |
| BaseData.BedWithin | src/data/baseData.js:255-261 | the bed adds at most +50 % healing and nothing else, as summed by lines 700-711 |
| BaseData.KitchenWithin | src/data/baseData.js:264-270 | the kitchen adds at most +10 ATK, +5 DEF and +20 HP |
| BaseData.StudyWithin | src/data/baseData.js:273-279 | the study adds at most +25 mana and +10 wisdom |
| BaseData.ChamberBuffsBounded | src/data/baseData.js:693-713 | whatever the stored levels, the buffs lie between zero and +10 ATK, +5 DEF, +20 HP, +25 mana, +50 % healing, +10 wisdom |
| BaseData.GourmetKitchen | src/data/baseData.js:693-713 | a level-3 kitchen (line 269) alone gives +10 ATK, +5 DEF and +20 HP |
| BaseData.InnExpBonus | src/data/baseData.js:716-723 | 0 without a built inn, without a boost or once the boost has run out; otherwise the boost's bonus |
| BaseData.InnBoostWindow | src/data/baseData.js:716-723 | with a built inn the boost counts from its start for exactly its duration |
| BaseData.InitialBaseGivesNothing | src/data/baseData.js:667-723 | a fresh base gives no chamber buffs and no inn bonus |
| BaseData.CreateMaterialItem | src/data/baseData.js:726-746 | null exactly for an unknown material; otherwise a level-1 material stack of the requested quantity (1 by default) with the material's name, rarity, price and fuel flag |
| MarketScreen.ParseSortKey | src/components/screens/MarketScreen.jsx:48-62 | a comparator exactly for the five sorting options; 'newest' and anything else keep the input order |
| MarketScreen.RarityRank | src/components/screens/MarketScreen.jsx:31-58 | ranks 1 to 5 for the five rarities, 0 exactly for any other name |
| MarketScreen.Insert | src/components/screens/MarketScreen.jsx:50-58 | insertion adds exactly the one listing |
| MarketScreen.InsertSorted | src/components/screens/MarketScreen.jsx:50-58 | insertion keeps a sorted sequence sorted |
| MarketScreen.Sort | src/components/screens/MarketScreen.jsx:50-58 | the sort is a permutation of its input in ascending key order |
| MarketScreen.InsertStable | src/components/screens/MarketScreen.jsx:50-58 | an inserted listing goes behind those with the same key |
| MarketScreen.SortStable | src/components/screens/MarketScreen.jsx:50-58 | listings with equal keys keep their input order |
| MarketScreen.SortListingsMeaning | src/components/screens/MarketScreen.jsx:46-63 | a permutation of the input, by price up or down, level up or down, or rarity down as asked; 'newest' and unknown options give the input order |
| MarketScreen.SortListingsStable | src/components/screens/MarketScreen.jsx:46-63 | among listings with the same key value the sorted order is the input order |
| MarketScreen.SortListings | src/components/screens/MarketScreen.jsx:46-63 | the result is a permutation of the listings, ordered by the requested key when the option is known and in input order otherwise |
| MarketScreen.ItemCategory | src/components/screens/MarketScreen.jsx:65-75 | potions and energy drinks by type first, 'misc' exactly for an item with neither type nor slot |
| MarketScreen.CategoryAgreesWithServer | src/components/screens/MarketScreen.jsx:65-75 | the screen's category is the one the market route stores with a listing |
| MarketScreen.FindCategory | src/components/screens/MarketScreen.jsx:78 | the entry found has the id; nothing is found exactly when no entry has it |
| MarketScreen.CategoryLabel | src/components/screens/MarketScreen.jsx:77-80 | the table's label for a known id, the id itself otherwise |
| MarketScreen.FindCategoryAt | src/components/screens/MarketScreen.jsx:78 | the lookup finds the first entry with the id |
| MarketScreen.MiscNotInTable | src/components/screens/MarketScreen.jsx:10-20 | 'misc' has no entry in the category table |
| MarketScreen.LabelsOfTable | src/components/screens/MarketScreen.jsx:10-20 | each item category in the table shows its own label, different from its id |
| MarketScreen.ItemCategoryLabelled | src/components/screens/MarketScreen.jsx:65-80 | every category an item can have except 'misc' has a table label; 'misc' shows as itself |
| MarketScreen.ListItemAction | src/components/screens/MarketScreen.jsx:167-183 | the listing is sent exactly for a selected item and a floored price in [10, 999999]; below 10 or not a number gives the minimum-price error, above gives the maximum-price error |
| MarketScreen.ClientPriceAcceptedByServer | src/components/screens/MarketScreen.jsx:169-177 | a price the screen sends never meets the route's price-range refusal and is already whole |
| GameReducer.InitialHero | src/hooks/useGameState.js:7-22 | level 1, no experience, the first threshold of the curve, 50 of 50 hp, 5 attack, 2 defence, 30 gold, nothing equipped, an empty inventory of 20 places |
| GameReducer.StartGame | src/hooks/useGameState.js:74-75 | the town screen and a fresh hero; nothing else changes |
| GameReducer.PlayerAtk | src/hooks/useGameState.js:36-42 | base plus equipped attack less the debuff, never below 1 |
| GameReducer.PlayerDef | src/hooks/useGameState.js:44-50 | base plus equipped defence less the debuff, never below 0 |
| GameReducer.DebuffsOnlyLower | src/hooks/useGameState.js:41-49 | a larger debuff never raises attack or defence |
| GameReducer.EquipmentOnlyHelps | src/hooks/useGameState.js:36-50 | gear without negative stats never makes the hero weaker than bare-handed |
| GameReducer.ComputeAtk | src/hooks/useGameState.js:37-41 | the accumulating loop gives the attack |
| GameReducer.ComputeDef | src/hooks/useGameState.js:45-49 | the accumulating loop gives the defence |
| GameReducer.GetPlayerAtk | src/hooks/useGameState.js:36-42 | the attack under the battle's debuff (0 without a battle), at least 1 |
| GameReducer.GetPlayerDef | src/hooks/useGameState.js:44-50 | the defence under the battle's debuff (0 without a battle), at least 0 |
| GameReducer.LevelUpsMeaning | src/hooks/useGameState.js:52-69 | experience ends below the threshold; the level grows by the number of gains, which are the draws in order; max hp grows by their sum and hp is refilled after a level-up; a level-up happens exactly when experience reached the threshold; gold, gear and inventory are untouched |
| GameReducer.LevelUpHpBounds | src/hooks/useGameState.js:59-62 | each level adds 8 to 12 max hp |
| GameReducer.ProcessLevelUps | src/hooks/useGameState.js:52-69 | the while loop over a copy gives the value-level level-ups: experience below the threshold, one level per recorded gain |
| GameReducer.Rest | src/hooks/useGameState.js:248-254 | refused exactly below 10 gold; otherwise hp is full and 10 gold is paid, nothing else changes |
| GameReducer.RestAtInn | src/hooks/useGameState.js:248-254 | below 10 gold only the inn message is set; otherwise the game state differs only in the hero (full hp, 10 gold less) and the hp-restored message |
| GameReducer.CountId | src/hooks/useGameState.js:265-300 | the number of entries with the id, 0 exactly when none carries it |
| GameReducer.RemoveIdCount | src/hooks/useGameState.js:265-300 | filtering by id removes exactly the entries with that id |
| GameReducer.Equip | src/hooks/useGameState.js:256-268 | the item takes its slot, no entry with its id stays in the inventory, nothing else changes |
| GameReducer.EquipItem | src/hooks/useGameState.js:256-268 | only the hero changes: the item holds its slot and no inventory entry keeps its id |
| GameReducer.EquipSwaps | src/hooks/useGameState.js:256-268 | every other item keeps its count, the previous occupant returns to the inventory, and the size changes by that one less the entries of the equipped id |
| GameReducer.Unequip | src/hooks/useGameState.js:270-278 | refused exactly on a full inventory; unchanged exactly for an empty slot; otherwise the item is appended and the slot emptied |
| GameReducer.UnequipItem | src/hooks/useGameState.js:270-278 | a full inventory only sets the inventory-full message; an empty slot leaves the state as it was; otherwise only the hero changes, the item moving from its slot to the end of the inventory |
| GameReducer.EquipThenUnequip | src/hooks/useGameState.js:256-278 | unequipping a slot just filled gives the item back at the end and restores the equipment |
| GameReducer.UseItem | src/hooks/useGameState.js:280-293 | a non-potion changes nothing; a potion is refused exactly when it would heal nothing; otherwise hp becomes min(hp + heal, max) and the potion's id leaves the inventory |
| GameReducer.UseItemCase | src/hooks/useGameState.js:280-293 | a non-potion leaves the state as it was; a potion that heals nothing only sets the hp-full message; otherwise hp becomes min(hp + heal, max), the potion leaves the inventory and the message names the hp healed |
| GameReducer.UseItemKeepsHpInRange | src/hooks/useGameState.js:280-293 | a used potion raises hp and keeps it at most max; it is refused exactly at full hp or for a zero heal |
| GameReducer.Sell | src/hooks/useGameState.js:295-303 | the sell price is paid and the id leaves the inventory |
| GameReducer.SellItem | src/hooks/useGameState.js:295-303 | the hero gains the sell price and loses the item's id, the message names the price, and nothing else changes |
| GameReducer.Buy | src/hooks/useGameState.js:305-317 | refused for lack of gold first, then for a full inventory; otherwise the price is paid and one copy under a new id is appended, within capacity |
| GameReducer.BuyItem | src/hooks/useGameState.js:305-317 | short of gold only the not-enough-gold message is set; with gold but a full inventory only the inventory-full message; otherwise the price is paid, the copy under the new id is appended and the message names the item |
| GameReducer.BuyThenSell | src/hooks/useGameState.js:295-317 | selling what was just bought restores the inventory and leaves the hero `buyPrice - sellPrice` poorer |
| GameReducer.Defeat | src/hooks/useGameState.js:354-360 | a fifth of the gold (floored) is lost and hp is set to 30 % of max (floored) |
| GameReducer.DefeatBounds | src/hooks/useGameState.js:354-360 | gold stays within [4/5 of it, all of it]; a hero with 4 or more max hp is left alive |
| GameReducer.Apply | src/hooks/useGameState.js:248-317 | a hero case changes the hero and the message only, and an unchanged outcome returns the same state |
| GameReducer.InventoryCasesKeepCapacity | src/hooks/useGameState.js:248-317 | no inventory case pushes the inventory over its capacity |
| GameReducer.Rewarded | src/hooks/useGameState.js:332-337 | experience and gold grow by the monster's; the drop is appended only below capacity |
| GameReducer.ReportedDrop | src/hooks/useGameState.js:347 | the drop is reported exactly when it was added to the inventory |
| GameReducer.FullInventoryDropReportedAsWritten | src/hooks/useGameState.js:335-347 | as written, with the inventory exactly full a drop is reported although the inventory does not hold it |
| GameReducer.HandleVictoryAsWritten | src/hooks/useGameState.js:327-352 | as written: the result screen shows a victory with the monster's exp and gold, the drop reported when the rewarded inventory is within capacity after the push, and only screen, hero and result change |
| GameReducer.HandleVictory | src/hooks/useGameState.js:327-352 | corrected: the same victory, with the drop reported exactly when it went into the inventory |
| GameReducer.HandleVictoryMeaning | src/hooks/useGameState.js:327-352 | the result screen shows a victory; a reported drop is the new last entry, otherwise the inventory is unchanged; gold grows by the monster's; the level grows by the recorded level-ups; experience ends below the threshold |
| GameReducer.HandleDefeat | src/hooks/useGameState.js:354-368 | the result screen shows the gold lost (a fifth), the hero is the defeated hero, nothing else changes |
| GameReducer.HitMonster | src/hooks/useGameState.js:125-140 | the monster's hp drops by the damage but not below 0 |
| GameReducer.PlayerHitMeaning | src/hooks/useGameState.js:121-149 | an attack or Power Strike takes at least 1 hp from a live monster, ends in victory exactly when it reaches 0, and otherwise changes only the battle and its log |
| GameReducer.AfterPlayerHit | src/hooks/useGameState.js:127-133 | a monster left alive keeps the fight going with the new battle and the hit logged, and nothing else changes; a monster at 0 hp ends in the victory screen, with the battle and log updated too |
| GameReducer.BattleAttack | src/hooks/useGameState.js:121-134 | the attack deals at least 1 damage, computed from the debuffed attack and the monster's defence, and the state is the hit's outcome |
| GameReducer.BattleSkill | src/hooks/useGameState.js:136-149 | Power Strike deals at least 1 damage, computed from 1.5 times the debuffed attack, and the state is the hit's outcome |
| GameReducer.BattleDefend | src/hooks/useGameState.js:151-155 | the hero braces and the log grows by one line |
| GameReducer.FirstPotion | src/hooks/useGameState.js:158 | the index of the first potion, -1 exactly when there is none |
| GameReducer.BattleUsePotion | src/hooks/useGameState.js:157-168 | refused without potions or when it would heal nothing; otherwise the new state is the old one with hp min(hp + heal, max), that one entry removed, the guard dropped and one log line naming the potion and the hp healed |
| GameReducer.BattleRun | src/hooks/useGameState.js:170-180 | below 0.5 the battle is left for exploring; otherwise the guard drops and the failure is logged; the hero is untouched |
| GameReducer.Stolen | src/hooks/useGameState.js:209 | 1 to 10 gold |
| GameReducer.MonsterHit | src/hooks/useGameState.js:188-218 | the hit changes only hp and gold; an unguarded hit takes at least 1 hp; gold stays within [0, gold]; a debuff grows by 0 or 2; poison is set to 3 or left |
| GameReducer.PoisonTick | src/hooks/useGameState.js:221-226 | poison takes 5 % of max hp and one turn; without poison nothing changes; hp never rises |
| GameReducer.MonsterTurnMeaning | src/hooks/useGameState.js:182-236 | a monster turn never heals; the hero is defeated exactly when hp reaches 0; gold never rises; the turn is handed back unguarded; debuffs grow by 0 or 2; poison counts down or restarts |
| GameReducer.MonsterTurn | src/hooks/useGameState.js:182-236 | the turn is handed back to the player unguarded, the log grows by the hit and the poison lines; a hero still alive is the only other change; a hero at 0 hp is defeated, with the gold lost on the result screen |
| GameReducer.ContinueAfterBattle | src/hooks/useGameState.js:238-246 | the battle is cleared; back to town with no location after a defeat, otherwise back to exploring the same location |
| Engine.EngineDrink | js/engine.js:385-394 | nothing without a potion; otherwise the first potion heals min(heal, max − hp) and every entry with its id is removed |
| Engine.EngineDrinkMeaning | js/engine.js:385-394 | the potion never lifts hp above max, removes at least the potion drunk, and at full hp is used up without healing |
| Engine.Game.constructor | js/engine.js:3-45 | the starting hero, no battle, the menu screen, no location |
| Engine.Game.GetPlayerAtk | js/engine.js:49-55 | base plus equipped attack less the battle's debuff, at least 1 |
| Engine.Game.GetPlayerDef | js/engine.js:57-63 | base plus equipped defence less the battle's debuff, at least 0 |
| Engine.Game.RestAtInn | js/engine.js:255-264 | refused below 10 gold; otherwise 10 gold for full hp; battle, screen and location untouched |
| Engine.Game.BattlePotion | js/engine.js:385-397 | ignored while it is not the hero's turn or a move is animating (line 348); without a potion only the guard drops and a message shows; otherwise the potion is drunk, logged, and the turn passes to the monster |
| Engine.Game.BattleVictory | js/engine.js:495-560 | the drop is reported exactly when it went into the inventory; the hero after rewards and drop goes through the level-up loop; experience ends below the threshold and the level grows by the number of level-ups; the result screen shows |
| Engine.Game.Reward | js/engine.js:496-516 | experience and gold grow by the monster's, the rolled drop is appended only below capacity and reported only then |
| Engine.Game.LevelUpLoop | js/engine.js:521-537 | the while loop over the hero gives the value-level level-ups |
| Engine.Game.BattleDefeat | js/engine.js:562-579 | a fifth of the gold is lost, 30 % of max hp is left, the defeat is recorded and the result screen shows |
| Engine.Game.ContinueAfterBattle | js/engine.js:581-593 | to town with no location after a defeat, exploring otherwise; debuffs and poison are cleared, so attack and defence are the undebuffed values |
| Engine.Game.EquipItem | js/engine.js:711-722 | the hero becomes the equipped hero of the reducer: the item in its slot, the old occupant back, the id filtered out |
| Engine.Game.UnequipItem | js/engine.js:724-736 | refused on a full inventory, nothing for an empty slot, otherwise the item is appended and the slot emptied |
| Engine.Game.UseItem | js/engine.js:738-751 | a potion heals up to max hp and is removed, refused when it would heal nothing; any other item does nothing |
| Engine.Game.SellItem | js/engine.js:753-759 | the sell price is paid and the id leaves the inventory |
| Engine.Game.BuyItem | js/engine.js:789-805 | gold checked, then capacity; a purchase pays the price and appends one copy under the next uid, consuming exactly one uid |

## Left out

- Quotes.Upper: upper-cases only the ASCII letters a-z. Python's `str.upper` also maps other letters ('é' to 'É') and can lengthen a string ('ß' to 'SS'), so for non-ASCII symbols the model keeps the length where Python may not.
- Quotes.SubscribeReply: a failed send is modelled as an exception other than `WebSocketDisconnect`, so it escapes the endpoint and leaves the connection registered. Which exception the WebSocket library raises on a failed send is not part of this model.
- The `history` field of GET / in server/routes/dailyRewards.js:63-69 is not modelled. It is a read-only listing of the user's last 30 rows, newest first, and no other route depends on it.
- The copy of `scaleMonster` in src/data/gameData.js:110-128 is the same code as src/engine/scaling.js:5-23, so `Scaling.ScaleMonster` stands for both and gets no second row.

- The Yahoo Finance lookups (`get_stock_data`, `get_historical_data`, `search_stocks`) are a foreign library. The quote lookup is a function parameter that either returns a quote or fails.
- FastAPI routing, CORS, the startup hook and `asyncio.sleep` are framework plumbing and are not modelled.
- asyncio interleavings are not modelled. Each registry operation, each endpoint loop pass and each updater tick is atomic, and a tick walks a snapshot of the registry.
- Quotes.ConnectionManager.Tick fetches once per (connection, symbol) pair, not once per symbol. This is what `price_updater` does, and the model follows the code.
- SQLite, the prepared statements, authentication and the HTTP layer are not modelled. Tables are maps from id to record, and the signed-in user is a parameter. Each route is one transition, with no partial failure.
- Market.Inv, Trades.Inv, Invites.Inv and DailyRewards.Inv are invariants the routes keep of their tables. Route lemmas require them of the old table, as the routes' own inserts guarantee.
- The React screens, the canvas, the DOM writes of the engine (`render`, `showScreen`, `updateTopBar`, `_addBattleLog`) and `setTimeout` sequencing are rendering. Messages and log lines are abstracted to the `Note` and `BattleEvent` constructors that name them.
- The navigation cases of the reducer (`GO_TO_TOWN`, `SHOW_SCREEN`, `ENTER_LOCATION`, `EXPLORE_STEP`, `CLEAR_MESSAGE`) only move between screens or pick text. The engine's `startGame`, `goToTown`, `exploreStep`, `startBattle` and its attack, defend, skill, run and monster-turn actions are not modelled either. The reducer's battle cases cover the same rules.
- Floating-point rates are modelled as exact rational floors (`Common.FloorFrac`). Where a JavaScript product of doubles lands just below an integer, the source can be one lower than the model: in IEEE double arithmetic `45 * 1.4` is `62.99999999999999`, which floors to 62 where the exact floor is 63 (the potion price rate of src/engine/loot.js:137).
- `Math.random`, `Date.now`, `new Date()` and the local calendar of `getMonthlySeed` are parameters: rolls in [0, 1), a clock reading `now`, day numbers, and a month seed.
- Large constant tables are parameters: `ITEM_LIBRARY`, `POTION_TIERS`, monsters, classes, skills and skill trees. The entries a proof needs are transcribed: the rarities, the chamber sub-upgrades, the market categories and the task pools' ids and sizes.
- JavaScript numbers are doubles. Integers in the model are unbounded, so precision loss above 2^53 is not modelled. This matters only for the Lehmer state and day seeds if they were huge.
- Tasks.SelectTasks requires a non-negative seed. For a negative seed, JavaScript's `%` keeps the sign and gives a negative swap index, which the source never produces from a clock.
- GameReducer.ProcessLevelUps, GameReducer.LevelUpsMeaning and Engine.Game.LevelUpLoop require `expToLevel ≥ 1`. With a threshold of 0 the source loops forever. Every threshold comes from the experience curve, which is at least 50.
- Engine.Game.BattlePotion requires a live monster. The battle screen only offers actions while the monster is alive, so `_afterPlayerAction` always hands the turn over.
- Combat.PlayerAtk requires `maxHp > 0`. Blood Frenzy divides by max hp, and a hero always has positive max hp.
- JsData.ScaleMonster requires a known monster id. `js/data.js` has no null check and would throw on an unknown id.
- GameReducer.Equip and Engine.Game.EquipItem require an item with a slot. Only such items are offered an Equip button, and the source would otherwise write to the `null` key.
- GameReducer.EquipItem, and the lemmas GameReducer.EquipSwaps and GameReducer.EquipThenUnequip, require an item with a slot too, while the EQUIP_ITEM case of src/hooks/useGameState.js:256-266 accepts any item; a slotless item would be stored under the `null` key, which the model does not represent.
- GameReducer.AfterPlayerHit, and with it GameReducer.BattleAttack and GameReducer.BattleSkill, ends a won fight with the corrected GameReducer.HandleVictory, not the as-written one of src/hooks/useGameState.js:131 and :146; the two differ only in the reported drop when the inventory was exactly full (see Findings).
- Loot.GenerateItem (for the potion type) and Loot.RollDrop (for every table) require `monsterLevel >= 0`: for a negative level the source's potion tier index `Math.floor(monsterLevel / 4)` falls before the tier list and the tier is `undefined`; their one caller, src/hooks/useGameState.js:334, passes the scaled monster's level, which is the level requirement of the location being explored (src/hooks/useGameState.js:97), a player level and so not negative.
- Engine.EngineDrinkMeaning requires a non-negative heal. A potion with a negative heal would lower hp in the source.
- Loot.DailyFeaturedItems requires `0 < daySeed + playerLevel < 2147483647`. Outside that range the Lehmer state degenerates: 0 stays 0.
- Utils.PickWeighted and the other weighted picks compute the roll `Math.random() * total` and the running subtraction on exact reals. Double rounding in that loop is not modelled.
- Quote contents (prices, change percentages) are not modelled. A quote carries only its symbol.

## Findings

| source | as written | input that shows it | evidently intended | confidence | as-written member | corrected member |
|---|---|---|---|---|---|---|
| src/hooks/useGameState.js:335-347 | the victory result reports `droppedItem` when `p.inventory.length <= p.maxInventory`, which is checked after the conditional push | an inventory of exactly `maxInventory` items and a drop: the item is not added, yet the result screen says it was won | report the drop only when it was pushed, as `js/engine.js:510-514` does | not executed | GameReducer.FullInventoryDropReportedAsWritten | GameReducer.HandleVictoryMeaning |
| server/routes/trades.js:205-241 | accept checks only that each client-sent return item's id is in the receiver's inventory, then hands the client's objects to the sender | the receiver holds `{id: "x1", name: "Stick"}` and sends back `{id: "x1", name: "Excalibur", rarity: "Legendary"}`: the sender gets Excalibur, and the receiver loses only the Stick | hand over the receiver's stored inventory entries with those ids, so both inventories together keep exactly their items | not executed | Trades.ForgedReturnItem | Trades.CorrectedAcceptConservesItems |
