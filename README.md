# Galactic Explorer: the economy and progression engine

Galactic Explorer is an incremental space game. All of its game logic lives in one
React component, `src/App.js`. This project models that logic in Dafny and proves
properties of it.

The player earns energy (the currency) in three ways: clicking, owning generators
that produce energy every second, and owning auto-clickers. The energy pays for:

- more generators, on a 1.15× cost curve;
- upgrades (click, per-generator and global multipliers, and the auto-clicker);
- planets, whose bonus is added to the global multiplier.

Other parts of the logic:

- Achievements and a daily challenge reward milestones, each only once.
- Prestige resets the run for prestige points and a permanent level bonus.
- A save payload is written, and read back with a default for every missing field.
- When loading, an offline credit of at most two hours of production is offered.

## Modules

| module | file | holds |
|---|---|---|
| `Content` | `content.dfy` | the content tables as values: generators, upgrades, achievements, planets, prestige thresholds, daily challenges |
| `Economy` | `economy.dfy` | the cost curve, production (`calculateCPS`), click power, prestige threshold and gain; each loop of the source is a method proved against a recursive function |
| `TimeFormat` | `time_format.dfy` | `formatTime`, as a datatype of the four display shapes |
| `State` | `state.dfy` | the game state as one value `GameData`, and the invariant `WellFormed` |
| `Rewards` | `rewards.dfy` | achievement predicates on a snapshot, the once-only unlock pass, and when the challenge is due |
| `SaveCodec` | `save_codec.dfy` | the save record with optional fields, `Encode`/`Decode`, and the offline credit |
| `Actions` | `actions.dfy` | every state-changing operation as a function on `GameData`, with the lemmas about it |
| `Engine` | `engine.dfy` | the component as a class `Game` |

The class `Game` has one field per piece of state. It has one method per handler or
effect, and each method updates the fields step by step, as the source does.

Each method's `ensures` ties the new state, `Data()`, to a function on values:

- the handlers and effects are tied to the matching function in `Actions`, with two
  exceptions: `SetBuyQuantity` states its new state inline as the old state with
  `buyQuantity` set to `q`, and `CanPrestigeNow` changes nothing and is tied to
  `Economy.PrestigeThreshold`;
- the load steps (`RestoreFrom`, `OfferOfflineCredit`, `RotateChallenge`) and `Save` are tied to
  `SaveCodec`;
- the achievement loop (`UnlockPass`, `UnlockLoop`) is tied to `Rewards`.

The properties are proved about those functions. The class invariant is `Valid()`:

- every handler and effect that changes the state keeps it;
- `BuyUpgrade` keeps it for catalog upgrades, and `ExplorePlanet` for table planets;
- `Load` establishes it for a well-formed record;
- the internal steps of `Load` and of `CheckAchievements` state no invariant of their own.

Inputs from outside the component are parameters:

- `now`, the clock in milliseconds;
- `today`, the date string;
- `pick`, the random challenge index;
- `StoredSave`, what storage holds (nothing, text that does not parse, or a parsed record).

Amounts are exact `real` numbers. For example, 1.15 is 115/100.

Some behaviours of the game are easy to misread; the model keeps them as the game has them:

- **Planet bonuses** are *added* to the product of global multipliers, not multiplied in.
- **Challenge counters:** every counter (clicks, earn, purchases) is advanced whatever
  kind the active challenge is.
- **Session counters:** on load, `sessionEarned` and `sessionClicks` are restored from the
  save. Only `sessionStart` is reset.
- **Offline credit** is computed from `s.generators ?? []`, so a save without generators
  earns nothing offline. The state itself falls back to fresh generators.
- **Unparseable save:** a save that does not parse leaves the state fresh with *no* daily
  challenge. A missing save issues one. A readable save issues one when its challenge is
  missing or dated another day.

## Model

| member | source | states |
|---|---|---|
| `Content.FreshGenerators` | src/App.js:121 | the starting generator list is the catalog with every quantity set to 0 |
| `Content.FindPlanet` | src/App.js:252 | `PLANETS.find` finds a planet exactly when one has that id; the planet found is in the table and has that id |
| `Content.CatalogsWellFormed` | src/App.js:62-116 | every catalog upgrade has a factor ≥ 1; every generator has a positive base cost and a non-negative rate; planet costs and bonuses and all rewards are non-negative |
| `Content.AchievementIdsDistinct` | src/App.js:85-100 | the achievement ids are pairwise distinct |
| `Content.UpgradeIds` | src/App.js:465 | the ids of the owned upgrades, position by position |
| `Content.AchievementIds` | src/App.js:389 | the ids of a list of achievements, position by position |
| `Economy.NextCost` | src/App.js:47 | definition: the price of the next unit with `owned` units already owned, `base × 1.15^owned` |
| `Economy.GrowthAtLeastOne` | src/App.js:47 | 1.15ⁿ ≥ 1 |
| `Economy.NextCostIncreasing` | src/App.js:47 | for a positive base, the next unit is positive and dearer than the one before |
| `Economy.NextCostStrictlyMonotone` | src/App.js:47 | `nextCost(base, m) < nextCost(base, n)` whenever m < n and base > 0 |
| `Economy.BatchCost` | src/App.js:440-444 | definition: the price of `quantity` units bought together, the sum of the unit prices from `owned` up to `owned + quantity - 1` |
| `Economy.TotalCost` | src/App.js:439-444 | the batch-cost loop computes the sum of `nextCost(base, owned + i)` for i < quantity |
| `Economy.BatchCostNonNegative` | src/App.js:440-444 | a batch never costs less than 0 |
| `Economy.BatchCostIncreasingInQuantity` | src/App.js:440-444 | a larger batch costs strictly more |
| `Economy.BatchCostIncreasingInOwned` | src/App.js:440-444 | the same batch costs strictly more once one more unit is owned |
| `Economy.GeneratorRate` | src/App.js:229-238 | definition: one generator's `qty × cps`, multiplied in list order by each owned generator multiplier that names that generator |
| `Economy.BaseRate` | src/App.js:226-241 | definition: the sum of the rates of all generators |
| `Economy.GlobalFactor` | src/App.js:243-261 | definition: the product of the global multipliers plus the bonuses of the explored planets, times `1 + 0.1 × level` when the level is positive |
| `Economy.Production` | src/App.js:225-264 | definition: passive income per second, the sum of the generator rates times the global factor |
| `Economy.ComputeGeneratorRate` | src/App.js:229-238 | one generator's rate: `qty × cps` times every matching generator multiplier |
| `Economy.MultiplyGlobals` | src/App.js:244-249 | the product of the global multipliers |
| `Economy.AddPlanetBonuses` | src/App.js:251-256 | each explored planet found in the table adds its bonus; unknown ids add nothing |
| `Economy.ComputeGlobalFactor` | src/App.js:243-261 | the global factor: the product of multipliers, plus the planet bonuses, times (1 + 0.1·level) only when level > 0 |
| `Economy.BaseRateStep` | src/App.js:229-241 | the running total grows by one generator's rate per step |
| `Economy.SumGeneratorRates` | src/App.js:226-241 | the generator loop sums every generator's rate |
| `Economy.CalculateCps` | src/App.js:225-264 | `calculateCPS` returns the sum of generator rates times the global factor |
| `Economy.GeneratorRateAtLeastOwn` | src/App.js:230-236 | with multipliers ≥ 1, a generator yields at least its own `qty × cps` |
| `Economy.GeneratorRateIdle` | src/App.js:230 | a generator with no units yields 0 |
| `Economy.BaseRateNonNegative` | src/App.js:229-241 | the generator sum is non-negative |
| `Economy.GlobalProductAtLeastOne` | src/App.js:243-249 | the product of global multipliers is at least 1 |
| `Economy.PlanetBonusNonNegative` | src/App.js:251-256 | the planet bonuses add a non-negative amount |
| `Economy.GlobalFactorAtLeastOne` | src/App.js:243-261 | the global factor is at least 1 |
| `Economy.ProductionNonNegative` | src/App.js:225-264 | production is non-negative for well-formed generators and upgrades |
| `Economy.BaseRateIdle` | src/App.js:229-241 | with every quantity 0, the generator sum is 0 |
| `Economy.ProductionIdle` | src/App.js:225-264 | with every quantity 0, production is 0 whatever the upgrades, planets and level |
| `Economy.BaseRateSingle` | src/App.js:229-241 | with no upgrades and only one generator owned, the sum is that generator's `qty × cps` |
| `Economy.FiveSolarPanels` | src/App.js:225-264 | five solar panels with no upgrades produce 0.5 per second |
| `Economy.ExploreAddsBonus` | src/App.js:251-256 | exploring a table planet adds exactly its bonus to the multiplier sum |
| `Economy.PrestigeScalesProduction` | src/App.js:258-263 | level 0 leaves the multiplier sum alone; level > 0 multiplies production by 1 + 0.1·level |
| `Economy.CrystalsAndMoon` | src/App.js:243-263 | Energy Crystals together with the Moon give a factor of 1.15 + 0.1 = 1.25: the bonus is added, not multiplied |
| `Economy.BaseRateMonotone` | src/App.js:229-241 | owning more units of any generator never lowers the generator sum |
| `Economy.GeneratorRateMonotone` | src/App.js:230-236 | one generator's rate grows with its quantity |
| `Economy.ProductionMonotone` | src/App.js:225-264 | owning more units never lowers production |
| `Economy.ClickPower` | src/App.js:334-342 | definition: energy per click, the product of the click multipliers times `1 + 0.05 × level` |
| `Economy.ComputeClickPower` | src/App.js:334-342 | the `clickPower` loop: the product of click multipliers times (1 + 0.05·level) |
| `Economy.ClickProductAtLeastOne` | src/App.js:335-340 | the product of click multipliers is at least 1 |
| `Economy.ClickPowerAtLeastOne` | src/App.js:334-342 | a click is worth at least 1, and exactly 1 with no upgrades at level 0 |
| `Economy.AutoClickCount` | src/App.js:362-363 | the number of auto-clickers is positive exactly when some owned upgrade is an auto-clicker (`upgrades.some`) |
| `Economy.PrestigeThreshold` | src/App.js:483-485 | the threshold is `THRESHOLDS[min(level, 3)]`: at least one million, and one billion from level 3 on |
| `Economy.CanPrestige` | src/App.js:483-485 | definition: prestige is allowed when total earnings reach the threshold of the current level |
| `Economy.ThresholdsAscending` | src/App.js:110 | thresholds never fall as the level rises |
| `Economy.SqrtFrom` | src/App.js:490 | the upward search ends at the floor of the square root |
| `Economy.FloorSqrt` | src/App.js:490 | `Math.floor(Math.pow(x, 0.5))` is the r with r² ≤ x < (r+1)² |
| `Economy.PrestigeGain` | src/App.js:490 | definition: the points a prestige earns, the floor of the square root of total earnings in millions |
| `Economy.PrestigeGainPositive` | src/App.js:483-490 | an eligible prestige always yields at least one point |
| `TimeFormat.NestedFloors` | src/App.js:50-53 | flooring seconds, then minutes, then hours equals dividing the milliseconds directly |
| `TimeFormat.FormatTime` | src/App.js:49-59 | the shape is days exactly from 24 h, hours from 1 h, minutes from 1 min, else seconds; each pair recomposes the elapsed time, the lower unit lying below its base |
| `TimeFormat.FormatTimeExamples` | src/App.js:49-59 | 90 minutes is "1h 30m", 25 hours is "1d 1h", 59 999 ms is "59s" |
| `State.FreshGame` | src/App.js:120-148 | definition: the starting state: no currency, the catalog generators with none owned, nothing owned or explored, level and points 0, a batch size of 1, zeroed stats stamped with the start time, no challenge and no progress |
| `State.Issue` | src/App.js:270-272 | definition: the catalog challenge at the chosen index, dated today |
| `State.FreshGameWellFormed` | src/App.js:120-148 | the initial state satisfies the invariant |
| `State.WellFormedRates` | src/App.js:225-342 | in a well-formed state production is ≥ 0 and a click is worth ≥ 1 |
| `Rewards.SnapshotOf` | src/App.js:387 | the snapshot the checks see holds the state's currency, generators, stats and planets, and its rate is `calculateCPS` |
| `Rewards.Holds` | src/App.js:85-100 | definition: each achievement check: clicks, currency, production, some generator's quantity, total earnings, play time since `startTime` or the number of explored planets reaches the entry's bound |
| `Rewards.NewlyUnlocked` | src/App.js:389-391 | definition: the achievements a check unlocks, in catalog order: those not owned whose check holds |
| `Rewards.UnlockedExactly` | src/App.js:389-391 | an achievement is unlocked by a pass exactly when it is in the catalog, not yet owned and its check holds |
| `Rewards.UnlockStep` | src/App.js:389-393 | one loop step appends the entry's id and credits its reward exactly when it is not owned and holds |
| `Rewards.RewardTotalNonNegative` | src/App.js:392 | rewarded amounts add up to a non-negative sum |
| `Rewards.UnlockKeepsDistinct` | src/App.js:389-392 | the owned list with the newly unlocked ids appended has no repeats |
| `Rewards.UnlockIdempotent` | src/App.js:386-397 | a second pass over the same snapshot unlocks nothing |
| `Rewards.OnlyFirstUnlocks` | src/App.js:389-391 | when only the first entry's check holds and nothing is owned, exactly that entry is unlocked |
| `Rewards.OnlyFirstSparkHolds` | src/App.js:85-100 | after one click with no production, generators, planets or time played, only "First Spark" holds |
| `Rewards.ChallengeDue` | src/App.js:400-410 | definition: the challenge is due when one is present, its progress is not marked completed and the counter of its kind has reached the target |
| `SaveCodec.Encode` | src/App.js:206-223 | the payload has version "1.0", the daily challenge, and `lastSave` set to the save time |
| `SaveCodec.Restore` | src/App.js:277-301 | definition: the state a readable save gives: each saved field, or its default when missing; the stats through `RestoreStats`; the saved challenge as it is |
| `SaveCodec.RestoreStats` | src/App.js:289-301 | each of the eight saved stats is the saved value or its default (0, or now for `startTime` and `lastSave`); `sessionStart` is always now; no saved stats gives the fresh record |
| `SaveCodec.Rotate` | src/App.js:320-325 | afterwards a challenge dated today is present; one already dated today is kept unchanged; otherwise the chosen challenge is issued and the progress cleared |
| `SaveCodec.OfflineEarnings` | src/App.js:309 | definition: the production over the time away, capped at two hours' production |
| `SaveCodec.OfflineEarningsCapped` | src/App.js:309 | offline earnings never exceed 2 hours of production; below 2 hours they are `cps·t/1000`, and from 2 hours on exactly `cps·7200` |
| `SaveCodec.FiveHoursAway` | src/App.js:309 | 5 hours away at 100/s earns 720 000; 90 s away earns 9 000 |
| `SaveCodec.Offline` | src/App.js:305-318 | an offline credit is offered exactly when saved stats carry a non-zero `lastSave`, more than 60 000 ms have passed and the capped earnings are positive; it records that time and those earnings |
| `SaveCodec.Decode` | src/App.js:267-330 | no save gives a fresh game with the chosen challenge; an unparseable one gives a fresh game with none; a record gets its offline offer, a challenge dated today and `sessionStart` now |
| `SaveCodec.RestoreEncode` | src/App.js:206-301 | restoring an encoded state gives it back, with `lastSave` the save time and `sessionStart` now |
| `SaveCodec.RoundTrip` | src/App.js:206-330 | saving and then loading: when the saved challenge is dated today, the state comes back with only `lastSave` and `sessionStart` changed; when there is no challenge or it is dated another day, the same state comes back with the chosen challenge issued for today and the progress cleared |
| `SaveCodec.OfflineOfEncode` | src/App.js:305-318 | a saved game is offered offline credit exactly when more than a minute has passed since a non-zero save time and the saved state's own production earns something, for that time and those earnings |
| `SaveCodec.EmptySaveIsNewGame` | src/App.js:267-325 | a record with every field missing loads like no save at all |
| `SaveCodec.EncodeOk` | src/App.js:206-223 | the payload of a well-formed state is well-formed |
| `SaveCodec.DecodeWellFormed` | src/App.js:267-330 | loading a well-formed record (or none) gives a well-formed state, and any offer is positive |
| `Actions.PassiveGain` | src/App.js:347-348 | the tick's passive gain is non-negative, positive exactly when production is, and then a tenth of it |
| `Actions.Earn` | src/App.js:345-436 | currency, `totalEarned`, `sessionEarned` and the earn counter rise by the amount; the three click counters rise by the clicks; nothing else changes |
| `Actions.EarnKeepsWellFormed` | src/App.js:349-359 | crediting a non-negative amount keeps the invariant |
| `Actions.AutoGain` | src/App.js:362-364 | definition: the click power times the number of owned auto-clickers |
| `Actions.Tick` | src/App.js:345-383 | definition: the passive credit of cps/10 when it is positive, then the auto-click credit |
| `Actions.TickAccounting` | src/App.js:345-383 | a tick adds `cps/10 + clickPower × auto-clickers` to currency; the same rise reaches `totalEarned`, `sessionEarned` and the earn counter; clicks rise by the number of auto-clickers; nothing else changes |
| `Actions.TickKeepsWellFormed` | src/App.js:345-383 | a tick keeps the invariant and never lowers currency |
| `Actions.AutoGainNonNegative` | src/App.js:363-364 | the auto-click gain is non-negative |
| `Actions.IdleTick` | src/App.js:345-383 | with no units and no auto-clicker a tick changes nothing |
| `Actions.AutoClickerTick` | src/App.js:362-372 | an auto-clicker alone, at level 0, earns one energy and one click per tick |
| `Actions.Click` | src/App.js:420-436 | a click adds `clickPower` to currency and counts as one earning click |
| `Actions.ClickKeepsWellFormed` | src/App.js:420-436 | a click keeps the invariant and adds at least 1 |
| `Actions.FirstClick` | src/App.js:420-436 | the first click of a new game yields one energy and one click |
| `Actions.AddUnits` | src/App.js:448-450 | only the entry with the matching id gains the quantity |
| `Actions.BuyGenerator` | src/App.js:438-462 | unaffordable: nothing changes; otherwise currency falls by the batch cost, the matching generator gains the quantity, `totalSpent` rises by the cost, purchases and the purchases counter by the quantity |
| `Actions.BuyGeneratorKeepsWellFormed` | src/App.js:438-462 | a purchase keeps the invariant, so currency stays ≥ 0, and never lowers production |
| `Actions.FirstSolarPanel` | src/App.js:438-462 | with 15 energy a new game buys one solar panel and is left with 0 |
| `Actions.BuyUpgrade` | src/App.js:464-471 | a no-op when unaffordable or owned; otherwise the cost is debited, added to `totalSpent`, and the upgrade appended |
| `Actions.BuyUpgradeOnce` | src/App.js:464-471 | the invariant holds, with no repeated upgrade id; the upgrade is owned afterwards exactly when it was affordable or owned; a second purchase is a no-op |
| `Actions.Explore` | src/App.js:473-481 | a no-op when unaffordable or explored; otherwise the cost is debited, added to `totalSpent`, and the planet appended |
| `Actions.ExploreOnce` | src/App.js:473-481 | the invariant holds, with no repeated planet; explored afterwards exactly when affordable or explored; a second visit is a no-op; the multiplier sum gains the bonus |
| `Actions.Prestige` | src/App.js:487-512 | not eligible: nothing changes; else currency, generators, upgrades and planets reset, level +1, points + ⌊√(earned/10⁶)⌋ ≥ 1, the listed stats zeroed and `sessionStart` now; achievements, `totalClicks`, `startTime`, challenge kept |
| `Actions.PrestigeRestarts` | src/App.js:487-512 | after a prestige the state is well-formed, production is 0, a click is worth 1 + 0.05·level and prestige is not possible again at once |
| `Actions.FirstPrestige` | src/App.js:483-512 | at exactly one million earned, the first prestige gives level 1 and one point |
| `Actions.Claim` | src/App.js:514-521 | no offer: nothing changes; otherwise the earnings are added to currency and `totalEarned` |
| `Actions.ClaimKeepsWellFormed` | src/App.js:514-521 | claiming keeps the invariant and raises currency and `totalEarned` alike |
| `Actions.CheckAchievements` | src/App.js:386-397 | the achievement effect appends the ids of the newly unlocked achievements and credits their rewards, nothing else |
| `Actions.CheckAchievementsOnce` | src/App.js:386-397 | the effect keeps the invariant; it never lowers currency; the old list is a prefix of the new; a second pass over the same snapshot unlocks nothing; an id it made owned is never unlocked again by a later run on any state that keeps the list |
| `Actions.CheckChallenge` | src/App.js:400-410 | afterwards the challenge is not due; not due: nothing changes; due: reward credited, `completed` set |
| `Actions.ChallengePaysOnce` | src/App.js:400-410 | once a due challenge has paid, the next click or tick does not make it due again, and checking after that click changes nothing |
| `Actions.CompletedStays` | src/App.js:345-521 | `completed` survives every credit, tick, click, purchase, exploration, unlock pass, claim and prestige, and a completed challenge is never paid again |
| `Actions.CheckChallengeKeepsWellFormed` | src/App.js:400-410 | the challenge effect keeps the invariant, in which the issued challenge's reward is not negative, and never lowers currency |
| `Actions.FirstClickUnlocks` | src/App.js:386-436 | the achievement check after the first click of a new game unlocks "First Spark" and nothing else |
| `Actions.ClickChallengeDue` | src/App.js:400-410 | 500 clicks complete "Click Master" for 50 000 energy |
| `Engine.Game.Load` | src/App.js:267-330 | the mounted component holds the decoded state and offline offer, and is valid when the stored record is |
| `Engine.Game.RestoreFrom` | src/App.js:277-301 | the `??` defaults applied field by field give the restored state |
| `Engine.Game.OfferOfflineCredit` | src/App.js:305-318 | sets the offer to the offline credit when there is one, else leaves it |
| `Engine.Game.RotateChallenge` | src/App.js:320-325 | the state after the date check is the rotated state |
| `Engine.Game.Save` | src/App.js:206-223 | the payload is the encoding of the current state |
| `Engine.Game.Credit` | src/App.js:345-383 | the fields updated in place give the credited state; a non-negative credit keeps `Valid` |
| `Engine.Game.PassiveIncome` | src/App.js:347-360 | the first block of the loop credits `cps/10` when positive |
| `Engine.Game.AutoClicks` | src/App.js:362-379 | the second block credits every auto-click |
| `Engine.Game.Tick` | src/App.js:345-383 | the in-place tick gives the tick of the old state and keeps `Valid` |
| `Engine.Game.HandleClick` | src/App.js:420-436 | the in-place click gives the click of the old state and keeps `Valid` |
| `Engine.Game.BuyGenerator` | src/App.js:438-462 | reports whether the batch was affordable; the new state is the purchase of the old; keeps `Valid` |
| `Engine.Game.BuyUpgrade` | src/App.js:464-471 | reports whether the upgrade was bought, exactly when affordable and not owned; keeps `Valid` for catalog upgrades |
| `Engine.Game.ExplorePlanet` | src/App.js:473-481 | reports whether the planet was explored, exactly when affordable and new; keeps `Valid` for table planets |
| `Engine.Game.CanPrestigeNow` | src/App.js:483-485 | true exactly when `totalEarned` reaches the threshold for the current level |
| `Engine.Game.DoPrestige` | src/App.js:487-512 | reports eligibility; the new state is the prestige of the old; keeps `Valid` |
| `Engine.Game.ClaimOfflineProgress` | src/App.js:514-521 | credits the pending offer, clears it, keeps `Valid`; with no offer nothing changes |
| `Engine.Game.CheckAchievements` | src/App.js:386-397 | the in-place pass gives the achievement effect of the old state and keeps `Valid` |
| `Engine.Game.UnlockPass` | src/App.js:389-395 | the loop appends the unlocked ids and credits their rewards; no other field changes |
| `Engine.UnlockLoop` | src/App.js:389-395 | the loop over the catalog collects exactly the unlocked ids and the sum of their rewards |
| `Engine.Game.CheckDailyChallenge` | src/App.js:400-410 | the in-place check gives the challenge effect, after which the challenge is not due, and keeps `Valid` |
| `Engine.Game.SetBuyQuantity` | src/App.js:662-666 | only the buy quantity changes |
| `Engine.OpeningMoves` | src/App.js:420-462 | a new game clicked 15 times buys one solar panel, ending with 0 energy and one panel, and cannot afford a second |

## Left out

- Rendering, JSX, tabs, settings and the theme: presentation only.
- Scheduling of React hooks. Each effect is one explicit method call. The
  stale-closure 30-second autosave interval and the timers are not modelled.
- `localStorage`, `JSON.parse`/`JSON.stringify`, and the export, import and reset handlers
  with Blob, FileReader, `window.confirm` and reload. These are browser I/O.
- The save is a typed record whose fields are optional. A saved field of the wrong
  JSON type, which the source would store as is, is not represented.
  `tab` is not carried in the record.
- Notifications, confetti and the `fmt` number formatter: display only.
- `Math.random`, `Date.now()` and `toDateString()` are not called; their values come in
  as the parameters `pick`, `now` and `today`.
- IEEE-754 rounding: amounts are exact reals.
- `TimeFormat.FormatTime`: it returns the numbers of the display string, not the text
  itself.
- `Engine.Game.Tick`: it models one run of the 100 ms loop. Between two runs of the
  real loop, React may recompute `cpsTotal` and `clickPower` at a point the model does
  not fix.
