# Voice farm workshop — a Dafny model of the farming engine

This project models the game logic of the voice farm workshop in Dafny and proves
properties of it. The workshop is a farming game played through a voice skill or in a
browser. The player plants crops, waters them, waits for them to ripen and harvests
them for experience points (xp), and the xp raises the player's level.

The engine exists in three variants, and each is modelled as its source file writes it:

- **FarmService**: the voice skill's farm store. It keeps one farm per user, with a list
  of crop records capped at six. A crop is ready purely by time, and the level is
  `floor(xp/50)+1`.
- **Plot and FarmGrid**: the browser game's plot objects in a 25-plot grid.
  - A plot goes empty → planted → growing → ready.
  - Only a watered (growing) crop ripens.
  - Harvesting empties the plot.
- **Game**: the inline browser variant. It has a 25-slot `farm.plots` array.
  - A harvested crop stays in its slot, marked harvested, until it is cleared.
  - The tick ripens only growing crops.

Around these sit the browser game's supporting systems:

- **ResourceManager**: the resource ledger, with its guarded add and spend operations.
  - The 50-level xp threshold table and the level-up loop that applies each level's
    benefit once.
  - A newest-first transaction log of at most 100 entries.
- **CropManager**: the crop catalog, with level filtering, validation of custom crops,
  removal and all-or-nothing import.
- **UnlockSystem**: the unlock and achievement engine.
  - Progress counters and a planting streak.
  - A two-minute speed window and a five-minute inactivity reset.
  - Achievements granted at most once.
  - Permanent and counted temporary bonuses.
- **TimerManager**: the timer registry.
  - Countdown, interval and stopwatch timers advanced by update deltas.
  - One-step offline catch-up.
  - Export and import.
- **StorageManager**: the save-package rules.
  - Schema validation and the v1 → v2 → v3 migration chain.
  - The compression marker.
  - Backup listing and pruning over an abstract set of storage keys.
- **EconomicBalance**: the integer-valued economic helpers.
  - Strategy and rarity distributions and progression gaps.
  - The best affordable crop, the progression simulation and the balance test.

Each source file is one Dafny module, with the same name as the file:

- `plot.dfy`, `farm_grid.dfy`, `game.dfy`, `farm_service.dfy`;
- `resource_manager.dfy`, `crop_manager.dfy`, `unlock_system.dfy`;
- `timer_manager.dfy`, `storage_manager.dfy`, `economic_balance.dfy`.

Two modules are shared: `wrappers.dfy` holds Option and Result, and `text.dfy` holds
ASCII lower-casing.

Where the source mutates objects in place, the model uses classes. Their methods carry
`modifies` clauses, and each method's postcondition ties the new state to a pure
specification function of the old state. The properties the game promises are lemmas
about those functions. The loops of the bulk operations are methods with invariants,
proved equal to those functions.

Time never comes from a clock here. Every operation that reads the time takes it as an
integer parameter `now`, in milliseconds, and crop and timer ids are parameters too.

## Model

| member | source | states |
|---|---|---|
| Plot.TimeRemaining | web-game/Plot.js:238-241 | the time left is never negative and is 0 unless the crop is growing; while a growing crop is not yet due it is exactly `readyAt - now`; a positive value means the crop cannot ripen at `now` |
| Plot.StatePredicatesPartition | web-game/Plot.js:243-261 | while the state agrees with the crop, exactly one of isEmpty, needsWater, isGrowing, isReady and isHarvested holds, and planting, watering, harvesting, clearing and the growth check keep that agreement |
| Plot.Plot.GetPlotData | web-game/Plot.js:267-273 | the saved record carries the plot's index, and restoring it onto any plot with the same lock reproduces this plot |
| Plot.StepsKeepInvariant | web-game/Plot.js:93-195 | plant, water, harvest, clear and checkGrowth all keep the plot invariant (no crop means empty, a held crop has a configuration entry) and never change `isLocked` |
| Plot.HarvestedOnlyByRestore | web-game/Plot.js:251-253 | from a plot that is not in the harvested state, none of plant, water, harvest, clear or checkGrowth reaches the harvested state |
| Plot.CheckGrowthFacts | web-game/Plot.js:184-195 | an unwatered (planted) crop is left alone; the plot is ready afterwards iff it was ready or a growing crop was due; nothing is left to ripen at the same `now`; a second check changes nothing |
| Plot.RestoreRoundTrip | web-game/Plot.js:267-284 | restoring a well-formed plot from its own `getPlotData` gives back the same crop, state and lock |
| Plot.Plot.constructor | web-game/Plot.js:4-13 | a new plot has no crop, is empty and unlocked, and satisfies the invariant |
| Plot.Plot.Plant | web-game/Plot.js:93-110 | succeeds iff the plot is empty, unlocked and the crop type is configured; then the crop is planted, unwatered, planted at `now` and due `growthTime` later; on failure nothing changes |
| Plot.Plot.Water | web-game/Plot.js:112-156 | succeeds iff there is a crop that is neither ready nor harvested; then crop and plot become growing with `wateredAt = now` and `readyAt` kept; otherwise nothing changes |
| Plot.Plot.Harvest | web-game/Plot.js:158-174 | returns a reward iff the crop is ready; the reward carries the crop type and its configured `xpReward` and name, and the plot is cleared at once |
| Plot.Plot.Clear | web-game/Plot.js:176-182 | always succeeds; afterwards there is no crop, the plot is empty and the lock is unchanged |
| Plot.Plot.CheckGrowth | web-game/Plot.js:184-195 | returns true iff a growing crop is due at `now`, and exactly then moves crop and plot to ready |
| Plot.Plot.RestoreFromData | web-game/Plot.js:275-284 | saved data without a crop clears the plot; otherwise the saved crop and state are adopted |
| FarmGrid.CountSelected | web-game/FarmGrid.js:182-193 | the count is exactly the number of plots the state name selects: "empty", "planted" and "growing" by the plot state predicates, "ready" and "harvested" by readiness and the harvested state; an unknown name selects none; never more than the number of plots |
| FarmGrid.NextReadyTime | web-game/FarmGrid.js:241-247 | None iff no plot is growing; otherwise the value is the remaining time of some growing plot and no growing plot has less |
| FarmGrid.NoneRipeAfterCheck | web-game/FarmGrid.js:158-172 | once every plot has been checked at `now`, no plot is left to ripen at `now`, so a second `updateGrowth` counts 0 |
| FarmGrid.WaterAllEffect | web-game/FarmGrid.js:95-104 | the bulk filter (planted or growing) is exactly the condition under which `water` succeeds; a watered plot ends growing with its ready time kept; any other plot is unchanged |
| FarmGrid.HarvestAllEffect | web-game/FarmGrid.js:115-127 | a harvested ready plot ends empty with no crop; a plot that was not ready is unchanged |
| FarmGrid.FarmGrid.constructor | web-game/FarmGrid.js:4-36 | the grid holds 25 distinct fresh plots, plot i has index i, and every plot is empty, with no crop, and unlocked |
| FarmGrid.FarmGrid.PlantCrop | web-game/FarmGrid.js:48-60 | an out-of-range index fails with no plot changed; otherwise only the indexed plot changes, as `plant` does, and the result is `plant`'s |
| FarmGrid.FarmGrid.WaterCrop | web-game/FarmGrid.js:62-74 | an out-of-range index fails with no plot changed; otherwise only the indexed plot changes, as `water` does |
| FarmGrid.FarmGrid.HarvestCrop | web-game/FarmGrid.js:76-87 | an out-of-range index gives null with no plot changed; otherwise a reward (worth the crop's `xpReward`) comes back iff the plot was ready, and only that plot changes |
| FarmGrid.FarmGrid.ClearPlot | web-game/FarmGrid.js:89-93 | succeeds iff the index is in range; then only the indexed plot is cleared |
| FarmGrid.FarmGrid.WaterIfPlanted | web-game/FarmGrid.js:98-104 | one step of the watering loop: plot i is watered iff it was planted or growing, and no other plot changes |
| FarmGrid.FarmGrid.HarvestIfReady | web-game/FarmGrid.js:119-127 | one step of the harvesting loop: plot i yields its reward iff it was ready, and no other plot changes |
| FarmGrid.FarmGrid.ClearIfHarvested | web-game/FarmGrid.js:141-147 | one step of the clearing loop: plot i is cleared iff it was in the harvested state, and no other plot changes |
| FarmGrid.FarmGrid.CheckGrowthAt | web-game/FarmGrid.js:161-165 | one step of the growth loop: plot i ripens iff it was growing and due, and no other plot changes |
| FarmGrid.FarmGrid.WaterAllCrops | web-game/FarmGrid.js:95-113 | returns the number of planted-or-growing plots; each plot ends as watering leaves it |
| FarmGrid.FarmGrid.HarvestAllCrops | web-game/FarmGrid.js:115-136 | count is the number of ready plots and xp the sum of their configured rewards; each plot ends as harvesting leaves it |
| FarmGrid.FarmGrid.ClearHarvestedCrops | web-game/FarmGrid.js:138-156 | returns the number of plots in the harvested state; exactly those are cleared, every other plot is unchanged |
| FarmGrid.FarmGrid.UpdateGrowth | web-game/FarmGrid.js:158-172 | returns the number of growing plots due at `now`; each plot ends as `checkGrowth` leaves it, and none is left to ripen at the same `now` |
| FarmGrid.FarmGrid.GetPlotCount | web-game/FarmGrid.js:182-193 | the count is the size of the set of grid indices whose plot the state name selects, and never exceeds the 25 plots |
| FarmGrid.FarmGrid.RestoreFromData | web-game/FarmGrid.js:211-223 | succeeds iff data is given for exactly 25 plots; on failure no plot changes; on success plot i is restored from entry i |
| FarmGrid.FarmGrid.Reset | web-game/FarmGrid.js:225-228 | every plot ends empty with no crop |
| FarmGrid.FarmGrid.GetNextReadyTime | web-game/FarmGrid.js:241-247 | None iff no plot is growing; otherwise the time left of some growing plot, and no growing plot has less time left |
| Game.HarvestAllLeavesNoneReady | web-game/game.js:211-223 | after harvesting every ready slot none is ready, the harvested count grows by exactly the number that were ready, and no slot is emptied |
| Game.NoneReadyHarvestAllUnchanged | web-game/game.js:215-223 | with no ready slot the harvesting pass changes no slot |
| Game.ClearAllEffect | web-game/game.js:246-256 | after clearing no slot is harvested, while the ready and waterable counts are unchanged |
| Game.TickFacts | web-game/game.js:335-341 | two ticks equal one tick at the later time; a planted (unwatered) crop never ripens; a slot is ready after a tick iff it was ready or a growing crop was due |
| Game.HarvestVFacts | web-game/game.js:182-196 | a harvest of a ready slot adds its reward to xp and one to totalHarvests, keeps the crop in its slot marked harvested, and keeps `level = floor(xp/50)+1` without lowering it; any other slot leaves the farm unchanged |
| Game.Game.constructor | web-game/game.js:4-11 | 25 empty slots, level 1, no xp, no harvests, tomatoes selected |
| Game.Game.HandlePlotClick | web-game/game.js:114-127 | an empty slot is planted, a planted or growing crop watered, a ready crop harvested, a harvested crop left alone |
| Game.Game.PlantCrop | web-game/game.js:129-146 | the slot holds a fresh planted, unwatered crop of the selected kind, due its growth time after `now`; nothing else changes |
| Game.Game.WaterCrop | web-game/game.js:148-159 | only a planted or growing crop changes, to growing with `wateredAt = now`; its ready time is kept |
| Game.Game.WaterAllCrops | web-game/game.js:161-180 | every planted or growing crop is watered and counted; every other slot is unchanged |
| Game.Game.HarvestCrop | web-game/game.js:182-209 | the farm becomes the single-harvest transition of the slot; `leveledUp` iff the level rose |
| Game.Game.HarvestAllCrops | web-game/game.js:211-244 | the count and xp returned are the number and summed rewards of the ready slots; when some were ready the farm gains that xp and count and the level is recomputed, otherwise nothing changes |
| Game.Game.ClearHarvestedCrops | web-game/game.js:246-263 | exactly the harvested slots become empty and are counted; every other slot is unchanged |
| Game.Game.Tick | web-game/game.js:331-353 | every growing crop due at `now` becomes ready and nothing else changes; `updated` iff some crop ripened |
| Game.Game.ResetGame | web-game/game.js:408-420 | 25 fresh empty slots, level 1, no xp, no harvests, tomatoes selected |
| FarmService.Lookup | lambda/services/FarmService.js:12-18 | a configuration hit names the crop type stored under exactly that key |
| FarmService.TallyOf | lambda/services/FarmService.js:263-301 | planted, growing, ready and harvested counts sum to the number of crops; the harvested count is the number of harvested crops; there is one detail per unharvested crop |
| FarmService.AvailableCrops | lambda/services/FarmService.js:335-337 | every configured crop type is listed, each listed key is configured, and no key appears twice |
| FarmService.CropGrowthTime | lambda/services/FarmService.js:326-330 | a growth time comes back iff the lower-cased name is configured, and it is that type's configured hours |
| FarmService.NearlyReadyAtMostWatered | lambda/services/FarmService.js:128-138 | the nearly-ready count never exceeds the watered count |
| FarmService.SumRewards | lambda/services/FarmService.js:209-225 | reaping the selected crops adds their summed rewards to the harvested xp and their number to the harvested count, with one reward per reaped crop |
| FarmService.WaterFarmEffect | lambda/services/FarmService.js:97-149 | watering keeps the farm well formed; a successful watering turns exactly the unharvested filter-matching crops growing at `now`, keeps every ready time, leaves other crops alone, counts the watered crops and reports no more nearly-ready crops than that |
| FarmService.HarvestFarmEffect | lambda/services/FarmService.js:163-244 | a successful harvest reaps exactly the unharvested, due, filter-matching crops (watered or not), adds their summed rewards to xp and their number to totalHarvests, keeps `level = floor(xp/50)+1` without lowering it, and reports a level-up iff the level rose; an unsuccessful one changes nothing |
| FarmService.HarvestNeverRepeats | lambda/services/FarmService.js:175-177 | right after a successful harvest, the same harvest finds nothing to reap |
| FarmService.PlantOpEffect | lambda/services/FarmService.js:41-92 | an unknown type is rejected with no farm touched; a known type is refused iff the farm already holds six crops, harvested ones included; otherwise exactly one planted, unwatered crop due `growthTime` hours after `now` is appended |
| FarmService.StoreKeepsOk | lambda/services/FarmService.js:24-36 | storing a well-formed farm under its owner keeps every stored farm well formed |
| FarmService.WaterSelected | lambda/services/FarmService.js:128-138 | the loop's crops and both counters equal the watering of the selected crops and its counts |
| FarmService.ReapSelected | lambda/services/FarmService.js:209-221 | the loop's crops, rewards, xp total and count equal the reaping of the selected crops |
| FarmService.WaterOn | lambda/services/FarmService.js:99-149 | on a loaded farm, the new farm and the reply are those of the watering transition: no crops, no crop of the named type, or the watered counts |
| FarmService.HarvestOn | lambda/services/FarmService.js:165-244 | on a loaded farm, the new farm and the reply are those of the harvest transition: no crops, still growing, nothing ready, or the harvest |
| FarmService.CategoriseCrops | lambda/services/FarmService.js:273-301 | the categorising loop yields exactly the tally of the crop list |
| FarmService.FarmService.constructor | lambda/services/FarmService.js:7-19 | no farms are stored |
| FarmService.FarmService.GetFarm | lambda/services/FarmService.js:24-36 | an unknown user gets a fresh level-1 farm with no crops, stored under the id; a known user's farm is returned unchanged |
| FarmService.FarmService.PlantCrop | lambda/services/FarmService.js:41-92 | the farm map and the reply are those of the planting transition |
| FarmService.FarmService.WaterCrops | lambda/services/FarmService.js:97-158 | the user's farm (fetched or created) is replaced by its watered form and the reply is the watering reply |
| FarmService.FarmService.HarvestCrops | lambda/services/FarmService.js:163-253 | the user's farm (fetched or created) is replaced by its harvested form and the reply is the harvest reply |
| FarmService.FarmService.GetFarmStatus | lambda/services/FarmService.js:258-321 | the report carries the farm's level, xp and harvest count and the tally of its crops at `now` |
| ResourceManager.ThresholdIncreasing | web-game/ResourceManager.js:24-34 | every later entry of the XP threshold table is strictly larger than an earlier one |
| ResourceManager.LevelBenefit | web-game/ResourceManager.js:36-49 | benefits exist only for levels 2 to 20; levels 2 to 5 each unlock one crop; every money bonus is positive |
| ResourceManager.ResourceManager.GetResource | web-game/ResourceManager.js:51-53 | a held resource's amount, and 0 for one never set |
| ResourceManager.CanAfford | web-game/ResourceManager.js:119-121 | affordable iff the held amount (0 when unset) minus the price is not negative; for an unset resource, iff the price is at most 0 |
| ResourceManager.ThresholdsShape | web-game/ResourceManager.js:24-34 | the threshold table has 50 entries, starts at 0 and is strictly increasing |
| ResourceManager.CalculateXPThresholds | web-game/ResourceManager.js:24-34 | the table-building loop yields the threshold table: 50 entries, first 0, strictly increasing |
| ResourceManager.LevelScan | web-game/ResourceManager.js:144-151 | the downward scan returns a level in 1..n such that no later threshold is reached and, above level 1, its own threshold is reached |
| ResourceManager.LevelOf | web-game/ResourceManager.js:144-151 | the level from XP lies between 1 and 50 |
| ResourceManager.LevelOfFacts | web-game/ResourceManager.js:144-151 | the level's threshold is reached and the next one (if any) is not, so it is the largest i+1 with thresholds[i] <= xp; level 1 at xp 0; non-decreasing in xp |
| ResourceManager.LevelOfMonotone | web-game/ResourceManager.js:144-151 | more XP never gives a lower level |
| ResourceManager.Cap | web-game/ResourceManager.js:218-225 | the trimmed log is at most 100 entries long, is the log itself when that was short enough, and is otherwise its newest prefix |
| ResourceManager.CapPrepend | web-game/ResourceManager.js:218-225 | trimming after every prepend gives the same log as trimming once at the end |
| ResourceManager.BonusRunEffect | web-game/ResourceManager.js:132-135 | applying the benefits of levels lo..hi raises money by exactly the sum of their money bonuses and prepends one transaction per bonus to the trimmed log |
| ResourceManager.BonusTxsOrdered | web-game/ResourceManager.js:132-135 | each recorded bonus belongs to a level in lo..hi with a money bonus, and the levels appear once each, applied in ascending order (newest first in the log) |
| ResourceManager.ResourceManager.constructor | web-game/ResourceManager.js:4-22 | the given resources are laid over the defaults (50 money, 0 xp, level 1, zero totals); the log is empty |
| ResourceManager.ResourceManager.SetResource | web-game/ResourceManager.js:55-61 | the resource is set to the amount clamped at 0, which is returned; nothing else changes |
| ResourceManager.ResourceManager.RecordTransaction | web-game/ResourceManager.js:218-225 | the transaction becomes the newest entry, older entries shift back by one, and the log stays within 100 entries |
| ResourceManager.ResourceManager.AddResource | web-game/ResourceManager.js:63-87 | a non-positive amount fails and changes nothing; otherwise the balance rises by exactly the amount, the transaction is logged, and adding XP runs the level-up check, never lowering the level; after adding XP to a level not above the new XP's level, the level is exactly the level of the XP |
| ResourceManager.ResourceManager.SpendResource | web-game/ResourceManager.js:89-117 | fails with no change iff the amount is non-positive or exceeds the balance; otherwise subtracts exactly the amount (never below 0), logs the spend and, for money, adds the amount to totalSpent |
| ResourceManager.LevelUp | web-game/ResourceManager.js:123-142 | the level becomes the larger of the current level and the level of the XP; XP and the set of resources are kept; from a level not above the XP's level, the new level is the XP's level |
| ResourceManager.ResourceManager.CheckLevelUp | web-game/ResourceManager.js:123-142 | the level becomes the level from XP when that is higher, so from a level not above it the level equals the level of the XP; each level gained applies its benefit once in ascending order, money rises by the summed money bonuses, XP is untouched, and the number of levels gained is returned; the level never drops |
| ResourceManager.ResourceManager.ApplyLevelBenefit | web-game/ResourceManager.js:184-202 | returns the level's benefit; a money bonus is added through addResource under the source `level_<n>_bonus`, and any other benefit changes nothing |
| ResourceManager.ResourceManager.CalculateLevelFromXP | web-game/ResourceManager.js:144-151 | the scan returns the level from XP |
| ResourceManager.ResourceManager.GetXPForNextLevel | web-game/ResourceManager.js:153-162 | no answer at level 50 or above; otherwise the next threshold minus the current XP, which is positive when the level matches the XP |
| ResourceManager.ResourceManager.GetXPProgress | web-game/ResourceManager.js:164-182 | at level 50 or above the current XP; otherwise the XP into the level and the level's positive width in XP |
| ResourceManager.ResourceManager.ImportData | web-game/ResourceManager.js:285-299 | the imported resources are merged over the current ones, the log is replaced when one is given, and the level is then the level from XP |
| ResourceManager.ResourceManager.Reset | web-game/ResourceManager.js:301-311 | the resources are the defaults and the log is empty |
| CropManager.BuiltinsDistinct | web-game/CropManager.js:5-134 | the built-in catalog has no key twice |
| CropManager.BuiltinsStored | web-game/CropManager.js:5-134 | every built-in crop passes validation, and each sells for more than its seed costs |
| CropManager.Lookup | web-game/CropManager.js:145-147 | a hit is a pair of the catalog under that key; a miss means no pair has that key |
| CropManager.LookupExact | web-game/CropManager.js:145-147 | with distinct keys, looking a key up yields a definition iff that pair is in the catalog |
| CropManager.Put | web-game/CropManager.js:241 | after assigning a key, looking it up yields the new definition; a new key is appended, an existing one keeps the catalog's length |
| CropManager.PutKeepsOthers | web-game/CropManager.js:241 | assigning one key leaves the lookup of every other key unchanged |
| CropManager.PutKeepsDistinct | web-game/CropManager.js:241 | assigning a key keeps the keys distinct |
| CropManager.PutKeepsStored | web-game/CropManager.js:241 | assigning a valid definition keeps every stored definition valid |
| CropManager.Remove | web-game/CropManager.js:245-251 | deleting a key keeps exactly the pairs with other keys, keeps keys distinct, and the key is then absent |
| CropManager.RemoveKeepsOthers | web-game/CropManager.js:245-251 | deleting one key leaves the lookup of every other key unchanged |
| CropManager.ForLevel | web-game/CropManager.js:153-157 | the result holds exactly the definitions whose unlock level is at most the player's |
| CropManager.ForLevelGrows | web-game/CropManager.js:153-157 | raising the level never drops a crop from the list |
| CropManager.MinLocked | web-game/CropManager.js:188-196 | none iff no crop is locked at the level; otherwise the smallest unlock level of a locked crop, which is above the level |
| CropManager.FirstMissing | web-game/CropManager.js:205-211 | none iff every field is present; otherwise the earliest listed field that is missing |
| CropManager.Validate | web-game/CropManager.js:204-222 | a missing required field is reported first (the first in order), then a negative cost, price or reward, then a growth time that is not positive; valid iff none applies |
| CropManager.ValidateCropData | web-game/CropManager.js:204-222 | the field loop and range checks give exactly the validation verdict |
| CropManager.CustomCrop | web-game/CropManager.js:230-241 | the stored custom crop is valid, keeps every supplied field, and defaults the unlock level to 1 and the rarity to common |
| CropManager.StoredHasPrices | web-game/CropManager.js:165-169 | every stored definition has a sale price and a seed cost |
| CropManager.CropManager.constructor | web-game/CropManager.js:4-143 | the catalog is the built-in set, in which every crop sells for more than its seed costs |
| CropManager.CropManager.GetCropDefinition | web-game/CropManager.js:145-147 | a definition comes back iff some pair has the id, and it is that pair's |
| CropManager.CropManager.GetCropsForLevel | web-game/CropManager.js:153-157 | exactly the catalog's definitions unlocked at the level |
| CropManager.CropManager.CalculateProfit | web-game/CropManager.js:165-169 | sale price minus seed cost for a known crop, 0 for an unknown one |
| CropManager.CropManager.IsUnlocked | web-game/CropManager.js:183-186 | true iff the crop exists and is among those unlocked at the level |
| CropManager.CropManager.GetNextUnlockLevel | web-game/CropManager.js:188-196 | none iff no crop is locked at the level; otherwise the minimum unlock level among the locked crops |
| CropManager.CropManager.AddCustomCrop | web-game/CropManager.js:224-243 | invalid data is refused with its verdict and the catalog unchanged; valid data is stored under its id with its own fields over the defaults |
| CropManager.CropManager.RemoveCrop | web-game/CropManager.js:245-251 | true iff the id was present; the id is absent afterwards and every other lookup is unchanged |
| CropManager.CropManager.ImportCropData | web-game/CropManager.js:276-294 | all or nothing: true iff every pair validates with its key as the default id, and then the object replaces the catalog; otherwise the catalog is unchanged |
| UnlockSystem.SpeedStep | web-game/UnlockSystem.js:268-289 | an inactive window starts at `now` with count 1; within 120000 ms of its start the count rises by one; after that the window restarts with count 1; the result is always active and a well-formed window stays well formed |
| UnlockSystem.AchievementCompleted | web-game/UnlockSystem.js:183-205 | only harvest-count, total-profit, unique-crop and speed-harvest requirements can be completed; a completed speed harvest needs an active run with at least the required count |
| UnlockSystem.SpecialMet | web-game/UnlockSystem.js:207-222 | only perfect-streak and continuous-play requirements can be met |
| UnlockSystem.ConditionsFollowProgress | web-game/UnlockSystem.js:183-222 | a harvest never undoes a completed counter achievement and completes a harvest count iff the new count reaches it; a failed planting unmeets a positive streak; n successes after it meet a streak iff n reaches its value; a gap over 5 minutes unmeets continuous play |
| UnlockSystem.UnlockSystem.GetActiveBonus | web-game/UnlockSystem.js:399-416 | a permanent bonus of the kind wins; otherwise a temporary one with time remaining gives its value; otherwise none |
| UnlockSystem.SpeedRun | web-game/UnlockSystem.js:268-289 | harvests that all fall within 120000 ms of the first, starting from an inactive window, leave a window started at the first harvest whose count is the number of harvests |
| UnlockSystem.PlayStep | web-game/UnlockSystem.js:291-302 | the last action becomes `now`; the start time moves to `now` only after a gap of more than 300000 ms |
| UnlockSystem.PlayTimeGrows | web-game/UnlockSystem.js:291-302 | an action within 5 minutes of the last one extends the continuous play time by exactly the gap, so it never shrinks |
| UnlockSystem.HarvestProgress | web-game/UnlockSystem.js:226-237 | the harvest count rises by exactly 1 and the profit total by exactly the profit; the crop type joins the unique set, which grows only for a new type; the streak is untouched, and the speed window and continuous play each take one step |
| UnlockSystem.PlantingProgress | web-game/UnlockSystem.js:252-260 | a successful planting extends the streak by one and a failed one resets it to 0; the other counters are untouched |
| UnlockSystem.StreakCounts | web-game/UnlockSystem.js:252-260 | n successful plantings after a failure leave a streak of exactly n |
| UnlockSystem.LevelUnlocks | web-game/UnlockSystem.js:116-133 | one crop unlock, at the player's level, for exactly the level's crops not already unlocked |
| UnlockSystem.Grant | web-game/UnlockSystem.js:135-179 | existing grants are kept unchanged; every met condition is granted; every new grant belongs to a met condition of the table, stamped `now`; only ids not granted before are reported |
| UnlockSystem.GrantReports | web-game/UnlockSystem.js:135-179 | every condition granted in this pass (not granted before) has its unlock reported |
| UnlockSystem.RecheckGrantsNothing | web-game/UnlockSystem.js:135-179 | checking a table again with unchanged progress at the same time grants and reports nothing |
| UnlockSystem.RecheckFrom | web-game/UnlockSystem.js:135-179 | when every met condition is already granted, a check changes nothing and reports nothing |
| UnlockSystem.RewardStep | web-game/UnlockSystem.js:346-392 | quick growth files a temporary `quick_growth` bonus stamped `now` and leaves permanent ones; Master Gardener sets `xp_multiplier` to 110%, speed seeds `growth_speed` to 80%, rarity bonus `bonus_chance` to 15%, the golden and moonlight rewards set their flags; nothing else changes |
| UnlockSystem.ActiveBonus | web-game/UnlockSystem.js:399-416 | a permanent bonus wins; otherwise a temporary one counts only while uses remain; otherwise there is none |
| UnlockSystem.Consume | web-game/UnlockSystem.js:418-426 | one use is taken iff the temporary bonus exists with uses remaining, and the result says so; otherwise nothing changes; permanent bonuses are never touched |
| UnlockSystem.ConsumeRun | web-game/UnlockSystem.js:399-426 | n consumptions leave max(remaining − n, 0) uses, never fewer than 0, and the bonus becomes inactive exactly when the uses run out |
| UnlockSystem.CheckLevelUnlocks | web-game/UnlockSystem.js:116-133 | the loop over the level's crop ids yields exactly the level's crop unlocks |
| UnlockSystem.NotesOf | web-game/UnlockSystem.js:306-317 | one unread notification stamped `now` per unlock, in order |
| UnlockSystem.CropUnlocksNoEffect | web-game/UnlockSystem.js:332-343 | processing crop unlocks alone leaves the bonuses unchanged |
| UnlockSystem.UnlockSystem.constructor | web-game/UnlockSystem.js:4-27 | fresh progress at `now`, no achievements, notifications or bonuses |
| UnlockSystem.UnlockSystem.CheckUnlocks | web-game/UnlockSystem.js:93-114 | level, achievement and special unlocks are gathered in that order; achievements only grow; each unlock gets a notification and its effect; progress is untouched |
| UnlockSystem.UnlockSystem.CheckConditionUnlocks | web-game/UnlockSystem.js:135-179 | one pass over a condition table performs exactly the grant step; nothing else changes |
| UnlockSystem.UnlockSystem.ProcessUnlocks | web-game/UnlockSystem.js:306-330 | each unlock, in order, appends a notification and applies its effect; progress and achievements are untouched |
| UnlockSystem.UnlockSystem.TrackHarvest | web-game/UnlockSystem.js:226-250 | the counters take the harvest, then the unlock check runs at the player's current level, keeping every earlier grant; one unread notification per unlock is appended and each unlock's effect is applied to the bonuses, in order |
| UnlockSystem.UnlockSystem.TrackPlanting | web-game/UnlockSystem.js:252-266 | the streak takes the planting outcome; achievements, notifications and bonuses are untouched |
| UnlockSystem.UnlockSystem.UpdateSpeedHarvest | web-game/UnlockSystem.js:268-289 | only the speed window changes, by one speed step |
| UnlockSystem.UnlockSystem.UpdateContinuousPlay | web-game/UnlockSystem.js:291-302 | only the continuous-play record changes, by one play step |
| UnlockSystem.UnlockSystem.ConsumeTemporaryBonus | web-game/UnlockSystem.js:418-426 | the bonuses and the answer are those of one consumption; nothing else changes |
| UnlockSystem.UnlockSystem.Reset | web-game/UnlockSystem.js:554-561 | progress starts over at `now`; achievements, notifications and bonuses are dropped |
| TimerManager.NewTimer | web-game/TimerManager.js:259-300 | a new timer is active, not completed, at zero elapsed, created at `now` and self-removing unless told otherwise; a countdown's duration defaults to 1000 with remaining equal to it; an interval defaults to 1000 and starts at zero ticks |
| TimerManager.UpdateTimer | web-game/TimerManager.js:194-257 | a countdown gains the delta, its remaining time is max(0, duration − elapsed), and it completes (and stops) the first time elapsed reaches the duration; an interval fires at most one tick per update, exactly when elapsed reaches the interval, then resets elapsed to 0 and completes once the tick limit is reached; a stopwatch only gains the delta |
| TimerManager.OfflineStep | web-game/TimerManager.js:88-108 | only active countdowns change: they gain the offline time clamped at the duration, so elapsed never exceeds it, and complete when it is reached |
| TimerManager.CountdownRun | web-game/TimerManager.js:196-212 | a running countdown fed non-negative deltas completes exactly when their sum reaches the remaining time; until then it runs with elapsed equal to the sum so far, and once completed it has stopped |
| TimerManager.OfflineMatchesUpdates | web-game/TimerManager.js:88-108 | one offline step of the summed time and a run of updates agree on whether a running countdown has completed |
| TimerManager.ResetStep | web-game/TimerManager.js:339-355 | elapsed is 0, the timer is running and not completed, a countdown's remaining time is its duration and an interval's ticks are 0; identity and settings are kept |
| TimerManager.UpdatedOnAdd | web-game/TimerManager.js:164-180 | handling one more timer in `update` files its advanced form under its id unless it has just completed and removes itself |
| TimerManager.IdsOfMembers | web-game/TimerManager.js:449-472 | every id of a saved list belongs to one of its records |
| TimerManager.Restore | web-game/TimerManager.js:474-503 | a restored timer keeps its id, kind, creation time, duration, interval and ticks and no longer removes itself; a timer that is stopped or finished, or with no offline time, keeps its elapsed time and flags; a running countdown gains the offline time clamped to its duration and completes (and stops) exactly when that is reached; any other running timer gains the full offline time and stays running |
| TimerManager.RoundTrip | web-game/TimerManager.js:449-503 | exporting a timer and importing it with no time passed gives it back, except for its remaining time and self-removal, which are not saved |
| TimerManager.Imported | web-game/TimerManager.js:474-503 | the registry holds exactly the saved ids; under each id is the restored form of the last saved timer with that id |
| TimerManager.RegistryRoundTrip | web-game/TimerManager.js:449-503 | importing what export produced, with no time passed, gives back the same ids, each timer unchanged except that it no longer removes itself and keeps no pending remainder |
| TimerManager.OfflineAll | web-game/TimerManager.js:88-108 | the loop applies one offline step to every timer |
| TimerManager.ExportStep | web-game/TimerManager.js:449-472 | exporting one more timer keeps the export loop's invariant |
| TimerManager.ExportDone | web-game/TimerManager.js:449-472 | once no timer is left, the export holds one record per timer, each its timer's data, with no id twice |
| TimerManager.ExportAll | web-game/TimerManager.js:449-472 | one saved record per timer, each equal to that timer's data, with no id twice and every timer present |
| TimerManager.Advanced | web-game/TimerManager.js:154-192 | the loop of `update` advances every active timer by the delta and drops each one that this completed and that removes itself |
| TimerManager.TimerManager.constructor | web-game/TimerManager.js:4-30 | no timers; the manager is running with its last update at `now` |
| TimerManager.TimerManager.CreateTimer | web-game/TimerManager.js:259-300 | an existing timer under the id is removed first; an unknown type fails (leaving the id removed), otherwise the new timer is filed under the id |
| TimerManager.TimerManager.RemoveTimer | web-game/TimerManager.js:302-311 | true iff the id was present; the id is absent afterwards and nothing else changes |
| TimerManager.TimerManager.PauseTimer | web-game/TimerManager.js:321-328 | true iff the id is present, and then only that timer stops |
| TimerManager.TimerManager.ResumeTimer | web-game/TimerManager.js:330-337 | true iff the id is present and not completed, and then only that timer runs again |
| TimerManager.TimerManager.ResetTimer | web-game/TimerManager.js:339-355 | true iff the id is present, and then only that timer is reset |
| TimerManager.TimerManager.Update | web-game/TimerManager.js:154-192 | a paused manager changes nothing; otherwise every timer takes the update for the time since the last update, self-removing completed timers go, and the last update becomes `now` |
| TimerManager.TimerManager.CalculateOfflineProgress | web-game/TimerManager.js:83-109 | every timer takes the offline step, so no active countdown's elapsed time exceeds its duration |
| TimerManager.TimerManager.ClearCompletedTimers | web-game/TimerManager.js:369-375 | exactly the completed timers are dropped and their number is returned |
| TimerManager.TimerManager.ExportTimers | web-game/TimerManager.js:449-472 | one saved record per timer, each equal to its timer's data, with no id twice, and the last update time |
| TimerManager.TimerManager.ImportTimers | web-game/TimerManager.js:474-511 | refused with no change unless a timer list is given; otherwise the registry becomes the saved timers, each advanced by the time since the saved update |
| TimerManager.TimerManager.Pause | web-game/TimerManager.js:143-146 | the manager stops; the timers are untouched |
| TimerManager.TimerManager.Resume | web-game/TimerManager.js:148-152 | the manager runs again from `now`; the timers are untouched |
| StorageManager.ValidateGameData | web-game/StorageManager.js:294-312 | anything but a non-null object gets the single not-an-object error; otherwise it is valid iff truthy resources are an object and truthy farm data is an array; valid iff there is no error |
| StorageManager.IsCompressed | web-game/StorageManager.js:475-477 | compressed only for a string that begins with `COMPRESSED:`; a shorter string never is |
| StorageManager.StorageManager.GetBackupList | web-game/StorageManager.js:269-278 | exactly the stored keys with this store's backup prefix, each as often as stored, newest timestamp first |
| StorageManager.SchemaErrorsFacts | web-game/StorageManager.js:314-329 | each schema rule contributes at most one error, and there is none iff every field is present with its type |
| StorageManager.PackageValidIff | web-game/StorageManager.js:35-39 | a package has no schema error iff it has a string version, a number timestamp and an object as game data; there are at most three errors |
| StorageManager.ValidateSavePackage | web-game/StorageManager.js:314-329 | the schema loop reports exactly the schema errors, in schema order, and the package is valid iff there are none |
| StorageManager.V1Stats | web-game/StorageManager.js:360-365 | the migrated stats set money to 50 and take level, xp and totalHarvests from the old stats, defaulting to 1, 0 and 0 |
| StorageManager.V1GameData | web-game/StorageManager.js:359-370 | the new game data nests the stats under `resources.resources`, takes the selected crop (default wheat) and farm data (default empty) from the package, and has no version |
| StorageManager.FromV1 | web-game/StorageManager.js:356-376 | with player stats, they move into the new game data and are removed; the package is stamped 2.0; every other field is kept |
| StorageManager.FromV1GameDataValid | web-game/StorageManager.js:356-376 | game data built from v1 stats passes game-data validation whenever the old farm data was an array or absent |
| StorageManager.FromV2 | web-game/StorageManager.js:378-386 | the package is stamped 3.0; object game data without a version gets 3.0, any other game data is kept; every other field is kept |
| StorageManager.Migrated | web-game/StorageManager.js:332-354 | no result iff the package is already 3.0; otherwise the result is stamped 3.0 and a v1 package has lost its player stats |
| StorageManager.MigrationSettles | web-game/StorageManager.js:332-354 | a migrated package needs no further migration |
| StorageManager.V1ChainStampsGameData | web-game/StorageManager.js:332-386 | a v1 package with player stats comes out of the chain with its new game data stamped 3.0 as well |
| StorageManager.MigrateFromV1 | web-game/StorageManager.js:356-376 | the same package object is returned, rewritten in place to its v2 form |
| StorageManager.MigrateFromV2 | web-game/StorageManager.js:378-386 | the same package object is returned, rewritten in place to its v3 form |
| StorageManager.MigrateSaveData | web-game/StorageManager.js:332-354 | nothing is returned and nothing changes for a 3.0 package; otherwise the same object comes back, migrated |
| StorageManager.CompressData | web-game/StorageManager.js:454-461 | an encodable text gets the compression marker followed by its encoding; otherwise the text is returned as is |
| StorageManager.DecompressData | web-game/StorageManager.js:463-473 | unmarked text comes back unchanged; marked text is decoded after the marker, or returned as is when decoding fails |
| StorageManager.CompressRoundTrip | web-game/StorageManager.js:454-477 | with a codec that round-trips, decompressing compressed text gives the text back |
| StorageManager.LastSegment | web-game/StorageManager.js:273-274 | the segment is a suffix of the key with no underscore in it |
| StorageManager.LeadingDigits | web-game/StorageManager.js:273-274 | the leading run of decimal digits of a timestamp segment is a prefix of it made only of digits |
| StorageManager.WithPrefixMembers | web-game/StorageManager.js:271-272 | a key survives the filter iff it is stored and starts with the backup prefix |
| StorageManager.InsertPerm | web-game/StorageManager.js:273-277 | inserting a key adds it and loses nothing |
| StorageManager.InsertSorted | web-game/StorageManager.js:273-277 | inserting by timestamp keeps the list most recent first |
| StorageManager.SortByStamp | web-game/StorageManager.js:273-277 | the sort is a permutation of its input, most recent first |
| StorageManager.BackupListFacts | web-game/StorageManager.js:269-278 | the backup list holds exactly the stored keys with the backup prefix, as often as they are stored, most recent first |
| StorageManager.WithoutMembers | web-game/StorageManager.js:284-289 | a key is left after deletion iff it was stored and not deleted |
| StorageManager.WithoutStep | web-game/StorageManager.js:284-289 | deleting one more backup extends the deleted range by one |
| StorageManager.PrunedKeepsOthers | web-game/StorageManager.js:280-291 | pruning only deletes: every key left was stored, and every key that is not a backup stays |
| StorageManager.PrunedCount | web-game/StorageManager.js:280-291 | at most the configured number of backups remain |
| StorageManager.PrunedRecent | web-game/StorageManager.js:280-291 | every backup left is at least as recent as every key deleted |
| StorageManager.StorageManager.constructor | web-game/StorageManager.js:4-8 | the key falls back to voiceFarmGame and the backup count to 5 when absent or empty |
| StorageManager.StorageManager.CleanupOldBackups | web-game/StorageManager.js:280-291 | the stored keys become the pruned keys |
| StorageManager.RemoveBackups | web-game/StorageManager.js:284-289 | the deleting loop removes exactly the backups past the kept ones |
| EconomicBalance.TallyCounts | web-game/EconomicBalance.js:269-283 | a label has an entry iff it occurs, and its count is the number of its occurrences, at least 1 |
| EconomicBalance.FirstsFacts | web-game/EconomicBalance.js:269-283 | the distinct labels in first-seen order are exactly the labels, with none twice |
| EconomicBalance.SumAtBump | web-game/EconomicBalance.js:269-283 | counting one more occurrence of a label raises the total over the distinct labels by one exactly when the label is among them |
| EconomicBalance.SumAtFresh | web-game/EconomicBalance.js:269-283 | adding an entry for a label outside the list leaves the total over the list unchanged |
| EconomicBalance.TallySum | web-game/EconomicBalance.js:269-283 | the counts over the distinct labels add up to the number of labels |
| EconomicBalance.Distribution | web-game/EconomicBalance.js:269-283 | the counting loop yields the tally: a positive count per label, summing to the number of crops |
| EconomicBalance.Strategies | web-game/EconomicBalance.js:269-275 | one strategy label per crop, in order |
| EconomicBalance.Rarities | web-game/EconomicBalance.js:277-283 | one rarity label per crop, in order |
| EconomicBalance.GetStrategyDistribution | web-game/EconomicBalance.js:269-275 | the strategy counts are positive and sum to the number of crops |
| EconomicBalance.GetRarityDistribution | web-game/EconomicBalance.js:277-283 | the rarity counts are positive and sum to the number of crops |
| EconomicBalance.InsertLevelFacts | web-game/EconomicBalance.js:286 | inserting a level into an ascending list of distinct levels keeps it so and adds just that level |
| EconomicBalance.UnlockLevels | web-game/EconomicBalance.js:286 | the distinct unlock levels, strictly ascending, exactly those some crop has |
| EconomicBalance.NothingBetween | web-game/EconomicBalance.js:289-297 | a value strictly between two neighbours of an ascending list is not in the list |
| EconomicBalance.FindProgressionGaps | web-game/EconomicBalance.js:285-301 | ascending, and exactly the levels strictly between the lowest and highest unlock levels at which no crop unlocks; empty with at most one distinct level; their number is the span minus the levels present |
| EconomicBalance.MoreEfficientTransitive | web-game/EconomicBalance.js:346-352 | with positive growth times, comparing profit per time is transitive |
| EconomicBalance.BestOfIn | web-game/EconomicBalance.js:346-352 | the reduction returns its seed or one of the crops |
| EconomicBalance.BestOfFacts | web-game/EconomicBalance.js:346-352 | with positive growth times, no crop of the reduction is strictly more profitable per time than its result |
| EconomicBalance.BestOfFirst | web-game/EconomicBalance.js:346-352 | with positive growth times, the reduction keeps the first of equally efficient crops: every crop before its result is strictly less profitable per time |
| EconomicBalance.AffordableMembers | web-game/EconomicBalance.js:344 | the affordable crops are exactly the input crops whose seed cost the money covers |
| EconomicBalance.FindOptimalCrop | web-game/EconomicBalance.js:343-353 | none iff no crop is affordable; otherwise an input crop that is affordable |
| EconomicBalance.FindOptimalCropIsBest | web-game/EconomicBalance.js:343-353 | with positive growth times, no affordable crop is strictly more profitable per time than the chosen one |
| EconomicBalance.FindOptimalCropFirst | web-game/EconomicBalance.js:343-353 | with positive growth times, ties go to the earliest: the chosen crop stands at a place in the affordable crops before which every crop is strictly less profitable per time |
| EconomicBalance.CropsForLevelMembers | web-game/EconomicBalance.js:315 | the crops for a level are exactly the catalog crops unlocked by then |
| EconomicBalance.BestForLevel | web-game/EconomicBalance.js:315-316 | the chosen crop is a catalog crop with a positive seed cost the money covers |
| EconomicBalance.Optimal | web-game/EconomicBalance.js:315-316 | the simulation's policy picks the best affordable crop of the level, and only crops the money pays for |
| EconomicBalance.SimulateMoney | web-game/EconomicBalance.js:305-341 | the final money is the last record's money after, or the starting money when no level was played |
| EconomicBalance.SimulateLevels | web-game/EconomicBalance.js:305-341 | records are for levels 1..n, strictly ascending |
| EconomicBalance.RecordOkPrefix | web-game/EconomicBalance.js:318-338 | appending records does not change whether an earlier record is correct |
| EconomicBalance.SimulateRecords | web-game/EconomicBalance.js:318-338 | every record has cycles = floor(money before / seed cost), profit = cycles × (sell − seed), and money after = money before + profit, for the crop chosen with the money before it |
| EconomicBalance.PlayedSolvent | web-game/EconomicBalance.js:320-324 | buying only the seeds the money pays for keeps money non-negative when the sale price is non-negative |
| EconomicBalance.SimulateSolvent | web-game/EconomicBalance.js:305-341 | with non-negative sale prices and starting money, the money never goes negative |
| EconomicBalance.SimulateWith | web-game/EconomicBalance.js:305-341 | the level loop yields the play-through: its records, total time and final money, from the starting money |
| EconomicBalance.SimulatePlayerProgression | web-game/EconomicBalance.js:305-341 | the play-through in which each level plants the best affordable crop it unlocks |
| EconomicBalance.IsBalanced | web-game/EconomicBalance.js:140-144 | a zero seed cost is never balanced; for a positive seed cost, balanced iff 5(sell − seed) ≥ seed and sell − seed ≤ 2·seed; for a negative one the inequalities flip |
| EconomicBalance.BalancedIsProfitable | web-game/EconomicBalance.js:140-144 | a balanced crop with a positive seed cost sells for more than its seed costs and at most three times that |

## Left out

### Outside the model

- **DOM, UI and sound.** These are rendering and carry no state invariants:
  - Plot's `updateDisplay`, `showActionHint` and `handleHover`;
  - game.js `updatePlotDisplay`, `addMessage`, `playSound` and the keyboard wiring;
  - the FarmGrid `onMessage` callbacks;
  - web-game/UIPolish.js.
- **Voice-skill adapters.** lambda/handlers, lambda/index.js and lambda/interceptors are
  speech glue around FarmService. They are not part of this model.
- **Test runners.** web-game/GameTester.js and web-game/test-runner.js need a browser.
  They are not part of this model.
- **Wall clock and fresh ids.** `Date.now()` is the `now` parameter. Ids built from the
  clock and `Math.random()` are parameters: FarmService crop ids, and the id under
  which a timer is created.
- **Storage and browser APIs.** These are I/O and are not modelled:
  - `localStorage`, the text form of `JSON.parse`/`stringify`, `navigator`;
  - the asynchronous save and load, `freeUpStorage` and the auto-save interval;
  - UnlockSystem's `saveProgress`/`loadProgress`;
  - TimerManager's visibility and focus handlers.
  - Save data is a parsed JSON value, and backups are an abstract list of storage keys.
  - The base64 encoder and decoder behind `compressData`/`decompressData` are function
    parameters. Only the `COMPRESSED:` marker is modelled.
- **Callbacks.** Timer `onComplete`/`onTick`/`onUpdate`, the unlock callbacks and the
  notification display are not run. Unlock notifications are kept as a list.
- **Floating point.** These values are not modelled:
  - EconomicBalance's risk, balance, competitiveness, health and trend scores;
  - TimerManager's `averageUpdateTime`;
  - ResourceManager's `calculateEfficiency`.

### Operations not modelled

- **ResourceManager.** `getResourceStats`, `exportData`, `simulateEconomy`,
  `getTransactionHistory` and `getNextLevelBenefit` are reporting helpers.
- **FarmGrid.** `getReadyPlots` and the other plot-listing queries are reporting helpers.
- **TimerManager.** The statistics counters and the timer listing queries are not
  modelled.
- **EconomicBalance.** `analyzeAllCrops` and its `balanceHistory` are not modelled.

### Approximations and weaker contracts

- **FarmService lookups.** The crop catalog is a closed set of five kinds.
  - A crop name that happens to be a property of every JS object, such as
    `constructor`, would pass the catalog lookup in the source. The model rejects it.
  - Names are lower-cased by ASCII case only.
- **Plot, FarmGrid and Game crop lookups.** The browser game's crop configuration is a
  plain JS object, and `plant` and `plantCrop` look the type up with
  `this.cropConfig[cropType]`.
  - A type that names a property of every JS object, such as `constructor`, finds an
    inherited function in the source. Planting then succeeds and stores a crop whose
    `readyAt` is `NaN`.
  - The model treats such a type as unconfigured, so the plant is refused.
- **Plot.Plot.RestoreFromData**: requires a restored crop's type to be in the crop
  configuration. The source stores an unknown type and fails later, when the crop is
  harvested or drawn.
- **FarmGrid.FarmGrid.RestoreFromData**: has the same requirement for each plot's entry.
- **ResourceManager.CalculateXPThresholds**: computes each step
  `floor(50·1.2^(L−2))` exactly, as `50·6^k div 5^k`, with integers.
  - The source uses double-precision `Math.pow`.
  - For the 49 steps of the table the two agree; the exact values are used.
- **ResourceManager.ResourceManager.GetXPProgress**: returns the xp into the level and
  the xp the level spans, but not the percentage, which is a float.
- **ResourceManager.ResourceManager.SetResource**: follows the code.
  - `setResource('xp', …)` does not recompute the level.
  - So the level equals the xp's level only after `addResource`, `checkLevelUp` and
    `importData`, not after every write.
- **CropManager lookups.** Crop ids are map keys, so an id that names a property of every
  JS object behaves as an ordinary unknown id in the model.
  - In the source, `getCropDefinition('constructor')` returns a function, so it is truthy.
  - `calculateProfit('constructor')` then gives `NaN`, and `removeCrop('constructor')`
    returns true.
  - `addCustomCrop` with the id `__proto__` replaces the definitions object's prototype
    instead of adding a crop.
  - The catalog keeps entries in the order their ids were added. A JS object lists
    integer-like ids (a custom crop with id `"7"`) first, in ascending order, so listings
    built on `Object.values` put such crops ahead of the others. The model does not.
  - The default description of a custom crop lower-cases its name by ASCII case only.
- **Other plain-object maps.** The strategy and rarity tallies of EconomicBalance and the
  permanent and temporary bonus maps of UnlockSystem are plain JS objects too.
  - A tally label such as `constructor` or `toString` starts from the inherited function
    in the source, so `distribution[label] || 0` plus one concatenates strings. The model
    counts it like any other label.
  - A bonus kind with such a name is found on the prototype by `getActiveBonus` in the
    source. The model reports no bonus.
- **CropManager.CropManager.ImportCropData**: takes the already-parsed entries of the
  imported object, so keys are distinct.
- **CropManager.CropManager.AddCustomCrop**: the source throws on invalid data. The
  model returns a Failure result instead.
- **TimerManager.TimerManager.CreateTimer**: models what the source does with an id it
  already holds.
  - The old timer under that id is removed first.
  - That removal stands even when the type is then refused.
- **TimerManager.TimerManager.Update**: one loop both advances every timer and drops the
  self-removing timers that completed. The source collects those ids first and deletes
  them in a second pass; the resulting registry is the same.
- **TimerManager.TimerManager.ExportTimers**: the exported list is specified as a
  permutation of the registered timers. The map's insertion order is not modelled.
- **TimerManager.RoundTrip**: an exported timer comes back without `remaining` and
  without self-removal, since the source does not save them.
- **TimerManager.NewTimer**: options are read with `||`, so a 0 duration, interval or
  limit falls back to the default, as in the source.
  - Only the four options the timer kinds use are modelled: self-removal, duration,
    interval and tick limit.
  - `createTimer` spreads every option over the base timer. An option named `id`,
    `createdAt`, `elapsed`, `isActive` or `isCompleted` overrides that field in the source.
    The model ignores such options.
- **StorageManager.LeadingDigits**: reads a backup key's timestamp as its leading decimal
  digits. This agrees with `parseInt` on the unsigned decimal stamps the store writes.
  - `parseInt` also skips leading whitespace, reads a sign and reads a `0x` prefix as
    hexadecimal. The model does none of this.
  - So `"0x10"` gets stamp 0 in the model and 16 in the source, `"-5"` gets −1 and −5,
    and `" 7"` gets −1 and 7.
  - For backup keys whose last segment has such a form, the backup order can differ,
    and with it which backups `cleanupOldBackups` deletes.
  - A key with no digits gets stamp −1.
  - The source compares `NaN` stamps as equal to everything, and the model's order for
    such keys is a choice the source leaves open.
- **StorageManager.StorageManager.constructor**: `maxBackups` is a natural number, with
  the `||` default of 5.
- **StorageManager.MigrateSaveData**: rewrites a package held as a map of its top-level
  properties.
  - The package is only migrated after it has passed `validateSavePackage`.
  - So it is always an object.
- **EconomicBalance.FindOptimalCropIsBest**: compares efficiency `profit/growthTime` by
  cross-multiplication.
  - That matches the division only for positive growth times.
  - So the lemma requires every growth time to be positive.
- **EconomicBalance.SimulatePlayerProgression**: requires every seed cost and every
  growth time to be positive.
  - Crop validation rejects only negative seed costs, so the source accepts a catalog
    with a zero seed cost. The model does not cover such a catalog.
  - With a zero seed cost the source computes `Math.floor(money / 0)`, which is Infinity,
    or NaN at zero money. Integers cannot represent either.
  - The starting money and the number of levels are parameters. The source's defaults,
    50 coins and 5 levels, are not carried.
- **UnlockSystem.UnlockSystem.constructor**: bonuses and achievements start empty and
  are held as fields, as persistence is not modelled.
