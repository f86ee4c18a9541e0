/**
 * The browser game's progression engine: progress counters fed by harvests and plantings,
 * achievements and special conditions granted at most once, the crops a level names, and
 * the bonuses that rewards add. The crop catalog and the player's level come in as
 * parameters; the wall clock is the `now` parameter, in milliseconds.
 */
module UnlockSystem {
  import opened Wrappers
  import CropManager

  /** A speed-harvest run lasts at most this long. */
  const SpeedWindowMs: int := 120000
  /** Continuous play is broken by a gap longer than this. */
  const InactivityMs: int := 300000

  // ---------------------------------------------------------------------------
  // Conditions and rewards
  // ---------------------------------------------------------------------------

  datatype Reward = MasterGardener | SpeedSeeds | RarityBonus | QuickGrowth | GoldenVariant | MoonlightCrops

  /** A requirement; any type the checks do not know is `Other`. */
  datatype Requirement =
    | HarvestCount(value: int)
    | TotalProfit(value: int)
    | UniqueCrops(value: int)
    | SpeedHarvest(value: int, timeLimit: int)
    | PerfectStreak(value: int)
    | ContinuousPlay(value: int)
    | Other(name: string)

  datatype Condition = Condition(id: string, description: string, reward: Reward, requirement: Requirement)

  /** The achievement table, in declaration order. */
  const Achievements: seq<Condition> := [
    Condition("green_thumb", "Harvest 100 crops total", MasterGardener, HarvestCount(100)),
    Condition("efficient_farmer", "Earn 1000 coins in profit", SpeedSeeds, TotalProfit(1000)),
    Condition("crop_master", "Grow all available crop types", RarityBonus, UniqueCrops(8)),
    Condition("speed_demon", "Harvest 10 crops in under 2 minutes", QuickGrowth, SpeedHarvest(10, 120000))
  ]

  /** The special-condition table, in declaration order. */
  const Specials: seq<Condition> := [
    Condition("golden_seeds", "Plant 50 crops without any failing", GoldenVariant, PerfectStreak(50)),
    Condition("night_farmer", "Farm for 30 minutes continuously", MoonlightCrops, ContinuousPlay(1800000))
  ]

  /** The crops each level names; other levels name none. */
  function LevelCrops(level: int): seq<string>
  {
    if level == 1 then ["wheat", "tomatoes", "carrots", "lettuce"]
    else if level == 2 then ["strawberries"]
    else if level == 3 then ["corn"]
    else if level == 4 then ["sunflowers"]
    else if level == 5 then ["pumpkins"]
    else []
  }

  // ---------------------------------------------------------------------------
  // Progress
  // ---------------------------------------------------------------------------

  /** The speed-harvest window; a start time of null counts as 0 in arithmetic. */
  datatype SpeedWindow = SpeedWindow(count: int, startTime: Option<int>, active: bool)

  datatype PlayWindow = PlayWindow(startTime: int, lastAction: int)

  datatype Progress = Progress(harvestCount: int, totalProfit: int, uniqueCrops: set<string>,
                               speed: SpeedWindow, perfectStreak: int, play: PlayWindow)

  function InitialProgress(now: int): Progress
  {
    Progress(0, 0, {}, SpeedWindow(0, None, false), 0, PlayWindow(now, now))
  }

  function StartOrZero(w: SpeedWindow): int
  {
    if w.startTime.Some? then w.startTime.value else 0
  }

  /** isAchievementCompleted: only the four achievement requirement types can be met. */
  predicate AchievementCompleted(req: Requirement, p: Progress, now: int)
    ensures !(req.HarvestCount? || req.TotalProfit? || req.UniqueCrops? || req.SpeedHarvest?) ==> !AchievementCompleted(req, p, now)
    ensures req.SpeedHarvest? && AchievementCompleted(req, p, now) ==> p.speed.active && p.speed.count >= req.value
  {
    match req
    case HarvestCount(v) => p.harvestCount >= v
    case TotalProfit(v) => p.totalProfit >= v
    case UniqueCrops(v) => |p.uniqueCrops| >= v
    case SpeedHarvest(v, limit) => p.speed.count >= v && p.speed.active && now - StartOrZero(p.speed) <= limit
    case _ => false
  }

  /** isSpecialConditionMet: only the two special requirement types can be met. */
  predicate SpecialMet(req: Requirement, p: Progress)
    ensures !(req.PerfectStreak? || req.ContinuousPlay?) ==> !SpecialMet(req, p)
  {
    match req
    case PerfectStreak(v) => p.perfectStreak >= v
    case ContinuousPlay(v) => p.play.lastAction - p.play.startTime >= v
    case _ => false
  }

  /** An active window has a start time and has seen at least one harvest. */
  predicate WindowOk(w: SpeedWindow)
  {
    w.active ==> w.count >= 1 && w.startTime.Some?
  }

  /** updateSpeedHarvest. */
  function SpeedStep(w: SpeedWindow, now: int): (r: SpeedWindow)
    ensures r.active && (WindowOk(w) ==> WindowOk(r))
    ensures !w.active ==> r == SpeedWindow(1, Some(now), true)
    ensures w.active && now - StartOrZero(w) <= SpeedWindowMs ==> r == w.(count := w.count + 1)
    ensures w.active && now - StartOrZero(w) > SpeedWindowMs ==> r == SpeedWindow(1, Some(now), true)
  {
    if !w.active then SpeedWindow(1, Some(now), true)
    else if now - StartOrZero(w) <= SpeedWindowMs then w.(count := w.count + 1)
    else SpeedWindow(1, Some(now), true)
  }

  /**
   * Within one window the count is the number of harvests it has seen: a run of k harvests
   * that all fall within 2 minutes of the first leaves the count at k.
   */
  lemma {:induction false} SpeedRun(w: SpeedWindow, times: seq<int>)
    requires |times| > 0 && !w.active
    requires forall i | 0 <= i < |times| :: times[i] - times[0] <= SpeedWindowMs
    ensures SpeedRunOf(w, times) == SpeedWindow(|times|, Some(times[0]), true)
  {
    if |times| > 1 {
      SpeedRun(w, times[..|times| - 1]);
    }
  }

  /** The window after a run of harvests at the given times. */
  function SpeedRunOf(w: SpeedWindow, times: seq<int>): SpeedWindow
  {
    if times == [] then w else SpeedStep(SpeedRunOf(w, times[..|times| - 1]), times[|times| - 1])
  }

  /** updateContinuousPlay. */
  function PlayStep(w: PlayWindow, now: int): (r: PlayWindow)
    ensures r.lastAction == now
    ensures now - w.lastAction > InactivityMs ==> r.startTime == now
    ensures now - w.lastAction <= InactivityMs ==> r.startTime == w.startTime
  {
    PlayWindow(if now - w.lastAction > InactivityMs then now else w.startTime, now)
  }

  /** Play time never shrinks while actions come at most 5 minutes apart, moving forward in time. */
  lemma PlayTimeGrows(w: PlayWindow, now: int)
    requires w.lastAction <= now <= w.lastAction + InactivityMs
    ensures PlayStep(w, now).lastAction - PlayStep(w, now).startTime >= w.lastAction - w.startTime
    ensures PlayStep(w, now).lastAction - PlayStep(w, now).startTime == (w.lastAction - w.startTime) + (now - w.lastAction)
  {
  }

  /** trackHarvest's effect on the counters. */
  function HarvestProgress(p: Progress, cropType: string, profit: int, now: int): (r: Progress)
    ensures r.harvestCount == p.harvestCount + 1
    ensures r.totalProfit == p.totalProfit + profit
    ensures r.uniqueCrops == p.uniqueCrops + {cropType}
    ensures cropType in p.uniqueCrops ==> |r.uniqueCrops| == |p.uniqueCrops|
    ensures cropType !in p.uniqueCrops ==> |r.uniqueCrops| == |p.uniqueCrops| + 1
    ensures r.perfectStreak == p.perfectStreak
  {
    assert cropType in p.uniqueCrops ==> p.uniqueCrops + {cropType} == p.uniqueCrops;
    p.(harvestCount := p.harvestCount + 1, totalProfit := p.totalProfit + profit,
       uniqueCrops := p.uniqueCrops + {cropType}, speed := SpeedStep(p.speed, now),
       play := PlayStep(p.play, now))
  }

  /** trackPlanting's effect on the counters. */
  function PlantingProgress(p: Progress, success: bool, now: int): (r: Progress)
    ensures success ==> r.perfectStreak == p.perfectStreak + 1
    ensures !success ==> r.perfectStreak == 0
    ensures r.harvestCount == p.harvestCount && r.totalProfit == p.totalProfit && r.uniqueCrops == p.uniqueCrops
    ensures r.speed == p.speed && r.play.lastAction == now
  {
    p.(perfectStreak := if success then p.perfectStreak + 1 else 0, play := PlayStep(p.play, now))
  }

  /** A streak of n successful plantings from a failure leaves the streak at n. */
  lemma {:induction false} StreakCounts(p: Progress, n: nat, now: int)
    ensures PlantRun(PlantingProgress(p, false, now), n, now).perfectStreak == n
  {
    if n > 0 {
      StreakCounts(p, n - 1, now);
    }
  }

  /**
   * How progress moves the conditions: a harvest with a non-negative profit never undoes a
   * completed counter achievement, a failed planting breaks the perfect streak, n successes
   * after it meet the streak condition exactly when n reaches its value, and an action after
   * more than 5 minutes of inactivity restarts continuous play.
   */
  lemma {:induction false} ConditionsFollowProgress(p: Progress, cropType: string, profit: int, n: nat, v: int, now: int)
    requires profit >= 0
    ensures AchievementCompleted(HarvestCount(v), p, now) ==> AchievementCompleted(HarvestCount(v), HarvestProgress(p, cropType, profit, now), now)
    ensures AchievementCompleted(TotalProfit(v), p, now) ==> AchievementCompleted(TotalProfit(v), HarvestProgress(p, cropType, profit, now), now)
    ensures AchievementCompleted(UniqueCrops(v), p, now) ==> AchievementCompleted(UniqueCrops(v), HarvestProgress(p, cropType, profit, now), now)
    ensures AchievementCompleted(HarvestCount(v), HarvestProgress(p, cropType, profit, now), now) <==> p.harvestCount + 1 >= v
    ensures v > 0 ==> !SpecialMet(PerfectStreak(v), PlantingProgress(p, false, now))
    ensures SpecialMet(PerfectStreak(v), PlantRun(PlantingProgress(p, false, now), n, now)) <==> n >= v
    ensures v > 0 && now - p.play.lastAction > InactivityMs ==> !SpecialMet(ContinuousPlay(v), PlantingProgress(p, true, now))
  {
    var q := HarvestProgress(p, cropType, profit, now);
    assert |q.uniqueCrops| >= |p.uniqueCrops|;
    StreakCounts(p, n, now);
  }

  function PlantRun(p: Progress, n: nat, now: int): Progress
  {
    if n == 0 then p else PlantingProgress(PlantRun(p, n - 1, now), true, now)
  }

  // ---------------------------------------------------------------------------
  // Unlocks
  // ---------------------------------------------------------------------------

  datatype Unlock =
    | CropUnlock(id: string, name: string, level: int)
    | AchievementUnlock(id: string, name: string, reward: Reward)
    | SpecialUnlock(id: string, name: string, reward: Reward)

  /** An achievement record: when it was granted, and its condition. */
  datatype Granted = Granted(completedAt: int, condition: Condition)

  /** isCropUnlocked: the crop exists and the player's level reaches its unlock level. */
  predicate IsCropUnlocked(catalog: seq<CropManager.Entry>, currentLevel: int, cropId: string)
  {
    var crop := CropManager.Lookup(catalog, cropId);
    crop.Some? && CropManager.Unlocked(crop.value, currentLevel)
  }

  /** `getCropDefinition(id)?.name || id`. */
  function DisplayName(catalog: seq<CropManager.Entry>, cropId: string): string
  {
    var crop := CropManager.Lookup(catalog, cropId);
    if crop.Some? && crop.value.name.Some? && crop.value.name.value != "" then crop.value.name.value else cropId
  }

  /** checkLevelUnlocks over a list of crop ids: one crop unlock per id not yet unlocked, in order. */
  function LevelUnlocks(ids: seq<string>, catalog: seq<CropManager.Entry>, currentLevel: int, playerLevel: int)
    : (r: seq<Unlock>)
    ensures |r| <= |ids|
    ensures forall u | u in r :: u.CropUnlock? && u.id in ids && !IsCropUnlocked(catalog, currentLevel, u.id)
                                 && u.level == playerLevel
    ensures forall id | id in ids && !IsCropUnlocked(catalog, currentLevel, id) ::
      CropUnlock(id, DisplayName(catalog, id), playerLevel) in r
  {
    if ids == [] then []
    else
      var rest := LevelUnlocks(ids[..|ids| - 1], catalog, currentLevel, playerLevel);
      var id := ids[|ids| - 1];
      assert forall x | x in ids[..|ids| - 1] :: x in ids;
      rest + (if IsCropUnlocked(catalog, currentLevel, id) then [] else [CropUnlock(id, DisplayName(catalog, id), playerLevel)])
  }

  /** Whether a condition of the given table is met now. */
  datatype Table = AchievementTable | SpecialTable

  predicate Met(t: Table, c: Condition, p: Progress, now: int)
  {
    if t == AchievementTable then AchievementCompleted(c.requirement, p, now) else SpecialMet(c.requirement, p)
  }

  function UnlockFor(t: Table, c: Condition): Unlock
  {
    if t == AchievementTable then AchievementUnlock(c.id, c.description, c.reward)
    else SpecialUnlock(c.id, c.description, c.reward)
  }

  /**
   * checkAchievementUnlocks / checkSpecialUnlocks over the first conditions of a table:
   * every met condition whose id is not yet granted is granted now and reported, in order.
   * The first component is the new achievement map, the second the unlocks.
   */
  function Grant(t: Table, conds: seq<Condition>, ach: map<string, Granted>, p: Progress, now: int)
    : (r: (map<string, Granted>, seq<Unlock>))
    ensures forall id | id in ach :: id in r.0 && r.0[id] == ach[id]
    ensures forall id | id in r.0 && id !in ach ::
      exists c | c in conds :: c.id == id && Met(t, c, p, now) && r.0[id] == Granted(now, c)
    ensures forall c | c in conds && Met(t, c, p, now) :: c.id in r.0
    ensures forall u | u in r.1 :: u.id !in ach && u.id in r.0
    ensures |r.1| <= |conds|
  {
    if conds == [] then (ach, [])
    else
      var prev := Grant(t, conds[..|conds| - 1], ach, p, now);
      var c := conds[|conds| - 1];
      assert forall x | x in conds[..|conds| - 1] :: x in conds;
      if c.id !in prev.0 && Met(t, c, p, now) then
        var r1 := prev.1 + [UnlockFor(t, c)];
        assert forall u | u in prev.1 :: u in r1;
        (prev.0[c.id := Granted(now, c)], r1)
      else prev
  }

  /** Every condition a check grants is reported, by the unlock of its table. */
  lemma {:induction false} GrantReports(t: Table, conds: seq<Condition>, ach: map<string, Granted>, p: Progress, now: int)
    ensures forall c | c in conds && c.id !in ach && c.id in Grant(t, conds, ach, p, now).0
                       && Grant(t, conds, ach, p, now).0[c.id] == Granted(now, c) ::
      UnlockFor(t, c) in Grant(t, conds, ach, p, now).1
  {
    if conds != [] {
      var init := conds[..|conds| - 1];
      var last := conds[|conds| - 1];
      assert forall x | x in init :: x in conds;
      GrantReports(t, init, ach, p, now);
      var prev := Grant(t, init, ach, p, now);
      var r := Grant(t, conds, ach, p, now);
      var isNew := last.id !in prev.0 && Met(t, last, p, now);
      assert r.0 == if isNew then prev.0[last.id := Granted(now, last)] else prev.0;
      assert r.1 == if isNew then prev.1 + [UnlockFor(t, last)] else prev.1;
      forall c | c in conds && c.id !in ach && c.id in r.0 && r.0[c.id] == Granted(now, c)
        ensures UnlockFor(t, c) in r.1
      {
        if c.id in prev.0 {
          assert prev.0[c.id] == r.0[c.id];
          var c' :| c' in init && c'.id == c.id && prev.0[c.id] == Granted(now, c');
          assert c' == c;
          assert UnlockFor(t, c) in prev.1;
        } else {
          assert c == last;
        }
      }
    }
  }

  /** Checking again with unchanged progress at the same time grants and reports nothing. */
  lemma RecheckGrantsNothing(t: Table, conds: seq<Condition>, ach: map<string, Granted>, p: Progress, now: int)
    ensures Grant(t, conds, Grant(t, conds, ach, p, now).0, p, now) == (Grant(t, conds, ach, p, now).0, [])
  {
    var granted := Grant(t, conds, ach, p, now).0;
    RecheckFrom(t, conds, granted, p, now);
  }

  lemma {:induction false} RecheckFrom(t: Table, conds: seq<Condition>, ach: map<string, Granted>, p: Progress, now: int)
    requires forall c | c in conds && Met(t, c, p, now) :: c.id in ach
    ensures Grant(t, conds, ach, p, now) == (ach, [])
  {
    if conds != [] {
      assert forall x | x in conds[..|conds| - 1] :: x in conds;
      RecheckFrom(t, conds[..|conds| - 1], ach, p, now);
    }
  }

  // ---------------------------------------------------------------------------
  // Bonuses
  // ---------------------------------------------------------------------------

  /** A bonus value: a multiplier or chance in percent, or an on/off flag. */
  datatype BonusValue = Percent(p: int) | Flag(on: bool)

  datatype TempBonus = TempBonus(remaining: int, multiplier: Option<int>, value: Option<BonusValue>, addedAt: int)

  datatype Bonuses = Bonuses(permanent: map<string, BonusValue>, temporary: map<string, TempBonus>)

  /** applyReward. */
  function RewardStep(b: Bonuses, reward: Reward, now: int): (r: Bonuses)
    ensures r.permanent.Keys >= b.permanent.Keys && r.temporary.Keys >= b.temporary.Keys
    ensures reward == QuickGrowth ==> r.permanent == b.permanent
                                      && r.temporary == b.temporary["quick_growth" := TempBonus(10, Some(50), None, now)]
    ensures reward != QuickGrowth ==> r.temporary == b.temporary && |r.permanent.Keys - b.permanent.Keys| <= 1
    ensures reward == MasterGardener ==> r.permanent == b.permanent["xp_multiplier" := Percent(110)]
    ensures reward == SpeedSeeds ==> r.permanent == b.permanent["growth_speed" := Percent(80)]
    ensures reward == RarityBonus ==> r.permanent == b.permanent["bonus_chance" := Percent(15)]
    ensures reward == GoldenVariant ==> r.permanent == b.permanent["golden_crops" := Flag(true)]
    ensures reward == MoonlightCrops ==> r.permanent == b.permanent["moonlight_crops" := Flag(true)]
  {
    match reward
    case MasterGardener => b.(permanent := b.permanent["xp_multiplier" := Percent(110)])
    case SpeedSeeds => b.(permanent := b.permanent["growth_speed" := Percent(80)])
    case RarityBonus => b.(permanent := b.permanent["bonus_chance" := Percent(15)])
    case QuickGrowth => b.(temporary := b.temporary["quick_growth" := TempBonus(10, Some(50), None, now)])
    case GoldenVariant => b.(permanent := b.permanent["golden_crops" := Flag(true)])
    case MoonlightCrops => b.(permanent := b.permanent["moonlight_crops" := Flag(true)])
  }

  /** applyUnlockEffects: a crop unlock changes nothing, the others apply their reward. */
  function EffectStep(b: Bonuses, u: Unlock, now: int): Bonuses
  {
    if u.CropUnlock? then b else RewardStep(b, u.reward, now)
  }

  /** `temp.multiplier || temp.value`: a zero or missing multiplier falls back to the value. */
  function TempValue(t: TempBonus): Option<BonusValue>
  {
    if t.multiplier.Some? && t.multiplier.value != 0 then Some(Percent(t.multiplier.value)) else t.value
  }

  /** getActiveBonus: a permanent bonus wins; a temporary one counts only while uses remain. */
  function ActiveBonus(b: Bonuses, kind: string): (r: Option<BonusValue>)
    ensures kind in b.permanent ==> r == Some(b.permanent[kind])
    ensures kind !in b.permanent && kind in b.temporary && b.temporary[kind].remaining > 0 ==>
      r == TempValue(b.temporary[kind])
    ensures kind !in b.permanent && (kind !in b.temporary || b.temporary[kind].remaining <= 0) ==> r.None?
  {
    if kind in b.permanent then Some(b.permanent[kind])
    else if kind in b.temporary && b.temporary[kind].remaining > 0 then TempValue(b.temporary[kind])
    else None
  }

  /** consumeTemporaryBonus: one use is taken only while uses remain. */
  function Consume(b: Bonuses, kind: string): (r: (Bonuses, bool))
    ensures r.1 <==> kind in b.temporary && b.temporary[kind].remaining > 0
    ensures r.1 ==> r.0.temporary == b.temporary[kind := b.temporary[kind].(remaining := b.temporary[kind].remaining - 1)]
    ensures !r.1 ==> r.0 == b
    ensures r.0.permanent == b.permanent
  {
    if kind in b.temporary && b.temporary[kind].remaining > 0 then
      (b.(temporary := b.temporary[kind := b.temporary[kind].(remaining := b.temporary[kind].remaining - 1)]), true)
    else (b, false)
  }

  /** A temporary bonus granted with n uses is active for exactly n consumptions, and its count never goes negative. */
  lemma {:induction false} ConsumeRun(b: Bonuses, kind: string, n: nat)
    requires kind !in b.permanent && kind in b.temporary && b.temporary[kind].remaining >= 0
    ensures ConsumeN(b, kind, n).permanent == b.permanent
    ensures kind in ConsumeN(b, kind, n).temporary
    ensures ConsumeN(b, kind, n).temporary[kind] == b.temporary[kind].(remaining :=
      if n <= b.temporary[kind].remaining then b.temporary[kind].remaining - n else 0)
    ensures ActiveBonus(ConsumeN(b, kind, n), kind).None? <==>
      (n >= b.temporary[kind].remaining || TempValue(b.temporary[kind]).None?)
  {
    if n > 0 {
      ConsumeRun(b, kind, n - 1);
    }
  }

  function ConsumeN(b: Bonuses, kind: string, n: nat): Bonuses
  {
    if n == 0 then b else Consume(ConsumeN(b, kind, n - 1), kind).0
  }

  datatype Notification = Notification(unlock: Unlock, timestamp: int, shown: bool)

  // ---------------------------------------------------------------------------
  // The engine
  // ---------------------------------------------------------------------------

  class UnlockSystem {
    var progress: Progress
    var achievements: map<string, Granted>
    var notifications: seq<Notification>
    var bonuses: Bonuses

    constructor(now: int)
      ensures progress == InitialProgress(now) && achievements == map[]
      ensures notifications == [] && bonuses == Bonuses(map[], map[])
    {
      progress := InitialProgress(now);
      achievements := map[];
      notifications := [];
      bonuses := Bonuses(map[], map[]);
    }

    /** checkUnlocks: level, achievement and special unlocks, in that order, then processed. */
    method CheckUnlocks(playerLevel: int, catalog: seq<CropManager.Entry>, currentLevel: int, now: int)
      returns (unlocked: seq<Unlock>)
      modifies this
      ensures var a := Grant(AchievementTable, Achievements, old(achievements), progress, now);
              var s := Grant(SpecialTable, Specials, a.0, progress, now);
              && achievements == s.0
              && unlocked == LevelUnlocks(LevelCrops(playerLevel), catalog, currentLevel, playerLevel) + a.1 + s.1
      ensures progress == old(progress)
      ensures notifications == old(notifications) + NotesOf(unlocked, now)
      ensures bonuses == Effects(old(bonuses), unlocked, now)
      ensures forall id | id in old(achievements) :: id in achievements && achievements[id] == old(achievements)[id]
    {
      var levelUnlocks := CheckLevelUnlocks(playerLevel, catalog, currentLevel);
      var achievementUnlocks := CheckConditionUnlocks(AchievementTable, Achievements, now);
      var specialUnlocks := CheckConditionUnlocks(SpecialTable, Specials, now);
      unlocked := levelUnlocks + achievementUnlocks + specialUnlocks;
      if |unlocked| > 0 {
        ProcessUnlocks(unlocked, now);
      }
    }

    /** checkAchievementUnlocks and checkSpecialUnlocks: one pass over a condition table. */
    method CheckConditionUnlocks(t: Table, conds: seq<Condition>, now: int) returns (unlocked: seq<Unlock>)
      modifies this
      ensures (achievements, unlocked) == Grant(t, conds, old(achievements), progress, now)
      ensures progress == old(progress) && notifications == old(notifications) && bonuses == old(bonuses)
    {
      unlocked := [];
      var i := 0;
      while i < |conds|
        invariant 0 <= i <= |conds|
        invariant progress == old(progress) && notifications == old(notifications) && bonuses == old(bonuses)
        invariant (achievements, unlocked) == Grant(t, conds[..i], old(achievements), progress, now)
      {
        var c := conds[i];
        assert conds[..i + 1][..i] == conds[..i];
        if c.id !in achievements && Met(t, c, progress, now) {
          achievements := achievements[c.id := Granted(now, c)];
          unlocked := unlocked + [UnlockFor(t, c)];
        }
        i := i + 1;
      }
      assert conds[..i] == conds;
    }

    /** processUnlocks: queue a notification for each unlock and apply its effect, in order. */
    method ProcessUnlocks(unlocks: seq<Unlock>, now: int)
      modifies this
      ensures notifications == old(notifications) + NotesOf(unlocks, now)
      ensures bonuses == Effects(old(bonuses), unlocks, now)
      ensures progress == old(progress) && achievements == old(achievements)
    {
      var i := 0;
      while i < |unlocks|
        invariant 0 <= i <= |unlocks|
        invariant notifications == old(notifications) + NotesOf(unlocks[..i], now)
        invariant bonuses == Effects(old(bonuses), unlocks[..i], now)
        invariant progress == old(progress) && achievements == old(achievements)
      {
        assert unlocks[..i + 1][..i] == unlocks[..i];
        notifications := notifications + [Notification(unlocks[i], now, false)];
        bonuses := EffectStep(bonuses, unlocks[i], now);
        i := i + 1;
      }
      assert unlocks[..i] == unlocks;
    }

    /** trackHarvest: count the harvest, then check for unlocks at the player's current level. */
    method TrackHarvest(cropType: string, profit: int, catalog: seq<CropManager.Entry>, currentLevel: int, now: int)
      returns (unlocked: seq<Unlock>)
      modifies this
      ensures progress == HarvestProgress(old(progress), cropType, profit, now)
      ensures forall id | id in old(achievements) :: id in achievements && achievements[id] == old(achievements)[id]
      ensures var a := Grant(AchievementTable, Achievements, old(achievements), progress, now);
              var s := Grant(SpecialTable, Specials, a.0, progress, now);
              achievements == s.0 && unlocked == LevelUnlocks(LevelCrops(currentLevel), catalog, currentLevel, currentLevel) + a.1 + s.1
      ensures notifications == old(notifications) + NotesOf(unlocked, now)
      ensures bonuses == Effects(old(bonuses), unlocked, now)
    {
      progress := HarvestProgress(progress, cropType, profit, now);
      unlocked := CheckUnlocks(currentLevel, catalog, currentLevel, now);
    }

    method TrackPlanting(success: bool, now: int)
      modifies this
      ensures progress == PlantingProgress(old(progress), success, now)
      ensures achievements == old(achievements) && notifications == old(notifications) && bonuses == old(bonuses)
    {
      progress := PlantingProgress(progress, success, now);
    }

    method UpdateSpeedHarvest(now: int)
      modifies this
      ensures progress == old(progress).(speed := SpeedStep(old(progress).speed, now))
      ensures achievements == old(achievements) && notifications == old(notifications) && bonuses == old(bonuses)
    {
      progress := progress.(speed := SpeedStep(progress.speed, now));
    }

    method UpdateContinuousPlay(now: int)
      modifies this
      ensures progress == old(progress).(play := PlayStep(old(progress).play, now))
      ensures achievements == old(achievements) && notifications == old(notifications) && bonuses == old(bonuses)
    {
      progress := progress.(play := PlayStep(progress.play, now));
    }

    function GetActiveBonus(kind: string): (r: Option<BonusValue>)
      reads this
      ensures kind in bonuses.permanent ==> r == Some(bonuses.permanent[kind])
      ensures kind !in bonuses.permanent && kind in bonuses.temporary && bonuses.temporary[kind].remaining > 0 ==>
        r == TempValue(bonuses.temporary[kind])
      ensures kind !in bonuses.permanent && (kind !in bonuses.temporary || bonuses.temporary[kind].remaining <= 0) ==> r.None?
    {
      ActiveBonus(bonuses, kind)
    }

    method ConsumeTemporaryBonus(kind: string) returns (consumed: bool)
      modifies this
      ensures (bonuses, consumed) == Consume(old(bonuses), kind)
      ensures progress == old(progress) && achievements == old(achievements) && notifications == old(notifications)
    {
      if kind in bonuses.temporary && bonuses.temporary[kind].remaining > 0 {
        var t := bonuses.temporary[kind];
        bonuses := bonuses.(temporary := bonuses.temporary[kind := t.(remaining := t.remaining - 1)]);
        return true;
      }
      return false;
    }

    /** reset: progress starts over at `now`, and achievements, notifications and bonuses are dropped. */
    method Reset(now: int)
      modifies this
      ensures progress == InitialProgress(now) && achievements == map[]
      ensures notifications == [] && bonuses == Bonuses(map[], map[])
    {
      progress := InitialProgress(now);
      achievements := map[];
      notifications := [];
      bonuses := Bonuses(map[], map[]);
    }
  }

  /** checkLevelUnlocks as the source runs it: a loop over the level's crop ids. */
  method CheckLevelUnlocks(playerLevel: int, catalog: seq<CropManager.Entry>, currentLevel: int)
    returns (unlocked: seq<Unlock>)
    ensures unlocked == LevelUnlocks(LevelCrops(playerLevel), catalog, currentLevel, playerLevel)
  {
    var ids := LevelCrops(playerLevel);
    unlocked := [];
    var i := 0;
    while i < |ids|
      invariant 0 <= i <= |ids|
      invariant unlocked == LevelUnlocks(ids[..i], catalog, currentLevel, playerLevel)
    {
      assert ids[..i + 1][..i] == ids[..i];
      if !IsCropUnlocked(catalog, currentLevel, ids[i]) {
        unlocked := unlocked + [CropUnlock(ids[i], DisplayName(catalog, ids[i]), playerLevel)];
      }
      i := i + 1;
    }
    assert ids[..i] == ids;
  }

  function NotesOf(unlocks: seq<Unlock>, now: int): (r: seq<Notification>)
    ensures |r| == |unlocks|
    ensures forall i | 0 <= i < |r| :: r[i] == Notification(unlocks[i], now, false)
  {
    seq(|unlocks|, i requires 0 <= i < |unlocks| => Notification(unlocks[i], now, false))
  }

  /** The bonuses after applying the effects of the unlocks in order. */
  function Effects(b: Bonuses, unlocks: seq<Unlock>, now: int): Bonuses
  {
    if unlocks == [] then b else EffectStep(Effects(b, unlocks[..|unlocks| - 1], now), unlocks[|unlocks| - 1], now)
  }

  /** Crop unlocks carry no reward: processing only crop unlocks leaves the bonuses alone. */
  lemma {:induction false} CropUnlocksNoEffect(b: Bonuses, unlocks: seq<Unlock>, now: int)
    requires forall u | u in unlocks :: u.CropUnlock?
    ensures Effects(b, unlocks, now) == b
  {
    if unlocks != [] {
      assert forall x | x in unlocks[..|unlocks| - 1] :: x in unlocks;
      CropUnlocksNoEffect(b, unlocks[..|unlocks| - 1], now);
    }
  }
}
