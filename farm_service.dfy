/**
 * The voice-skill farm engine: a lazily filled per-user map of farms, each holding a
 * growing list of crop records. Readiness is purely time based (`readyAt <= now`),
 * watering only marks a crop as growing, harvested crops stay in the list and still
 * count toward the six-crop cap, and the level is `floor(xp / 50) + 1`.
 */
module FarmService {
  import opened Wrappers
  import opened Text

  /** One hour in milliseconds: growth times are configured in hours. */
  const HourMs: int := 60 * 60 * 1000
  /** A farm whose crop list holds this many entries accepts no further planting. */
  const MaxCrops: nat := 6
  /** Experience needed per level. */
  const XpPerLevel: nat := 50

  /** The configured crop types; a stored crop always names one of them. */
  datatype CropKind = Tomatoes | Carrots | Corn | Strawberries | Lettuce

  /** Growth time in hours and experience reward of a crop type. */
  datatype CropConfig = CropConfig(growthTime: nat, xpReward: nat)

  function Config(k: CropKind): CropConfig
  {
    match k
    case Tomatoes => CropConfig(4, 10)
    case Carrots => CropConfig(3, 8)
    case Corn => CropConfig(6, 15)
    case Strawberries => CropConfig(5, 12)
    case Lettuce => CropConfig(2, 6)
  }

  /** The configuration key (and display name) of a crop type. */
  function Name(k: CropKind): string
  {
    match k
    case Tomatoes => "tomatoes"
    case Carrots => "carrots"
    case Corn => "corn"
    case Strawberries => "strawberries"
    case Lettuce => "lettuce"
  }

  /** The configuration lookup by (already lower-cased) key. */
  function Lookup(key: string): (r: Option<CropKind>)
    ensures r.Some? ==> Name(r.value) == key
  {
    if key == "tomatoes" then Some(Tomatoes)
    else if key == "carrots" then Some(Carrots)
    else if key == "corn" then Some(Corn)
    else if key == "strawberries" then Some(Strawberries)
    else if key == "lettuce" then Some(Lettuce)
    else None
  }

  /** Every crop type is found under its own key. */
  lemma LookupName(k: CropKind)
    ensures Lookup(Name(k)) == Some(k)
  {
  }

  /** No code path of the engine ever stores 'ready': readiness is derived from `readyAt`. */
  datatype Status = Planted | Growing | Harvested

  datatype Crop = Crop(id: int, cropType: CropKind, plantedAt: int, status: Status,
                       wateredAt: Option<int>, readyAt: int, harvestedAt: Option<int>)

  datatype Farm = Farm(userId: string, crops: seq<Crop>, xp: int, level: int,
                       lastVisit: int, totalHarvests: int)

  /** A harvested crop's contribution to a harvest result. */
  datatype Reward = Reward(cropType: CropKind, xp: nat)

  datatype PlantResult = PlantedCrop(crop: Crop) | UnknownCrop(requested: string) | FarmFull

  datatype WaterResult =
    | Watered(cropsWatered: nat, nearlyReady: nat)
    | NoCropsToWater
    | NoneOfType(requested: string)

  datatype HarvestResult =
    | HarvestedCrops(harvested: seq<Reward>, cropsHarvested: nat, xpGained: nat,
                     totalXp: int, level: int, leveledUp: bool)
    | NoCropsToHarvest
    | StillGrowing(count: nat)
    | NothingReady(filtered: bool)

  datatype DetailKind = ReadyNow | GrowingFor | NeedsWater

  /** One entry of the status report; `hoursLeft` is None for a crop that is ready now. */
  datatype CropDetail = CropDetail(cropType: CropKind, kind: DetailKind, hoursLeft: Option<int>)

  datatype Tally = Tally(planted: nat, growing: nat, ready: nat, harvested: nat, details: seq<CropDetail>)

  datatype StatusReport = StatusReport(level: int, xp: int, totalHarvests: int, tally: Tally)

  function NewFarm(userId: string, now: int): Farm
  {
    Farm(userId, [], 0, 1, now, 0)
  }

  /** The farm `getFarm` returns: the stored one, or a fresh one created at `now`. */
  function FarmOf(farms: map<string, Farm>, userId: string, now: int): Farm
  {
    if userId in farms then farms[userId] else NewFarm(userId, now)
  }

  /** The crop filter: an absent or empty argument (falsy in JavaScript) selects every crop. */
  function Filter(specificCrop: Option<string>): Option<string>
  {
    if specificCrop.Some? && specificCrop.value != "" then Some(ToLower(specificCrop.value)) else None
  }

  /** `Math.floor(xp / 50) + 1`; Dafny's division by a positive divisor is floor division. */
  function LevelFor(xp: int): int
  {
    xp / XpPerLevel + 1
  }


  predicate Matches(c: Crop, filter: Option<string>)
  {
    filter.None? || Name(c.cropType) == filter.value
  }

  predicate Waterable(c: Crop, filter: Option<string>)
  {
    c.status != Harvested && Matches(c, filter)
  }

  predicate NearlyReady(c: Crop, now: int)
  {
    c.readyAt - now <= HourMs
  }

  predicate Harvestable(c: Crop, filter: Option<string>, now: int)
  {
    c.status != Harvested && c.readyAt <= now && Matches(c, filter)
  }

  function Water(c: Crop, now: int): Crop
  {
    c.(status := Growing, wateredAt := Some(now))
  }

  function Reap(c: Crop, now: int): Crop
  {
    c.(status := Harvested, harvestedAt := Some(now))
  }

  function WaterAll(cs: seq<Crop>, filter: Option<string>, now: int): seq<Crop>
  {
    seq(|cs|, i requires 0 <= i < |cs| => if Waterable(cs[i], filter) then Water(cs[i], now) else cs[i])
  }

  function ReapAll(cs: seq<Crop>, filter: Option<string>, now: int): seq<Crop>
  {
    seq(|cs|, i requires 0 <= i < |cs| => if Harvestable(cs[i], filter, now) then Reap(cs[i], now) else cs[i])
  }

  // Counting functions recurse on the last element so that loops over prefixes can use them.

  function CountWaterable(cs: seq<Crop>, filter: Option<string>): nat
  {
    if cs == [] then 0
    else CountWaterable(cs[..|cs| - 1], filter) + (if Waterable(cs[|cs| - 1], filter) then 1 else 0)
  }

  function CountNearlyReady(cs: seq<Crop>, filter: Option<string>, now: int): nat
  {
    if cs == [] then 0
    else CountNearlyReady(cs[..|cs| - 1], filter, now)
         + (if Waterable(cs[|cs| - 1], filter) && NearlyReady(cs[|cs| - 1], now) then 1 else 0)
  }

  function CountHarvestable(cs: seq<Crop>, filter: Option<string>, now: int): nat
  {
    if cs == [] then 0
    else CountHarvestable(cs[..|cs| - 1], filter, now) + (if Harvestable(cs[|cs| - 1], filter, now) then 1 else 0)
  }

  /** Unharvested crops whose ready time is still ahead, regardless of any filter. */
  function CountStillGrowing(cs: seq<Crop>, now: int): nat
  {
    if cs == [] then 0
    else CountStillGrowing(cs[..|cs| - 1], now)
         + (if cs[|cs| - 1].status != Harvested && cs[|cs| - 1].readyAt > now then 1 else 0)
  }

  function CountHarvested(cs: seq<Crop>): nat
  {
    if cs == [] then 0
    else CountHarvested(cs[..|cs| - 1]) + (if cs[|cs| - 1].status == Harvested then 1 else 0)
  }

  /** The experience earned so far by the harvested crops of a list. */
  function HarvestedXp(cs: seq<Crop>): nat
  {
    if cs == [] then 0
    else HarvestedXp(cs[..|cs| - 1])
         + (if cs[|cs| - 1].status == Harvested then Config(cs[|cs| - 1].cropType).xpReward else 0)
  }

  function RewardOf(c: Crop): Reward
  {
    Reward(c.cropType, Config(c.cropType).xpReward)
  }

  /** The rewards of the crops a harvest selects, in list order. */
  function Rewards(cs: seq<Crop>, filter: Option<string>, now: int): seq<Reward>
  {
    if cs == [] then []
    else
      Rewards(cs[..|cs| - 1], filter, now)
      + (if Harvestable(cs[|cs| - 1], filter, now) then [RewardOf(cs[|cs| - 1])] else [])
  }

  function SumXp(rs: seq<Reward>): nat
  {
    if rs == [] then 0 else SumXp(rs[..|rs| - 1]) + rs[|rs| - 1].xp
  }

  /** The invariant every stored crop keeps. */
  ghost predicate CropOk(c: Crop)
  {
    && c.readyAt == c.plantedAt + Config(c.cropType).growthTime * HourMs
    && (c.status == Harvested <==> c.harvestedAt.Some?)
    && (c.status == Planted ==> c.wateredAt.None?)
    && (c.status == Growing ==> c.wateredAt.Some?)
  }

  /**
   * The invariant every stored farm keeps: at most six crops, and the experience and
   * harvest counter are exactly what the harvested crops of the list account for.
   */
  ghost predicate FarmOk(f: Farm)
  {
    && |f.crops| <= MaxCrops
    && (forall i | 0 <= i < |f.crops| :: CropOk(f.crops[i]))
    && f.xp == HarvestedXp(f.crops)
    && f.totalHarvests == CountHarvested(f.crops)
    && f.level == LevelFor(f.xp)
  }

  /** plantCrop as a transition of the whole farm map. */
  function PlantOp(farms: map<string, Farm>, userId: string, cropType: string, id: int, now: int)
    : (map<string, Farm>, PlantResult)
  {
    var t := Lookup(ToLower(cropType));
    if t.None? then (farms, UnknownCrop(cropType))
    else
      var f := FarmOf(farms, userId, now);
      if |f.crops| >= MaxCrops then (farms[userId := f], FarmFull)
      else
        var c := NewCrop(id, t.value, now);
        (farms[userId := f.(crops := f.crops + [c], lastVisit := now)], PlantedCrop(c))
  }

  /** A freshly planted crop: unwatered, due after its configured growth time. */
  function NewCrop(id: int, kind: CropKind, now: int): Crop
  {
    Crop(id, kind, now, Planted, None, now + Config(kind).growthTime * HourMs, None)
  }

  /** waterCrops on one (already fetched) farm. */
  function WaterFarm(f: Farm, specificCrop: Option<string>, now: int): (Farm, WaterResult)
  {
    var filter := Filter(specificCrop);
    if |f.crops| == 0 then (f, NoCropsToWater)
    else if filter.Some? && CountWaterable(f.crops, filter) == 0 then (f, NoneOfType(specificCrop.value))
    else
      (f.(crops := WaterAll(f.crops, filter, now), lastVisit := now),
       Watered(CountWaterable(f.crops, filter), CountNearlyReady(f.crops, filter, now)))
  }

  /** harvestCrops on one (already fetched) farm. */
  function HarvestFarm(f: Farm, specificCrop: Option<string>, now: int): (Farm, HarvestResult)
  {
    var filter := Filter(specificCrop);
    if |f.crops| == 0 then (f, NoCropsToHarvest)
    else if CountHarvestable(f.crops, filter, now) == 0 then
      var growing := CountStillGrowing(f.crops, now);
      (f, if growing > 0 then StillGrowing(growing) else NothingReady(filter.Some?))
    else
      var rewards := Rewards(f.crops, filter, now);
      var gained := SumXp(rewards);
      var count := CountHarvestable(f.crops, filter, now);
      var xp := f.xp + gained;
      (f.(crops := ReapAll(f.crops, filter, now), xp := xp, totalHarvests := f.totalHarvests + count,
          lastVisit := now, level := LevelFor(xp)),
       HarvestedCrops(rewards, count, gained, xp, LevelFor(xp), LevelFor(xp) > f.level))
  }

  function CategoryDetail(c: Crop, now: int): CropDetail
    requires c.status != Harvested
  {
    if c.readyAt <= now then CropDetail(c.cropType, ReadyNow, None)
    else
      var hours := (c.readyAt - now + HourMs - 1) / HourMs;  // Math.ceil of a positive quotient
      if c.wateredAt.Some? then CropDetail(c.cropType, GrowingFor, Some(hours))
      else CropDetail(c.cropType, NeedsWater, Some(hours))
  }

  /** One crop counted into a tally: harvested crops are only counted, the others also get a detail. */
  function Tallied(t: Tally, c: Crop, now: int): Tally
  {
    if c.status == Harvested then t.(harvested := t.harvested + 1)
    else
      var d := CategoryDetail(c, now);
      match d.kind
      case ReadyNow => t.(ready := t.ready + 1, details := t.details + [d])
      case GrowingFor => t.(growing := t.growing + 1, details := t.details + [d])
      case NeedsWater => t.(planted := t.planted + 1, details := t.details + [d])
  }

  /**
   * The categorisation of getFarmStatus. Every crop falls in exactly one category, and
   * only the unharvested crops get a detail entry.
   */
  function TallyOf(cs: seq<Crop>, now: int): (t: Tally)
    ensures t.planted + t.growing + t.ready + t.harvested == |cs|
    ensures t.harvested == CountHarvested(cs)
    ensures |t.details| == |cs| - CountHarvested(cs)
  {
    if cs == [] then Tally(0, 0, 0, 0, [])
    else Tallied(TallyOf(cs[..|cs| - 1], now), cs[|cs| - 1], now)
  }

  /** The available crop types, in the configuration's key order. */
  function AvailableCrops(): (r: seq<string>)
    ensures forall k: CropKind :: Name(k) in r
    ensures forall i | 0 <= i < |r| :: Lookup(r[i]).Some?
    ensures forall i, j | 0 <= i < j < |r| :: r[i] != r[j]
  {
    [Name(Tomatoes), Name(Carrots), Name(Corn), Name(Strawberries), Name(Lettuce)]
  }

  /** getCropGrowthTime: the growth time in hours of a crop named in any letter case. */
  function CropGrowthTime(cropType: string): (r: Option<nat>)
    ensures r.Some? <==> Lookup(ToLower(cropType)).Some?
    ensures r.Some? ==> r.value == Config(Lookup(ToLower(cropType)).value).growthTime
  {
    var t := Lookup(ToLower(cropType));
    if t.Some? then Some(Config(t.value).growthTime) else None
  }

  // ---------------------------------------------------------------------------
  // Properties of the transitions
  // ---------------------------------------------------------------------------

  lemma {:induction false} NearlyReadyAtMostWatered(cs: seq<Crop>, filter: Option<string>, now: int)
    ensures CountNearlyReady(cs, filter, now) <= CountWaterable(cs, filter)
  {
    if cs != [] {
      NearlyReadyAtMostWatered(cs[..|cs| - 1], filter, now);
    }
  }

  lemma {:induction false} SumRewards(cs: seq<Crop>, filter: Option<string>, now: int)
    ensures SumXp(Rewards(cs, filter, now)) + HarvestedXp(cs) == HarvestedXp(ReapAll(cs, filter, now))
    ensures |Rewards(cs, filter, now)| == CountHarvestable(cs, filter, now)
    ensures CountHarvested(cs) + CountHarvestable(cs, filter, now) == CountHarvested(ReapAll(cs, filter, now))
  {
    if cs != [] {
      var init := cs[..|cs| - 1];
      SumRewards(init, filter, now);
      assert ReapAll(cs, filter, now)[..|cs| - 1] == ReapAll(init, filter, now);
      SumXpAppend(Rewards(init, filter, now),
        if Harvestable(cs[|cs| - 1], filter, now) then [RewardOf(cs[|cs| - 1])] else []);
    }
  }

  lemma {:induction false} SumXpAppend(a: seq<Reward>, b: seq<Reward>)
    requires |b| <= 1
    ensures SumXp(a + b) == SumXp(a) + SumXp(b)
  {
    if b != [] {
      assert (a + b)[..|a + b| - 1] == a;
      assert (a + b)[|a + b| - 1] == b[0];
      assert b[..|b| - 1] == [];
      assert SumXp(b) == SumXp([]) + b[0].xp;
    } else {
      assert a + b == a;
    }
  }

  lemma {:induction false} WaterAllPrefix(cs: seq<Crop>, filter: Option<string>, now: int, n: nat)
    requires n <= |cs|
    ensures WaterAll(cs, filter, now)[..n] == WaterAll(cs[..n], filter, now)
  {
  }

  lemma {:induction false} WaterKeepsInvariant(cs: seq<Crop>, filter: Option<string>, now: int)
    requires forall i | 0 <= i < |cs| :: CropOk(cs[i])
    ensures forall i | 0 <= i < |cs| :: CropOk(WaterAll(cs, filter, now)[i])
    ensures HarvestedXp(WaterAll(cs, filter, now)) == HarvestedXp(cs)
    ensures CountHarvested(WaterAll(cs, filter, now)) == CountHarvested(cs)
  {
    if cs != [] {
      var init := cs[..|cs| - 1];
      WaterKeepsInvariant(init, filter, now);
      WaterAllPrefix(cs, filter, now, |cs| - 1);
    }
  }

  /**
   * Watering marks every unharvested, filter-matching crop as growing at `now`, leaves its
   * ready time alone, and reports at most as many nearly-ready crops as it watered.
   */
  lemma WaterFarmEffect(f: Farm, specificCrop: Option<string>, now: int)
    requires FarmOk(f)
    ensures FarmOk(WaterFarm(f, specificCrop, now).0)
    ensures WaterFarm(f, specificCrop, now).1.Watered? ==>
      var (g, r) := WaterFarm(f, specificCrop, now);
      && r.nearlyReady <= r.cropsWatered
      && r.cropsWatered == CountWaterable(f.crops, Filter(specificCrop))
      && |g.crops| == |f.crops|
      && forall i | 0 <= i < |f.crops| ::
           && g.crops[i].readyAt == f.crops[i].readyAt
           && (Waterable(f.crops[i], Filter(specificCrop)) ==>
                 g.crops[i].status == Growing && g.crops[i].wateredAt == Some(now))
           && (!Waterable(f.crops[i], Filter(specificCrop)) ==> g.crops[i] == f.crops[i])
  {
    WaterKeepsOk(f, specificCrop, now);
    NearlyReadyAtMostWatered(f.crops, Filter(specificCrop), now);
    WaterKeepsInvariant(f.crops, Filter(specificCrop), now);
  }

  /** Watering keeps a well-formed farm well-formed. */
  lemma WaterKeepsOk(f: Farm, specificCrop: Option<string>, now: int)
    requires FarmOk(f)
    ensures FarmOk(WaterFarm(f, specificCrop, now).0)
  {
    WaterKeepsInvariant(f.crops, Filter(specificCrop), now);
  }

  lemma {:induction false} ReapKeepsCropOk(cs: seq<Crop>, filter: Option<string>, now: int)
    requires forall i | 0 <= i < |cs| :: CropOk(cs[i])
    ensures forall i | 0 <= i < |cs| :: CropOk(ReapAll(cs, filter, now)[i])
  {
  }

  /** A filter naming a crop matches only crops of that (lower-cased) type. */
  lemma {:induction false} CountHarvestableZero(cs: seq<Crop>, filter: Option<string>, now: int)
    requires CountHarvestable(cs, filter, now) == 0
    ensures forall i | 0 <= i < |cs| :: !Harvestable(cs[i], filter, now)
  {
    if cs != [] {
      CountHarvestableZero(cs[..|cs| - 1], filter, now);
      assert forall i | 0 <= i < |cs| - 1 :: cs[i] == cs[..|cs| - 1][i];
    }
  }

  /**
   * Harvest conservation: a successful harvest reaps exactly the selected unharvested ripe
   * crops, raises xp by their summed rewards and the harvest counter by their number, keeps
   * `level == floor(xp/50)+1`, and reports a level-up exactly when the level rose.
   */
  lemma HarvestFarmEffect(f: Farm, specificCrop: Option<string>, now: int)
    requires FarmOk(f)
    ensures FarmOk(HarvestFarm(f, specificCrop, now).0)
    ensures HarvestFarm(f, specificCrop, now).1.HarvestedCrops? ==>
      var (g, r) := HarvestFarm(f, specificCrop, now);
      var filter := Filter(specificCrop);
      && r.cropsHarvested == CountHarvestable(f.crops, filter, now) > 0
      && g.xp == f.xp + r.xpGained
      && r.xpGained == SumXp(r.harvested)
      && |r.harvested| == r.cropsHarvested
      && g.totalHarvests == f.totalHarvests + r.cropsHarvested
      && g.level == LevelFor(g.xp) >= f.level
      && (r.leveledUp <==> g.level > f.level)
      && |g.crops| == |f.crops|
      && forall i | 0 <= i < |f.crops| ::
           if Harvestable(f.crops[i], filter, now)
           then g.crops[i].status == Harvested && g.crops[i].harvestedAt == Some(now)
           else g.crops[i] == f.crops[i]
    ensures !HarvestFarm(f, specificCrop, now).1.HarvestedCrops? ==> HarvestFarm(f, specificCrop, now).0 == f
  {
    var filter := Filter(specificCrop);
    HarvestKeepsOk(f, specificCrop, now);
    ReapKeepsCropOk(f.crops, filter, now);
    SumRewards(f.crops, filter, now);
    if HarvestFarm(f, specificCrop, now).1.HarvestedCrops? {
      var g := HarvestFarm(f, specificCrop, now).0;
      assert g.xp >= f.xp;
      DivMonotone(f.xp, g.xp);
    }
  }

  /** Harvesting keeps a well-formed farm well-formed. */
  lemma HarvestKeepsOk(f: Farm, specificCrop: Option<string>, now: int)
    requires FarmOk(f)
    ensures FarmOk(HarvestFarm(f, specificCrop, now).0)
  {
    var filter := Filter(specificCrop);
    ReapKeepsCropOk(f.crops, filter, now);
    SumRewards(f.crops, filter, now);
  }

  lemma DivMonotone(a: int, b: int)
    requires a <= b
    ensures a / XpPerLevel <= b / XpPerLevel
  {
  }

  /** A crop, once harvested, is never selected by a later harvest: harvesting again at once finds nothing to reap. */
  lemma {:induction false} HarvestNeverRepeats(f: Farm, specificCrop: Option<string>, now: int)
    requires FarmOk(f)
    requires HarvestFarm(f, specificCrop, now).1.HarvestedCrops?
    ensures !HarvestFarm(HarvestFarm(f, specificCrop, now).0, specificCrop, now).1.HarvestedCrops?
  {
    var filter := Filter(specificCrop);
    var g := HarvestFarm(f, specificCrop, now).0;
    NoneHarvestable(g.crops, filter, now);
  }

  lemma {:induction false} NoneHarvestable(cs: seq<Crop>, filter: Option<string>, now: int)
    requires forall i | 0 <= i < |cs| :: !Harvestable(cs[i], filter, now)
    ensures CountHarvestable(cs, filter, now) == 0
  {
    if cs != [] {
      NoneHarvestable(cs[..|cs| - 1], filter, now);
    }
  }

  /**
   * An unknown crop is rejected before any farm is touched; a known one is refused exactly
   * when the farm already holds six crops (harvested ones included), and otherwise appended
   * as a freshly planted, unwatered crop due after its configured growth time.
   */
  lemma PlantOpEffect(farms: map<string, Farm>, userId: string, cropType: string, id: int, now: int)
    requires AllFarmsOk(farms)
    ensures var (fs, r) := PlantOp(farms, userId, cropType, id, now);
      && AllFarmsOk(fs)
      && (r.UnknownCrop? <==> Lookup(ToLower(cropType)).None?)
      && (r.UnknownCrop? ==> fs == farms)
      && (r.FarmFull? <==> Lookup(ToLower(cropType)).Some? && |FarmOf(farms, userId, now).crops| >= MaxCrops)
      && (r.PlantedCrop? ==>
            && fs[userId].crops == FarmOf(farms, userId, now).crops + [r.crop]
            && Name(r.crop.cropType) == ToLower(cropType)
            && r.crop.status == Planted && r.crop.wateredAt.None? && r.crop.plantedAt == now
            && r.crop.readyAt == now + Config(r.crop.cropType).growthTime * HourMs)
  {
    var t := Lookup(ToLower(cropType));
    if t.Some? {
      var f := FarmOf(farms, userId, now);
      FarmOfOk(farms, userId, now);
      if |f.crops| < MaxCrops {
        PlantKeepsOk(f, NewCrop(id, t.value, now), now);
        StoreKeepsOk(farms, f.(crops := f.crops + [NewCrop(id, t.value, now)], lastVisit := now));
      } else {
        StoreKeepsOk(farms, f);
      }
    }
  }

  lemma PlantKeepsOk(f: Farm, c: Crop, now: int)
    requires FarmOk(f) && |f.crops| < MaxCrops
    requires CropOk(c) && c.status == Planted
    ensures FarmOk(f.(crops := f.crops + [c], lastVisit := now))
  {
    var cs := f.crops + [c];
    assert cs[..|cs| - 1] == f.crops;
  }

  lemma FarmOfOk(farms: map<string, Farm>, userId: string, now: int)
    requires AllFarmsOk(farms)
    ensures FarmOk(FarmOf(farms, userId, now)) && FarmOf(farms, userId, now).userId == userId
  {
    if userId in farms {
      assert StoredOk(farms, userId);
    }
  }

  /** The farm stored under `u` is well formed and records `u` as its owner. */
  ghost predicate StoredOk(farms: map<string, Farm>, u: string)
    requires u in farms
  {
    FarmOk(farms[u]) && farms[u].userId == u
  }

  ghost predicate AllFarmsOk(farms: map<string, Farm>)
  {
    forall u | u in farms :: StoredOk(farms, u)
  }

  /** Storing a well-formed farm under its owner's id keeps every stored farm well formed. */
  lemma StoreKeepsOk(farms: map<string, Farm>, f: Farm)
    requires AllFarmsOk(farms) && FarmOk(f)
    ensures AllFarmsOk(farms[f.userId := f])
  {
    var updated := farms[f.userId := f];
    forall u | u in updated
      ensures StoredOk(updated, u)
    {
      if u != f.userId {
        assert StoredOk(farms, u);
      }
    }
  }

  lemma NewFarmOk(userId: string, now: int)
    ensures FarmOk(NewFarm(userId, now)) && NewFarm(userId, now).userId == userId
  {
  }

  /** The watering loop of waterCrops: water the selected crops, counting them and the nearly ready ones. */
  method WaterSelected(cs: seq<Crop>, filter: Option<string>, now: int)
    returns (out: seq<Crop>, cropsWatered: nat, nearlyReady: nat)
    ensures out == WaterAll(cs, filter, now)
    ensures cropsWatered == CountWaterable(cs, filter)
    ensures nearlyReady == CountNearlyReady(cs, filter, now)
  {
    out := [];
    cropsWatered, nearlyReady := 0, 0;
    var i := 0;
    while i < |cs|
      invariant 0 <= i <= |cs|
      invariant out == WaterAll(cs[..i], filter, now)
      invariant cropsWatered == CountWaterable(cs[..i], filter)
      invariant nearlyReady == CountNearlyReady(cs[..i], filter, now)
    {
      assert cs[..i + 1][..i] == cs[..i];
      var crop := cs[i];
      if Waterable(crop, filter) {
        crop := Water(crop, now);
        cropsWatered := cropsWatered + 1;
        if crop.readyAt - now <= HourMs {
          nearlyReady := nearlyReady + 1;
        }
      }
      out := out + [crop];
      i := i + 1;
    }
    assert cs[..i] == cs;
  }

  /** The forEach of harvestCrops: reap the selected crops and collect their rewards. */
  method ReapSelected(cs: seq<Crop>, filter: Option<string>, now: int)
    returns (out: seq<Crop>, rewards: seq<Reward>, totalXp: nat, count: nat)
    ensures out == ReapAll(cs, filter, now)
    ensures rewards == Rewards(cs, filter, now)
    ensures totalXp == SumXp(rewards)
    ensures count == CountHarvestable(cs, filter, now)
  {
    out, rewards, totalXp, count := [], [], 0, 0;
    var i := 0;
    while i < |cs|
      invariant 0 <= i <= |cs|
      invariant out == ReapAll(cs[..i], filter, now)
      invariant rewards == Rewards(cs[..i], filter, now)
      invariant totalXp == SumXp(rewards)
      invariant count == CountHarvestable(cs[..i], filter, now)
    {
      assert cs[..i + 1][..i] == cs[..i];
      var crop := cs[i];
      if Harvestable(crop, filter, now) {
        crop := Reap(crop, now);
        count := count + 1;
        var reward := Reward(crop.cropType, Config(crop.cropType).xpReward);
        SumXpAppend(rewards, [reward]);
        rewards := rewards + [reward];
        totalXp := totalXp + reward.xp;
      }
      out := out + [crop];
      i := i + 1;
    }
    assert cs[..i] == cs;
  }

  // ---------------------------------------------------------------------------
  // The service object
  // ---------------------------------------------------------------------------

  /** The body of waterCrops once the farm is loaded: the watered farm and the reply. */
  method WaterOn(farm: Farm, specificCrop: Option<string>, now: int) returns (watered: Farm, r: WaterResult)
    ensures watered == WaterFarm(farm, specificCrop, now).0
    ensures r == WaterFarm(farm, specificCrop, now).1
  {
    if |farm.crops| == 0 {
      return farm, NoCropsToWater;
    }
    var filter := Filter(specificCrop);
    if filter.Some? && CountWaterable(farm.crops, filter) == 0 {
      return farm, NoneOfType(specificCrop.value);
    }
    var out, cropsWatered, nearlyReady := WaterSelected(farm.crops, filter, now);
    watered := farm.(crops := out, lastVisit := now);
    r := Watered(cropsWatered, nearlyReady);
  }

  /** The body of harvestCrops once the farm is loaded: the harvested farm and the reply. */
  method HarvestOn(farm: Farm, specificCrop: Option<string>, now: int) returns (harvested: Farm, r: HarvestResult)
    ensures harvested == HarvestFarm(farm, specificCrop, now).0
    ensures r == HarvestFarm(farm, specificCrop, now).1
  {
    if |farm.crops| == 0 {
      return farm, NoCropsToHarvest;
    }
    var filter := Filter(specificCrop);
    if CountHarvestable(farm.crops, filter, now) == 0 {
      var stillGrowing := CountStillGrowing(farm.crops, now);
      if stillGrowing > 0 {
        return farm, StillGrowing(stillGrowing);
      }
      return farm, NothingReady(filter.Some?);
    }
    var out, rewards, totalXp, count := ReapSelected(farm.crops, filter, now);
    var xp := farm.xp + totalXp;
    var newLevel := xp / XpPerLevel + 1;
    var leveledUp := newLevel > farm.level;
    harvested := farm.(crops := out, xp := xp, totalHarvests := farm.totalHarvests + count,
                       lastVisit := now, level := newLevel);
    r := HarvestedCrops(rewards, count, totalXp, xp, newLevel, leveledUp);
  }

  /** The categorising loop of getFarmStatus. */
  method CategoriseCrops(cs: seq<Crop>, now: int) returns (tally: Tally)
    ensures tally == TallyOf(cs, now)
  {
    tally := Tally(0, 0, 0, 0, []);
    var i := 0;
    while i < |cs|
      invariant 0 <= i <= |cs|
      invariant tally == TallyOf(cs[..i], now)
    {
      assert cs[..i + 1][..i] == cs[..i];
      ghost var before := tally;
      var crop := cs[i];
      if crop.status == Harvested {
        tally := tally.(harvested := tally.harvested + 1);
      } else if crop.readyAt <= now {
        tally := tally.(ready := tally.ready + 1, details := tally.details + [CropDetail(crop.cropType, ReadyNow, None)]);
      } else {
        var hours := (crop.readyAt - now + HourMs - 1) / HourMs;
        if crop.wateredAt.Some? {
          tally := tally.(growing := tally.growing + 1,
                          details := tally.details + [CropDetail(crop.cropType, GrowingFor, Some(hours))]);
        } else {
          tally := tally.(planted := tally.planted + 1,
                          details := tally.details + [CropDetail(crop.cropType, NeedsWater, Some(hours))]);
        }
      }
      assert tally == Tallied(before, crop, now);
      i := i + 1;
    }
    assert cs[..i] == cs;
  }

  class FarmService {
    var farms: map<string, Farm>

    ghost predicate Valid()
      reads this
    {
      AllFarmsOk(farms)
    }

    constructor()
      ensures Valid() && farms == map[]
    {
      farms := map[];
    }

    /** getFarm: fetch the user's farm, creating an empty one on first reference. */
    method GetFarm(userId: string, now: int) returns (f: Farm)
      requires Valid()
      modifies this
      ensures Valid()
      ensures farms == old(farms)[userId := FarmOf(old(farms), userId, now)]
      ensures f == FarmOf(old(farms), userId, now) && f == farms[userId]
      ensures FarmOk(f) && f.userId == userId
    {
      if userId !in farms {
        NewFarmOk(userId, now);
        StoreKeepsOk(farms, NewFarm(userId, now));
        farms := farms[userId := NewFarm(userId, now)];
      }
      assert StoredOk(farms, userId);
      f := farms[userId];
    }

    method PlantCrop(userId: string, cropType: string, id: int, now: int) returns (r: PlantResult)
      requires Valid()
      modifies this
      ensures Valid()
      ensures farms == PlantOp(old(farms), userId, cropType, id, now).0
      ensures r == PlantOp(old(farms), userId, cropType, id, now).1
    {
      var kind := Lookup(ToLower(cropType));
      if kind.None? {
        return UnknownCrop(cropType);
      }
      var farm := GetFarm(userId, now);
      var config := Config(kind.value);
      if |farm.crops| >= MaxCrops {
        return FarmFull;
      }
      var crop := Crop(id, kind.value, now, Planted, None, now + config.growthTime * HourMs, None);
      assert crop == NewCrop(id, kind.value, now);
      var planted := farm.(crops := farm.crops + [crop], lastVisit := now);
      PlantKeepsOk(farm, crop, now);
      StoreKeepsOk(farms, planted);
      farms := farms[userId := planted];
      r := PlantedCrop(crop);
    }

    method WaterCrops(userId: string, specificCrop: Option<string>, now: int) returns (r: WaterResult)
      requires Valid()
      modifies this
      ensures Valid()
      ensures farms == old(farms)[userId := WaterFarm(FarmOf(old(farms), userId, now), specificCrop, now).0]
      ensures r == WaterFarm(FarmOf(old(farms), userId, now), specificCrop, now).1
    {
      var farm := GetFarm(userId, now);
      var watered;
      watered, r := WaterOn(farm, specificCrop, now);
      WaterKeepsOk(farm, specificCrop, now);
      StoreKeepsOk(farms, watered);
      farms := farms[userId := watered];
    }

    method HarvestCrops(userId: string, specificCrop: Option<string>, now: int) returns (r: HarvestResult)
      requires Valid()
      modifies this
      ensures Valid()
      ensures farms == old(farms)[userId := HarvestFarm(FarmOf(old(farms), userId, now), specificCrop, now).0]
      ensures r == HarvestFarm(FarmOf(old(farms), userId, now), specificCrop, now).1
    {
      var farm := GetFarm(userId, now);
      var harvested;
      harvested, r := HarvestOn(farm, specificCrop, now);
      HarvestKeepsOk(farm, specificCrop, now);
      StoreKeepsOk(farms, harvested);
      farms := farms[userId := harvested];
    }

    method GetFarmStatus(userId: string, now: int) returns (report: StatusReport)
      requires Valid()
      modifies this
      ensures Valid()
      ensures farms == old(farms)[userId := FarmOf(old(farms), userId, now)]
      ensures var f := FarmOf(old(farms), userId, now);
        report == StatusReport(f.level, f.xp, f.totalHarvests, TallyOf(f.crops, now))
    {
      var farm := GetFarm(userId, now);
      var tally := CategoriseCrops(farm.crops, now);
      report := StatusReport(farm.level, farm.xp, farm.totalHarvests, tally);
    }
  }
}
