/**
 * The inline browser farm: a 25-slot array of optional crop records updated in place.
 * Unlike the plot-object variant, harvesting leaves a crop in the slot with status
 * harvested until the player clears harvested slots, and the level is `floor(xp/50)+1`.
 */
module Game {
  import opened Wrappers

  /** The farm has 5 by 5 slots. */
  const PlotCount: nat := 25
  const XpPerLevel: nat := 50

  /** The crops offered by the crop buttons; `selectedCrop` is always one of them. */
  datatype CropKind = Tomatoes | Carrots | Corn | Strawberries | Lettuce

  /** Growth time in milliseconds and experience reward. */
  datatype CropConfig = CropConfig(growthTime: nat, xpReward: nat)

  function Config(k: CropKind): CropConfig
  {
    match k
    case Tomatoes => CropConfig(4000, 10)
    case Carrots => CropConfig(3000, 8)
    case Corn => CropConfig(6000, 15)
    case Strawberries => CropConfig(5000, 12)
    case Lettuce => CropConfig(2000, 6)
  }

  datatype Status = Planted | Growing | Ready | Harvested

  datatype GameCrop = GameCrop(kind: CropKind, status: Status, plantedAt: int, wateredAt: Option<int>, readyAt: int)

  type Slot = Option<GameCrop>

  /** The value of the `farm` record. */
  datatype FarmValue = FarmValue(plots: seq<Slot>, level: int, xp: int, totalHarvests: int)

  function LevelFor(xp: int): int
  {
    xp / XpPerLevel + 1
  }

  predicate IsReady(s: Slot) { s.Some? && s.value.status == Ready }
  predicate IsHarvested(s: Slot) { s.Some? && s.value.status == Harvested }
  predicate IsWaterable(s: Slot) { s.Some? && (s.value.status == Planted || s.value.status == Growing) }
  predicate Ripens(s: Slot, now: int) { s.Some? && s.value.status == Growing && now >= s.value.readyAt }

  function NewCrop(kind: CropKind, now: int): GameCrop
  {
    GameCrop(kind, Planted, now, None, now + Config(kind).growthTime)
  }

  function Reward(s: Slot): nat
  {
    if s.Some? then Config(s.value.kind).xpReward else 0
  }

  // Slot transitions.

  function WaterSlot(s: Slot, now: int): Slot
  {
    if IsWaterable(s) then Some(s.value.(wateredAt := Some(now), status := Growing)) else s
  }

  function HarvestSlot(s: Slot): Slot
  {
    if IsReady(s) then Some(s.value.(status := Harvested)) else s
  }

  function ClearSlot(s: Slot): Slot
  {
    if IsHarvested(s) then None else s
  }

  function TickSlot(s: Slot, now: int): Slot
  {
    if Ripens(s, now) then Some(s.value.(status := Ready)) else s
  }

  // Whole-farm maps of the slot transitions.

  function WaterAll(ps: seq<Slot>, now: int): (r: seq<Slot>)
    ensures |r| == |ps|
  {
    seq(|ps|, i requires 0 <= i < |ps| => WaterSlot(ps[i], now))
  }

  function HarvestAll(ps: seq<Slot>): (r: seq<Slot>)
    ensures |r| == |ps|
  {
    seq(|ps|, i requires 0 <= i < |ps| => HarvestSlot(ps[i]))
  }

  function ClearAll(ps: seq<Slot>): (r: seq<Slot>)
    ensures |r| == |ps|
  {
    seq(|ps|, i requires 0 <= i < |ps| => ClearSlot(ps[i]))
  }

  function TickAll(ps: seq<Slot>, now: int): (r: seq<Slot>)
    ensures |r| == |ps|
  {
    seq(|ps|, i requires 0 <= i < |ps| => TickSlot(ps[i], now))
  }

  // Counts, recursing on the last slot so loops can use prefixes.

  function CountWaterable(ps: seq<Slot>): nat
  {
    if ps == [] then 0 else CountWaterable(ps[..|ps| - 1]) + (if IsWaterable(ps[|ps| - 1]) then 1 else 0)
  }

  function CountReady(ps: seq<Slot>): nat
  {
    if ps == [] then 0 else CountReady(ps[..|ps| - 1]) + (if IsReady(ps[|ps| - 1]) then 1 else 0)
  }

  function ReadyXp(ps: seq<Slot>): nat
  {
    if ps == [] then 0 else ReadyXp(ps[..|ps| - 1]) + (if IsReady(ps[|ps| - 1]) then Reward(ps[|ps| - 1]) else 0)
  }

  function CountHarvested(ps: seq<Slot>): nat
  {
    if ps == [] then 0 else CountHarvested(ps[..|ps| - 1]) + (if IsHarvested(ps[|ps| - 1]) then 1 else 0)
  }

  function CountRipe(ps: seq<Slot>, now: int): nat
  {
    if ps == [] then 0 else CountRipe(ps[..|ps| - 1], now) + (if Ripens(ps[|ps| - 1], now) then 1 else 0)
  }

  // Farm transitions.

  function PlantV(f: FarmValue, i: nat, kind: CropKind, now: int): FarmValue
    requires i < |f.plots|
  {
    f.(plots := f.plots[i := Some(NewCrop(kind, now))])
  }

  function WaterV(f: FarmValue, i: nat, now: int): FarmValue
    requires i < |f.plots|
  {
    f.(plots := f.plots[i := WaterSlot(f.plots[i], now)])
  }

  function HarvestV(f: FarmValue, i: nat): FarmValue
    requires i < |f.plots|
  {
    if !IsReady(f.plots[i]) then f
    else
      var xp := f.xp + Reward(f.plots[i]);
      FarmValue(f.plots[i := HarvestSlot(f.plots[i])], LevelFor(xp), xp, f.totalHarvests + 1)
  }

  function HarvestAllV(f: FarmValue): FarmValue
  {
    var count := CountReady(f.plots);
    if count == 0 then f
    else
      var xp := f.xp + ReadyXp(f.plots);
      FarmValue(HarvestAll(f.plots), LevelFor(xp), xp, f.totalHarvests + count)
  }

  /** The actions a click on a slot dispatches to. */
  datatype ClickAction = PlantAction | WaterAction | HarvestAction | NoAction

  function ClickActionFor(s: Slot): ClickAction
  {
    if s.None? then PlantAction
    else if s.value.status == Planted || s.value.status == Growing then WaterAction
    else if s.value.status == Ready then HarvestAction
    else NoAction
  }

  // Properties of the transitions.

  /** Harvesting every ready slot leaves none ready, and every harvested crop stays in its slot. */
  lemma {:induction false} HarvestAllLeavesNoneReady(ps: seq<Slot>)
    ensures CountReady(HarvestAll(ps)) == 0
    ensures CountHarvested(HarvestAll(ps)) == CountHarvested(ps) + CountReady(ps)
    ensures forall i | 0 <= i < |ps| :: HarvestAll(ps)[i].Some? == ps[i].Some?
  {
    if ps != [] {
      var init := ps[..|ps| - 1];
      HarvestAllLeavesNoneReady(init);
      assert HarvestAll(ps)[..|ps| - 1] == HarvestAll(init);
    }
  }

  /** With no ready slot, harvesting everything changes nothing. */
  lemma {:induction false} NoneReadyHarvestAllUnchanged(ps: seq<Slot>)
    requires CountReady(ps) == 0
    ensures HarvestAll(ps) == ps
  {
    if ps != [] {
      var init := ps[..|ps| - 1];
      NoneReadyHarvestAllUnchanged(init);
      assert HarvestAll(ps)[..|ps| - 1] == HarvestAll(init);
      assert ps == init + [ps[|ps| - 1]];
    }
  }

  /** Clearing removes exactly the harvested crops: none is left, and nothing else moves. */
  lemma {:induction false} ClearAllEffect(ps: seq<Slot>)
    ensures CountHarvested(ClearAll(ps)) == 0
    ensures CountReady(ClearAll(ps)) == CountReady(ps)
    ensures CountWaterable(ClearAll(ps)) == CountWaterable(ps)
  {
    if ps != [] {
      var init := ps[..|ps| - 1];
      ClearAllEffect(init);
      assert ClearAll(ps)[..|ps| - 1] == ClearAll(init);
    }
  }

  /**
   * The tick ripens only watered crops, and two ticks equal one tick at the later time, so a
   * missed tick is caught up by the next one.
   */
  lemma TickFacts(ps: seq<Slot>, t1: int, t2: int)
    requires t1 <= t2
    ensures TickAll(TickAll(ps, t1), t2) == TickAll(ps, t2)
    ensures forall i | 0 <= i < |ps| && ps[i].Some? && ps[i].value.status == Planted :: TickAll(ps, t2)[i] == ps[i]
    ensures forall i | 0 <= i < |ps| :: IsReady(TickAll(ps, t2)[i]) <==> IsReady(ps[i]) || Ripens(ps[i], t2)
  {
  }

  /** A single harvest awards the crop's reward, counts one harvest and keeps the level rule. */
  lemma HarvestVFacts(f: FarmValue, i: nat)
    requires i < |f.plots|
    requires f.level == LevelFor(f.xp)
    ensures var g := HarvestV(f, i);
      && |g.plots| == |f.plots|
      && g.level == LevelFor(g.xp) >= f.level
      && (IsReady(f.plots[i]) ==>
            g.xp == f.xp + Config(f.plots[i].value.kind).xpReward && g.totalHarvests == f.totalHarvests + 1
            && IsHarvested(g.plots[i]) && g.plots[i].value.readyAt == f.plots[i].value.readyAt)
      && (!IsReady(f.plots[i]) ==> g == f)
  {
    var g := HarvestV(f, i);
    if IsReady(f.plots[i]) {
      assert f.xp <= g.xp;
      assert f.xp / XpPerLevel <= g.xp / XpPerLevel;
    }
  }

  class Game {
    var plots: array<Slot>
    var level: int
    var xp: int
    var totalHarvests: int
    var selectedCrop: CropKind

    function Value(): FarmValue
      reads this, plots
    {
      FarmValue(plots[..], level, xp, totalHarvests)
    }

    ghost predicate Valid()
      reads this, plots
    {
      plots.Length == PlotCount && xp >= 0 && level == LevelFor(xp)
    }

    constructor()
      ensures Valid() && fresh(plots)
      ensures Value() == FarmValue(seq(PlotCount, _ => None), 1, 0, 0)
      ensures selectedCrop == Tomatoes
    {
      plots := new Slot[PlotCount](_ => None);
      level, xp, totalHarvests := 1, 0, 0;
      selectedCrop := Tomatoes;
    }

    /** handlePlotClick: plant an empty slot, water a planted or growing crop, harvest a ready one. */
    method HandlePlotClick(plotIndex: nat, now: int)
      requires Valid() && plotIndex < PlotCount
      modifies this, plots
      ensures Valid() && plots == old(plots)
      ensures selectedCrop == old(selectedCrop)
      ensures Value() == match ClickActionFor(old(plots[plotIndex]))
        case PlantAction => PlantV(old(Value()), plotIndex, selectedCrop, now)
        case WaterAction => WaterV(old(Value()), plotIndex, now)
        case HarvestAction => HarvestV(old(Value()), plotIndex)
        case NoAction => old(Value())
    {
      var plot := plots[plotIndex];
      if plot.None? {
        PlantCrop(plotIndex, now);
      } else if plot.value.status == Planted || plot.value.status == Growing {
        WaterCrop(plotIndex, now);
      } else if plot.value.status == Ready {
        var _ := HarvestCrop(plotIndex);
      }
    }

    /** plantCrop: put a fresh crop of the selected kind in the slot, whatever it held. */
    method PlantCrop(plotIndex: nat, now: int)
      requires Valid() && plotIndex < PlotCount
      modifies plots
      ensures Valid()
      ensures Value() == PlantV(old(Value()), plotIndex, selectedCrop, now)
    {
      plots[plotIndex] := Some(NewCrop(selectedCrop, now));
    }

    /** waterCrop: a planted or growing crop becomes growing; anything else is left alone. */
    method WaterCrop(plotIndex: nat, now: int)
      requires Valid() && plotIndex < PlotCount
      modifies plots
      ensures Valid()
      ensures Value() == WaterV(old(Value()), plotIndex, now)
    {
      var crop := plots[plotIndex];
      if crop.None? || crop.value.status == Ready || crop.value.status == Harvested {
        return;
      }
      plots[plotIndex] := Some(crop.value.(wateredAt := Some(now), status := Growing));
    }

    method WaterAllCrops(now: int) returns (wateredCount: nat)
      requires Valid()
      modifies plots
      ensures Valid()
      ensures plots[..] == WaterAll(old(plots[..]), now)
      ensures wateredCount == CountWaterable(old(plots[..]))
    {
      ghost var before := plots[..];
      wateredCount := 0;
      var i := 0;
      while i < plots.Length
        invariant 0 <= i <= plots.Length
        invariant wateredCount == CountWaterable(before[..i])
        invariant forall j | 0 <= j < i :: plots[j] == WaterSlot(before[j], now)
        invariant forall j | i <= j < plots.Length :: plots[j] == before[j]
      {
        assert before[..i + 1][..i] == before[..i];
        var crop := plots[i];
        if crop.Some? && (crop.value.status == Planted || crop.value.status == Growing) {
          plots[i] := Some(crop.value.(wateredAt := Some(now), status := Growing));
          wateredCount := wateredCount + 1;
        }
        i := i + 1;
      }
      assert before[..i] == before;
    }

    /** harvestCrop: a ready crop is marked harvested (not removed) and its reward is awarded. */
    method HarvestCrop(plotIndex: nat) returns (leveledUp: bool)
      requires Valid() && plotIndex < PlotCount
      modifies this, plots
      ensures Valid() && plots == old(plots)
      ensures selectedCrop == old(selectedCrop)
      ensures Value() == HarvestV(old(Value()), plotIndex)
      ensures leveledUp <==> level > old(level)
    {
      var crop := plots[plotIndex];
      if crop.None? || crop.value.status != Ready {
        return false;
      }
      var config := Config(crop.value.kind);
      plots[plotIndex] := Some(crop.value.(status := Harvested));
      xp := xp + config.xpReward;
      totalHarvests := totalHarvests + 1;
      var newLevel := xp / XpPerLevel + 1;
      leveledUp := newLevel > level;
      level := newLevel;
    }

    method HarvestAllCrops() returns (harvestedCount: nat, totalXp: nat)
      requires Valid()
      modifies this, plots
      ensures Valid() && plots == old(plots)
      ensures selectedCrop == old(selectedCrop)
      ensures Value() == HarvestAllV(old(Value()))
      ensures harvestedCount == CountReady(old(plots[..])) && totalXp == ReadyXp(old(plots[..]))
    {
      ghost var before := plots[..];
      harvestedCount, totalXp := 0, 0;
      var i := 0;
      while i < plots.Length
        modifies plots
        invariant 0 <= i <= plots.Length
        invariant harvestedCount == CountReady(before[..i])
        invariant totalXp == ReadyXp(before[..i])
        invariant forall j | 0 <= j < i :: plots[j] == HarvestSlot(before[j])
        invariant forall j | i <= j < plots.Length :: plots[j] == before[j]
      {
        assert before[..i + 1][..i] == before[..i];
        var crop := plots[i];
        if crop.Some? && crop.value.status == Ready {
          var config := Config(crop.value.kind);
          plots[i] := Some(crop.value.(status := Harvested));
          totalXp := totalXp + config.xpReward;
          harvestedCount := harvestedCount + 1;
        }
        i := i + 1;
      }
      assert before[..i] == before;
      assert plots[..] == HarvestAll(before);
      if harvestedCount > 0 {
        xp := xp + totalXp;
        totalHarvests := totalHarvests + harvestedCount;
        level := xp / XpPerLevel + 1;
      } else {
        NoneReadyHarvestAllUnchanged(before);
      }
    }

    method ClearHarvestedCrops() returns (clearedCount: nat)
      requires Valid()
      modifies plots
      ensures Valid()
      ensures plots[..] == ClearAll(old(plots[..]))
      ensures clearedCount == CountHarvested(old(plots[..]))
    {
      ghost var before := plots[..];
      clearedCount := 0;
      var i := 0;
      while i < plots.Length
        invariant 0 <= i <= plots.Length
        invariant clearedCount == CountHarvested(before[..i])
        invariant forall j | 0 <= j < i :: plots[j] == ClearSlot(before[j])
        invariant forall j | i <= j < plots.Length :: plots[j] == before[j]
      {
        assert before[..i + 1][..i] == before[..i];
        var crop := plots[i];
        if crop.Some? && crop.value.status == Harvested {
          plots[i] := None;
          clearedCount := clearedCount + 1;
        }
        i := i + 1;
      }
      assert before[..i] == before;
    }

    /** The body of the game loop: ripen every growing crop whose time is due. */
    method Tick(now: int) returns (updated: bool)
      requires Valid()
      modifies plots
      ensures Valid()
      ensures plots[..] == TickAll(old(plots[..]), now)
      ensures updated <==> CountRipe(old(plots[..]), now) > 0
    {
      ghost var before := plots[..];
      updated := false;
      var i := 0;
      while i < plots.Length
        invariant 0 <= i <= plots.Length
        invariant updated <==> CountRipe(before[..i], now) > 0
        invariant forall j | 0 <= j < i :: plots[j] == TickSlot(before[j], now)
        invariant forall j | i <= j < plots.Length :: plots[j] == before[j]
      {
        assert before[..i + 1][..i] == before[..i];
        var crop := plots[i];
        if crop.Some? && crop.value.status == Growing && now >= crop.value.readyAt {
          plots[i] := Some(crop.value.(status := Ready));
          updated := true;
        }
        i := i + 1;
      }
      assert before[..i] == before;
    }

    /** resetGame: a fresh farm of 25 empty slots at level 1, and tomatoes selected. */
    method ResetGame()
      modifies this
      ensures Valid() && fresh(plots)
      ensures Value() == FarmValue(seq(PlotCount, _ => None), 1, 0, 0)
      ensures selectedCrop == Tomatoes
    {
      plots := new Slot[PlotCount](_ => None);
      level, xp, totalHarvests := 1, 0, 0;
      selectedCrop := Tomatoes;
    }
  }
}
