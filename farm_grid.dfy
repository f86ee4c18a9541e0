/**
 * The browser farm grid: a fixed array of 25 plots addressed by index, with single-plot
 * operations that check the index and bulk operations that walk every plot in order.
 * Messages to the page are not modelled.
 */
module FarmGrid {
  import opened Wrappers
  import opened Plot

  /** The grid is 5 by 5. */
  const Size: nat := 25

  // Counts over the plots' views, recursing on the last plot so loops can use prefixes.

  predicate Waterable(v: PlotView)
  {
    NeedsWater(v) || IsGrowing(v)
  }

  function CountWaterable(vs: seq<PlotView>): nat
  {
    if vs == [] then 0 else CountWaterable(vs[..|vs| - 1]) + (if Waterable(vs[|vs| - 1]) then 1 else 0)
  }

  function CountReady(vs: seq<PlotView>): nat
  {
    if vs == [] then 0 else CountReady(vs[..|vs| - 1]) + (if IsReady(vs[|vs| - 1]) then 1 else 0)
  }

  function RewardOf(v: PlotView, config: map<string, CropInfo>): int
  {
    if v.crop.Some? && v.crop.value.cropType in config then config[v.crop.value.cropType].xpReward else 0
  }

  /** The summed experience reward of the ready plots. */
  function ReadyXp(vs: seq<PlotView>, config: map<string, CropInfo>): int
  {
    if vs == [] then 0
    else ReadyXp(vs[..|vs| - 1], config) + (if IsReady(vs[|vs| - 1]) then RewardOf(vs[|vs| - 1], config) else 0)
  }

  function CountHarvested(vs: seq<PlotView>): nat
  {
    if vs == [] then 0 else CountHarvested(vs[..|vs| - 1]) + (if IsHarvested(vs[|vs| - 1]) then 1 else 0)
  }

  function CountRipe(vs: seq<PlotView>, now: int): nat
  {
    if vs == [] then 0 else CountRipe(vs[..|vs| - 1], now) + (if Ripens(vs[|vs| - 1], now) then 1 else 0)
  }

  /** The filter of getPlotCount: a state name selects plots by its predicate; any other name selects none. */
  predicate Selects(v: PlotView, state: string)
  {
    if state == "empty" then IsEmpty(v)
    else if state == "planted" then NeedsWater(v)
    else if state == "growing" then IsGrowing(v)
    else if state == "ready" then IsReady(v)
    else if state == "harvested" then IsHarvested(v)
    else false
  }

  /** The indices of the plots a state name selects. */
  function Selected(vs: seq<PlotView>, state: string): set<int>
  {
    set i | 0 <= i < |vs| && Selects(vs[i], state)
  }

  function CountSelected(vs: seq<PlotView>, state: string): (n: nat)
    ensures n == |Selected(vs, state)| && n <= |vs|
    ensures state == "ready" ==> n == CountReady(vs)
    ensures state == "harvested" ==> n == CountHarvested(vs)
    ensures state !in {"empty", "planted", "growing", "ready", "harvested"} ==> n == 0
  {
    if vs == [] then
      assert Selected(vs, state) == {};
      0
    else
      var init := vs[..|vs| - 1];
      var k := |vs| - 1;
      var rest := CountSelected(init, state);
      assert forall i | 0 <= i < |init| :: init[i] == vs[i];
      assert Selected(vs, state) == Selected(init, state) + (if Selects(vs[k], state) then {k} else {});
      assert k !in Selected(init, state);
      rest + (if Selects(vs[k], state) then 1 else 0)
  }

  /**
   * getNextReadyTime: the least remaining time over the growing plots, or None when no
   * plot is growing.
   */
  function NextReadyTime(vs: seq<PlotView>, now: int): (r: Option<int>)
    ensures r.None? <==> forall i | 0 <= i < |vs| :: !IsGrowing(vs[i])
    ensures r.Some? ==> exists i | 0 <= i < |vs| :: IsGrowing(vs[i]) && r.value == TimeRemaining(vs[i], now)
    ensures r.Some? ==> forall i | 0 <= i < |vs| && IsGrowing(vs[i]) :: r.value <= TimeRemaining(vs[i], now)
  {
    if vs == [] then None
    else
      var init := vs[..|vs| - 1];
      var last := vs[|vs| - 1];
      var rest := NextReadyTime(init, now);
      assert forall i | 0 <= i < |init| :: init[i] == vs[i];
      if !IsGrowing(last) then rest
      else if rest.None? || TimeRemaining(last, now) < rest.value then Some(TimeRemaining(last, now))
      else rest
  }

  /** After every plot has been checked once at `now`, none is left to ripen at `now`. */
  lemma {:induction false} NoneRipeAfterCheck(vs: seq<PlotView>, after: seq<PlotView>, now: int)
    requires |after| == |vs|
    requires forall i | 0 <= i < |vs| :: after[i] == CheckGrowthStep(vs[i], now)
    ensures CountRipe(after, now) == 0
  {
    if vs != [] {
      NoneRipeAfterCheck(vs[..|vs| - 1], after[..|after| - 1], now);
      CheckGrowthFacts(vs[|vs| - 1], now);
    }
  }

  /**
   * Watering every plot in turn changes exactly the planted or growing plots: each of them
   * ends growing with its ready time kept, and every other plot is left as it was.
   */
  lemma WaterAllEffect(v: PlotView, now: int)
    ensures Waterable(v) <==> CanWater(v)
    ensures Waterable(v) ==> IsGrowing(WaterStep(v, now)) && WaterStep(v, now).crop.value.readyAt == v.crop.value.readyAt
    ensures !Waterable(v) ==> WaterStep(v, now) == v
  {
  }

  /** Harvesting every ready plot leaves each of them empty, with no crop. */
  lemma HarvestAllEffect(v: PlotView)
    ensures IsReady(v) ==> IsEmpty(HarvestStep(v)) && HarvestStep(v).crop.None?
    ensures !IsReady(v) ==> HarvestStep(v) == v
  {
  }

  class FarmGrid {
    const cropConfig: map<string, CropInfo>
    const plots: array<Plot>

    ghost function Plots(): set<Plot>
      reads this, plots
    {
      set i | 0 <= i < plots.Length :: plots[i]
    }

    ghost predicate Valid()
      reads this, plots, Plots()
    {
      && plots.Length == Size
      && (forall i, j | 0 <= i < j < plots.Length :: plots[i] != plots[j])
      && (forall i | 0 <= i < plots.Length ::
            plots[i].Valid() && plots[i].cropConfig == cropConfig && plots[i].index == i)
    }

    /** The views of all plots, in index order. */
    function Views(): (vs: seq<PlotView>)
      reads this, plots, Plots()
      ensures |vs| == plots.Length
      ensures forall i | 0 <= i < plots.Length :: vs[i] == plots[i].View()
    {
      seq(plots.Length, i reads this, plots, Plots() requires 0 <= i < plots.Length => plots[i].View())
    }

    /** createGrid: 25 fresh, empty plots indexed 0..24. */
    constructor(cropConfig: map<string, CropInfo>)
      ensures Valid() && fresh(plots) && fresh(Plots())
      ensures this.cropConfig == cropConfig
      ensures forall i | 0 <= i < Size :: plots[i].View() == PlotView(None, Empty, false)
    {
      this.cropConfig := cropConfig;
      var first := new Plot(0, cropConfig);
      var a := new Plot[Size](_ => first);
      var i := 1;
      while i < Size
        invariant 1 <= i <= Size
        invariant a[0] == first
        invariant forall j | 0 <= j < i :: fresh(a[j]) && a[j].Valid() && a[j].cropConfig == cropConfig
                                           && a[j].index == j && a[j].View() == PlotView(None, Empty, false)
        invariant forall j, k | 0 <= j < k < i :: a[j] != a[k]
      {
        var plot := new Plot(i, cropConfig);
        a[i] := plot;
        i := i + 1;
      }
      plots := a;
    }

    method PlantCrop(plotIndex: int, cropType: string, now: int) returns (ok: bool)
      requires Valid()
      modifies Plots()
      ensures Valid()
      ensures !(0 <= plotIndex < Size) ==> !ok && Views() == old(Views())
      ensures 0 <= plotIndex < Size ==>
        && (ok <==> CanPlant(old(plots[plotIndex].View()), cropConfig, cropType))
        && Views() == old(Views())[plotIndex := PlantStep(old(plots[plotIndex].View()), cropConfig, cropType, now)]
    {
      if plotIndex < 0 || plotIndex >= plots.Length {
        return false;
      }
      ok := plots[plotIndex].Plant(cropType, now);
    }

    method WaterCrop(plotIndex: int, now: int) returns (ok: bool)
      requires Valid()
      modifies Plots()
      ensures Valid()
      ensures !(0 <= plotIndex < Size) ==> !ok && Views() == old(Views())
      ensures 0 <= plotIndex < Size ==>
        && (ok <==> CanWater(old(plots[plotIndex].View())))
        && Views() == old(Views())[plotIndex := WaterStep(old(plots[plotIndex].View()), now)]
    {
      if plotIndex < 0 || plotIndex >= plots.Length {
        return false;
      }
      ok := plots[plotIndex].Water(now);
    }

    method HarvestCrop(plotIndex: int) returns (r: Option<HarvestReward>)
      requires Valid()
      modifies Plots()
      ensures Valid()
      ensures !(0 <= plotIndex < Size) ==> r.None? && Views() == old(Views())
      ensures 0 <= plotIndex < Size ==>
        && (r.Some? <==> IsReady(old(plots[plotIndex].View())))
        && (r.Some? ==> r.value.xp == RewardOf(old(plots[plotIndex].View()), cropConfig))
        && Views() == old(Views())[plotIndex := HarvestStep(old(plots[plotIndex].View()))]
    {
      if plotIndex < 0 || plotIndex >= plots.Length {
        return None;
      }
      r := plots[plotIndex].Harvest();
    }

    method ClearPlot(plotIndex: int) returns (ok: bool)
      requires Valid()
      modifies Plots()
      ensures Valid()
      ensures ok <==> 0 <= plotIndex < Size
      ensures !ok ==> Views() == old(Views())
      ensures ok ==> Views() == old(Views())[plotIndex := ClearStep(old(plots[plotIndex].View()))]
    {
      if plotIndex < 0 || plotIndex >= plots.Length {
        return false;
      }
      ok := plots[plotIndex].Clear();
    }

    /** The forEach callback of waterAllCrops: water plot `i` when it is planted or growing. */
    method WaterIfPlanted(i: nat, now: int) returns (watered: bool)
      requires Valid() && i < Size
      modifies plots[i]
      ensures Valid()
      ensures watered <==> Waterable(old(plots[i].View()))
      ensures plots[i].View() == WaterStep(old(plots[i].View()), now)
      ensures forall j | 0 <= j < Size && j != i :: plots[j].View() == old(plots[j].View())
    {
      var plot := plots[i];
      WaterAllEffect(plot.View(), now);
      watered := false;
      if NeedsWater(plot.View()) || IsGrowing(plot.View()) {
        watered := plot.Water(now);
      }
    }

    /** The forEach callback of harvestAllCrops: harvest plot `i` when it is ready. */
    method HarvestIfReady(i: nat) returns (r: Option<HarvestReward>)
      requires Valid() && i < Size
      modifies plots[i]
      ensures Valid()
      ensures r.Some? <==> IsReady(old(plots[i].View()))
      ensures r.Some? ==> r.value.xp == RewardOf(old(plots[i].View()), cropConfig)
      ensures plots[i].View() == HarvestStep(old(plots[i].View()))
      ensures forall j | 0 <= j < Size && j != i :: plots[j].View() == old(plots[j].View())
    {
      var plot := plots[i];
      r := None;
      if IsReady(plot.View()) {
        r := plot.Harvest();
      }
    }

    /** The forEach callback of clearHarvestedCrops: clear plot `i` when it is harvested. */
    method ClearIfHarvested(i: nat) returns (cleared: bool)
      requires Valid() && i < Size
      modifies plots[i]
      ensures Valid()
      ensures cleared <==> IsHarvested(old(plots[i].View()))
      ensures plots[i].View() == if cleared then ClearStep(old(plots[i].View())) else old(plots[i].View())
      ensures forall j | 0 <= j < Size && j != i :: plots[j].View() == old(plots[j].View())
    {
      var plot := plots[i];
      cleared := false;
      if IsHarvested(plot.View()) {
        cleared := plot.Clear();
      }
    }

    /** The forEach callback of updateGrowth: check plot `i` at `now`. */
    method CheckGrowthAt(i: nat, now: int) returns (ripened: bool)
      requires Valid() && i < Size
      modifies plots[i]
      ensures Valid()
      ensures ripened <==> Ripens(old(plots[i].View()), now)
      ensures plots[i].View() == CheckGrowthStep(old(plots[i].View()), now)
      ensures forall j | 0 <= j < Size && j != i :: plots[j].View() == old(plots[j].View())
    {
      ripened := plots[i].CheckGrowth(now);
    }

    /** waterAllCrops: water every planted or growing plot and count them. */
    method WaterAllCrops(now: int) returns (count: nat)
      requires Valid()
      modifies Plots()
      ensures Valid()
      ensures count == CountWaterable(old(Views()))
      ensures forall i | 0 <= i < Size :: plots[i].View() == WaterStep(old(plots[i].View()), now)
    {
      ghost var before := Views();
      count := 0;
      var i := 0;
      while i < plots.Length
        invariant 0 <= i <= Size
        invariant Valid()
        invariant count == CountWaterable(before[..i])
        invariant forall j | 0 <= j < i :: plots[j].View() == WaterStep(before[j], now)
        invariant forall j | i <= j < Size :: plots[j].View() == before[j]
      {
        assert before[..i + 1][..i] == before[..i];
        var watered := WaterIfPlanted(i, now);
        if watered {
          count := count + 1;
        }
        i := i + 1;
      }
      assert before[..i] == before;
    }

    /** harvestAllCrops: harvest every ready plot, returning their number and summed reward. */
    method HarvestAllCrops() returns (count: nat, xp: int)
      requires Valid()
      modifies Plots()
      ensures Valid()
      ensures count == CountReady(old(Views()))
      ensures xp == ReadyXp(old(Views()), cropConfig)
      ensures forall i | 0 <= i < Size :: plots[i].View() == HarvestStep(old(plots[i].View()))
    {
      ghost var before := Views();
      count, xp := 0, 0;
      var i := 0;
      while i < plots.Length
        invariant 0 <= i <= Size
        invariant Valid()
        invariant count == CountReady(before[..i])
        invariant xp == ReadyXp(before[..i], cropConfig)
        invariant forall j | 0 <= j < i :: plots[j].View() == HarvestStep(before[j])
        invariant forall j | i <= j < Size :: plots[j].View() == before[j]
      {
        assert before[..i + 1][..i] == before[..i];
        var result := HarvestIfReady(i);
        if result.Some? {
          count := count + 1;
          xp := xp + result.value.xp;
        }
        i := i + 1;
      }
      assert before[..i] == before;
    }

    /** clearHarvestedCrops: clear every plot in the harvested state and count them. */
    method ClearHarvestedCrops() returns (count: nat)
      requires Valid()
      modifies Plots()
      ensures Valid()
      ensures count == CountHarvested(old(Views()))
      ensures forall i | 0 <= i < Size ::
        plots[i].View() == if IsHarvested(old(plots[i].View())) then ClearStep(old(plots[i].View())) else old(plots[i].View())
    {
      ghost var before := Views();
      count := 0;
      var i := 0;
      while i < plots.Length
        invariant 0 <= i <= Size
        invariant Valid()
        invariant count == CountHarvested(before[..i])
        invariant forall j | 0 <= j < i ::
          plots[j].View() == if IsHarvested(before[j]) then ClearStep(before[j]) else before[j]
        invariant forall j | i <= j < Size :: plots[j].View() == before[j]
      {
        assert before[..i + 1][..i] == before[..i];
        var cleared := ClearIfHarvested(i);
        if cleared {
          count := count + 1;
        }
        i := i + 1;
      }
      assert before[..i] == before;
    }

    /** updateGrowth: check every plot at `now` and count the ones that ripened. */
    method UpdateGrowth(now: int) returns (readyCount: nat)
      requires Valid()
      modifies Plots()
      ensures Valid()
      ensures readyCount == CountRipe(old(Views()), now)
      ensures forall i | 0 <= i < Size :: plots[i].View() == CheckGrowthStep(old(plots[i].View()), now)
      ensures CountRipe(Views(), now) == 0
    {
      ghost var before := Views();
      readyCount := 0;
      var i := 0;
      while i < plots.Length
        invariant 0 <= i <= Size
        invariant Valid()
        invariant readyCount == CountRipe(before[..i], now)
        invariant forall j | 0 <= j < i :: plots[j].View() == CheckGrowthStep(before[j], now)
        invariant forall j | i <= j < Size :: plots[j].View() == before[j]
      {
        assert before[..i + 1][..i] == before[..i];
        var ripened := CheckGrowthAt(i, now);
        if ripened {
          readyCount := readyCount + 1;
        }
        i := i + 1;
      }
      assert before[..i] == before;
      NoneRipeAfterCheck(before, Views(), now);
    }

    /** getPlotCount: how many plots the named state selects (0 for an unknown name). */
    function GetPlotCount(state: string): (n: nat)
      requires Valid()
      reads this, plots, Plots()
      ensures n == |set i | 0 <= i < Size && Selects(plots[i].View(), state)|
      ensures n <= Size
    {
      var vs := Views();
      assert Selected(vs, state) == set i | 0 <= i < Size && Selects(plots[i].View(), state);
      CountSelected(vs, state)
    }

    /** restoreFromData: with data for exactly every plot, restore each plot from its entry. */
    method RestoreFromData(plotsData: Option<seq<PlotData>>) returns (ok: bool)
      requires Valid()
      requires plotsData.Some? ==>
        forall k | 0 <= k < |plotsData.value| :: plotsData.value[k].crop.Some? ==> plotsData.value[k].crop.value.cropType in cropConfig
      modifies Plots()
      ensures Valid()
      ensures ok <==> plotsData.Some? && |plotsData.value| == Size
      ensures !ok ==> Views() == old(Views())
      ensures ok ==> forall i | 0 <= i < Size :: plots[i].View() == RestoreStep(old(plots[i].View()), plotsData.value[i])
    {
      if plotsData.None? || |plotsData.value| != plots.Length {
        return false;
      }
      var data := plotsData.value;
      ghost var before := Views();
      var i := 0;
      while i < |data|
        invariant 0 <= i <= Size
        invariant Valid()
        invariant forall j | 0 <= j < i :: plots[j].View() == RestoreStep(before[j], data[j])
        invariant forall j | i <= j < Size :: plots[j].View() == before[j]
      {
        plots[i].RestoreFromData(data[i]);
        i := i + 1;
      }
      return true;
    }

    /** reset: every plot ends empty with no crop. */
    method Reset()
      requires Valid()
      modifies Plots()
      ensures Valid()
      ensures forall i | 0 <= i < Size :: plots[i].View() == ClearStep(old(plots[i].View()))
      ensures forall i | 0 <= i < Size :: IsEmpty(plots[i].View()) && plots[i].crop.None?
    {
      ghost var before := Views();
      var i := 0;
      while i < plots.Length
        invariant 0 <= i <= Size
        invariant Valid()
        invariant forall j | 0 <= j < i :: plots[j].View() == ClearStep(before[j])
        invariant forall j | i <= j < Size :: plots[j].View() == before[j]
      {
        var _ := plots[i].Clear();
        i := i + 1;
      }
    }

    function GetNextReadyTime(now: int): (r: Option<int>)
      requires Valid()
      reads this, plots, Plots()
      ensures r.None? <==> forall i | 0 <= i < Size :: !IsGrowing(plots[i].View())
      ensures r.Some? ==> exists i | 0 <= i < Size :: IsGrowing(plots[i].View()) && r.value == TimeRemaining(plots[i].View(), now)
      ensures r.Some? ==> forall i | 0 <= i < Size && IsGrowing(plots[i].View()) :: r.value <= TimeRemaining(plots[i].View(), now)
    {
      NextReadyTime(Views(), now)
    }
  }
}
