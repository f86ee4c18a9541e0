/**
 * One plot of the browser farm: a small state machine over an optional crop record.
 * A crop ripens only after it has been watered (status growing), and harvesting a ripe
 * crop clears the plot at once. Time is the `now` parameter, in milliseconds.
 */
module Plot {
  import opened Wrappers

  /** The part of a crop configuration entry the plot logic reads (growth time in ms). */
  datatype CropInfo = CropInfo(name: string, growthTime: int, xpReward: int)

  /** The plot's `state` field. */
  datatype PlotState = Empty | Planted | Growing | Ready | Harvested

  /** The crop record's `status` field. */
  datatype CropStatus = CropPlanted | CropGrowing | CropReady | CropHarvested

  datatype PlotCrop = PlotCrop(cropType: string, status: CropStatus, plantedAt: int,
                               wateredAt: Option<int>, readyAt: int)

  /** The value-level view of a plot: everything its operations read or write. */
  datatype PlotView = PlotView(crop: Option<PlotCrop>, state: PlotState, isLocked: bool)

  /** The serialised form produced by `getPlotData`. */
  datatype PlotData = PlotData(index: int, state: PlotState, crop: Option<PlotCrop>)

  /** What a successful harvest hands back to the grid. */
  datatype HarvestReward = HarvestReward(cropType: string, xp: int, name: string)

  /**
   * The invariant of a plot: a plot without a crop is empty, and the crop it holds has an
   * entry in the configuration (harvesting looks the entry up unconditionally).
   */
  predicate ViewOk(v: PlotView, config: map<string, CropInfo>)
  {
    && (v.crop.None? ==> v.state == Empty)
    && (v.crop.Some? ==> v.crop.value.cropType in config)
  }

  // The state predicates.

  predicate IsReady(v: PlotView) { v.crop.Some? && v.crop.value.status == CropReady }
  predicate IsEmpty(v: PlotView) { v.state == Empty }
  predicate IsHarvested(v: PlotView) { v.state == Harvested }
  predicate NeedsWater(v: PlotView) { v.crop.Some? && v.crop.value.status == CropPlanted }
  predicate IsGrowing(v: PlotView) { v.crop.Some? && v.crop.value.status == CropGrowing }

  /** The plot state that goes with a crop status. */
  function StateFor(s: CropStatus): PlotState
  {
    match s
    case CropPlanted => Planted
    case CropGrowing => Growing
    case CropReady => Ready
    case CropHarvested => Harvested
  }

  /** The plot's state agrees with its crop: empty without one, the crop's own status with one. */
  predicate Synced(v: PlotView)
  {
    if v.crop.None? then v.state == Empty else v.state == StateFor(v.crop.value.status)
  }

  function CropType(v: PlotView): Option<string>
  {
    if v.crop.Some? then Some(v.crop.value.cropType) else None
  }

  // The transitions, as functions of the view.

  predicate CanPlant(v: PlotView, config: map<string, CropInfo>, cropType: string)
  {
    v.state == Empty && !v.isLocked && cropType in config
  }

  function PlantStep(v: PlotView, config: map<string, CropInfo>, cropType: string, now: int): PlotView
  {
    if CanPlant(v, config, cropType) then
      v.(crop := Some(PlotCrop(cropType, CropPlanted, now, None, now + config[cropType].growthTime)),
         state := Planted)
    else v
  }

  predicate CanWater(v: PlotView)
  {
    v.crop.Some? && v.crop.value.status != CropReady && v.crop.value.status != CropHarvested
  }

  function WaterStep(v: PlotView, now: int): PlotView
  {
    if CanWater(v) then
      v.(crop := Some(v.crop.value.(wateredAt := Some(now), status := CropGrowing)), state := Growing)
    else v
  }

  function HarvestStep(v: PlotView): PlotView
  {
    if IsReady(v) then ClearStep(v) else v
  }

  function ClearStep(v: PlotView): PlotView
  {
    v.(crop := None, state := Empty)
  }

  predicate Ripens(v: PlotView, now: int)
  {
    IsGrowing(v) && now >= v.crop.value.readyAt
  }

  function CheckGrowthStep(v: PlotView, now: int): PlotView
  {
    if Ripens(v, now) then v.(crop := Some(v.crop.value.(status := CropReady)), state := Ready)
    else v
  }

  function RestoreStep(v: PlotView, data: PlotData): PlotView
  {
    if data.crop.None? then ClearStep(v) else v.(crop := data.crop, state := data.state)
  }

  function DataOf(v: PlotView, index: int): PlotData
  {
    PlotData(index, v.state, v.crop)
  }

  /** getTimeRemaining: the milliseconds until a growing crop ripens, never negative. */
  function TimeRemaining(v: PlotView, now: int): (r: int)
    ensures r >= 0
    ensures !IsGrowing(v) ==> r == 0
    ensures IsGrowing(v) ==> r >= v.crop.value.readyAt - now
    ensures IsGrowing(v) && now < v.crop.value.readyAt ==> r == v.crop.value.readyAt - now
    ensures r > 0 ==> !Ripens(v, now)
  {
    if !IsGrowing(v) then 0
    else if v.crop.value.readyAt - now > 0 then v.crop.value.readyAt - now else 0
  }

  // Properties of the transitions.

  /** Every transition keeps the plot invariant and never touches `isLocked`. */
  lemma StepsKeepInvariant(v: PlotView, config: map<string, CropInfo>, cropType: string, now: int)
    requires ViewOk(v, config)
    ensures ViewOk(PlantStep(v, config, cropType, now), config)
    ensures ViewOk(WaterStep(v, now), config)
    ensures ViewOk(HarvestStep(v), config)
    ensures ViewOk(ClearStep(v), config)
    ensures ViewOk(CheckGrowthStep(v, now), config)
    ensures PlantStep(v, config, cropType, now).isLocked == v.isLocked
    ensures WaterStep(v, now).isLocked == v.isLocked
    ensures HarvestStep(v).isLocked == v.isLocked
    ensures ClearStep(v).isLocked == v.isLocked
    ensures CheckGrowthStep(v, now).isLocked == v.isLocked
  {
  }

  /**
   * While state and crop agree, exactly one state predicate holds, and every transition
   * keeps them in agreement.
   */
  lemma StatePredicatesPartition(v: PlotView, config: map<string, CropInfo>, cropType: string, now: int)
    requires Synced(v)
    ensures (if IsEmpty(v) then 1 else 0) + (if NeedsWater(v) then 1 else 0) + (if IsGrowing(v) then 1 else 0)
            + (if IsReady(v) then 1 else 0) + (if IsHarvested(v) then 1 else 0) == 1
    ensures Synced(PlantStep(v, config, cropType, now)) && Synced(WaterStep(v, now)) && Synced(HarvestStep(v))
    ensures Synced(ClearStep(v)) && Synced(CheckGrowthStep(v, now))
  {
  }

  /** Only restoring saved data can put a plot into the harvested state. */
  lemma HarvestedOnlyByRestore(v: PlotView, config: map<string, CropInfo>, cropType: string, now: int)
    requires !IsHarvested(v)
    ensures !IsHarvested(PlantStep(v, config, cropType, now))
    ensures !IsHarvested(WaterStep(v, now))
    ensures !IsHarvested(HarvestStep(v))
    ensures !IsHarvested(ClearStep(v))
    ensures !IsHarvested(CheckGrowthStep(v, now))
  {
  }

  /**
   * Ripening needs watering: an unwatered (planted) crop is left alone, a growing crop
   * ripens exactly when its time is due, and a second check at the same time does nothing.
   */
  lemma CheckGrowthFacts(v: PlotView, now: int)
    ensures NeedsWater(v) ==> CheckGrowthStep(v, now) == v
    ensures IsReady(CheckGrowthStep(v, now)) <==> IsReady(v) || Ripens(v, now)
    ensures !Ripens(CheckGrowthStep(v, now), now)
    ensures CheckGrowthStep(CheckGrowthStep(v, now), now) == CheckGrowthStep(v, now)
  {
  }

  /** Restoring a plot from its own saved data gives back the same plot. */
  lemma RestoreRoundTrip(v: PlotView, config: map<string, CropInfo>, index: int)
    requires ViewOk(v, config)
    ensures RestoreStep(v, DataOf(v, index)) == v
  {
  }

  class Plot {
    const index: int
    const cropConfig: map<string, CropInfo>
    var crop: Option<PlotCrop>
    var state: PlotState
    var isLocked: bool

    function View(): PlotView
      reads this
    {
      PlotView(crop, state, isLocked)
    }

    ghost predicate Valid()
      reads this
    {
      ViewOk(View(), cropConfig)
    }

    constructor(index: int, cropConfig: map<string, CropInfo>)
      ensures Valid()
      ensures this.index == index && this.cropConfig == cropConfig
      ensures View() == PlotView(None, Empty, false)
    {
      this.index := index;
      this.cropConfig := cropConfig;
      crop := None;
      state := Empty;
      isLocked := false;
    }

    /**
     * plant: only an empty, unlocked plot accepts a configured crop; the new crop is
     * planted, unwatered and due `growthTime` milliseconds from now.
     */
    method Plant(cropType: string, now: int) returns (ok: bool)
      requires Valid()
      modifies this
      ensures Valid()
      ensures ok <==> CanPlant(old(View()), cropConfig, cropType)
      ensures View() == PlantStep(old(View()), cropConfig, cropType, now)
      ensures ok ==> state == Planted && crop.Some? && crop.value.status == CropPlanted
                     && crop.value.wateredAt.None? && crop.value.plantedAt == now
                     && crop.value.readyAt == now + cropConfig[cropType].growthTime
    {
      if state != Empty || isLocked {
        return false;
      }
      if cropType !in cropConfig {
        return false;
      }
      var config := cropConfig[cropType];
      crop := Some(PlotCrop(cropType, CropPlanted, now, None, now + config.growthTime));
      state := Planted;
      return true;
    }

    /** water: a planted or growing crop becomes growing; its ready time is kept. */
    method Water(now: int) returns (ok: bool)
      requires Valid()
      modifies this
      ensures Valid()
      ensures ok <==> CanWater(old(View()))
      ensures View() == WaterStep(old(View()), now)
      ensures ok ==> state == Growing && crop.value.status == CropGrowing
                     && crop.value.readyAt == old(crop).value.readyAt && crop.value.wateredAt == Some(now)
    {
      if crop.None? || crop.value.status == CropReady || crop.value.status == CropHarvested {
        return false;
      }
      crop := Some(crop.value.(wateredAt := Some(now)));
      crop := Some(crop.value.(status := CropGrowing));
      state := Growing;
      return true;
    }

    /** harvest: a ready crop yields its reward and the plot is cleared at once. */
    method Harvest() returns (r: Option<HarvestReward>)
      requires Valid()
      modifies this
      ensures Valid()
      ensures r.Some? <==> IsReady(old(View()))
      ensures View() == HarvestStep(old(View()))
      ensures r.Some? ==> crop.None? && state == Empty
      ensures r.Some? ==> var t := old(crop).value.cropType;
        r.value == HarvestReward(t, cropConfig[t].xpReward, cropConfig[t].name)
    {
      if crop.None? || crop.value.status != CropReady {
        return None;
      }
      var config := cropConfig[crop.value.cropType];
      r := Some(HarvestReward(crop.value.cropType, config.xpReward, config.name));
      crop := None;
      state := Empty;
    }

    /** clear: the plot ends empty, whatever it held; the lock is left alone. */
    method Clear() returns (ok: bool)
      requires Valid()
      modifies this
      ensures Valid()
      ensures ok
      ensures View() == ClearStep(old(View()))
      ensures crop.None? && state == Empty && isLocked == old(isLocked)
    {
      crop := None;
      state := Empty;
      return true;
    }

    /** checkGrowth: a growing crop whose time is due becomes ready. */
    method CheckGrowth(now: int) returns (ripened: bool)
      requires Valid()
      modifies this
      ensures Valid()
      ensures ripened <==> Ripens(old(View()), now)
      ensures View() == CheckGrowthStep(old(View()), now)
    {
      if crop.None? || crop.value.status != CropGrowing {
        return false;
      }
      if now >= crop.value.readyAt {
        crop := Some(crop.value.(status := CropReady));
        state := Ready;
        return true;
      }
      return false;
    }

    /** getPlotData: the saved form of the plot, which restores onto any plot with the same lock. */
    function GetPlotData(): (r: PlotData)
      reads this
      ensures r.index == index
      ensures Valid() ==> forall v: PlotView | v.isLocked == isLocked :: RestoreStep(v, r) == View()
    {
      DataOf(View(), index)
    }

    /** restoreFromData: adopt the saved crop and state, or clear the plot when there is no crop. */
    method RestoreFromData(data: PlotData)
      requires Valid()
      requires data.crop.Some? ==> data.crop.value.cropType in cropConfig
      modifies this
      ensures Valid()
      ensures View() == RestoreStep(old(View()), data)
    {
      if data.crop.None? {
        var _ := Clear();
        return;
      }
      crop := data.crop;
      state := data.state;
    }
  }
}
