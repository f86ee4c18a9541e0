/**
 * The browser game's crop catalog: a dictionary from crop id to a crop definition, kept as a
 * list of entries with new ids appended (the order of non-numeric ids in a JavaScript object),
 * with level filtering, field validation, custom additions, removal and an
 * all-or-nothing bulk import. Definitions are JavaScript objects whose fields may be
 * missing, so every field is an Option.
 */
module CropManager {
  import opened Wrappers
  import opened Text

  datatype CropData = CropData(
    id: Option<string>, name: Option<string>, icon: Option<string>,
    plantedIcon: Option<string>, growingIcon: Option<string>, readyIcon: Option<string>,
    description: Option<string>,
    seedCost: Option<int>, sellPrice: Option<int>, xpReward: Option<int>, growthTime: Option<int>,
    waterNeeded: Option<bool>, rarity: Option<string>, unlockLevel: Option<int>)

  /** One key/value pair of the catalog object; entries are kept in the order their ids were first added. */
  datatype Entry = Entry(key: string, data: CropData)

  const Seedling: string := "\U{1F331}"
  const Herb: string := "\U{1F33F}"

  /** A built-in definition: both intermediate icons are the seedling and herb, the ready icon is the crop's own. */
  function Builtin(id: string, name: string, icon: string, description: string, seedCost: int, sellPrice: int,
                   xpReward: int, growthTime: int, rarity: string, unlockLevel: int): Entry
  {
    Entry(id, CropData(Some(id), Some(name), Some(icon), Some(Seedling), Some(Herb), Some(icon), Some(description),
                       Some(seedCost), Some(sellPrice), Some(xpReward), Some(growthTime),
                       Some(true), Some(rarity), Some(unlockLevel)))
  }

  /** The catalog the manager starts with (growth times in milliseconds). */
  function Builtins(): seq<Entry>
  {
    [ Builtin("wheat", "Wheat", "\U{1F33E}", "A hearty grain crop perfect for beginners", 5, 12, 8, 15000, "common", 1),
      Builtin("tomatoes", "Tomatoes", "\U{1F345}", "Juicy red tomatoes that sell well at market", 8, 18, 10, 12000, "common", 1),
      Builtin("carrots", "Carrots", "\U{1F955}", "Crunchy orange vegetables rich in vitamins", 6, 14, 8, 9000, "common", 1),
      Builtin("corn", "Corn", "\U{1F33D}", "Golden corn with excellent profit margins", 12, 25, 15, 18000, "uncommon", 3),
      Builtin("strawberries", "Strawberries", "\U{1F353}", "Sweet berries that command premium prices", 15, 30, 12, 15000, "uncommon", 2),
      Builtin("lettuce", "Lettuce", "\U{1F96C}", "Fast-growing leafy greens for quick profits", 3, 8, 6, 6000, "common", 1),
      Builtin("pumpkins", "Pumpkins", "\U{1F383}", "Large orange gourds with seasonal demand", 20, 45, 20, 24000, "rare", 5),
      Builtin("sunflowers", "Sunflowers", "\U{1F33B}", "Beautiful flowers that brighten any farm", 10, 22, 14, 21000, "uncommon", 4) ]
  }

  /** The built-in catalog has distinct keys. */
  lemma BuiltinsDistinct()
    ensures KeysDistinct(Builtins())
  {
    var b := Builtins();
    var keys := seq(|b|, i requires 0 <= i < |b| => b[i].key);
    assert keys == ["wheat", "tomatoes", "carrots", "corn", "strawberries", "lettuce", "pumpkins", "sunflowers"];
  }

  /** Any built-in entry with non-negative amounts and a positive growth time is valid. */
  lemma BuiltinOk(id: string, name: string, icon: string, description: string, seedCost: int, sellPrice: int,
                  xpReward: int, growthTime: int, rarity: string, unlockLevel: int)
    requires seedCost >= 0 && sellPrice >= 0 && xpReward >= 0 && growthTime > 0
    ensures EntryOk(Builtin(id, name, icon, description, seedCost, sellPrice, xpReward, growthTime, rarity, unlockLevel))
  {
    var e := Builtin(id, name, icon, description, seedCost, sellPrice, xpReward, growthTime, rarity, unlockLevel);
    assert WithKey(e) == e.data;
  }

  /** Every built-in entry is valid and sells for more than its seed costs. */
  lemma BuiltinsStored()
    ensures Stored(Builtins())
    ensures forall i | 0 <= i < |Builtins()| :: Builtins()[i].data.sellPrice.value > Builtins()[i].data.seedCost.value
  {
    var b := Builtins();
    forall i | 0 <= i < |b|
      ensures EntryOk(b[i])
    {
      var e := b[i];
      BuiltinOk(e.key, e.data.name.value, e.data.icon.value, e.data.description.value, e.data.seedCost.value,
                e.data.sellPrice.value, e.data.xpReward.value, e.data.growthTime.value, e.data.rarity.value,
                e.data.unlockLevel.value);
      assert e == Builtin(e.key, e.data.name.value, e.data.icon.value, e.data.description.value, e.data.seedCost.value,
                e.data.sellPrice.value, e.data.xpReward.value, e.data.growthTime.value, e.data.rarity.value,
                e.data.unlockLevel.value);
    }
  }

  // ---------------------------------------------------------------------------
  // The ordered dictionary
  // ---------------------------------------------------------------------------

  predicate KeysDistinct(es: seq<Entry>)
  {
    forall i, j | 0 <= i < j < |es| :: es[i].key != es[j].key
  }

  /** `cropDefinitions[key] || null` (a definition object is always truthy). */
  function Lookup(es: seq<Entry>, key: string): (r: Option<CropData>)
    ensures r.Some? ==> Entry(key, r.value) in es
    ensures r.None? <==> forall i | 0 <= i < |es| :: es[i].key != key
  {
    if es == [] then None
    else if es[0].key == key then Some(es[0].data)
    else Lookup(es[1..], key)
  }

  /** With distinct keys, the stored pair is exactly what a lookup finds. */
  lemma {:induction false} LookupExact(es: seq<Entry>, key: string, d: CropData)
    requires KeysDistinct(es)
    ensures Lookup(es, key) == Some(d) <==> Entry(key, d) in es
  {
    if es != [] && es[0].key != key {
      assert KeysDistinct(es[1..]);
      LookupExact(es[1..], key, d);
    }
  }

  /** Assignment `defs[key] = d`: an existing key keeps its place, a new one is appended. */
  function Put(es: seq<Entry>, key: string, d: CropData): (r: seq<Entry>)
    ensures Lookup(r, key) == Some(d)
    ensures Lookup(es, key).None? ==> r == es + [Entry(key, d)]
    ensures Lookup(es, key).Some? ==> |r| == |es|
  {
    if es == [] then [Entry(key, d)]
    else if es[0].key == key then [Entry(key, d)] + es[1..]
    else [es[0]] + Put(es[1..], key, d)
  }

  /** Storing under one key leaves every other key's lookup as it was. */
  lemma {:induction false} PutKeepsOthers(es: seq<Entry>, key: string, d: CropData, k: string)
    requires k != key
    ensures Lookup(Put(es, key, d), k) == Lookup(es, k)
  {
    if es != [] && es[0].key != key {
      PutKeepsOthers(es[1..], key, d, k);
    }
  }

  /** Storing keeps keys distinct. */
  lemma {:induction false} PutKeepsDistinct(es: seq<Entry>, key: string, d: CropData)
    requires KeysDistinct(es)
    ensures KeysDistinct(Put(es, key, d))
  {
    if es != [] && es[0].key != key {
      assert KeysDistinct(es[1..]);
      PutKeepsDistinct(es[1..], key, d);
      var rest := Put(es[1..], key, d);
      assert Put(es, key, d) == [es[0]] + rest;
      forall i | 0 <= i < |rest|
        ensures rest[i].key != es[0].key
      {
        PutKeysFrom(es[1..], key, d, i);
      }
    }
  }

  /** Every key after storing was already a key, or is the stored one. */
  lemma {:induction false} PutKeysFrom(es: seq<Entry>, key: string, d: CropData, i: nat)
    requires i < |Put(es, key, d)|
    ensures Put(es, key, d)[i] == Entry(key, d) || exists j | 0 <= j < |es| :: es[j] == Put(es, key, d)[i]
  {
    if es != [] && es[0].key != key && i > 0 {
      PutKeysFrom(es[1..], key, d, i - 1);
      var e := Put(es, key, d)[i];
      if e != Entry(key, d) {
        var j :| 0 <= j < |es[1..]| && es[1..][j] == e;
        assert es[j + 1] == e;
      }
    } else if es != [] && es[0].key == key && i > 0 {
      assert es[i] == Put(es, key, d)[i];
    }
  }

  /** Storing a valid pair keeps every pair valid. */
  lemma PutKeepsStored(es: seq<Entry>, key: string, d: CropData)
    requires Stored(es)
    requires EntryOk(Entry(key, d))
    ensures Stored(Put(es, key, d))
  {
    var r := Put(es, key, d);
    forall i | 0 <= i < |r|
      ensures EntryOk(r[i])
    {
      PutKeysFrom(es, key, d, i);
    }
  }

  /** `delete defs[key]`: every other pair stays, in order. */
  function Remove(es: seq<Entry>, key: string): (r: seq<Entry>)
    ensures forall e | e in r :: e in es && e.key != key
    ensures forall e | e in es && e.key != key :: e in r
    ensures KeysDistinct(es) ==> KeysDistinct(r)
    ensures Lookup(r, key).None?
  {
    if es == [] then []
    else if es[0].key == key then Remove(es[1..], key)
    else [es[0]] + Remove(es[1..], key)
  }

  /** Removing a key leaves every other key's lookup as it was. */
  lemma {:induction false} RemoveKeepsOthers(es: seq<Entry>, key: string, k: string)
    requires k != key
    ensures Lookup(Remove(es, key), k) == Lookup(es, k)
  {
    if es != [] {
      RemoveKeepsOthers(es[1..], key, k);
    }
  }

  /** `Object.values(defs)`. */
  function Values(es: seq<Entry>): (vs: seq<CropData>)
    ensures |vs| == |es|
    ensures forall i | 0 <= i < |es| :: vs[i] == es[i].data
  {
    seq(|es|, i requires 0 <= i < |es| => es[i].data)
  }

  // ---------------------------------------------------------------------------
  // Level queries
  // ---------------------------------------------------------------------------

  /** `crop.unlockLevel <= level`; a missing unlock level compares false. */
  predicate Unlocked(d: CropData, level: int)
  {
    d.unlockLevel.Some? && d.unlockLevel.value <= level
  }

  /** `crop.unlockLevel > level`; a missing unlock level compares false here too. */
  predicate Locked(d: CropData, level: int)
  {
    d.unlockLevel.Some? && d.unlockLevel.value > level
  }

  /** getCropsForLevel: the definitions unlocked at the level, in catalog order. */
  function ForLevel(vs: seq<CropData>, level: int): (r: seq<CropData>)
    ensures forall d | d in r :: d in vs && Unlocked(d, level)
    ensures forall d | d in vs && Unlocked(d, level) :: d in r
    ensures |r| <= |vs|
  {
    if vs == [] then []
    else (if Unlocked(vs[0], level) then [vs[0]] else []) + ForLevel(vs[1..], level)
  }

  /** A higher level never loses a crop: the filtered list only grows. */
  lemma {:induction false} ForLevelGrows(vs: seq<CropData>, low: int, high: int)
    requires low <= high
    ensures |ForLevel(vs, low)| <= |ForLevel(vs, high)|
    ensures forall d | d in ForLevel(vs, low) :: d in ForLevel(vs, high)
  {
    if vs != [] {
      ForLevelGrows(vs[1..], low, high);
    }
  }

  /** getNextUnlockLevel: the least unlock level above the player's, if any crop is still locked. */
  function MinLocked(vs: seq<CropData>, level: int): (r: Option<int>)
    ensures r.None? <==> forall d | d in vs :: !Locked(d, level)
    ensures r.Some? ==> r.value > level
    ensures r.Some? ==> exists d | d in vs :: Locked(d, level) && d.unlockLevel.value == r.value
    ensures r.Some? ==> forall d | d in vs && Locked(d, level) :: r.value <= d.unlockLevel.value
  {
    if vs == [] then None
    else
      var rest := MinLocked(vs[1..], level);
      if !Locked(vs[0], level) then rest
      else if rest.None? || vs[0].unlockLevel.value < rest.value then Some(vs[0].unlockLevel.value)
      else rest
  }

  // ---------------------------------------------------------------------------
  // Validation
  // ---------------------------------------------------------------------------

  datatype Field = Id | Name | Icon | SeedCost | SellPrice | XpReward | GrowthTime

  /** The required fields, in the order they are checked. */
  const RequiredFields: seq<Field> := [Id, Name, Icon, SeedCost, SellPrice, XpReward, GrowthTime]

  /** `field in cropData`. */
  predicate Has(d: CropData, f: Field)
  {
    match f
    case Id => d.id.Some?
    case Name => d.name.Some?
    case Icon => d.icon.Some?
    case SeedCost => d.seedCost.Some?
    case SellPrice => d.sellPrice.Some?
    case XpReward => d.xpReward.Some?
    case GrowthTime => d.growthTime.Some?
  }

  predicate Complete(d: CropData)
  {
    d.id.Some? && d.name.Some? && d.icon.Some? && d.seedCost.Some? && d.sellPrice.Some?
    && d.xpReward.Some? && d.growthTime.Some?
  }

  datatype Validation = Valid | MissingField(field: Field) | NegativeAmount | NonPositiveGrowth

  /** The first field of `fs` that `d` lacks. */
  function FirstMissing(d: CropData, fs: seq<Field>): (r: Option<Field>)
    ensures r.None? <==> forall i | 0 <= i < |fs| :: Has(d, fs[i])
    ensures r.Some? ==> exists i | 0 <= i < |fs| :: fs[i] == r.value && !Has(d, fs[i])
                                                   && forall j | 0 <= j < i :: Has(d, fs[j])
  {
    if fs == [] then None
    else if !Has(d, fs[0]) then Some(fs[0])
    else
      var r := FirstMissing(d, fs[1..]);
      assert r.Some? ==> exists i | 1 <= i < |fs| :: fs[i] == r.value && !Has(d, fs[i])
                                                   && forall j | 0 <= j < i :: Has(d, fs[j]);
      r
  }

  /**
   * validateCropData: the checks run in order (a missing required field, reported by the
   * first one missing; a negative cost, price or reward; a growth time that is not
   * positive) and the data is valid only when none applies.
   */
  function Validate(d: CropData): (r: Validation)
    ensures r.MissingField? <==> !Complete(d)
    ensures r.MissingField? ==>
      (!Has(d, r.field)
       && exists i | 0 <= i < |RequiredFields| :: RequiredFields[i] == r.field
                                                  && forall j | 0 <= j < i :: Has(d, RequiredFields[j]))
    ensures r.NegativeAmount? <==>
      Complete(d) && (d.seedCost.value < 0 || d.sellPrice.value < 0 || d.xpReward.value < 0)
    ensures r.NonPositiveGrowth? <==>
      Complete(d) && d.seedCost.value >= 0 && d.sellPrice.value >= 0 && d.xpReward.value >= 0
      && d.growthTime.value <= 0
    ensures r.Valid? <==>
      Complete(d) && d.seedCost.value >= 0 && d.sellPrice.value >= 0 && d.xpReward.value >= 0
      && d.growthTime.value > 0
  {
    var missing := FirstMissing(d, RequiredFields);
    assert missing.None? <==> Complete(d) by {
      assert RequiredFields[0] == Id && RequiredFields[1] == Name && RequiredFields[2] == Icon;
      assert RequiredFields[3] == SeedCost && RequiredFields[4] == SellPrice;
      assert RequiredFields[5] == XpReward && RequiredFields[6] == GrowthTime;
    }
    if missing.Some? then MissingField(missing.value)
    else if d.seedCost.value < 0 || d.sellPrice.value < 0 || d.xpReward.value < 0 then NegativeAmount
    else if d.growthTime.value <= 0 then NonPositiveGrowth
    else Valid
  }

  /** validateCropData as the source runs it: a loop over the required fields, then the range checks. */
  method ValidateCropData(d: CropData) returns (r: Validation)
    ensures r == Validate(d)
  {
    var i := 0;
    while i < |RequiredFields|
      invariant 0 <= i <= |RequiredFields|
      invariant FirstMissing(d, RequiredFields[i..]) == FirstMissing(d, RequiredFields)
    {
      assert RequiredFields[i..][1..] == RequiredFields[i + 1..];
      if !Has(d, RequiredFields[i]) {
        return MissingField(RequiredFields[i]);
      }
      i := i + 1;
    }
    assert RequiredFields[i..] == [];
    assert Has(d, RequiredFields[3]) && Has(d, RequiredFields[4]);
    assert Has(d, RequiredFields[5]) && Has(d, RequiredFields[6]);
    if d.seedCost.value < 0 || d.sellPrice.value < 0 || d.xpReward.value < 0 {
      return NegativeAmount;
    }
    if d.growthTime.value <= 0 {
      return NonPositiveGrowth;
    }
    return Valid;
  }

  /** `{ id: key, ...data }`: the data's own id, when it has one, wins over the key. */
  function WithKey(e: Entry): CropData
  {
    e.data.(id := if e.data.id.Some? then e.data.id else Some(e.key))
  }

  /** A stored pair passes validation once its key stands in for a missing id. */
  predicate EntryOk(e: Entry)
  {
    Validate(WithKey(e)).Valid?
  }

  predicate Stored(es: seq<Entry>)
  {
    forall i | 0 <= i < |es| :: EntryOk(es[i])
  }

  // ---------------------------------------------------------------------------
  // Custom crops
  // ---------------------------------------------------------------------------

  function Or<T>(top: Option<T>, base: Option<T>): Option<T>
  {
    if top.Some? then top else base
  }

  /** `{ ...base, ...top }`: each field is the top's when present, else the base's. */
  function Overlay(base: CropData, top: CropData): CropData
  {
    CropData(Or(top.id, base.id), Or(top.name, base.name), Or(top.icon, base.icon),
             Or(top.plantedIcon, base.plantedIcon), Or(top.growingIcon, base.growingIcon),
             Or(top.readyIcon, base.readyIcon), Or(top.description, base.description),
             Or(top.seedCost, base.seedCost), Or(top.sellPrice, base.sellPrice),
             Or(top.xpReward, base.xpReward), Or(top.growthTime, base.growthTime),
             Or(top.waterNeeded, base.waterNeeded), Or(top.rarity, base.rarity),
             Or(top.unlockLevel, base.unlockLevel))
  }

  /** The defaults of a custom crop; the ready icon is its own icon. */
  function CustomDefaults(d: CropData): CropData
    requires d.name.Some?
  {
    CropData(None, None, None, Some(Seedling), Some(Herb), d.icon,
             Some("A custom " + ToLower(d.name.value) + " crop"),
             None, None, None, None, Some(true), Some("common"), Some(1))
  }

  /** The stored form of a valid custom crop: its own fields over the defaults. */
  function CustomCrop(d: CropData): (c: CropData)
    requires Validate(d).Valid?
    ensures Validate(c).Valid?
    ensures c.id == d.id && c.name == d.name && c.seedCost == d.seedCost && c.sellPrice == d.sellPrice
    ensures c.xpReward == d.xpReward && c.growthTime == d.growthTime
    ensures c.unlockLevel == (if d.unlockLevel.Some? then d.unlockLevel else Some(1))
    ensures c.rarity == (if d.rarity.Some? then d.rarity else Some("common"))
  {
    Overlay(CustomDefaults(d), d)
  }

  class CropManager {
    var catalog: seq<Entry>

    ghost predicate Valid()
      reads this
    {
      KeysDistinct(catalog) && Stored(catalog)
    }

    /** The manager starts with the eight built-in crops, each selling for more than its seed costs. */
    constructor()
      ensures Valid()
      ensures catalog == Builtins()
      ensures forall i | 0 <= i < |catalog| :: catalog[i].data.sellPrice.value > catalog[i].data.seedCost.value
    {
      BuiltinsDistinct();
      BuiltinsStored();
      catalog := Builtins();
    }

    function GetCropDefinition(cropId: string): (r: Option<CropData>)
      reads this
      requires Valid()
      ensures r.Some? <==> exists i | 0 <= i < |catalog| :: catalog[i].key == cropId
      ensures r.Some? ==> Entry(cropId, r.value) in catalog
    {
      Lookup(catalog, cropId)
    }

    function GetCropsForLevel(playerLevel: int): (r: seq<CropData>)
      reads this
      ensures forall d | d in r :: d in Values(catalog) && Unlocked(d, playerLevel)
      ensures forall d | d in Values(catalog) && Unlocked(d, playerLevel) :: d in r
    {
      ForLevel(Values(catalog), playerLevel)
    }

    /** calculateProfit: sale price less seed cost for a known crop, 0 for an unknown one. */
    function CalculateProfit(cropId: string): (r: int)
      reads this
      requires Valid()
      ensures Lookup(catalog, cropId).None? ==> r == 0
      ensures Lookup(catalog, cropId).Some? ==>
        var d := Lookup(catalog, cropId).value;
        d.sellPrice.Some? && d.seedCost.Some? && r == d.sellPrice.value - d.seedCost.value
    {
      var crop := Lookup(catalog, cropId);
      if crop.None? then 0
      else
        StoredHasPrices(catalog, cropId);
        crop.value.sellPrice.value - crop.value.seedCost.value
    }

    /** isUnlocked: the crop exists and its unlock level is at most the player's. */
    function IsUnlocked(cropId: string, playerLevel: int): (r: bool)
      reads this
      requires Valid()
      ensures r <==> Lookup(catalog, cropId).Some? && Lookup(catalog, cropId).value in GetCropsForLevel(playerLevel)
    {
      var crop := Lookup(catalog, cropId);
      crop.Some? && crop.value.unlockLevel.Some? && crop.value.unlockLevel.value <= playerLevel
    }

    function GetNextUnlockLevel(playerLevel: int): (r: Option<int>)
      reads this
      ensures r.None? <==> forall d | d in Values(catalog) :: !Locked(d, playerLevel)
      ensures r.Some? ==> r.value > playerLevel
                          && (exists d | d in Values(catalog) :: Locked(d, playerLevel) && d.unlockLevel.value == r.value)
                          && forall d | d in Values(catalog) && Locked(d, playerLevel) :: r.value <= d.unlockLevel.value
    {
      MinLocked(Values(catalog), playerLevel)
    }

    /**
     * addCustomCrop: invalid data is refused (the source throws) and the catalog is left
     * alone; valid data is stored under its id, its own fields over the defaults.
     */
    method AddCustomCrop(d: CropData) returns (r: Result<bool, Validation>)
      requires Valid()
      modifies this
      ensures Valid()
      ensures r.Failure? <==> !Validate(d).Valid?
      ensures r.Failure? ==> r.error == Validate(d) && catalog == old(catalog)
      ensures r.Success? ==> r.value && catalog == Put(old(catalog), d.id.value, CustomCrop(d))
      ensures r.Success? ==> Lookup(catalog, d.id.value) == Some(CustomCrop(d))
    {
      var validation := ValidateCropData(d);
      if !validation.Valid? {
        return Failure(validation);
      }
      var stored := CustomCrop(d);
      assert WithKey(Entry(d.id.value, stored)) == stored;
      PutKeepsStored(catalog, d.id.value, stored);
      PutKeepsDistinct(catalog, d.id.value, stored);
      catalog := Put(catalog, d.id.value, stored);
      return Success(true);
    }

    /** removeCrop: true exactly when the id was present; afterwards it is absent and the rest is untouched. */
    method RemoveCrop(cropId: string) returns (removed: bool)
      requires Valid()
      modifies this
      ensures Valid()
      ensures removed <==> Lookup(old(catalog), cropId).Some?
      ensures Lookup(catalog, cropId).None?
      ensures forall k | k != cropId :: Lookup(catalog, k) == Lookup(old(catalog), k)
      ensures !removed ==> catalog == old(catalog)
    {
      if Lookup(catalog, cropId).Some? {
        var before := catalog;
        catalog := Remove(catalog, cropId);
        forall k | k != cropId
          ensures Lookup(catalog, k) == Lookup(before, k)
        {
          RemoveKeepsOthers(before, cropId, k);
        }
        return true;
      }
      return false;
    }

    /**
     * importCropData on an already-parsed object: every pair is validated with its key as
     * the default id, and only when all pass does the object replace the catalog.
     */
    method ImportCropData(imported: seq<Entry>) returns (ok: bool)
      requires Valid()
      requires KeysDistinct(imported)
      modifies this
      ensures Valid()
      ensures ok <==> Stored(imported)
      ensures ok ==> catalog == imported
      ensures !ok ==> catalog == old(catalog)
    {
      var i := 0;
      while i < |imported|
        invariant 0 <= i <= |imported|
        invariant catalog == old(catalog)
        invariant forall j | 0 <= j < i :: EntryOk(imported[j])
      {
        var validation := ValidateCropData(WithKey(imported[i]));
        if !validation.Valid? {
          return false;
        }
        i := i + 1;
      }
      catalog := imported;
      return true;
    }
  }

  /** A stored definition always has a price and a seed cost. */
  lemma StoredHasPrices(es: seq<Entry>, key: string)
    requires Stored(es)
    requires Lookup(es, key).Some?
    ensures Lookup(es, key).value.sellPrice.Some? && Lookup(es, key).value.seedCost.Some?
  {
    var d := Lookup(es, key).value;
    var i :| 0 <= i < |es| && es[i] == Entry(key, d);
    assert Validate(WithKey(es[i])).Valid?;
  }
}
