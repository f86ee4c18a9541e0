/**
 * The player's resource ledger: a dictionary of named counters (money, xp, level, ...),
 * a newest-first transaction log capped at 100 entries, an XP threshold table for 50
 * levels, and level benefits applied once per level gained.
 */
module ResourceManager {
  import opened Wrappers

  /** Number of levels, and of entries in the threshold table. */
  const MaxLevel: nat := 50
  /** The transaction log keeps at most this many entries. */
  const MaxHistory: nat := 100

  // ---------------------------------------------------------------------------
  // XP thresholds and levels
  // ---------------------------------------------------------------------------

  function Pow(b: nat, e: nat): (r: nat)
    ensures b > 0 ==> r > 0
  {
    if e == 0 then 1 else b * Pow(b, e - 1)
  }

  /** The XP needed to pass from level k+1 to k+2: floor(50 * 1.2^k), in exact arithmetic. */
  function Step(k: nat): nat
  {
    (50 * Pow(6, k)) / Pow(5, k)
  }

  /** The cumulative XP at which level i+1 starts. */
  function Threshold(i: nat): nat
  {
    if i == 0 then 0 else Threshold(i - 1) + Step(i - 1)
  }

  /** The threshold table: entry i is the XP at which level i+1 starts. */
  function Thresholds(): seq<int>
  {
    seq(MaxLevel, i requires 0 <= i < MaxLevel => Threshold(i))
  }

  lemma {:induction false} PowGrows(k: nat)
    ensures Pow(6, k) >= Pow(5, k)
  {
    if k > 0 {
      PowGrows(k - 1);
      assert Pow(6, k) == 6 * Pow(6, k - 1);
      assert Pow(5, k) == 5 * Pow(5, k - 1);
    }
  }

  /** Every level costs at least 50 XP more than the previous one. */
  lemma StepAtLeast50(k: nat)
    ensures Step(k) >= 50
  {
    PowGrows(k);
    var p6, p5 := Pow(6, k), Pow(5, k);
    assert 50 * p6 >= 50 * p5;
    DivLowerBound(50 * p6, p5, 50);
  }

  lemma DivLowerBound(a: nat, b: nat, q: nat)
    requires b > 0 && a >= q * b
    ensures a / b >= q
  {
    var d := a / b;
    assert a == d * b + a % b;
    if d < q {
      MulLe(d + 1, q, b);
    }
  }

  lemma MulLe(x: nat, y: nat, z: nat)
    requires x <= y
    ensures x * z <= y * z
  {
  }

  lemma {:induction false} ThresholdIncreasing(i: nat, j: nat)
    requires i < j
    ensures Threshold(i) < Threshold(j)
  {
    StepAtLeast50(j - 1);
    if i < j - 1 {
      ThresholdIncreasing(i, j - 1);
    }
  }

  /** The table has 50 entries, starts at 0 and is strictly increasing. */
  lemma ThresholdsShape()
    ensures |Thresholds()| == MaxLevel && Thresholds()[0] == 0
    ensures forall i, j | 0 <= i < j < MaxLevel :: Thresholds()[i] < Thresholds()[j]
  {
    forall i, j | 0 <= i < j < MaxLevel
      ensures Thresholds()[i] < Thresholds()[j]
    {
      ThresholdIncreasing(i, j);
    }
  }

  /** calculateXPThresholds: build the table level by level. */
  method CalculateXPThresholds() returns (thresholds: seq<int>)
    ensures thresholds == Thresholds()
    ensures |thresholds| == MaxLevel && thresholds[0] == 0
    ensures forall i, j | 0 <= i < j < |thresholds| :: thresholds[i] < thresholds[j]
  {
    thresholds := [0];
    var level := 2;
    while level <= MaxLevel
      invariant 2 <= level <= MaxLevel + 1
      invariant |thresholds| == level - 1
      invariant forall i | 0 <= i < |thresholds| :: thresholds[i] == Threshold(i)
    {
      var xpNeeded := Step(level - 2);
      thresholds := thresholds + [thresholds[level - 2] + xpNeeded];
      level := level + 1;
    }
    ThresholdsShape();
  }

  /**
   * The scan of calculateLevelFromXP over the first n entries, from the top down: the
   * largest i+1 whose threshold is reached, or 1 when none is.
   */
  function LevelScan(t: seq<int>, xp: int, n: nat): (r: nat)
    requires n <= |t|
    ensures 1 <= r <= (if n == 0 then 1 else n)
    ensures forall j | r <= j < n :: xp < t[j]
    ensures r >= 2 ==> t[r - 1] <= xp
  {
    if n == 0 then 1
    else if xp >= t[n - 1] then n
    else LevelScan(t, xp, n - 1)
  }

  /** The level that a given amount of XP earns. */
  function LevelOf(xp: int): (r: nat)
    ensures 1 <= r <= MaxLevel
  {
    LevelScan(Thresholds(), xp, MaxLevel)
  }

  /**
   * The level of a non-negative XP amount is the one whose band holds it: level 1 at 0 XP,
   * and more XP never gives a lower level.
   */
  lemma LevelOfFacts(xp: int, more: int)
    requires 0 <= xp <= more
    ensures Thresholds()[LevelOf(xp) - 1] <= xp
    ensures LevelOf(xp) < MaxLevel ==> xp < Thresholds()[LevelOf(xp)]
    ensures LevelOf(0) == 1
    ensures LevelOf(xp) <= LevelOf(more)
  {
    ThresholdsShape();
    LevelOfZero();
    LevelOfMonotone(xp, more);
  }

  lemma LevelOfZero()
    ensures LevelOf(0) == 1
  {
    ThresholdsShape();
  }

  lemma LevelOfMonotone(xp: int, more: int)
    requires xp <= more
    ensures LevelOf(xp) <= LevelOf(more)
  {
    var t := Thresholds();
    var r, r2 := LevelOf(xp), LevelOf(more);
    assert r >= 2 ==> t[r - 1] <= xp;
    assert forall j | r2 <= j < MaxLevel :: more < t[j];
  }

  // ---------------------------------------------------------------------------
  // Level benefits
  // ---------------------------------------------------------------------------

  /** Multipliers are in percent: 110 means 1.1. */
  datatype Benefit =
    | CropUnlock(crops: seq<string>)
    | BonusMoney(amount: int)
    | EfficiencyBoost(multiplierPercent: nat)
    | HarvestBonus(multiplierPercent: nat)

  /** defineLevelBenefits: the benefit table, levels 2 to 20. */
  function LevelBenefit(level: int): (r: Option<Benefit>)
    ensures r.Some? ==> 2 <= level <= 20
    ensures r.Some? && r.value.BonusMoney? ==> r.value.amount > 0
    ensures 2 <= level <= 5 ==> r.Some? && r.value.CropUnlock? && |r.value.crops| == 1
  {
    if level == 2 then Some(CropUnlock(["strawberries"]))
    else if level == 3 then Some(CropUnlock(["corn"]))
    else if level == 4 then Some(CropUnlock(["sunflowers"]))
    else if level == 5 then Some(CropUnlock(["pumpkins"]))
    else if level == 6 then Some(BonusMoney(100))
    else if level == 8 then Some(EfficiencyBoost(110))
    else if level == 10 then Some(BonusMoney(200))
    else if level == 12 then Some(HarvestBonus(110))
    else if level == 15 then Some(BonusMoney(500))
    else if level == 20 then Some(EfficiencyBoost(120))
    else None
  }

  function BonusOf(level: int): nat
  {
    match LevelBenefit(level)
    case Some(BonusMoney(a)) => if a > 0 then a else 0
    case _ => 0
  }

  /** The money bonuses of levels lo..hi added up. */
  function BonusSum(lo: int, hi: int): nat
    decreases hi - lo
  {
    if lo > hi then 0 else BonusSum(lo, hi - 1) + BonusOf(hi)
  }

  // ---------------------------------------------------------------------------
  // Transactions
  // ---------------------------------------------------------------------------

  datatype TxKind = Add | Spend

  /** A level bonus is recorded with the source `level_<n>_bonus`. */
  datatype TxSource = Named(name: string) | LevelBonus(level: int)

  datatype Transaction = Transaction(kind: TxKind, resource: string, amount: int, source: TxSource,
                                     timestamp: int, balanceAfter: int)

  /** Cut the log to its newest 100 entries. */
  function Cap(h: seq<Transaction>): (r: seq<Transaction>)
    ensures |r| <= MaxHistory
    ensures |h| <= MaxHistory ==> r == h
    ensures forall i | 0 <= i < |r| :: r[i] == h[i]
  {
    if |h| <= MaxHistory then h else h[..MaxHistory]
  }

  /** recordTransaction as a function of the log: the newest entry goes first. */
  function Record(h: seq<Transaction>, t: Transaction): seq<Transaction>
  {
    Cap([t] + h)
  }

  /** Capping once or twice around a prepend gives the same log. */
  lemma CapPrepend(x: seq<Transaction>, h: seq<Transaction>)
    ensures Cap(x + Cap(h)) == Cap(x + h)
  {
    if |h| > MaxHistory {
      assert (x + Cap(h))[..MaxHistory] == (x + h)[..MaxHistory];
    }
  }

  function BonusTx(level: int, balanceAfter: int, now: int): Transaction
  {
    Transaction(Add, "money", BonusOf(level), LevelBonus(level), now, balanceAfter)
  }

  /** The bonus transactions of levels lo..hi, newest (highest level) first. */
  function BonusTxs(money: int, lo: int, hi: int, now: int): seq<Transaction>
    decreases hi - lo
  {
    if lo > hi then []
    else (if BonusOf(hi) > 0 then [BonusTx(hi, money + BonusSum(lo, hi), now)] else []) + BonusTxs(money, lo, hi - 1, now)
  }

  /** Money and log after applying the benefits of levels lo..hi in ascending order. */
  function BonusRun(money: int, h: seq<Transaction>, lo: int, hi: int, now: int): (seq<Transaction>, int)
    decreases hi - lo
  {
    if lo > hi then (h, money)
    else
      var (h1, m1) := BonusRun(money, h, lo, hi - 1, now);
      if BonusOf(hi) > 0 then (Record(h1, BonusTx(hi, m1 + BonusOf(hi), now)), m1 + BonusOf(hi))
      else (h1, m1)
  }

  /**
   * Applying levels lo..hi adds exactly their summed money bonuses, and logs one
   * transaction per bonus level, in ascending level order (so newest first is descending).
   */
  lemma {:induction false} BonusRunEffect(money: int, h: seq<Transaction>, lo: int, hi: int, now: int)
    ensures BonusRun(money, h, lo, hi, now).1 == money + BonusSum(lo, hi)
    ensures BonusTxs(money, lo, hi, now) == [] ==> BonusRun(money, h, lo, hi, now).0 == h
    ensures BonusTxs(money, lo, hi, now) != [] ==>
      BonusRun(money, h, lo, hi, now).0 == Cap(BonusTxs(money, lo, hi, now) + h)
    decreases hi - lo
  {
    if lo <= hi {
      BonusRunEffect(money, h, lo, hi - 1, now);
      var rest := BonusTxs(money, lo, hi - 1, now);
      if BonusOf(hi) > 0 {
        var t := BonusTx(hi, money + BonusSum(lo, hi), now);
        assert BonusTxs(money, lo, hi, now) == [t] + rest;
        if rest != [] {
          CapPrepend([t], rest + h);
          assert [t] + (rest + h) == ([t] + rest) + h;
        } else {
          assert [t] + rest + h == [t] + h;
        }
      }
    }
  }

  /** Bonus transactions come out with strictly decreasing levels: each level at most once. */
  lemma {:induction false} BonusTxsOrdered(money: int, lo: int, hi: int, now: int)
    ensures forall i | 0 <= i < |BonusTxs(money, lo, hi, now)| ::
      var t := BonusTxs(money, lo, hi, now)[i];
      t.source.LevelBonus? && lo <= t.source.level <= hi && BonusOf(t.source.level) > 0
    ensures forall i, j | 0 <= i < j < |BonusTxs(money, lo, hi, now)| ::
      BonusTxs(money, lo, hi, now)[i].source.level > BonusTxs(money, lo, hi, now)[j].source.level
    decreases hi - lo
  {
    if lo <= hi {
      BonusTxsOrdered(money, lo, hi - 1, now);
    }
  }

  // ---------------------------------------------------------------------------
  // The ledger
  // ---------------------------------------------------------------------------

  /** `resources[type] || 0`. */
  function Get(res: map<string, int>, key: string): int
  {
    if key in res then res[key] else 0
  }

  function Defaults(): map<string, int>
  {
    map["money" := 50, "xp" := 0, "level" := 1, "totalHarvests" := 0, "totalSpent" := 0, "totalEarned" := 0]
  }

  /** canAfford. */
  predicate CanAfford(res: map<string, int>, key: string, amount: int)
    ensures CanAfford(res, key, amount) <==> Get(res, key) - amount >= 0
    ensures key !in res ==> (CanAfford(res, key, amount) <==> amount <= 0)
  {
    Get(res, key) >= amount
  }

  /** checkLevelUp as a function of the resources and the log. */
  function LevelUp(res: map<string, int>, h: seq<Transaction>, now: int): (r: (map<string, int>, seq<Transaction>))
    requires "xp" in res && "level" in res && "money" in res
    ensures r.0.Keys == res.Keys && r.0["xp"] == res["xp"]
    ensures r.0["level"] == if LevelOf(res["xp"]) > res["level"] then LevelOf(res["xp"]) else res["level"]
    ensures res["level"] <= LevelOf(res["xp"]) ==> r.0["level"] == LevelOf(r.0["xp"])
  {
    var newLevel := LevelOf(res["xp"]);
    if newLevel > res["level"] then
      var (h1, money) := BonusRun(res["money"], h, res["level"] + 1, newLevel, now);
      (res["level" := newLevel]["money" := money], h1)
    else (res, h)
  }

  /** What addResource does once the amount is known to be positive. */
  function AddOp(res: map<string, int>, h: seq<Transaction>, key: string, amount: int, source: TxSource, now: int)
    : (map<string, int>, seq<Transaction>)
    requires "xp" in res && "level" in res && "money" in res
  {
    var balance := Get(res, key) + amount;
    var res1 := res[key := balance];
    var h1 := Record(h, Transaction(Add, key, amount, source, now, balance));
    if key == "xp" then LevelUp(res1, h1, now) else (res1, h1)
  }

  datatype XpToNext = MaxLevelReached | Needed(xp: int) | NotANumber
  datatype XpProgress = AtMaxLevel(current: int) | InLevel(current: int, max: int) | ProgressNaN

  class ResourceManager {
    var resources: map<string, int>
    var history: seq<Transaction>
    const xpThresholds: seq<int>

    ghost predicate Valid()
      reads this
    {
      && xpThresholds == Thresholds()
      && "money" in resources && "xp" in resources && "level" in resources
    }

    /** The defaults, overridden by every supplied initial value. */
    constructor(initial: map<string, int>)
      ensures Valid()
      ensures resources == Defaults() + initial && history == []
    {
      var thresholds := CalculateXPThresholds();
      resources := Defaults() + initial;
      history := [];
      xpThresholds := thresholds;
    }

    function GetResource(key: string): (r: int)
      reads this
      ensures key in resources ==> r == resources[key]
      ensures key !in resources ==> r == 0
    {
      Get(resources, key)
    }

    /** setResource: store the amount clamped at 0; no transaction is logged and the level is not recomputed. */
    method SetResource(key: string, amount: int) returns (r: int)
      requires Valid()
      modifies this
      ensures Valid()
      ensures r == (if amount > 0 then amount else 0)
      ensures resources == old(resources)[key := r] && history == old(history)
    {
      r := if amount > 0 then amount else 0;
      resources := resources[key := r];
    }

    method RecordTransaction(t: Transaction)
      modifies this
      ensures history == Record(old(history), t) && resources == old(resources)
      ensures |history| <= MaxHistory && history[0] == t
      ensures forall i | 1 <= i < |history| :: history[i] == old(history)[i - 1]
    {
      history := [t] + history;
      if |history| > MaxHistory {
        history := history[..MaxHistory];
      }
    }

    /**
     * addResource: a non-positive amount is refused; otherwise the balance rises by exactly
     * the amount, the addition is logged and adding XP runs the level-up check.
     */
    method AddResource(key: string, amount: int, source: TxSource, now: int) returns (ok: bool)
      requires Valid()
      modifies this
      decreases if key == "xp" then 3 else 0
      ensures Valid()
      ensures ok <==> amount > 0
      ensures !ok ==> resources == old(resources) && history == old(history)
      ensures ok ==> (resources, history) == AddOp(old(resources), old(history), key, amount, source, now)
      ensures ok && key != "xp" ==> resources == old(resources)[key := Get(old(resources), key) + amount]
      ensures ok && key == "xp" ==> resources["xp"] == old(resources)["xp"] + amount && resources["level"] >= old(resources)["level"]
      ensures ok && key == "xp" && old(resources)["level"] <= LevelOf(resources["xp"]) ==> resources["level"] == LevelOf(resources["xp"])
    {
      if amount <= 0 {
        return false;
      }
      var oldValue := Get(resources, key);
      resources := resources[key := oldValue + amount];
      RecordTransaction(Transaction(Add, key, amount, source, now, resources[key]));
      if key == "xp" {
        var _ := CheckLevelUp(now);
      }
      return true;
    }

    /**
     * spendResource: refused for a non-positive amount or one above the balance; otherwise
     * the balance drops by exactly the amount (so it never goes negative), the spending is
     * logged, and money spent is added to totalSpent.
     */
    method SpendResource(key: string, amount: int, purpose: TxSource, now: int) returns (ok: bool)
      requires Valid()
      modifies this
      ensures Valid()
      ensures ok <==> amount > 0 && CanAfford(old(resources), key, amount)
      ensures !ok ==> resources == old(resources) && history == old(history)
      ensures ok ==> var balance := Get(old(resources), key) - amount;
        && balance >= 0
        && history == Record(old(history), Transaction(Spend, key, amount, purpose, now, balance))
        && resources == if key == "money"
                        then old(resources)[key := balance]["totalSpent" := Get(old(resources)[key := balance], "totalSpent") + amount]
                        else old(resources)[key := balance]
    {
      if amount <= 0 {
        return false;
      }
      var currentAmount := Get(resources, key);
      if currentAmount < amount {
        return false;
      }
      resources := resources[key := currentAmount - amount];
      RecordTransaction(Transaction(Spend, key, amount, purpose, now, resources[key]));
      if key == "money" {
        resources := resources["totalSpent" := Get(resources, "totalSpent") + amount];
      }
      return true;
    }

    /**
     * checkLevelUp: when the XP earns a higher level, raise the level and apply the benefit
     * of every level passed, lowest first; returns the number of levels gained.
     */
    method CheckLevelUp(now: int) returns (gained: int)
      requires Valid()
      modifies this
      decreases 2
      ensures Valid()
      ensures (resources, history) == LevelUp(old(resources), old(history), now)
      ensures gained == if LevelOf(old(resources)["xp"]) > old(resources)["level"]
                        then LevelOf(old(resources)["xp"]) - old(resources)["level"] else 0
      ensures resources["level"] >= old(resources)["level"] && resources["xp"] == old(resources)["xp"]
      ensures old(resources)["level"] <= LevelOf(old(resources)["xp"]) ==> resources["level"] == LevelOf(resources["xp"])
      ensures resources["money"] == old(resources)["money"] + BonusSum(old(resources)["level"] + 1, resources["level"])
    {
      var currentLevel := resources["level"];
      var newLevel := CalculateLevelFromXP(resources["xp"]);
      if newLevel > currentLevel {
        var oldLevel := currentLevel;
        resources := resources["level" := newLevel];
        ghost var startMoney := resources["money"];
        ghost var startHistory := history;
        ghost var startResources := resources;
        var level := oldLevel + 1;
        while level <= newLevel
          invariant oldLevel + 1 <= level <= newLevel + 1
          invariant Valid()
          invariant (history, resources["money"]) == BonusRun(startMoney, startHistory, oldLevel + 1, level - 1, now)
          invariant resources == startResources["money" := resources["money"]]
        {
          var _ := ApplyLevelBenefit(level, now);
          level := level + 1;
        }
        assert startMoney == old(resources)["money"] && startHistory == old(history);
        assert (history, resources["money"]) == BonusRun(startMoney, startHistory, oldLevel + 1, newLevel, now);
        assert LevelUp(old(resources), old(history), now) == (startResources["money" := resources["money"]], history);
        BonusRunEffect(startMoney, startHistory, oldLevel + 1, newLevel, now);
        return newLevel - oldLevel;
      }
      BonusSumEmpty(currentLevel + 1, currentLevel);
      return 0;
    }

    /**
     * applyLevelBenefit: a money bonus is paid through addResource (and so logged); other
     * benefits are only returned.
     */
    method ApplyLevelBenefit(level: int, now: int) returns (benefit: Option<Benefit>)
      requires Valid()
      modifies this
      decreases 1
      ensures Valid()
      ensures benefit == LevelBenefit(level)
      ensures BonusOf(level) > 0 ==>
        && resources == old(resources)["money" := old(resources)["money"] + BonusOf(level)]
        && history == Record(old(history), BonusTx(level, resources["money"], now))
      ensures BonusOf(level) == 0 ==> resources == old(resources) && history == old(history)
    {
      benefit := LevelBenefit(level);
      if benefit.None? {
        return;
      }
      match benefit.value {
        case BonusMoney(amount) =>
          var _ := AddResource("money", amount, LevelBonus(level), now);
        case _ =>
      }
    }

    /** calculateLevelFromXP: scan the table from the top for the first threshold reached. */
    method CalculateLevelFromXP(xp: int) returns (level: nat)
      requires Valid()
      ensures level == LevelOf(xp)
    {
      var i := |xpThresholds| - 1;
      while i >= 0
        invariant -1 <= i < |xpThresholds|
        invariant LevelScan(xpThresholds, xp, i + 1) == LevelOf(xp)
      {
        if xp >= xpThresholds[i] {
          return i + 1;
        }
        i := i - 1;
      }
      return 1;
    }

    /** getXPForNextLevel: XP still missing to reach the next level's threshold. */
    method GetXPForNextLevel() returns (r: XpToNext)
      requires Valid()
      ensures resources["level"] >= MaxLevel <==> r.MaxLevelReached?
      ensures r.Needed? ==> 0 <= resources["level"] < MaxLevel
                            && r.xp == Thresholds()[resources["level"]] - resources["xp"]
      ensures r.NotANumber? <==> resources["level"] < 0
      ensures r.Needed? && resources["level"] == LevelOf(resources["xp"]) ==> r.xp > 0
    {
      var currentLevel := resources["level"];
      if currentLevel >= |xpThresholds| {
        return MaxLevelReached;
      }
      if currentLevel < 0 {
        return NotANumber;
      }
      r := Needed(xpThresholds[currentLevel] - resources["xp"]);
    }

    /** getXPProgress without the floating-point percentage: XP into the level, and the level's width. */
    method GetXPProgress() returns (r: XpProgress)
      requires Valid()
      ensures resources["level"] >= MaxLevel <==> r.AtMaxLevel?
      ensures r.AtMaxLevel? ==> r.current == resources["xp"]
      ensures r.ProgressNaN? <==> resources["level"] < 1
      ensures r.InLevel? ==> var l := resources["level"];
        1 <= l < MaxLevel && r.current == resources["xp"] - Thresholds()[l - 1]
        && r.max == Thresholds()[l] - Thresholds()[l - 1] && r.max > 0
    {
      var currentLevel := resources["level"];
      var currentXP := resources["xp"];
      if currentLevel >= |xpThresholds| {
        return AtMaxLevel(currentXP);
      }
      if currentLevel < 1 {
        return ProgressNaN;
      }
      ThresholdsShape();
      var levelStartXP := xpThresholds[currentLevel - 1];
      var levelEndXP := xpThresholds[currentLevel];
      r := InLevel(currentXP - levelStartXP, levelEndXP - levelStartXP);
    }

    /**
     * importData: merge the given resources over the current ones, replace the log as given,
     * then set the level to the one the XP earns.
     */
    method ImportData(data: Option<map<string, int>>, importedHistory: Option<seq<Transaction>>)
      requires Valid()
      modifies this
      ensures Valid()
      ensures var merged := if data.Some? then old(resources) + data.value else old(resources);
        resources == merged["level" := LevelOf(merged["xp"])]
      ensures resources["level"] == LevelOf(resources["xp"])
      ensures history == if importedHistory.Some? then importedHistory.value else old(history)
    {
      if data.Some? {
        resources := resources + data.value;
      }
      if importedHistory.Some? {
        history := importedHistory.value;
      }
      var calculatedLevel := CalculateLevelFromXP(resources["xp"]);
      if calculatedLevel != resources["level"] {
        resources := resources["level" := calculatedLevel];
      }
    }

    method Reset()
      requires Valid()
      modifies this
      ensures Valid()
      ensures resources == Defaults() && history == []
    {
      resources := Defaults();
      history := [];
    }
  }

  lemma BonusSumEmpty(lo: int, hi: int)
    requires lo > hi
    ensures BonusSum(lo, hi) == 0
  {
  }
}
