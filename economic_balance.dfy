/**
 * The integer-valued helpers of the browser game's economic analysis: tallies of crops by
 * label, the levels at which no crop unlocks, the most efficient affordable crop, a greedy
 * play-through simulation, and the profit-margin balance test. Efficiencies are compared by
 * cross-multiplication instead of floating-point division.
 */
module EconomicBalance {
  import opened Wrappers

  /** The crop fields the analysis reads. Times are in milliseconds. */
  datatype Crop = Crop(id: string, seedCost: int, sellPrice: int, growthTime: int,
                       unlockLevel: int, rarity: string, strategy: string)

  // ---------------------------------------------------------------------------
  // Distributions
  // ---------------------------------------------------------------------------

  /** How often each label occurs among the first labels. */
  function Tally(labels: seq<string>): map<string, nat>
  {
    if labels == [] then map[]
    else
      var d := Tally(labels[..|labels| - 1]);
      var x := labels[|labels| - 1];
      d[x := if x in d then d[x] + 1 else 1]
  }

  /** Each label is counted as often as it occurs. */
  lemma {:induction false} TallyCounts(labels: seq<string>)
    ensures forall x :: x in Tally(labels) <==> x in labels
    ensures forall x | x in Tally(labels) :: Tally(labels)[x] == multiset(labels)[x] >= 1
  {
    if labels != [] {
      var init := labels[..|labels| - 1];
      TallyCounts(init);
      assert labels == init + [labels[|labels| - 1]];
    }
  }

  /** The labels in order of first occurrence, each once. */
  function Firsts(labels: seq<string>): seq<string>
  {
    if labels == [] then []
    else
      var init := labels[..|labels| - 1];
      var x := labels[|labels| - 1];
      Firsts(init) + (if x in init then [] else [x])
  }

  lemma {:induction false} FirstsFacts(labels: seq<string>)
    ensures forall x :: x in Firsts(labels) <==> x in labels
    ensures forall i, j | 0 <= i < j < |Firsts(labels)| :: Firsts(labels)[i] != Firsts(labels)[j]
  {
    if labels != [] {
      FirstsFacts(labels[..|labels| - 1]);
      assert labels == labels[..|labels| - 1] + [labels[|labels| - 1]];
    }
  }

  function SumAt(d: map<string, nat>, ks: seq<string>): int
    requires forall k | k in ks :: k in d
  {
    if ks == [] then 0 else SumAt(d, ks[..|ks| - 1]) + d[ks[|ks| - 1]]
  }

  /** Raising one listed entry by one raises the sum by one. */
  lemma {:induction false} SumAtBump(d: map<string, nat>, ks: seq<string>, x: string)
    requires forall k | k in ks :: k in d
    requires x in d
    requires forall i, j | 0 <= i < j < |ks| :: ks[i] != ks[j]
    ensures SumAt(d[x := d[x] + 1], ks) == SumAt(d, ks) + (if x in ks then 1 else 0)
  {
    if ks != [] {
      var init := ks[..|ks| - 1];
      assert forall k | k in init :: k in ks;
      SumAtBump(d, init, x);
      if ks[|ks| - 1] == x {
        assert x !in init;
      }
    }
  }

  /** Adding a new entry for a listed label that was missing adds its count. */
  lemma {:induction false} SumAtFresh(d: map<string, nat>, ks: seq<string>, x: string, v: nat)
    requires forall k | k in ks :: k in d
    requires x !in ks
    ensures SumAt(d[x := v], ks) == SumAt(d, ks)
  {
    if ks != [] {
      var init := ks[..|ks| - 1];
      assert forall k | k in init :: k in ks;
      SumAtFresh(d, init, x, v);
    }
  }

  /** The tallies sum to the number of labels. */
  lemma {:induction false} TallySum(labels: seq<string>)
    ensures forall k | k in Firsts(labels) :: k in Tally(labels)
    ensures SumAt(Tally(labels), Firsts(labels)) == |labels|
  {
    TallyCounts(labels);
    FirstsFacts(labels);
    if labels != [] {
      var init := labels[..|labels| - 1];
      var x := labels[|labels| - 1];
      TallySum(init);
      TallyCounts(init);
      FirstsFacts(init);
      var d := Tally(init);
      var ks := Firsts(init);
      if x in d {
        SumAtBump(d, ks, x);
        assert SumAt(Tally(labels), ks) == |init| + 1;
        assert Firsts(labels) == ks;
      } else {
        SumAtFresh(d, ks, x, 1);
        assert Firsts(labels) == ks + [x];
        assert (ks + [x])[..|ks|] == ks;
      }
    }
  }

  /** A tally whose every count is positive and whose counts add up to the number of labels. */
  ghost predicate IsDistribution(d: map<string, nat>, labels: seq<string>)
  {
    (forall x :: x in d <==> x in labels)
    && (forall x | x in d :: d[x] == multiset(labels)[x] >= 1)
    && (forall k | k in Firsts(labels) :: k in d)
    && SumAt(d, Firsts(labels)) == |labels|
  }

  /** Count the labels one crop at a time. */
  method Distribution(labels: seq<string>) returns (d: map<string, nat>)
    ensures d == Tally(labels)
    ensures IsDistribution(d, labels)
  {
    d := map[];
    var i := 0;
    while i < |labels|
      invariant 0 <= i <= |labels|
      invariant d == Tally(labels[..i])
    {
      assert labels[..i + 1][..i] == labels[..i];
      var x := labels[i];
      d := d[x := if x in d then d[x] + 1 else 1];
      i := i + 1;
    }
    assert labels[..i] == labels;
    TallyCounts(labels);
    TallySum(labels);
  }

  function Strategies(crops: seq<Crop>): (r: seq<string>)
    ensures |r| == |crops| && forall i | 0 <= i < |crops| :: r[i] == crops[i].strategy
  {
    seq(|crops|, i requires 0 <= i < |crops| => crops[i].strategy)
  }

  function Rarities(crops: seq<Crop>): (r: seq<string>)
    ensures |r| == |crops| && forall i | 0 <= i < |crops| :: r[i] == crops[i].rarity
  {
    seq(|crops|, i requires 0 <= i < |crops| => crops[i].rarity)
  }

  /** getStrategyDistribution: crops counted by strategy. */
  method GetStrategyDistribution(crops: seq<Crop>) returns (d: map<string, nat>)
    ensures IsDistribution(d, Strategies(crops))
  {
    d := Distribution(Strategies(crops));
  }

  /** getRarityDistribution: crops counted by rarity. */
  method GetRarityDistribution(crops: seq<Crop>) returns (d: map<string, nat>)
    ensures IsDistribution(d, Rarities(crops))
  {
    d := Distribution(Rarities(crops));
  }

  // ---------------------------------------------------------------------------
  // Progression gaps
  // ---------------------------------------------------------------------------

  predicate Increasing(s: seq<int>)
  {
    forall i, j | 0 <= i < j < |s| :: s[i] < s[j]
  }

  /** Insert a level into an increasing list unless it is already there. */
  function InsertLevel(x: int, s: seq<int>): seq<int>
  {
    if s == [] || x < s[0] then [x] + s
    else if x == s[0] then s
    else [s[0]] + InsertLevel(x, s[1..])
  }

  lemma {:induction false} InsertLevelFacts(x: int, s: seq<int>)
    requires Increasing(s)
    ensures Increasing(InsertLevel(x, s))
    ensures forall y :: y in InsertLevel(x, s) <==> y == x || y in s
  {
    if s != [] && x > s[0] {
      var tail := s[1..];
      assert Increasing(tail) by {
        forall i, j | 0 <= i < j < |tail| ensures tail[i] < tail[j] {
          assert tail[i] == s[i + 1] && tail[j] == s[j + 1];
        }
      }
      InsertLevelFacts(x, tail);
      var rest := InsertLevel(x, tail);
      forall y | y in rest ensures s[0] < y {
        if y != x {
          var m :| 0 <= m < |tail| && tail[m] == y;
          assert s[m + 1] == y;
        }
      }
      var r := [s[0]] + rest;
      forall i, j | 0 <= i < j < |r| ensures r[i] < r[j] {
        if i == 0 {
          assert r[j] in rest;
        } else {
          assert r[i] == rest[i - 1] && r[j] == rest[j - 1];
        }
      }
      assert s == [s[0]] + tail;
    }
  }

  /** The distinct unlock levels in ascending order. */
  function UnlockLevels(crops: seq<Crop>): (r: seq<int>)
    ensures Increasing(r)
    ensures forall y :: y in r <==> exists i | 0 <= i < |crops| :: crops[i].unlockLevel == y
  {
    if crops == [] then []
    else
      var init := crops[..|crops| - 1];
      var prev := UnlockLevels(init);
      InsertLevelFacts(crops[|crops| - 1].unlockLevel, prev);
      assert forall i | 0 <= i < |init| :: init[i] == crops[i];
      InsertLevel(crops[|crops| - 1].unlockLevel, prev)
  }

  /** No value lies strictly between two neighbours of an increasing list. */
  lemma NothingBetween(u: seq<int>, i: int, g: int)
    requires Increasing(u) && 0 < i < |u| && u[i - 1] < g < u[i]
    ensures g !in u
  {
    forall k | 0 <= k < |u| ensures u[k] != g {
      if k < i - 1 {
        assert u[k] < u[i - 1];
      } else if k > i {
        assert u[i] < u[k];
      }
    }
  }

  /** A level no crop unlocks at, strictly between the lowest and highest unlock levels. */
  predicate IsGap(crops: seq<Crop>, g: int)
  {
    var u := UnlockLevels(crops);
    |u| >= 2 && u[0] < g < u[|u| - 1] && g !in u
  }

  /** findProgressionGaps: walk neighbouring unlock levels and list every level skipped between them. */
  method FindProgressionGaps(crops: seq<Crop>) returns (gaps: seq<int>)
    ensures Increasing(gaps)
    ensures forall g :: g in gaps <==> IsGap(crops, g)
    ensures |UnlockLevels(crops)| <= 1 ==> gaps == []
    ensures var u := UnlockLevels(crops); u != [] ==> |gaps| == u[|u| - 1] - u[0] - (|u| - 1)
  {
    var u := UnlockLevels(crops);
    gaps := [];
    var i := 1;
    while i < |u|
      invariant u == [] ==> i == 1 && gaps == []
      invariant u != [] ==> 1 <= i <= |u|
      invariant u != [] ==> |gaps| == u[i - 1] - u[0] - (i - 1)
      invariant Increasing(gaps)
      invariant u != [] ==> forall k | 0 <= k < |gaps| :: u[0] < gaps[k] < u[i - 1]
      invariant u != [] ==> forall g :: g in gaps <==> u[0] < g < u[i - 1] && g !in u
    {
      var level := u[i - 1] + 1;
      while level < u[i]
        invariant u[i - 1] < level <= u[i]
        invariant |gaps| == level - u[0] - i
        invariant Increasing(gaps)
        invariant forall k | 0 <= k < |gaps| :: u[0] < gaps[k] < level
        invariant forall g :: g in gaps <==> u[0] < g < level && g !in u
      {
        NothingBetween(u, i, level);
        gaps := gaps + [level];
        level := level + 1;
      }
      i := i + 1;
    }
  }

  // ---------------------------------------------------------------------------
  // Choosing a crop
  // ---------------------------------------------------------------------------

  /** Crops whose growth time is positive, as the catalog's validation guarantees. */
  predicate Growing(crops: seq<Crop>)
  {
    forall i | 0 <= i < |crops| :: crops[i].growthTime > 0
  }

  /** Profit per time of `a` exceeds that of `b`, both growth times positive. */
  predicate MoreEfficient(a: Crop, b: Crop)
  {
    (a.sellPrice - a.seedCost) * b.growthTime > (b.sellPrice - b.seedCost) * a.growthTime
  }

  /** Efficiency compared by cross-multiplication is a strict order on positive growth times. */
  lemma MoreEfficientTransitive(a: Crop, b: Crop, c: Crop)
    requires a.growthTime > 0 && b.growthTime > 0 && c.growthTime > 0
    requires MoreEfficient(a, b) && MoreEfficient(b, c)
    ensures MoreEfficient(a, c)
  {
    var pa, pb, pc := a.sellPrice - a.seedCost, b.sellPrice - b.seedCost, c.sellPrice - c.seedCost;
    var ga, gb, gc := a.growthTime, b.growthTime, c.growthTime;
    assert pa * gb * gc > pb * ga * gc by {
      assert pa * gb > pb * ga;
      MulPos(pa * gb - pb * ga, gc);
    }
    assert pb * gc * ga > pc * gb * ga by {
      assert pb * gc > pc * gb;
      MulPos(pb * gc - pc * gb, ga);
    }
    assert (pa * gc - pc * ga) * gb > 0;
    if pa * gc - pc * ga <= 0 {
      MulNonPos(pa * gc - pc * ga, gb);
    }
  }

  lemma MulPos(x: int, y: int)
    requires x > 0 && y > 0
    ensures x * y > 0
  {
  }

  lemma MulNonPos(x: int, y: int)
    requires x <= 0 && y > 0
    ensures x * y <= 0
  {
  }

  /** The reduce over affordable crops: keep the best so far, replaced only by a strictly better one. */
  function BestOf(best: Crop, crops: seq<Crop>): Crop
  {
    if crops == [] then best
    else
      var b := BestOf(best, crops[..|crops| - 1]);
      var c := crops[|crops| - 1];
      if MoreEfficient(c, b) then c else b
  }

  /** The reduce returns its starting crop or one of the crops. */
  lemma {:induction false} BestOfIn(best: Crop, crops: seq<Crop>)
    ensures BestOf(best, crops) == best || BestOf(best, crops) in crops
  {
    if crops != [] {
      BestOfIn(best, crops[..|crops| - 1]);
    }
  }

  lemma {:induction false} BestOfFacts(best: Crop, crops: seq<Crop>)
    requires best.growthTime > 0 && Growing(crops)
    ensures BestOf(best, crops) == best || BestOf(best, crops) in crops
    ensures !MoreEfficient(best, BestOf(best, crops)) && BestOf(best, crops).growthTime > 0
    ensures forall i | 0 <= i < |crops| :: !MoreEfficient(crops[i], BestOf(best, crops))
  {
    if crops != [] {
      var init := crops[..|crops| - 1];
      assert forall i | 0 <= i < |init| :: init[i] == crops[i];
      BestOfFacts(best, init);
      var b := BestOf(best, init);
      var c := crops[|crops| - 1];
      if MoreEfficient(c, b) {
        forall i | 0 <= i < |crops| ensures !MoreEfficient(crops[i], c) {
          if i < |init| && MoreEfficient(crops[i], c) {
            MoreEfficientTransitive(crops[i], c, b);
          }
        }
        if MoreEfficient(best, c) {
          MoreEfficientTransitive(best, c, b);
        }
      }
    }
  }

  /** A crop no more efficient than `b` is beaten by anything that beats `b`. */
  lemma BeatsAtMost(x: Crop, b: Crop, c: Crop)
    requires x.growthTime > 0 && b.growthTime > 0 && c.growthTime > 0
    requires !MoreEfficient(x, b) && MoreEfficient(c, b)
    ensures MoreEfficient(c, x)
  {
    var px, pb, pc := x.sellPrice - x.seedCost, b.sellPrice - b.seedCost, c.sellPrice - c.seedCost;
    var gx, gb, gc := x.growthTime, b.growthTime, c.growthTime;
    assert pb * gx * gc >= px * gb * gc by {
      if pb * gx - px * gb > 0 {
        MulPos(pb * gx - px * gb, gc);
      }
    }
    assert pc * gb * gx > pb * gc * gx by {
      MulPos(pc * gb - pb * gc, gx);
    }
    assert (pc * gx - px * gc) * gb > 0;
    if pc * gx - px * gc <= 0 {
      MulNonPos(pc * gx - px * gc, gb);
    }
  }

  /** Where the reduce's result sits in `[best] + crops`: the position of its last replacement. */
  function BestAt(best: Crop, crops: seq<Crop>): (j: nat)
    ensures j <= |crops|
  {
    if crops == [] then 0
    else if MoreEfficient(crops[|crops| - 1], BestOf(best, crops[..|crops| - 1])) then |crops|
    else BestAt(best, crops[..|crops| - 1])
  }

  /**
   * The reduce keeps the first of equally efficient crops: its result stands at position
   * BestAt, and every crop before that position is strictly less efficient.
   */
  lemma {:induction false} BestOfFirst(best: Crop, crops: seq<Crop>)
    requires best.growthTime > 0 && Growing(crops)
    ensures ([best] + crops)[BestAt(best, crops)] == BestOf(best, crops)
    ensures forall i | 0 <= i < BestAt(best, crops) :: MoreEfficient(BestOf(best, crops), ([best] + crops)[i])
  {
    if crops != [] {
      var init := crops[..|crops| - 1];
      assert forall i | 0 <= i < |init| :: init[i] == crops[i];
      BestOfFirst(best, init);
      BestOfFacts(best, init);
      var b := BestOf(best, init);
      var c := crops[|crops| - 1];
      var s, s0 := [best] + crops, [best] + init;
      assert forall i | 0 <= i < |s0| :: s[i] == s0[i];
      if MoreEfficient(c, b) {
        var j0 := BestAt(best, init);
        forall i | 0 <= i < |crops| ensures MoreEfficient(c, s[i]) {
          if i == 0 {
            BeatsAtMost(best, b, c);
          } else if i < j0 {
            MoreEfficientTransitive(c, b, s[i]);
          } else if i == j0 {
          } else {
            assert s[i] == init[i - 1];
            BeatsAtMost(s[i], b, c);
          }
        }
      }
    }
  }

  /** The crops costing at most the money, in order. */
  function Affordable(crops: seq<Crop>, money: int): seq<Crop>
  {
    if crops == [] then []
    else
      var c := crops[|crops| - 1];
      Affordable(crops[..|crops| - 1], money) + (if c.seedCost <= money then [c] else [])
  }

  lemma {:induction false} AffordableMembers(crops: seq<Crop>, money: int)
    ensures forall c :: c in Affordable(crops, money) <==> c in crops && c.seedCost <= money
  {
    if crops != [] {
      AffordableMembers(crops[..|crops| - 1], money);
      assert crops == crops[..|crops| - 1] + [crops[|crops| - 1]];
    }
  }

  /** findOptimalCrop: none when nothing is affordable, else the first affordable crop with the best profit per time. */
  function FindOptimalCrop(crops: seq<Crop>, money: int): (r: Option<Crop>)
    ensures r.None? <==> forall i | 0 <= i < |crops| :: crops[i].seedCost > money
    ensures r.Some? ==> r.value in crops && r.value.seedCost <= money
  {
    var a := Affordable(crops, money);
    AffordableMembers(crops, money);
    if a == [] then
      assert forall i | 0 <= i < |crops| :: crops[i] in crops;
      None
    else
      BestOfIn(a[0], a[1..]);
      assert a == [a[0]] + a[1..];
      Some(BestOf(a[0], a[1..]))
  }

  /** No affordable crop is strictly more profitable per time than the one findOptimalCrop picks. */
  lemma FindOptimalCropIsBest(crops: seq<Crop>, money: int)
    requires Growing(crops) && FindOptimalCrop(crops, money).Some?
    ensures forall i | 0 <= i < |crops| && crops[i].seedCost <= money ::
      !MoreEfficient(crops[i], FindOptimalCrop(crops, money).value)
  {
    var a := Affordable(crops, money);
    AffordableMembers(crops, money);
    assert forall i | 0 <= i < |a| :: a[i] in crops;
    BestOfFacts(a[0], a[1..]);
    assert a == [a[0]] + a[1..];
    assert forall i | 0 <= i < |crops| && crops[i].seedCost <= money :: crops[i] in a;
  }

  /**
   * Ties go to the earliest: in the list of affordable crops, every crop before the one
   * findOptimalCrop picks is strictly less profitable per time.
   */
  lemma FindOptimalCropFirst(crops: seq<Crop>, money: int)
    requires Growing(crops) && FindOptimalCrop(crops, money).Some?
    ensures exists j | 0 <= j < |Affordable(crops, money)| ::
      Affordable(crops, money)[j] == FindOptimalCrop(crops, money).value && BeatsEarlier(Affordable(crops, money), j)
  {
    var a := Affordable(crops, money);
    AffordableGrowing(crops, money);
    var rest := a[1..];
    assert Growing(rest) by {
      forall i | 0 <= i < |rest| ensures rest[i].growthTime > 0 {
        assert rest[i] == a[i + 1];
      }
    }
    BestOfFirst(a[0], rest);
    assert a == [a[0]] + rest;
    var j := BestAt(a[0], rest);
    assert FindOptimalCrop(crops, money) == Some(BestOf(a[0], rest));
    assert a[j] == FindOptimalCrop(crops, money).value && BeatsEarlier(a, j);
    assert 0 <= j < |a|;
  }

  /** The crop at position j is strictly more profitable per time than every crop before it. */
  predicate BeatsEarlier(a: seq<Crop>, j: int)
    requires 0 <= j < |a|
  {
    forall i | 0 <= i < j :: MoreEfficient(a[j], a[i])
  }

  lemma {:induction false} AffordableGrowing(crops: seq<Crop>, money: int)
    requires Growing(crops)
    ensures Growing(Affordable(crops, money))
  {
    if crops != [] {
      var init := crops[..|crops| - 1];
      assert forall i | 0 <= i < |init| :: init[i] == crops[i];
      AffordableGrowing(init, money);
    }
  }

  // ---------------------------------------------------------------------------
  // Simulation
  // ---------------------------------------------------------------------------

  /** getCropsForLevel: the catalog's crops unlocked by the level, in catalog order. */
  function CropsForLevel(catalog: seq<Crop>, level: int): seq<Crop>
  {
    if catalog == [] then []
    else
      var c := catalog[|catalog| - 1];
      CropsForLevel(catalog[..|catalog| - 1], level) + (if c.unlockLevel <= level then [c] else [])
  }

  /** The crops for a level are exactly the catalog's crops unlocked by then. */
  lemma {:induction false} CropsForLevelMembers(catalog: seq<Crop>, level: int)
    ensures forall c :: c in CropsForLevel(catalog, level) <==> c in catalog && c.unlockLevel <= level
  {
    if catalog != [] {
      CropsForLevelMembers(catalog[..|catalog| - 1], level);
      assert catalog == catalog[..|catalog| - 1] + [catalog[|catalog| - 1]];
    }
  }

  datatype LevelRecord = LevelRecord(level: int, crop: string, cycles: int, profit: int, time: int, moneyAfter: int)

  datatype Simulation = Simulation(startingMoney: int, levels: seq<LevelRecord>, totalTime: int, finalMoney: int)

  /** The running state of the play-through: records so far, total growing time, money. */
  datatype Progress = Progress(records: seq<LevelRecord>, totalTime: int, money: int)

  /** Crops with positive seed costs and growth times. */
  predicate Priced(catalog: seq<Crop>)
  {
    forall i | 0 <= i < |catalog| :: catalog[i].seedCost > 0 && catalog[i].growthTime > 0
  }

  /** The best affordable crop of a level, if any. */
  function BestForLevel(catalog: seq<Crop>, level: int, money: int): (r: Option<Crop>)
    requires Priced(catalog)
    ensures r.Some? ==> r.value in catalog && r.value.seedCost > 0 && r.value.seedCost <= money
  {
    var crops := CropsForLevel(catalog, level);
    CropsForLevelMembers(catalog, level);
    assert forall i | 0 <= i < |crops| :: crops[i] in catalog;
    assert forall c | c in catalog :: c.seedCost > 0 && c.growthTime > 0;
    FindOptimalCrop(crops, money)
  }

  /** A policy naming the crop to plant at a level, given the money at hand. */
  type Chooser = (int, int) -> Option<Crop>

  /** The policy only picks crops with positive seed costs that the money pays for. */
  ghost predicate Affords(choose: Chooser)
  {
    forall level, money :: choose(level, money).Some? ==>
      0 < choose(level, money).value.seedCost <= money
  }

  /** The policy of simulatePlayerProgression: the best affordable crop unlocked by the level. */
  function Optimal(catalog: seq<Crop>): (choose: Chooser)
    requires Priced(catalog)
    ensures forall level, money :: choose(level, money) == BestForLevel(catalog, level, money)
    ensures Affords(choose)
  {
    (level, money) => BestForLevel(catalog, level, money)
  }

  /** Planting crop `c` at a level: as many cycles as the money buys, their profit added to the money. */
  function Played(prev: Progress, level: int, c: Crop): Progress
    requires c.seedCost > 0
  {
    var cycles := prev.money / c.seedCost;
    var profit := cycles * (c.sellPrice - c.seedCost);
    Progress(prev.records + [LevelRecord(level, c.id, cycles, profit, c.growthTime, prev.money + profit)],
             prev.totalTime + c.growthTime, prev.money + profit)
  }

  /** One level of the play-through: plant the chosen crop as often as the money allows, if there is one. */
  function Step(choose: Chooser, level: int, prev: Progress): Progress
    requires Affords(choose)
  {
    match choose(level, prev.money)
    case None => prev
    case Some(c) => Played(prev, level, c)
  }

  /** The play-through over levels 1..n. */
  function Simulate(choose: Chooser, start: int, n: nat): Progress
    requires Affords(choose)
  {
    if n == 0 then Progress([], 0, start) else Step(choose, n, Simulate(choose, start, n - 1))
  }

  /** The money a record started from: the previous record's result, or the starting money. */
  function MoneyBefore(recs: seq<LevelRecord>, start: int, i: nat): int
    requires i < |recs|
  {
    if i == 0 then start else recs[i - 1].moneyAfter
  }

  /**
   * A record of the play-through: the crop chosen at its level with the money before it, as
   * many cycles as that money buys, their profit, and the money after.
   */
  predicate RecordOk(choose: Chooser, start: int, recs: seq<LevelRecord>, i: nat)
    requires i < |recs|
  {
    var before := MoneyBefore(recs, start, i);
    var best := choose(recs[i].level, before);
    && best.Some? && best.value.id == recs[i].crop && best.value.seedCost > 0
    && recs[i].cycles == before / best.value.seedCost
    && recs[i].profit == recs[i].cycles * (best.value.sellPrice - best.value.seedCost)
    && recs[i].moneyAfter == before + recs[i].profit
  }

  /** Every record follows from the money before it. */
  predicate AllRecordsOk(choose: Chooser, start: int, recs: seq<LevelRecord>)
  {
    forall i | 0 <= i < |recs| :: RecordOk(choose, start, recs, i)
  }

  /** The money is the last record's, or the starting money when there is no record. */
  predicate MoneyMatches(p: Progress, start: int)
  {
    p.money == if p.records == [] then start else p.records[|p.records| - 1].moneyAfter
  }

  /** The final money is the last record's, or the starting money when no level could be played. */
  lemma {:induction false} SimulateMoney(choose: Chooser, start: int, n: nat)
    requires Affords(choose)
    ensures MoneyMatches(Simulate(choose, start, n), start)
  {
    if n > 0 {
      SimulateMoney(choose, start, n - 1);
      var p := Simulate(choose, start, n - 1);
      match choose(n, p.money)
      case None =>
      case Some(c) =>
        assert Simulate(choose, start, n) == Played(p, n, c);
    }
  }

  /** Record levels lie in 1..n and strictly increase. */
  predicate LevelsUpTo(recs: seq<LevelRecord>, n: int)
  {
    && (forall i | 0 <= i < |recs| :: 1 <= recs[i].level <= n)
    && (forall i, j | 0 <= i < j < |recs| :: recs[i].level < recs[j].level)
  }

  /** Records are for levels 1..n, in increasing order. */
  lemma {:induction false} SimulateLevels(choose: Chooser, start: int, n: nat)
    requires Affords(choose)
    ensures LevelsUpTo(Simulate(choose, start, n).records, n)
  {
    if n > 0 {
      SimulateLevels(choose, start, n - 1);
      var p := Simulate(choose, start, n - 1);
      var prev := p.records;
      var recs := Simulate(choose, start, n).records;
      match choose(n, p.money)
      case None =>
      case Some(c) =>
        assert recs == prev + [Played(p, n, c).records[|prev|]];
        assert forall i | 0 <= i < |prev| :: recs[i] == prev[i];
    }
  }

  /** Extending the records keeps the earlier records' correctness. */
  lemma RecordOkPrefix(choose: Chooser, start: int, short: seq<LevelRecord>, long: seq<LevelRecord>, i: nat)
    requires i < |short| <= |long| && long[..|short|] == short
    ensures RecordOk(choose, start, long, i) == RecordOk(choose, start, short, i)
  {
    assert long[i] == short[i];
    if i > 0 {
      assert long[i - 1] == short[i - 1];
    }
  }

  /** Every record of the play-through follows from the money before it. */
  lemma {:induction false} SimulateRecords(choose: Chooser, start: int, n: nat)
    requires Affords(choose)
    ensures AllRecordsOk(choose, start, Simulate(choose, start, n).records)
  {
    if n > 0 {
      SimulateRecords(choose, start, n - 1);
      SimulateMoney(choose, start, n - 1);
      var p := Simulate(choose, start, n - 1);
      match choose(n, p.money)
      case None =>
      case Some(c) =>
        var recs := Played(p, n, c).records;
        assert Simulate(choose, start, n).records == recs;
        var last := |p.records|;
        assert recs[..last] == p.records;
        forall i | 0 <= i < |recs| ensures RecordOk(choose, start, recs, i) {
          if i < last {
            RecordOkPrefix(choose, start, p.records, recs, i);
          } else {
            assert MoneyBefore(recs, start, i) == p.money;
          }
        }
    }
  }

  lemma DivFacts(money: int, seed: int)
    requires seed > 0 && money >= 0
    ensures money / seed >= 0 && (money / seed) * seed <= money
  {
    assert money == (money / seed) * seed + money % seed;
  }

  lemma MulNonNeg(x: int, y: int)
    requires x >= 0 && y >= 0
    ensures x * y >= 0
  {
  }

  /** Planting buys no more seeds than the money pays for, so with a non-negative sale price money stays non-negative. */
  lemma PlayedSolvent(p: Progress, level: int, c: Crop)
    requires c.seedCost > 0 && c.sellPrice >= 0 && p.money >= 0
    ensures Played(p, level, c).money >= 0
  {
    var cycles := p.money / c.seedCost;
    DivFacts(p.money, c.seedCost);
    MulNonNeg(cycles, c.sellPrice);
    assert p.money + cycles * (c.sellPrice - c.seedCost) == (p.money - cycles * c.seedCost) + cycles * c.sellPrice;
  }

  /** The policy never picks a crop with a negative sale price. */
  ghost predicate NonNegativePrices(choose: Chooser)
  {
    forall level, money :: choose(level, money).Some? ==> choose(level, money).value.sellPrice >= 0
  }

  /** With non-negative sale prices and starting money, money never goes negative during the play-through. */
  lemma {:induction false} SimulateSolvent(choose: Chooser, start: int, n: nat)
    requires Affords(choose) && NonNegativePrices(choose) && start >= 0
    ensures Simulate(choose, start, n).money >= 0
  {
    if n > 0 {
      SimulateSolvent(choose, start, n - 1);
      var p := Simulate(choose, start, n - 1);
      match choose(n, p.money)
      case None =>
      case Some(c) =>
        PlayedSolvent(p, n, c);
    }
  }

  /** The loop of simulatePlayerProgression, for a given choice of crop per level and money. */
  method SimulateWith(choose: Chooser, startingMoney: int, levels: nat) returns (sim: Simulation)
    requires Affords(choose)
    ensures sim.startingMoney == startingMoney
    ensures Progress(sim.levels, sim.totalTime, sim.finalMoney) == Simulate(choose, startingMoney, levels)
  {
    var records: seq<LevelRecord> := [];
    var totalTime := 0;
    var money := startingMoney;
    var level := 1;
    while level <= levels
      invariant 1 <= level <= levels + 1
      invariant Progress(records, totalTime, money) == Simulate(choose, startingMoney, level - 1)
    {
      var best := choose(level, money);
      if best.Some? {
        var c := best.value;
        var cycles := money / c.seedCost;
        var profit := cycles * (c.sellPrice - c.seedCost);
        money := money + profit;
        totalTime := totalTime + c.growthTime;
        records := records + [LevelRecord(level, c.id, cycles, profit, c.growthTime, money)];
      }
      level := level + 1;
    }
    return Simulation(startingMoney, records, totalTime, money);
  }

  /**
   * simulatePlayerProgression: play levels 1..n, planting at each level the best affordable
   * crop among those the level unlocks.
   */
  method SimulatePlayerProgression(catalog: seq<Crop>, startingMoney: int, levels: nat) returns (sim: Simulation)
    requires Priced(catalog)
    ensures sim.startingMoney == startingMoney
    ensures Progress(sim.levels, sim.totalTime, sim.finalMoney) == Simulate(Optimal(catalog), startingMoney, levels)
  {
    sim := SimulateWith(Optimal(catalog), startingMoney, levels);
  }

  // ---------------------------------------------------------------------------
  // Balance
  // ---------------------------------------------------------------------------

  /** num/den >= p/q for a non-zero denominator and positive q, without division. */
  predicate RatioAtLeast(num: int, den: int, p: int, q: int)
    requires den != 0 && q > 0
  {
    if den > 0 then num * q >= p * den else num * q <= p * den
  }

  /** num/den <= p/q for a non-zero denominator and positive q, without division. */
  predicate RatioAtMost(num: int, den: int, p: int, q: int)
    requires den != 0 && q > 0
  {
    if den > 0 then num * q <= p * den else num * q >= p * den
  }

  /**
   * isBalanced: the profit margin (sell - seed) / seed lies between 20% and 200%. A zero
   * seed cost divides to an infinity or NaN, which fails one of the two bounds.
   */
  predicate IsBalanced(c: Crop)
    ensures c.seedCost == 0 ==> !IsBalanced(c)
    ensures c.seedCost > 0 ==>
      (IsBalanced(c) <==> 5 * (c.sellPrice - c.seedCost) >= c.seedCost && c.sellPrice - c.seedCost <= 2 * c.seedCost)
    ensures c.seedCost < 0 ==>
      (IsBalanced(c) <==> 5 * (c.sellPrice - c.seedCost) <= c.seedCost && c.sellPrice - c.seedCost >= 2 * c.seedCost)
  {
    c.seedCost != 0
    && RatioAtLeast(c.sellPrice - c.seedCost, c.seedCost, 1, 5)
    && RatioAtMost(c.sellPrice - c.seedCost, c.seedCost, 2, 1)
  }

  /** A balanced crop with a positive seed cost sells for more than it costs, at most three times the seed cost. */
  lemma BalancedIsProfitable(c: Crop)
    requires c.seedCost > 0 && IsBalanced(c)
    ensures c.seedCost < c.sellPrice <= 3 * c.seedCost
  {
  }
}
