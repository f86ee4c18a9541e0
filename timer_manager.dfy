/**
 * The browser game's timer registry: countdown, interval and stopwatch timers keyed by id,
 * advanced by the time elapsed between updates, with one-step catch-up for time spent
 * offline and an export/import pair. Times are integers in milliseconds; the clock is the
 * `now` parameter. Callbacks are not modelled.
 */
module TimerManager {
  import opened Wrappers

  /** The default countdown duration and interval length. */
  const DefaultPeriod: int := 1000

  datatype TimerKind = Countdown | Interval | Stopwatch

  /** The timer types `createTimer` accepts. */
  function KindOf(name: string): Option<TimerKind>
  {
    if name == "countdown" then Some(Countdown)
    else if name == "interval" then Some(Interval)
    else if name == "stopwatch" then Some(Stopwatch)
    else None
  }

  /**
   * A timer object. A field the object does not have is None (`remaining` is None for a
   * countdown restored from saved data until its next update); a missing tick count is 0.
   */
  datatype Timer = Timer(id: string, kind: TimerKind, createdAt: int, elapsed: int,
                         isActive: bool, isCompleted: bool, autoRemove: bool,
                         duration: Option<int>, remaining: Option<int>,
                         interval: Option<int>, ticks: int, maxTicks: Option<int>)

  /** The options `createTimer` reads; every one may be absent. */
  datatype TimerOptions = TimerOptions(autoRemove: Option<bool>, duration: Option<int>,
                                       interval: Option<int>, maxTicks: Option<int>)

  /** `x || fallback` for a number: 0 and absent fall back. */
  function OrDefault(x: Option<int>, fallback: int): int
  {
    if x.Some? && x.value != 0 then x.value else fallback
  }

  /** The timer `createTimer` builds: the option fields spread over the base, then the type's own setup. */
  function NewTimer(id: string, kind: TimerKind, o: TimerOptions, now: int): (t: Timer)
    ensures t.id == id && t.kind == kind && t.createdAt == now && t.elapsed == 0
    ensures t.isActive && !t.isCompleted
    ensures t.autoRemove <==> o.autoRemove != Some(false)
    ensures kind == Countdown ==> t.duration == Some(OrDefault(o.duration, DefaultPeriod)) && t.remaining == t.duration
    ensures kind == Interval ==> t.interval == Some(OrDefault(o.interval, DefaultPeriod)) && t.ticks == 0
    ensures kind == Interval ==> t.maxTicks == if o.maxTicks.Some? && o.maxTicks.value != 0 then o.maxTicks else None
  {
    var base := Timer(id, kind, now, 0, true, false, if o.autoRemove.Some? then o.autoRemove.value else true,
                      o.duration, None, o.interval, 0, o.maxTicks);
    match kind
    case Countdown =>
      var d := OrDefault(o.duration, DefaultPeriod);
      base.(duration := Some(d), remaining := Some(d))
    case Interval =>
      base.(interval := Some(OrDefault(o.interval, DefaultPeriod)), ticks := 0,
            maxTicks := if o.maxTicks.Some? && o.maxTicks.value != 0 then o.maxTicks else None)
    case Stopwatch => base
  }

  function Max0(x: int): int { if x > 0 then x else 0 }

  /** `timer.maxTicks && timer.ticks >= timer.maxTicks`. */
  predicate TickLimitReached(t: Timer)
  {
    t.maxTicks.Some? && t.maxTicks.value != 0 && t.ticks >= t.maxTicks.value
  }

  /**
   * updateTimer: advance one timer by `delta`. A countdown completes the first time its
   * elapsed time reaches the duration; an interval fires at most one tick per update and
   * completes once it reaches its tick limit; a stopwatch only accumulates.
   */
  function UpdateTimer(t: Timer, delta: int): (r: Timer)
    ensures r.id == t.id && r.kind == t.kind && r.autoRemove == t.autoRemove && r.duration == t.duration
    ensures r.kind == Countdown ==> r.elapsed == t.elapsed + delta
    ensures r.kind == Countdown && t.duration.Some? ==>
      r.remaining == Some(Max0(t.duration.value - r.elapsed))
      && (r.isCompleted <==> t.isCompleted || r.elapsed >= t.duration.value)
      && (!t.isCompleted && r.isCompleted ==> !r.isActive)
    ensures r.kind == Interval ==> t.ticks <= r.ticks <= t.ticks + 1
    ensures r.kind == Interval ==> (r.ticks == t.ticks + 1 <==> t.interval.Some? && t.elapsed + delta >= t.interval.value)
    ensures r.kind == Interval && r.ticks == t.ticks + 1 ==> r.elapsed == 0
    ensures r.kind == Interval && r.ticks == t.ticks + 1 && TickLimitReached(r) ==> r.isCompleted && !r.isActive
    ensures r.kind == Stopwatch ==> r == t.(elapsed := t.elapsed + delta)
  {
    match t.kind
    case Countdown =>
      var e := t.elapsed + delta;
      var c := t.(elapsed := e, remaining := if t.duration.Some? then Some(Max0(t.duration.value - e)) else None);
      if t.duration.Some? && e >= t.duration.value && !t.isCompleted then c.(isCompleted := true, isActive := false)
      else c
    case Interval =>
      var e := t.elapsed + delta;
      if t.interval.Some? && e >= t.interval.value then
        var ticked := t.(elapsed := 0, ticks := t.ticks + 1);
        if TickLimitReached(ticked) then ticked.(isCompleted := true, isActive := false) else ticked
      else t.(elapsed := e)
    case Stopwatch => t.(elapsed := t.elapsed + delta)
  }

  /** calculateOfflineProgress for one timer: an active countdown gains the time, clamped at its duration. */
  function OfflineStep(t: Timer, offline: int): (r: Timer)
    ensures t.kind != Countdown || !t.isActive ==> r == t
    ensures t.kind == Countdown && t.isActive && t.duration.Some? ==>
      r.elapsed == (if t.elapsed + offline >= t.duration.value then t.duration.value else t.elapsed + offline)
      && r.elapsed <= t.duration.value
      && (r.isCompleted <==> t.isCompleted || t.elapsed + offline >= t.duration.value)
  {
    if t.kind == Countdown && t.isActive then
      var e := t.elapsed + offline;
      if t.duration.Some? && e >= t.duration.value then
        t.(elapsed := t.duration.value, isActive := false, isCompleted := true)
      else t.(elapsed := e)
    else t
  }

  /** One update as the manager applies it: inactive timers are skipped. */
  function Tick(t: Timer, delta: int): Timer
  {
    if t.isActive then UpdateTimer(t, delta) else t
  }

  function Sum(ds: seq<int>): int
  {
    if ds == [] then 0 else Sum(ds[..|ds| - 1]) + ds[|ds| - 1]
  }

  /** A timer after a run of updates with the given deltas. */
  function Ticks(t: Timer, ds: seq<int>): Timer
  {
    if ds == [] then t else Tick(Ticks(t, ds[..|ds| - 1]), ds[|ds| - 1])
  }

  /**
   * A running countdown fed non-negative deltas completes exactly when their sum reaches
   * the remaining time, and until then its elapsed time is the sum so far.
   */
  lemma {:induction false} CountdownRun(t: Timer, ds: seq<int>)
    requires t.kind == Countdown && t.isActive && !t.isCompleted && t.duration.Some?
    requires t.elapsed < t.duration.value
    requires forall i | 0 <= i < |ds| :: ds[i] >= 0
    ensures Ticks(t, ds).isCompleted <==> t.elapsed + Sum(ds) >= t.duration.value
    ensures !Ticks(t, ds).isCompleted ==> Ticks(t, ds).isActive && Ticks(t, ds).elapsed == t.elapsed + Sum(ds)
    ensures Ticks(t, ds).isCompleted ==> !Ticks(t, ds).isActive
    ensures Ticks(t, ds).kind == Countdown && Ticks(t, ds).duration == t.duration
  {
    if ds != [] {
      CountdownRun(t, ds[..|ds| - 1]);
    }
  }

  /**
   * Catching up in one offline step and updating in several steps agree on whether a
   * running countdown has completed.
   */
  lemma OfflineMatchesUpdates(t: Timer, ds: seq<int>)
    requires t.kind == Countdown && t.isActive && !t.isCompleted && t.duration.Some?
    requires t.elapsed < t.duration.value
    requires forall i | 0 <= i < |ds| :: ds[i] >= 0
    ensures OfflineStep(t, Sum(ds)).isCompleted == Ticks(t, ds).isCompleted
  {
    CountdownRun(t, ds);
  }

  /** resetTimer for one timer. */
  function ResetStep(t: Timer): (r: Timer)
    ensures r.elapsed == 0 && !r.isCompleted && r.isActive
    ensures r.kind == Countdown ==> r.remaining == t.duration
    ensures r.kind == Interval ==> r.ticks == 0
    ensures r.id == t.id && r.kind == t.kind && r.duration == t.duration && r.interval == t.interval
  {
    var r := t.(elapsed := 0, isCompleted := false, isActive := true);
    if t.kind == Countdown then r.(remaining := t.duration)
    else if t.kind == Interval then r.(ticks := 0)
    else r
  }

  // ---------------------------------------------------------------------------
  // Whole-registry steps
  // ---------------------------------------------------------------------------

  /** Whether `update` keeps a timer: it goes when it was active, is now completed, and removes itself. */
  predicate Kept(t: Timer, delta: int)
  {
    !(t.isActive && UpdateTimer(t, delta).isCompleted && UpdateTimer(t, delta).autoRemove)
  }

  /** The registry after `update` has handled the given ids. */
  function UpdatedOn(ts: map<string, Timer>, ids: set<string>, delta: int): map<string, Timer>
  {
    map id | id in ids && id in ts && Kept(ts[id], delta) :: Tick(ts[id], delta)
  }

  lemma UpdatedOnAdd(ts: map<string, Timer>, ids: set<string>, id: string, delta: int)
    requires id in ts && id !in ids
    ensures UpdatedOn(ts, ids + {id}, delta)
         == if Kept(ts[id], delta) then UpdatedOn(ts, ids, delta)[id := Tick(ts[id], delta)]
            else UpdatedOn(ts, ids, delta)
  {
  }

  /** The registry after calculateOfflineProgress has handled the given ids. */
  function OfflineOn(ts: map<string, Timer>, ids: set<string>, offline: int): map<string, Timer>
  {
    map id | id in ts :: if id in ids then OfflineStep(ts[id], offline) else ts[id]
  }

  /** A timer restored by importTimers: no self-removal, offline time added while it runs. */
  datatype TimerData = TimerData(id: string, kind: TimerKind, elapsed: int, createdAt: int,
                                 isActive: bool, isCompleted: bool, duration: Option<int>,
                                 interval: Option<int>, maxTicks: Option<int>, ticks: int)

  datatype ExportData = ExportData(timers: Option<seq<TimerData>>, lastUpdate: Option<int>)

  /** exportTimers for one timer: `remaining`, `autoRemove` and callbacks are not saved. */
  function DataOf(t: Timer): TimerData
  {
    TimerData(t.id, t.kind, t.elapsed, t.createdAt, t.isActive, t.isCompleted, t.duration, t.interval,
              t.maxTicks, t.ticks)
  }

  /** The ids of a list of saved timers. */
  function IdsOf(ds: seq<TimerData>): set<string>
  {
    if ds == [] then {} else IdsOf(ds[..|ds| - 1]) + {ds[|ds| - 1].id}
  }

  lemma {:induction false} IdsOfMembers(ds: seq<TimerData>)
    ensures forall id | id in IdsOf(ds) :: exists i | 0 <= i < |ds| :: ds[i].id == id
  {
    if ds != [] {
      IdsOfMembers(ds[..|ds| - 1]);
      forall id | id in IdsOf(ds)
        ensures exists i | 0 <= i < |ds| :: ds[i].id == id
      {
        if id != ds[|ds| - 1].id {
          var p := ds[..|ds| - 1];
          assert id in IdsOf(p);
          var k :| 0 <= k < |p| && p[k].id == id;
          assert ds[k].id == id;
        }
      }
    }
  }

  /** importTimers for one saved timer. */
  function Restore(d: TimerData, offline: int): (t: Timer)
    ensures t.id == d.id && t.kind == d.kind && !t.autoRemove && t.remaining.None?
    ensures t.createdAt == d.createdAt && t.duration == d.duration && t.interval == d.interval
            && t.ticks == d.ticks && t.maxTicks == d.maxTicks
    ensures !(d.isActive && !d.isCompleted && offline > 0) ==>
      t.elapsed == d.elapsed && t.isActive == d.isActive && t.isCompleted == d.isCompleted
    ensures d.isActive && !d.isCompleted && offline > 0 && !(d.kind == Countdown && d.duration.Some?) ==>
      t.elapsed == d.elapsed + offline && t.isActive && !t.isCompleted
    ensures d.isActive && !d.isCompleted && offline > 0 && d.kind == Countdown && d.duration.Some? ==>
      t.elapsed == (if d.elapsed + offline >= d.duration.value then d.duration.value else d.elapsed + offline)
      && (t.isCompleted <==> d.elapsed + offline >= d.duration.value)
      && (t.isActive <==> !t.isCompleted)
    ensures d.kind == Countdown && d.duration.Some? && d.elapsed <= d.duration.value ==> t.elapsed <= d.duration.value
  {
    var t := Timer(d.id, d.kind, d.createdAt, d.elapsed, d.isActive, d.isCompleted, false,
                   d.duration, None, d.interval, d.ticks, d.maxTicks);
    if t.isActive && !t.isCompleted && offline > 0 then
      var e := t.elapsed + offline;
      if t.kind == Countdown && t.duration.Some? && e >= t.duration.value then
        t.(elapsed := t.duration.value, isCompleted := true, isActive := false)
      else t.(elapsed := e)
    else t
  }

  /** Exporting and importing with no time passed gives back each timer, minus `remaining` and self-removal. */
  lemma RoundTrip(t: Timer)
    ensures Restore(DataOf(t), 0) == t.(autoRemove := false, remaining := None)
  {
  }

  /** The registry after importing the first saved timers: a later duplicate id wins. */
  function Imported(ds: seq<TimerData>, offline: int): (r: map<string, Timer>)
    ensures r.Keys == set i | 0 <= i < |ds| :: ds[i].id
    ensures forall id | id in r :: r[id].id == id
    ensures forall k {:trigger LastWithId(ds, k)} | 0 <= k < |ds| && LastWithId(ds, k) :: r[ds[k].id] == Restore(ds[k], offline)
  {
    if ds == [] then map[]
    else
      var prev := Imported(ds[..|ds| - 1], offline);
      var last := ds[|ds| - 1];
      assert forall i | 0 <= i < |ds| - 1 :: ds[..|ds| - 1][i] == ds[i];
      assert forall k | 0 <= k < |ds| - 1 && LastWithId(ds, k) :: LastWithId(ds[..|ds| - 1], k);
      prev[last.id := Restore(last, offline)]
  }

  /** No later saved timer has the same id as the one at `k`. */
  predicate LastWithId(ds: seq<TimerData>, k: int)
    requires 0 <= k < |ds|
  {
    forall j | k < j < |ds| :: ds[j].id != ds[k].id
  }

  /**
   * Importing what exportTimers wrote, with no time passed, gives back the registry: every
   * timer under its own id, without `remaining` and self-removal.
   */
  lemma RegistryRoundTrip(ts: map<string, Timer>, out: seq<TimerData>)
    requires forall id | id in ts :: ts[id].id == id
    requires forall i | 0 <= i < |out| :: out[i].id in ts && out[i] == DataOf(ts[out[i].id])
    requires forall i, j | 0 <= i < j < |out| :: out[i].id != out[j].id
    requires forall id | id in ts :: exists i | 0 <= i < |out| :: out[i].id == id
    ensures Imported(out, 0).Keys == ts.Keys
    ensures forall id | id in ts :: Imported(out, 0)[id] == ts[id].(autoRemove := false, remaining := None)
  {
    var r := Imported(out, 0);
    forall id | id in ts
      ensures id in r && r[id] == ts[id].(autoRemove := false, remaining := None)
    {
      var k :| 0 <= k < |out| && out[k].id == id;
      assert LastWithId(out, k);
      RestoredAt(out, k, ts[id]);
    }
    forall id | id in r
      ensures id in ts
    {
      var k :| 0 <= k < |out| && out[k].id == id;
    }
  }

  lemma RestoredAt(out: seq<TimerData>, k: int, t: Timer)
    requires 0 <= k < |out| && LastWithId(out, k) && out[k] == DataOf(t)
    ensures out[k].id in Imported(out, 0)
    ensures Imported(out, 0)[out[k].id] == t.(autoRemove := false, remaining := None)
  {
    RoundTrip(t);
  }

  /** The loop of calculateOfflineProgress over every registered timer. */
  method OfflineAll(ts: map<string, Timer>, offline: int) returns (next: map<string, Timer>)
    ensures next == OfflineOn(ts, ts.Keys, offline)
  {
    next := ts;
    var todo := ts.Keys;
    while todo != {}
      invariant todo <= ts.Keys
      invariant next == OfflineOn(ts, ts.Keys - todo, offline)
      decreases |todo|
    {
      var id :| id in todo;
      next := next[id := OfflineStep(ts[id], offline)];
      assert OfflineOn(ts, ts.Keys - (todo - {id}), offline) == OfflineOn(ts, ts.Keys - todo, offline)[id := OfflineStep(ts[id], offline)];
      todo := todo - {id};
    }
    assert ts.Keys - todo == ts.Keys;
  }

  /** What exportTimers has written once the ids outside `todo` are done. */
  ghost predicate ExportedSoFar(ts: map<string, Timer>, out: seq<TimerData>, todo: set<string>)
  {
    && todo <= ts.Keys
    && |out| + |todo| == |ts.Keys|
    && (forall i | 0 <= i < |out| :: out[i].id in ts.Keys - todo && out[i] == DataOf(ts[out[i].id]))
    && (forall i, j | 0 <= i < j < |out| :: out[i].id != out[j].id)
    && IdsOf(out) == ts.Keys - todo
  }

  lemma ExportStep(ts: map<string, Timer>, out: seq<TimerData>, todo: set<string>, id: string)
    requires forall k | k in ts :: ts[k].id == k
    requires ExportedSoFar(ts, out, todo) && id in todo
    ensures ExportedSoFar(ts, out + [DataOf(ts[id])], todo - {id})
  {
    var next := out + [DataOf(ts[id])];
    var rest := todo - {id};
    assert next[..|out|] == out;
    assert next[..|next| - 1] == out && next[|next| - 1].id == id;
    assert IdsOf(next) == IdsOf(out) + {id};
    assert ts.Keys - rest == (ts.Keys - todo) + {id};
    assert |rest| == |todo| - 1;
    forall i | 0 <= i < |next|
      ensures next[i].id in ts.Keys - rest && next[i] == DataOf(ts[next[i].id])
    {
      if i < |out| {
        assert next[i] == out[i];
      }
    }
    forall i, j | 0 <= i < j < |next|
      ensures next[i].id != next[j].id
    {
      if j < |out| {
        assert next[i] == out[i] && next[j] == out[j];
      } else {
        assert next[i] == out[i] && out[i].id in ts.Keys - todo;
      }
    }
  }

  /** The loop of exportTimers: one saved record per registered timer, no id twice. */
  method ExportAll(ts: map<string, Timer>) returns (out: seq<TimerData>)
    requires forall id | id in ts :: ts[id].id == id
    ensures |out| == |ts|
    ensures forall i | 0 <= i < |out| :: out[i].id in ts && out[i] == DataOf(ts[out[i].id])
    ensures forall i, j | 0 <= i < j < |out| :: out[i].id != out[j].id
    ensures forall id | id in ts :: exists i | 0 <= i < |out| :: out[i].id == id
  {
    out := [];
    var todo := ts.Keys;
    while todo != {}
      invariant ExportedSoFar(ts, out, todo)
      decreases |todo|
    {
      var id :| id in todo;
      ExportStep(ts, out, todo, id);
      out := out + [DataOf(ts[id])];
      todo := todo - {id};
    }
    ExportDone(ts, out);
  }

  lemma ExportDone(ts: map<string, Timer>, out: seq<TimerData>)
    requires ExportedSoFar(ts, out, {})
    ensures |out| == |ts|
    ensures forall i | 0 <= i < |out| :: out[i].id in ts && out[i] == DataOf(ts[out[i].id])
    ensures forall i, j | 0 <= i < j < |out| :: out[i].id != out[j].id
    ensures forall id | id in ts :: exists i | 0 <= i < |out| :: out[i].id == id
  {
    assert |ts.Keys| == |ts| && ts.Keys - {} == ts.Keys;
    IdsOfMembers(out);
  }

  /**
   * The loop of `update`: each active timer advances by the delta, and a timer that this
   * completed and that removes itself is dropped.
   */
  method Advanced(ts: map<string, Timer>, delta: int) returns (next: map<string, Timer>)
    ensures next == UpdatedOn(ts, ts.Keys, delta)
  {
    next := map[];
    var todo := ts.Keys;
    while todo != {}
      invariant todo <= ts.Keys
      invariant next == UpdatedOn(ts, ts.Keys - todo, delta)
      decreases |todo|
    {
      var id :| id in todo;
      var timer := ts[id];
      if timer.isActive {
        timer := UpdateTimer(timer, delta);
      }
      assert timer == Tick(ts[id], delta);
      UpdatedOnAdd(ts, ts.Keys - todo, id, delta);
      if !(ts[id].isActive && timer.isCompleted && timer.autoRemove) {
        next := next[id := timer];
      }
      assert ts.Keys - (todo - {id}) == (ts.Keys - todo) + {id};
      todo := todo - {id};
    }
    assert ts.Keys - todo == ts.Keys;
  }

  class TimerManager {
    var timers: map<string, Timer>
    var isActive: bool
    var lastUpdate: int

    /** Each timer is filed under its own id. */
    ghost predicate Valid()
      reads this
    {
      forall id | id in timers :: timers[id].id == id
    }

    constructor(now: int)
      ensures Valid()
      ensures timers == map[] && isActive && lastUpdate == now
    {
      timers := map[];
      isActive := true;
      lastUpdate := now;
    }

    /**
     * createTimer: an existing timer under the id is removed first; an unknown type then
     * fails, otherwise the new timer is filed under the id.
     */
    method CreateTimer(id: string, kindName: string, options: TimerOptions, now: int) returns (r: Result<Timer, string>)
      requires Valid()
      modifies this
      ensures Valid()
      ensures r.Failure? <==> KindOf(kindName).None?
      ensures r.Failure? ==> timers == old(timers) - {id}
      ensures r.Success? ==> r.value == NewTimer(id, KindOf(kindName).value, options, now)
                             && timers == old(timers)[id := r.value]
      ensures isActive == old(isActive) && lastUpdate == old(lastUpdate)
    {
      if id in timers {
        var _ := RemoveTimer(id);
      }
      var kind := KindOf(kindName);
      if kind.None? {
        return Failure("Unknown timer type: " + kindName);
      }
      var timer := NewTimer(id, kind.value, options, now);
      timers := timers[id := timer];
      return Success(timer);
    }

    method RemoveTimer(id: string) returns (removed: bool)
      requires Valid()
      modifies this
      ensures Valid()
      ensures removed <==> id in old(timers)
      ensures timers == old(timers) - {id}
      ensures isActive == old(isActive) && lastUpdate == old(lastUpdate)
    {
      if id in timers {
        timers := timers - {id};
        return true;
      }
      return false;
    }

    method PauseTimer(id: string) returns (ok: bool)
      requires Valid()
      modifies this
      ensures Valid()
      ensures ok <==> id in old(timers)
      ensures ok ==> timers == old(timers)[id := old(timers)[id].(isActive := false)]
      ensures !ok ==> timers == old(timers)
    {
      if id in timers {
        timers := timers[id := timers[id].(isActive := false)];
        return true;
      }
      return false;
    }

    /** resumeTimer: refused for a missing or completed timer. */
    method ResumeTimer(id: string) returns (ok: bool)
      requires Valid()
      modifies this
      ensures Valid()
      ensures ok <==> id in old(timers) && !old(timers)[id].isCompleted
      ensures ok ==> timers == old(timers)[id := old(timers)[id].(isActive := true)]
      ensures !ok ==> timers == old(timers)
    {
      if id in timers && !timers[id].isCompleted {
        timers := timers[id := timers[id].(isActive := true)];
        return true;
      }
      return false;
    }

    method ResetTimer(id: string) returns (ok: bool)
      requires Valid()
      modifies this
      ensures Valid()
      ensures ok <==> id in old(timers)
      ensures ok ==> timers == old(timers)[id := ResetStep(old(timers)[id])]
      ensures !ok ==> timers == old(timers)
    {
      if id in timers {
        timers := timers[id := ResetStep(timers[id])];
        return true;
      }
      return false;
    }

    /**
     * update: nothing happens while the manager is inactive; otherwise every active timer
     * advances by the time since the last update, and the ones that completed and remove
     * themselves are dropped.
     */
    method Update(now: int)
      requires Valid()
      modifies this
      ensures Valid()
      ensures !old(isActive) ==> timers == old(timers) && lastUpdate == old(lastUpdate)
      ensures old(isActive) ==> timers == UpdatedOn(old(timers), old(timers).Keys, now - old(lastUpdate))
                                && lastUpdate == now
      ensures isActive == old(isActive)
    {
      if !isActive {
        return;
      }
      timers := Advanced(timers, now - lastUpdate);
      lastUpdate := now;
    }

    /** calculateOfflineProgress: active countdowns gain the offline time, clamped at their duration. */
    method CalculateOfflineProgress(offline: int)
      requires Valid()
      modifies this
      ensures Valid()
      ensures timers == OfflineOn(old(timers), old(timers).Keys, offline)
      ensures forall id | id in timers && old(timers)[id].kind == Countdown && old(timers)[id].isActive
                          && old(timers)[id].duration.Some? :: timers[id].elapsed <= timers[id].duration.value
      ensures isActive == old(isActive) && lastUpdate == old(lastUpdate)
    {
      var next := OfflineAll(timers, offline);
      timers := next;
    }

    /** clearCompletedTimers: drop every completed timer and return how many there were. */
    method ClearCompletedTimers() returns (count: nat)
      requires Valid()
      modifies this
      ensures Valid()
      ensures timers == map id | id in old(timers) && !old(timers)[id].isCompleted :: old(timers)[id]
      ensures count == |set id | id in old(timers) && old(timers)[id].isCompleted|
      ensures isActive == old(isActive) && lastUpdate == old(lastUpdate)
    {
      var completed := set id | id in timers && timers[id].isCompleted;
      timers := map id | id in timers && id !in completed :: timers[id];
      count := |completed|;
    }

    /** exportTimers: one record per timer, each under its own id, and the last update time. */
    method ExportTimers() returns (data: ExportData)
      requires Valid()
      ensures data.timers.Some? && data.lastUpdate == Some(lastUpdate)
      ensures |data.timers.value| == |timers|
      ensures forall i | 0 <= i < |data.timers.value| ::
        data.timers.value[i].id in timers && data.timers.value[i] == DataOf(timers[data.timers.value[i].id])
      ensures forall i, j | 0 <= i < j < |data.timers.value| :: data.timers.value[i].id != data.timers.value[j].id
      ensures forall id | id in timers :: exists i | 0 <= i < |data.timers.value| :: data.timers.value[i].id == id
    {
      var out := ExportAll(timers);
      return ExportData(Some(out), Some(lastUpdate));
    }

    /**
     * importTimers: refused without a timer list; otherwise the registry is replaced by the
     * saved timers, each filed under its id and advanced by the time since the saved update.
     */
    method ImportTimers(data: Option<ExportData>, now: int) returns (ok: bool)
      requires Valid()
      modifies this
      ensures Valid()
      ensures ok <==> data.Some? && data.value.timers.Some?
      ensures !ok ==> timers == old(timers)
      ensures ok ==> var saved := data.value.lastUpdate;
        timers == Imported(data.value.timers.value, now - OrDefault(saved, now))
      ensures isActive == old(isActive) && lastUpdate == old(lastUpdate)
    {
      if data.None? || data.value.timers.None? {
        return false;
      }
      var ds := data.value.timers.value;
      timers := map[];
      var offline := now - OrDefault(data.value.lastUpdate, now);
      var i := 0;
      while i < |ds|
        invariant 0 <= i <= |ds|
        invariant timers == Imported(ds[..i], offline)
        invariant isActive == old(isActive) && lastUpdate == old(lastUpdate)
      {
        assert ds[..i + 1][..i] == ds[..i];
        timers := timers[ds[i].id := Restore(ds[i], offline)];
        i := i + 1;
      }
      assert ds[..i] == ds;
      return true;
    }

    method Pause()
      modifies this
      ensures !isActive && timers == old(timers) && lastUpdate == old(lastUpdate)
    {
      isActive := false;
    }

    method Resume(now: int)
      modifies this
      ensures isActive && timers == old(timers) && lastUpdate == now
    {
      isActive := true;
      lastUpdate := now;
    }
  }
}
