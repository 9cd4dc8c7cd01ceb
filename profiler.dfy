/** The global state of `AdvancedTimer` as a value, and the effect of each of its entry
    points on that value: the timer stack, the map of timers, the current log and the
    synchronisation callback. The class in module `AdvancedTimers` is proved to follow
    these functions call by call. */
module Profilers {
  import opened Basics
  import opened Records
  import opened TimerStats
  import opened TimerDatas
  import FoldInvariant
  import StepFold

  /** One call of the synchronisation callback: the callback handle and its user data. */
  datatype SyncCall = SyncCall(callBack: nat, userData: nat)

  /** The state kept in the globals `timers`, `curTimer`, `curRecords`, `syncCallBack` and
      `syncCallBackData`. The top of `curTimer` is its last element; `curRecords` names the
      timer whose log is current (`None` is the NULL pointer); a handle 0 is a NULL callback.
      `syncCalls` lists the callback invocations so far. */
  datatype Profiler = Profiler(
    timers: map<nat, TimerSnap>,
    curTimer: seq<nat>,
    curRecords: Option<nat>,
    syncCallBack: nat,
    syncCallBackData: nat,
    syncCalls: seq<SyncCall>)

  /** The globals at program start. */
  const NewProfiler := Profiler(map[], [], None, 0, 0, [])

  /** `timers[id]`: the entry, or a freshly constructed `TimerData` when there is none. */
  function TimerAt(timers: map<nat, TimerSnap>, id: nat): TimerSnap
  {
    if id in timers then timers[id] else NewTimerSnap
  }

  /** The log `curRecords` points to once `stack` is the timer stack: the top timer's
      records if its interval is non-zero, else none. */
  function CurrentLog(stack: seq<nat>, timers: map<nat, TimerSnap>): (r: Option<nat>)
    ensures r.Some? <==> stack != [] && TimerAt(timers, stack[|stack| - 1]).interval != 0
    ensures r.Some? ==> r.value == stack[|stack| - 1]
  {
    if stack == [] then None
    else if TimerAt(timers, stack[|stack| - 1]).interval != 0 then Some(stack[|stack| - 1])
    else None
  }

  /** `if (syncCallBack) (*syncCallBack)(syncCallBackData)`. */
  function Sync(p: Profiler): (q: Profiler)
    ensures q.(syncCalls := p.syncCalls) == p
    ensures q.syncCalls == p.syncCalls + (if p.syncCallBack != 0 then [SyncCall(p.syncCallBack, p.syncCallBackData)] else [])
  {
    if p.syncCallBack != 0 then p.(syncCalls := p.syncCalls + [SyncCall(p.syncCallBack, p.syncCallBackData)])
    else p
  }

  /** What one timer entry must satisfy: it carries its own key as identifier, its
      statistics are consistent and list the root step first, and while its interval is
      non-zero its log starts with a begin record. */
  ghost predicate TimerOk(k: nat, d: TimerSnap)
  {
    && d.id == k
    && StatsInv(d.stats)
    && StepFold.RootFirst(d.stats)
    && (d.interval != 0 ==> d.records != [] && d.records[0].kind == RBegin)
  }

  /** The invariant of the globals: every entry is consistent, every timer on the stack has
      an entry, and `curRecords` is the log of the top timer when its interval is non-zero. */
  ghost predicate WellFormed(p: Profiler)
  {
    && (forall k {:trigger TimerOk(k, p.timers[k])} :: k in p.timers ==> TimerOk(k, p.timers[k]))
    && (forall i :: 0 <= i < |p.curTimer| ==> p.curTimer[i] in p.timers)
    && p.curRecords == CurrentLog(p.curTimer, p.timers)
  }

  /** `AdvancedTimer::setSyncCallBack`: installs a callback and returns the previous pair. */
  function SetSyncCallBack(p: Profiler, cb: nat, userData: nat): (r: (nat, nat, Profiler))
    ensures r.0 == p.syncCallBack && r.1 == p.syncCallBackData
    ensures r.2 == p.(syncCallBack := cb, syncCallBackData := userData)
  {
    (p.syncCallBack, p.syncCallBackData, p.(syncCallBack := cb, syncCallBackData := userData))
  }

  /** `AdvancedTimer::clear`: no current log, an empty stack, no timers. */
  function Clear(p: Profiler): (q: Profiler)
    ensures WellFormed(q)
    ensures q.timers == map[] && q.curTimer == [] && q.curRecords.None?
    ensures q.syncCalls == p.syncCalls && q.syncCallBack == p.syncCallBack
  {
    p.(timers := map[], curTimer := [], curRecords := None)
  }

  /** `init` as `begin` runs it: only an entry whose identifier is still 0 (a new entry, or
      the entry of timer 0) takes the identifier and the interval read from the environment. */
  function Initialise(d: TimerSnap, id: nat, envInterval: int): (e: TimerSnap)
    ensures d.id != 0 ==> e == d
    ensures d.id == 0 ==> e.id == id && e.interval == envInterval
    ensures e.records == d.records && e.stats == d.stats && e.printed == d.printed
  {
    if d.id == 0 then d.(id := id, interval := envInterval) else d
  }

  /** The entry `begin(id)` works on after `init` has run if it had to. */
  function Initialised(timers: map<nat, TimerSnap>, id: nat, envInterval: int): TimerSnap
  {
    Initialise(TimerAt(timers, id), id, envInterval)
  }

  /** `TimerData& data = timers[id]; if (!data.id) data.init(id)`. */
  function Opened(p: Profiler, id: nat, envInterval: int): Profiler
  {
    Profiler(p.timers[id := Initialised(p.timers, id, envInterval)], p.curTimer, p.curRecords,
             p.syncCallBack, p.syncCallBackData, p.syncCalls)
  }

  /** `curRecords->clear()`, the callback, then the begin record pushed on the log of
      `id`. */
  function Restarted(p: Profiler, id: nat, now: int): Profiler
    requires id in p.timers
  {
    Profiler(p.timers[id := p.timers[id].(records := [Record(now, RBegin, id, 0, 0.0)])], p.curTimer,
             p.curRecords, p.syncCallBack, p.syncCallBackData, Sync(p).syncCalls)
  }

  /** The rest of `begin` on the entry of `id`: with interval 0 there is no current log;
      otherwise its log becomes current and is restarted. */
  function Started(p: Profiler, id: nat, now: int): Profiler
    requires id in p.timers
  {
    if p.timers[id].interval == 0 then p.(curRecords := None)
    else Restarted(p.(curRecords := Some(id)), id, now)
  }

  /** `AdvancedTimer::begin(id)` at time `now`, `envInterval` being what the environment
      gives for this timer should it need initialising: push `id` on the stack, open its
      entry and start its iteration. Its effect is stated by `BeginEffect`. */
  function Begin(p: Profiler, id: nat, now: int, envInterval: int): Profiler
  {
    var q := Started(Opened(p, id, envInterval), id, now);
    q.(curTimer := p.curTimer + [id])
  }

  /** The end of one iteration of timer `id`: the end record is appended, the log is
      processed, and the report is printed and the statistics cleared when the iteration
      counter reaches the interval. */
  function CloseIteration(d: TimerSnap, id: nat, now: int): (e: TimerSnap)
    ensures e.records == d.records + [Record(now, REnd, id, 0, 0.0)]
    ensures e.stats == EndIteration(e.records, d.stats, d.interval)
    ensures e.printed == d.printed + (if Reports(e.records, d.stats, d.interval) then 1 else 0)
    ensures e.id == d.id && e.interval == d.interval
  {
    var recs := d.records + [Record(now, REnd, id, 0, 0.0)];
    d.(records := recs,
       stats := EndIteration(recs, d.stats, d.interval),
       printed := d.printed + if Reports(recs, d.stats, d.interval) then 1 else 0)
  }

  /** What `end(id)` does while a log is current: run the callback and close the iteration
      of timer `id`. */
  function Closed(p: Profiler, id: nat, now: int): Profiler
  {
    Profiler(p.timers[id := CloseIteration(TimerAt(p.timers, id), id, now)], p.curTimer,
             p.curRecords, p.syncCallBack, p.syncCallBackData, Sync(p).syncCalls)
  }

  /** The last step of `end`: pop the stack and point `curRecords` at the log of the new top
      timer, if any. */
  function Pop(p: Profiler): Profiler
    requires p.curTimer != []
  {
    var stack := p.curTimer[..|p.curTimer| - 1];
    Profiler(p.timers, stack, CurrentLog(stack, p.timers), p.syncCallBack, p.syncCallBackData,
             p.syncCalls)
  }

  /** `AdvancedTimer::end(id)` at time `now`: nothing unless `id` is on top of the stack.
      Its effect is stated by `EndEffect`. */
  function End(p: Profiler, id: nat, now: int): Profiler
  {
    if p.curTimer == [] || id != p.curTimer[|p.curTimer| - 1] then p
    else Pop(if p.curRecords.Some? then Closed(p, id, now) else p)
  }

  /** A recording call: nothing happens without a current log; otherwise the callback runs
      first when `sync` holds and `rs` is appended to the current log. Its effect is stated
      by `LogEffect`. */
  function Log(p: Profiler, rs: seq<Record>, sync: bool): Profiler
  {
    if p.curRecords.None? then p
    else
      var k := p.curRecords.value;
      var d := TimerAt(p.timers, k);
      Profiler(p.timers[k := d.(records := d.records + rs)], p.curTimer, p.curRecords,
               p.syncCallBack, p.syncCallBackData, if sync then Sync(p).syncCalls else p.syncCalls)
  }

  /** `stepBegin(id)` and `stepBegin(id, obj)` (an absent object is 0). */
  function StepBegin(p: Profiler, id: nat, obj: nat, now: int): Profiler
  {
    Log(p, [Record(now, RStepBegin, id, obj, 0.0)], false)
  }

  /** `stepEnd(id)`: runs the callback. */
  function StepEnd(p: Profiler, id: nat, now: int): Profiler
  {
    Log(p, [Record(now, RStepEnd, id, 0, 0.0)], true)
  }

  /** `stepEnd(id, obj)`: does not run the callback. */
  function StepEndOn(p: Profiler, id: nat, obj: nat, now: int): Profiler
  {
    Log(p, [Record(now, RStepEnd, id, obj, 0.0)], false)
  }

  /** `stepNext(prevId, nextId)`: one timestamp for the end of one step and the begin of the
      next. */
  function StepNext(p: Profiler, prevId: nat, nextId: nat, now: int): Profiler
  {
    Log(p, [Record(now, RStepEnd, prevId, 0, 0.0), Record(now, RStepBegin, nextId, 0, 0.0)], true)
  }

  /** `step(id)` and `step(id, obj)`: both run the callback. */
  function Step(p: Profiler, id: nat, obj: nat, now: int): Profiler
  {
    Log(p, [Record(now, RStep, id, obj, 0.0)], true)
  }

  /** `valSet(id, val)`. */
  function ValSet(p: Profiler, id: nat, v: real, now: int): Profiler
  {
    Log(p, [Record(now, RValSet, id, 0, v)], false)
  }

  /** `valAdd(id, val)`. */
  function ValAdd(p: Profiler, id: nat, v: real, now: int): Profiler
  {
    Log(p, [Record(now, RValAdd, id, 0, v)], false)
  }

  /** What `begin` does: push `id`; create its entry if there is none, with the interval
      from the environment; with a non-zero interval restart its log with one begin record,
      make that log current and run the callback; with interval 0, no current log. */
  lemma BeginEffect(p: Profiler, id: nat, now: int, envInterval: int)
    ensures var q := Begin(p, id, now, envInterval);
      && q.curTimer == p.curTimer + [id]
      && q.timers.Keys == p.timers.Keys + {id}
      && (forall k :: k in p.timers && k != id ==> q.timers[k] == p.timers[k])
      && q.timers[id].stats == TimerAt(p.timers, id).stats
      && q.timers[id].printed == TimerAt(p.timers, id).printed
      && (id !in p.timers ==> q.timers[id].interval == envInterval && q.timers[id].stats == NewStats)
      && (q.timers[id].interval != 0 ==>
            q.timers[id].records == [Record(now, RBegin, id, 0, 0.0)] && q.curRecords == Some(id))
      && (q.timers[id].interval == 0 ==>
            q.timers[id].records == TimerAt(p.timers, id).records && q.curRecords.None?)
      && q.syncCalls == (if q.timers[id].interval != 0 then Sync(p).syncCalls else p.syncCalls)
      && q.syncCallBack == p.syncCallBack && q.syncCallBackData == p.syncCallBackData
  {
  }

  /** What `end` does: nothing unless `id` is on top of the stack; otherwise, while a log is
      current, run the callback and close the iteration of `id`; then pop the stack and make
      the log of the new top timer current when its interval is non-zero. */
  lemma EndEffect(p: Profiler, id: nat, now: int)
    ensures var q := End(p, id, now);
      && (p.curTimer == [] || id != p.curTimer[|p.curTimer| - 1] ==> q == p)
      && (p.curTimer != [] && id == p.curTimer[|p.curTimer| - 1] ==>
            && q.curTimer == p.curTimer[..|p.curTimer| - 1]
            && q.curRecords == CurrentLog(q.curTimer, q.timers)
            && q.syncCallBack == p.syncCallBack && q.syncCallBackData == p.syncCallBackData
            && (p.curRecords.None? ==> q.timers == p.timers && q.syncCalls == p.syncCalls)
            && (p.curRecords.Some? ==>
                  q.timers == p.timers[id := CloseIteration(TimerAt(p.timers, id), id, now)]
                  && q.syncCalls == Sync(p).syncCalls))
  {
  }

  /** What a recording call does: nothing without a current log; otherwise `rs` is appended
      to that log, the callback runs when `sync` holds, and nothing else changes. */
  lemma LogEffect(p: Profiler, rs: seq<Record>, sync: bool)
    ensures var q := Log(p, rs, sync);
      && (p.curRecords.None? ==> q == p)
      && (p.curRecords.Some? ==>
            var k := p.curRecords.value;
            && q.timers.Keys == p.timers.Keys + {k}
            && (forall j :: j in p.timers && j != k ==> q.timers[j] == p.timers[j])
            && q.timers[k] == TimerAt(p.timers, k).(records := TimerAt(p.timers, k).records + rs)
            && q.curTimer == p.curTimer && q.curRecords == p.curRecords
            && q.syncCalls == (if sync then Sync(p).syncCalls else p.syncCalls)
            && q.syncCallBack == p.syncCallBack && q.syncCallBackData == p.syncCallBackData)
  {
  }

  /** `begin` keeps the invariant. */
  lemma BeginWellFormed(p: Profiler, id: nat, now: int, envInterval: int)
    requires WellFormed(p)
    ensures WellFormed(Begin(p, id, now, envInterval))
  {
    var q := Begin(p, id, now, envInterval);
    BeginEffect(p, id, now, envInterval);
    if id !in p.timers {
      FoldInvariant.ProcessInv([], NewStats);
    } else {
      assert TimerOk(id, p.timers[id]);
    }
    assert TimerOk(id, q.timers[id]);
    forall i | 0 <= i < |q.curTimer|
      ensures q.curTimer[i] in q.timers
    {
      if i < |p.curTimer| {
        assert q.curTimer[i] == p.curTimer[i];
      }
    }
  }

  /** Closing an iteration keeps a timer entry consistent. */
  lemma CloseIterationOk(k: nat, d: TimerSnap, now: int)
    requires TimerOk(k, d) && d.interval != 0
    ensures TimerOk(k, CloseIteration(d, k, now))
  {
    var recs := d.records + [Record(now, REnd, k, 0, 0.0)];
    FoldInvariant.EndIterationInv(recs, d.stats, d.interval);
    if !Reports(recs, d.stats, d.interval) {
      StepFold.ProcessRootFirst(recs, d.stats);
    }
  }

  /** Closing the iteration of the top timer keeps the invariant. */
  lemma ClosedWellFormed(p: Profiler, id: nat, now: int)
    requires WellFormed(p) && p.curRecords == Some(id)
    ensures WellFormed(Closed(p, id, now))
  {
    assert TimerOk(id, p.timers[id]);
    CloseIterationOk(id, p.timers[id], now);
  }

  /** Popping the stack keeps the invariant. */
  lemma PopWellFormed(p: Profiler)
    requires WellFormed(p) && p.curTimer != []
    ensures WellFormed(Pop(p))
  {
    var q := Pop(p);
    forall i | 0 <= i < |q.curTimer|
      ensures q.curTimer[i] in q.timers
    {
      assert q.curTimer[i] == p.curTimer[i];
    }
  }

  /** `end` keeps the invariant. */
  lemma EndWellFormed(p: Profiler, id: nat, now: int)
    requires WellFormed(p)
    ensures WellFormed(End(p, id, now))
  {
    if p.curTimer != [] && id == p.curTimer[|p.curTimer| - 1] {
      if p.curRecords.Some? {
        ClosedWellFormed(p, id, now);
        PopWellFormed(Closed(p, id, now));
      } else {
        PopWellFormed(p);
      }
    }
  }

  /** Recording calls keep the invariant. */
  lemma LogWellFormed(p: Profiler, rs: seq<Record>, sync: bool)
    requires WellFormed(p)
    ensures WellFormed(Log(p, rs, sync))
  {
    if p.curRecords.Some? {
      var k := p.curRecords.value;
      assert TimerOk(k, p.timers[k]);
      assert TimerOk(k, Log(p, rs, sync).timers[k]);
    }
  }
}
