/** The entry points of `AdvancedTimer` over its global state, held here as the fields of
    one object. Every method is proved to have exactly the effect the matching function of
    module `Profilers` gives, and to keep the invariant `Valid`. */
module AdvancedTimers {
  import opened Basics
  import opened Records
  import opened TimerStats
  import opened TimerDatas
  import Profilers

  class AdvancedTimer {
    /** `timers`: one `TimerData` per timer id. */
    var timers: map<nat, TimerData>
    /** `curTimer`: the stack of open timers, top last. */
    var curTimer: seq<nat>
    /** `curRecords`: the timer whose log the recording calls append to, if any. */
    var curRecords: Option<nat>
    /** `syncCallBack` and `syncCallBackData`, as opaque handles (0 is NULL). */
    var syncCallBack: nat
    var syncCallBackData: nat
    /** The invocations of the callback so far. */
    ghost var syncCalls: seq<Profilers.SyncCall>
    /** The state of every timer, as a value. */
    ghost var snaps: map<nat, TimerSnap>

    /** The globals as a value. */
    ghost function State(): Profilers.Profiler
      reads this
    {
      Profilers.Profiler(snaps, curTimer, curRecords, syncCallBack, syncCallBackData, syncCalls)
    }

    /** `snaps` is the state of the timer objects, each of which carries its own key as
        identifier (so distinct keys have distinct objects, as the values of a `std::map`
        do). */
    ghost predicate Coupled()
      reads this`timers, this`snaps, timers.Values
    {
      && timers.Keys == snaps.Keys
      && (forall k :: k in timers ==> timers[k].id == k && timers[k].Snapshot() == snaps[k])
    }

    /** The objects hold the globals, and these satisfy the invariant of `Profilers`. */
    ghost predicate Valid()
      reads this, timers.Values
    {
      Coupled() && Profilers.WellFormed(State())
    }

    /** The initial globals: no timers, an empty stack, no log, no callback. */
    constructor ()
      ensures Valid() && State() == Profilers.NewProfiler
    {
      timers := map[];
      curTimer := [];
      curRecords := None;
      syncCallBack := 0;
      syncCallBackData := 0;
      syncCalls := [];
      snaps := map[];
    }

    lemma EntryValid(k: nat)
      requires Valid() && k in timers
      ensures timers[k].Valid()
    {
      assert Profilers.TimerOk(k, snaps[k]);
    }

    /** `setSyncCallBack`: installs a callback and returns the previous one with its data. */
    method SetSyncCallBack(cb: nat, userData: nat) returns (oldCallBack: nat, oldUserData: nat)
      requires Valid()
      modifies this
      ensures (oldCallBack, oldUserData, State()) == Profilers.SetSyncCallBack(old(State()), cb, userData)
      ensures Valid()
    {
      oldCallBack := syncCallBack;
      oldUserData := syncCallBackData;
      syncCallBack := cb;
      syncCallBackData := userData;
    }

    /** `AdvancedTimer::clear`. */
    method Clear()
      requires Valid()
      modifies this
      ensures State() == Profilers.Clear(old(State()))
      ensures Valid()
    {
      curRecords := None;
      while curTimer != []
        invariant timers == old(timers) && snaps == old(snaps) && curRecords.None?
        invariant syncCallBack == old(syncCallBack) && syncCallBackData == old(syncCallBackData)
        invariant syncCalls == old(syncCalls)
        decreases |curTimer|
      {
        curTimer := curTimer[..|curTimer| - 1];
      }
      timers := map[];
      snaps := map[];
    }

    /** `if (syncCallBack) (*syncCallBack)(syncCallBackData)`. */
    method CallSync()
      modifies this`syncCalls
      ensures syncCalls == Profilers.Sync(old(State())).syncCalls
    {
      if syncCallBack != 0 {
        syncCalls := syncCalls + [Profilers.SyncCall(syncCallBack, syncCallBackData)];
      }
    }

    /** Every entry other than `id` is the object of its own key and holds its snapshot. */
    ghost predicate CoupledBesides(id: nat)
      reads this`timers, this`snaps, timers.Values
    {
      forall k :: k in timers && k != id ==> k in snaps && timers[k].id == k && timers[k].Snapshot() == snaps[k]
    }

    /** `if (!data.id) data.init(id)` on an object no other key maps to. */
    method InitEntry(data: TimerData, id: nat, envInterval: int)
      requires CoupledBesides(id) && data.Valid()
      requires forall k :: k in timers && k != id ==> timers[k] != data
      modifies data
      ensures CoupledBesides(id) && data.Valid()
      ensures data.Snapshot() == Profilers.Initialise(old(data.Snapshot()), id, envInterval)
    {
      if data.id == 0 {
        data.Init(id, envInterval);
      }
    }

    /** `if (!data.id) data.init(id)` on the entry `data` of `id`, which no other key maps to,
        then the entry stored under `id`. */
    method Install(data: TimerData, id: nat, envInterval: int)
      requires Coupled() && data.Valid() && data.Snapshot() == Profilers.TimerAt(snaps, id)
      requires (id in timers ==> timers[id] == data) && forall k :: k in timers && k != id ==> timers[k] != data
      modifies this`timers, this`snaps, data
      ensures State() == Profilers.Opened(old(State()), id, envInterval)
      ensures Coupled() && data.Valid() && id in timers && timers[id] == data
    {
      InitEntry(data, id, envInterval);
      Store(data, id);
    }

    /** Stores `data` under `id`, the key it carries. */
    method Store(data: TimerData, id: nat)
      requires CoupledBesides(id) && timers.Keys == snaps.Keys && data.id == id
      modifies this`timers, this`snaps
      ensures timers == old(timers)[id := data] && snaps == old(snaps)[id := data.Snapshot()]
      ensures Coupled()
    {
      timers, snaps := timers[id := data], snaps[id := data.Snapshot()];
    }

    /** `TimerData& data = timers[id]; if (!data.id) data.init(id)`: the entry of `id`,
        created if there is none, named and given its interval if it has no identifier yet. */
    method Open(id: nat, envInterval: int) returns (data: TimerData)
      requires Coupled() && (id in snaps ==> Profilers.TimerOk(id, snaps[id]))
      modifies this`timers, this`snaps, timers.Values
      ensures State() == Profilers.Opened(old(State()), id, envInterval)
      ensures Coupled() && data.Valid()
      ensures id in timers && timers[id] == data && (data in old(timers.Values) || fresh(data))
    {
      if id in timers {
        data := timers[id];
        assert data.Snapshot() == snaps[id];
      } else {
        data := new TimerData();
      }
      Install(data, id, envInterval);
    }

    /** `curRecords->clear()`, the callback, `curRecords->push_back(Record(BEGIN, id))`. */
    method RestartLog(data: TimerData, id: nat, now: int)
      requires Coupled() && id in timers && timers[id] == data && data.Valid()
      modifies this`syncCalls, this`snaps, data
      ensures State() == Profilers.Restarted(old(State()), id, now)
      ensures Coupled()
    {
      data.ClearLog();
      CallSync();
      data.Append([Record(now, RBegin, id, 0, 0.0)]);
      assert [] + [Record(now, RBegin, id, 0, 0.0)] == [Record(now, RBegin, id, 0, 0.0)];
      snaps := snaps[id := data.Snapshot()];
    }

    /** The rest of `begin(id)`: push `id` on the stack; then with interval 0, no current
        log; otherwise the log of `id` becomes current and is restarted. */
    method StartTimer(data: TimerData, id: nat, now: int)
      requires Coupled() && id in timers && timers[id] == data && data.Valid()
      modifies this`curTimer, this`curRecords, this`syncCalls, this`snaps, data
      ensures State() == Profilers.Started(old(State()), id, now).(curTimer := old(curTimer) + [id])
      ensures Coupled()
    {
      curTimer := curTimer + [id];
      if data.interval == 0 {
        curRecords := None;
      } else {
        curRecords := Some(id);
        RestartLog(data, id, now);
      }
    }

    /** `begin(id)` at time `now`; `envInterval` stands for what `init` reads from the
        environment. */
    method Begin(id: nat, now: int, envInterval: int)
      requires Valid()
      modifies this, timers.Values
      ensures State() == Profilers.Begin(old(State()), id, now, envInterval)
      ensures Valid()
    {
      Profilers.BeginWellFormed(State(), id, now, envInterval);
      if id in snaps {
        assert Profilers.TimerOk(id, State().timers[id]);
      }
      var data := Open(id, envInterval);
      StartTimer(data, id, now);
    }

    /** What `end` does to the timer it closes when a log is current: append the end
        record, process, and print and clear once the counter reaches the interval. */
    static method CloseIteration(data: TimerData, id: nat, now: int)
      requires data.Valid() && data.interval != 0
      modifies data
      ensures data.Valid()
      ensures data.Snapshot() == Profilers.CloseIteration(old(data.Snapshot()), id, now)
    {
      data.Append([Record(now, REnd, id, 0, 0.0)]);
      data.Process();
      if data.nbIter == data.interval {
        data.Print();
        data.Clear();
      }
    }

    /** The closing of the iteration on the entry `data` of `id`, which no other key maps to. */
    method CloseEntry(data: TimerData, id: nat, now: int)
      requires Coupled() && id in timers && timers[id] == data && data.Valid() && data.interval != 0
      requires forall k :: k in timers && k != id ==> timers[k] != data
      modifies this`snaps, data
      ensures snaps == old(snaps)[id := Profilers.CloseIteration(old(snaps[id]), id, now)]
      ensures Coupled()
    {
      CloseIteration(data, id, now);
      snaps := snaps[id := data.Snapshot()];
    }

    /** The part of `end(id)` that runs while the log of `id` is current: the callback, then
        the closing of the iteration. */
    method CloseTop(id: nat, now: int)
      requires Valid() && curRecords == Some(id)
      modifies this`syncCalls, this`snaps, timers.Values
      ensures State() == Profilers.Closed(old(State()), id, now)
      ensures Valid()
    {
      Profilers.ClosedWellFormed(State(), id, now);
      EntryValid(id);
      var data := timers[id];
      CallSync();
      CloseEntry(data, id, now);
    }

    /** The last part of `end`: `curTimer.pop()`, then `curRecords` is the log of the new top
        timer if its interval is non-zero, else NULL. */
    method PopTimer()
      requires Valid() && curTimer != []
      modifies this`curTimer, this`curRecords
      ensures State() == Profilers.Pop(old(State()))
      ensures Valid()
    {
      Profilers.PopWellFormed(State());
      curTimer := curTimer[..|curTimer| - 1];
      if curTimer == [] {
        curRecords := None;
      } else {
        var top := timers[curTimer[|curTimer| - 1]];
        curRecords := if top.interval != 0 then Some(curTimer[|curTimer| - 1]) else None;
      }
    }

    /** `end(id)` at time `now`. The error messages of a call that does not match are not
        modelled. */
    method End(id: nat, now: int)
      requires Valid()
      modifies this, timers.Values
      ensures State() == Profilers.End(old(State()), id, now)
      ensures Valid()
    {
      if curTimer == [] {
        return;
      }
      if id != curTimer[|curTimer| - 1] {
        return;
      }
      if curRecords.Some? {
        CloseTop(id, now);
      }
      PopTimer();
    }

    /** `curRecords->push_back(r)` for each `r` of `rs` in turn. */
    method Push(rs: seq<Record>)
      requires Valid() && curRecords.Some?
      modifies this`snaps, timers.Values
      ensures State() == Profilers.Log(old(State()), rs, false)
      ensures Valid() && timers == old(timers)
    {
      Profilers.LogWellFormed(State(), rs, false);
      var k := curRecords.value;
      var data := timers[k];
      EntryValid(k);
      data.Append(rs);
      snaps := snaps[k := data.Snapshot()];
    }

    /** `stepBegin(id)` and `stepBegin(id, obj)`. */
    method StepBegin(id: nat, obj: nat, now: int)
      requires Valid()
      modifies this, timers.Values
      ensures State() == Profilers.StepBegin(old(State()), id, obj, now)
      ensures Valid()
    {
      if curRecords.None? {
        return;
      }
      Push([Record(now, RStepBegin, id, obj, 0.0)]);
    }

    /** `stepEnd(id)`. */
    method StepEnd(id: nat, now: int)
      requires Valid()
      modifies this, timers.Values
      ensures State() == Profilers.StepEnd(old(State()), id, now)
      ensures Valid()
    {
      if curRecords.None? {
        return;
      }
      CallSync();
      Push([Record(now, RStepEnd, id, 0, 0.0)]);
    }

    /** `stepEnd(id, obj)`: unlike `stepEnd(id)`, without the callback. */
    method StepEndOn(id: nat, obj: nat, now: int)
      requires Valid()
      modifies this, timers.Values
      ensures State() == Profilers.StepEndOn(old(State()), id, obj, now)
      ensures Valid()
    {
      if curRecords.None? {
        return;
      }
      Push([Record(now, RStepEnd, id, obj, 0.0)]);
    }

    /** `stepNext(prevId, nextId)`. */
    method StepNext(prevId: nat, nextId: nat, now: int)
      requires Valid()
      modifies this, timers.Values
      ensures State() == Profilers.StepNext(old(State()), prevId, nextId, now)
      ensures Valid()
    {
      if curRecords.None? {
        return;
      }
      CallSync();
      Push([Record(now, RStepEnd, prevId, 0, 0.0), Record(now, RStepBegin, nextId, 0, 0.0)]);
    }

    /** `step(id)` and `step(id, obj)`. */
    method Step(id: nat, obj: nat, now: int)
      requires Valid()
      modifies this, timers.Values
      ensures State() == Profilers.Step(old(State()), id, obj, now)
      ensures Valid()
    {
      if curRecords.None? {
        return;
      }
      CallSync();
      Push([Record(now, RStep, id, obj, 0.0)]);
    }

    /** `valSet(id, val)`. */
    method ValSet(id: nat, v: real, now: int)
      requires Valid()
      modifies this, timers.Values
      ensures State() == Profilers.ValSet(old(State()), id, v, now)
      ensures Valid()
    {
      if curRecords.None? {
        return;
      }
      Push([Record(now, RValSet, id, 0, v)]);
    }

    /** `valAdd(id, val)`. */
    method ValAdd(id: nat, v: real, now: int)
      requires Valid()
      modifies this, timers.Values
      ensures State() == Profilers.ValAdd(old(State()), id, v, now)
      ensures Valid()
    {
      if curRecords.None? {
        return;
      }
      Push([Record(now, RValAdd, id, 0, v)]);
    }
  }
}
