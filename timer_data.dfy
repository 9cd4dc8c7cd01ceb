/** `TimerData`: one timer's log, configuration and accumulated statistics. */
module TimerDatas {
  import opened Records
  import opened TimerStats
  import FoldInvariant

  /** The observable state of a `TimerData`; `printed` counts the reports `print` wrote. */
  datatype TimerSnap = TimerSnap(id: nat, records: seq<Record>, interval: int, stats: Stats, printed: nat)

  /** The state of a freshly constructed `TimerData`. */
  const NewTimerSnap := TimerSnap(0, [], 0, NewStats, 0)

  class TimerData {
    var id: nat
    var records: seq<Record>
    var nbIter: int
    var interval: int
    var stepData: map<nat, StepData>
    var steps: seq<nat>
    var valData: map<nat, ValData>
    var vals: seq<nat>
    /** How many reports `print` has written for this timer. */
    ghost var reports: nat

    function Statistics(): Stats
      reads this
    {
      Stats(nbIter, stepData, steps, valData, vals)
    }

    ghost function Snapshot(): TimerSnap
      reads this
    {
      TimerSnap(id, records, interval, Statistics(), reports)
    }

    ghost predicate Valid()
      reads this
    {
      StatsInv(Statistics())
    }

    /** `TimerData()`: `nbIter(-1), interval(0)`, no records, no statistics. */
    constructor ()
      ensures Valid() && Snapshot() == NewTimerSnap
    {
      id := 0;
      records := [];
      nbIter := -1;
      interval := 0;
      stepData := map[];
      steps := [];
      valData := map[];
      vals := [];
      reports := 0;
    }

    /** `init`: names the timer and sets its interval. The environment lookup
        (`getenv`/`atoi`) is the caller's `envInterval`. */
    method Init(timerId: nat, envInterval: int)
      requires Valid()
      modifies this
      ensures Valid()
      ensures Snapshot() == old(Snapshot()).(id := timerId, interval := envInterval)
    {
      id := timerId;
      interval := envInterval;
    }

    /** `TimerData::clear`: restarts the statistics; the log is kept. */
    method Clear()
      requires Valid()
      modifies this
      ensures Valid()
      ensures Snapshot() == old(Snapshot()).(stats := ClearedStats)
    {
      nbIter := 0;
      steps := [];
      stepData := map[];
      vals := [];
      valData := map[];
    }

    /** The loop variables of `process` as a fold state, the level being a local. */
    function FoldView(level: int): FoldState
      reads this
    {
      FoldState(level, stepData, steps, valData, vals)
    }

    /** Fields that the record loop of `process` leaves alone. */
    ghost predicate SameFrame(other: TimerSnap, n: int, r: nat)
      reads this
    {
      records == other.records && id == other.id && interval == other.interval
      && nbIter == n && reports == r
    }

    /** The begin / step-begin / step branch of the record loop (lines 408-426). */
    method FoldStart(sid: nat, t: int, level: int)
      modifies this
      ensures SameFrame(old(Snapshot()), old(nbIter), old(reports))
      ensures FoldView(level) == FoldStepStart(old(FoldView(level)), sid, t, nbIter)
    {
      if sid !in stepData {
        steps := steps + [sid];
      }
      var data := StepAt(stepData, sid);
      data := data.(level := level);
      if data.lastIt != nbIter {
        data := data.(lastIt := nbIter, tstart := data.tstart + t, numIt := data.numIt + 1);
      }
      data := data.(lastTime := t, num := data.num + 1);
      stepData := stepData[sid := data];
    }

    /** The end / step-end branch of the record loop (lines 428-442). */
    method FoldStop(sid: nat, t: int, level: int)
      modifies this
      ensures SameFrame(old(Snapshot()), old(nbIter), old(reports))
      ensures FoldView(level) == FoldStepStop(old(FoldView(level)), sid, t, nbIter)
    {
      var data := StepAt(stepData, sid);
      if data.lastIt == nbIter {
        var dur := t - data.lastTime;
        data := data.(ttotal := data.ttotal + dur, ttotal2 := data.ttotal2 + dur * dur);
        if data.num == 1 || dur > data.tmax {
          data := data.(tmax := dur);
        }
        if data.num == 1 || dur < data.tmin {
          data := data.(tmin := dur);
        }
      }
      stepData := stepData[sid := data];
    }

    /** The value set / add branch of the record loop (lines 444-479). */
    method FoldVal(vid: nat, isSet: bool, v: real, level: int)
      modifies this
      ensures SameFrame(old(Snapshot()), old(nbIter), old(reports))
      ensures FoldView(level) == FoldValue(old(FoldView(level)), vid, isSet, v, nbIter)
    {
      if vid !in valData {
        vals := vals + [vid];
      }
      var data := ValAt(valData, vid);
      ghost var d0 := data;
      if isSet || data.lastIt != nbIter {
        if data.num == 1 || data.vtotalIt < data.vmin {
          data := data.(vmin := data.vtotalIt);
        }
        if data.num == 1 || data.vtotalIt > data.vmax {
          data := data.(vmax := data.vtotalIt);
        }
      }
      if data.lastIt != nbIter {
        data := data.(lastIt := nbIter, vtotalIt := v, vtotal := data.vtotal + v,
                      vtotal2 := data.vtotal2 + v * v, numIt := data.numIt + 1, num := data.num + 1);
      } else if isSet {
        data := data.(vtotalIt := v, vtotal := data.vtotal + v,
                      vtotal2 := data.vtotal2 + v * v, num := data.num + 1);
      } else {
        data := data.(vtotalIt := data.vtotalIt + v, vtotal := data.vtotal + v,
                      vtotal2 := data.vtotal2 + v * v);
      }
      valData := valData[vid := data];
      assert data == SampleVal(d0, isSet, v, nbIter);
    }

    /** One pass of the closing loop (lines 488-495). */
    method CloseValue(vid: nat)
      modifies this
      ensures SameFrame(old(Snapshot()), old(nbIter), old(reports))
      ensures steps == old(steps) && stepData == old(stepData) && vals == old(vals)
      ensures valData == old(valData)[vid := CloseVal(ValAt(old(valData), vid))]
    {
      var data := ValAt(valData, vid);
      if data.num > 0 {
        if data.num == 1 || data.vtotalIt < data.vmin {
          data := data.(vmin := data.vtotalIt);
        }
        if data.num == 1 || data.vtotalIt > data.vmax {
          data := data.(vmax := data.vtotalIt);
        }
      }
      valData := valData[vid := data];
    }

    /** One iteration of the record loop (lines 400-483); returns the new level. */
    method FoldOne(r: Record, t0: int, level: int) returns (level': int)
      modifies this
      ensures SameFrame(old(Snapshot()), old(nbIter), old(reports))
      ensures FoldView(level') == FoldRecord(old(FoldView(level)), r, t0, nbIter)
    {
      var t := r.time - t0;
      level' := level;
      if r.kind == REnd || r.kind == RStepEnd {
        level' := level' - 1;
      }
      if r.kind == RBegin || r.kind == RStepBegin || r.kind == RStep {
        FoldStart(if r.kind != RBegin then r.id else 0, t, level');
      } else if r.kind == REnd || r.kind == RStepEnd {
        FoldStop(if r.kind != REnd then r.id else 0, t, level');
      } else if r.kind == RValSet || r.kind == RValAdd {
        FoldVal(r.id, r.kind == RValSet, r.val, level');
      }
      if r.kind == RBegin || r.kind == RStepBegin {
        level' := level' + 1;
      }
    }

    /** The record loop of `process` (lines 395-484) for iteration `nbIter`. */
    method FoldRecords()
      requires |records| > 0
      modifies this
      ensures SameFrame(old(Snapshot()), old(nbIter), old(reports))
      ensures FoldView(0) == FoldLog(old(FoldView(0)), records, records[0].time, nbIter).(level := 0)
    {
      var t0 := records[0].time;
      var level := 0;
      ghost var st0 := FoldView(0);
      var ri := 0;
      while ri < |records|
        invariant 0 <= ri <= |records|
        invariant SameFrame(old(Snapshot()), old(nbIter), old(reports))
        invariant FoldView(level) == FoldLog(st0, records[..ri], t0, nbIter)
      {
        level := FoldOne(records[ri], t0, level);
        assert records[..ri + 1][..ri] == records[..ri];
        ri := ri + 1;
      }
      assert records[..ri] == records;
    }

    /** The closing loop of `process` (lines 486-496). */
    method CloseValues()
      modifies this
      ensures SameFrame(old(Snapshot()), old(nbIter), old(reports))
      ensures steps == old(steps) && stepData == old(stepData) && vals == old(vals)
      ensures valData == FinalizeVals(old(valData), vals)
    {
      var vi := 0;
      while vi < |vals|
        invariant 0 <= vi <= |vals|
        invariant SameFrame(old(Snapshot()), old(nbIter), old(reports))
        invariant steps == old(steps) && stepData == old(stepData) && vals == old(vals)
        invariant valData == FinalizeVals(old(valData), vals[..vi])
      {
        CloseValue(vals[vi]);
        assert vals[..vi + 1][..vi] == vals[..vi];
        vi := vi + 1;
      }
      assert vals[..vi] == vals;
    }

    /** A counted iteration of `process`: the counter moves on and the log is folded into
        the statistics. */
    method CountIteration()
      requires |records| > 0 && nbIter != -1
      modifies this
      ensures records == old(records) && id == old(id) && interval == old(interval)
      ensures reports == old(reports)
      ensures Statistics() == TimerStats.Process(records, old(Statistics()))
    {
      nbIter := nbIter + 1;
      FoldRecords();
      CloseValues();
    }

    /** `TimerData::process`: folds the log of the iteration just ended into the statistics. */
    method Process()
      requires Valid()
      modifies this
      ensures Valid()
      ensures Snapshot() == old(Snapshot()).(stats := TimerStats.Process(records, old(Statistics())))
    {
      FoldInvariant.ProcessInv(records, Statistics());
      if |records| == 0 {
        return;
      }
      if nbIter == -1 {
        nbIter := 0;
        return;
      }
      CountIteration();
    }

    /** `TimerData::print`: the report itself is output and is not modelled; only the
        fact that one more report was written is kept. */
    method Print()
      requires Valid()
      modifies this
      ensures Valid()
      ensures Snapshot() == old(Snapshot()).(printed := old(Snapshot()).printed + 1)
    {
      reports := reports + 1;
    }

    /** Appends `rs` to the log, as the recording calls do through `curRecords`. */
    method Append(rs: seq<Record>)
      requires Valid()
      modifies this
      ensures Valid()
      ensures Snapshot() == old(Snapshot()).(records := old(records) + rs)
    {
      records := records + rs;
    }

    /** Empties the log, as `begin` does through `curRecords->clear()`. */
    method ClearLog()
      requires Valid()
      modifies this
      ensures Valid()
      ensures Snapshot() == old(Snapshot()).(records := [])
    {
      records := [];
    }
  }
}
