/** The statistics kept by `TimerData` and a functional description of
    `TimerData::process` and `TimerData::clear`. The class `TimerData` runs the same
    computation in place and is proved equal to these functions. */
module TimerStats {
  import opened Basics
  import opened Records

  /** `TimerData::StepData`: durations are integer clock ticks. */
  datatype StepData = StepData(
    level: int, num: int, numIt: int, tstart: int, tmin: int, tmax: int,
    ttotal: int, ttotal2: int, lastIt: int, lastTime: int)

  /** A default-constructed `StepData`. */
  const NewStepData := StepData(0, 0, 0, 0, 0, 0, 0, 0, -1, 0)

  /** `TimerData::ValData`; the C++ doubles are reals here. */
  datatype ValData = ValData(
    num: int, numIt: int, vmin: real, vmax: real, vtotal: real, vtotal2: real,
    vtotalIt: real, lastIt: int)

  /** A default-constructed `ValData`. */
  const NewValData := ValData(0, 0, 0.0, 0.0, 0.0, 0.0, 0.0, -1)

  /** `stepData[id]` of a `std::map`: the stored entry, or a default one. */
  function StepAt(m: map<nat, StepData>, id: nat): StepData
  {
    if id in m then m[id] else NewStepData
  }

  /** `valData[id]`: the stored entry, or a default one. */
  function ValAt(m: map<nat, ValData>, id: nat): ValData
  {
    if id in m then m[id] else NewValData
  }

  /** The statistics fields of one `TimerData`: the iteration counter, the per-step and
      per-value statistics and the first-seen order of their identifiers. */
  datatype Stats = Stats(
    nbIter: int,
    stepData: map<nat, StepData>, steps: seq<nat>,
    valData: map<nat, ValData>, vals: seq<nat>)

  /** The statistics of a freshly constructed `TimerData` (`nbIter(-1)`). */
  const NewStats := Stats(-1, map[], [], map[], [])

  /** The variables updated by the record loop of `process`: the nesting level and the
      statistics being accumulated. */
  datatype FoldState = FoldState(
    level: int,
    stepData: map<nat, StepData>, steps: seq<nat>,
    valData: map<nat, ValData>, vals: seq<nat>)

  /** The entry of a step after a begin, step-begin or instantaneous step record at
      relative time `t` and nesting level `level`. */
  function StartStep(d: StepData, level: int, t: int, nbIter: int): StepData
  {
    var d0 := d.(level := level);
    var d1 := if d0.lastIt != nbIter
              then d0.(lastIt := nbIter, tstart := d0.tstart + t, numIt := d0.numIt + 1)
              else d0;
    d1.(lastTime := t, num := d1.num + 1)
  }

  /** A begin, step-begin or instantaneous step record for step `id`: a step seen for the
      first time is appended to `steps`. */
  function FoldStepStart(st: FoldState, id: nat, t: int, nbIter: int): FoldState
  {
    var steps := if id in st.stepData then st.steps else st.steps + [id];
    st.(stepData := st.stepData[id := StartStep(StepAt(st.stepData, id), st.level, t, nbIter)],
        steps := steps)
  }

  /** The entry of a step after an end or step-end record at relative time `t`: the
      duration since the last start is folded in only when that start belongs to this
      iteration. */
  function StopStep(d: StepData, t: int, nbIter: int): StepData
  {
    if d.lastIt == nbIter then
      var dur := t - d.lastTime;
      d.(ttotal := d.ttotal + dur, ttotal2 := d.ttotal2 + dur * dur,
         tmax := if d.num == 1 || dur > d.tmax then dur else d.tmax,
         tmin := if d.num == 1 || dur < d.tmin then dur else d.tmin)
    else d
  }

  /** An end or step-end record for step `id`. The entry is created even when the step
      was never begun, but it is not added to `steps`. */
  function FoldStepStop(st: FoldState, id: nat, t: int, nbIter: int): FoldState
  {
    st.(stepData := st.stepData[id := StopStep(StepAt(st.stepData, id), t, nbIter)])
  }

  /** The vmin/vmax update of the running per-iteration aggregate `vtotalIt`. */
  function FoldMinMax(d: ValData): ValData
  {
    d.(vmin := if d.num == 1 || d.vtotalIt < d.vmin then d.vtotalIt else d.vmin,
       vmax := if d.num == 1 || d.vtotalIt > d.vmax then d.vtotalIt else d.vmax)
  }

  /** The entry of a value after a set (`isSet`) or add record carrying `v`: the first
      event of an iteration and every set restart the per-iteration aggregate `vtotalIt`,
      a later add accumulates onto it. */
  function SampleVal(d: ValData, isSet: bool, v: real, nbIter: int): ValData
  {
    var d1 := if isSet || d.lastIt != nbIter then FoldMinMax(d) else d;
    if d1.lastIt != nbIter then
      d1.(lastIt := nbIter, vtotalIt := v, vtotal := d1.vtotal + v,
          vtotal2 := d1.vtotal2 + v * v, numIt := d1.numIt + 1, num := d1.num + 1)
    else if isSet then
      d1.(vtotalIt := v, vtotal := d1.vtotal + v, vtotal2 := d1.vtotal2 + v * v,
          num := d1.num + 1)
    else
      d1.(vtotalIt := d1.vtotalIt + v, vtotal := d1.vtotal + v,
          vtotal2 := d1.vtotal2 + v * v)
  }

  /** A set or add record of value `id`: a value seen for the first time is appended to
      `vals`. */
  function FoldValue(st: FoldState, id: nat, isSet: bool, v: real, nbIter: int): FoldState
  {
    var vals := if id in st.valData then st.vals else st.vals + [id];
    st.(valData := st.valData[id := SampleVal(ValAt(st.valData, id), isSet, v, nbIter)],
        vals := vals)
  }

  /** One iteration of the record loop of `process`; `t0` is the time of the first record. */
  function FoldRecord(st: FoldState, r: Record, t0: int, nbIter: int): FoldState
  {
    var t := r.time - t0;
    var s1 := if IsStepStop(r.kind) then st.(level := st.level - 1) else st;
    var s2 := if IsStepStart(r.kind) then FoldStepStart(s1, StepIdOf(r), t, nbIter)
              else if IsStepStop(r.kind) then FoldStepStop(s1, StepIdOf(r), t, nbIter)
              else if IsValue(r.kind) then FoldValue(s1, r.id, r.kind == RValSet, r.val, nbIter)
              else s1;
    if OpensLevel(r.kind) then s2.(level := s2.level + 1) else s2
  }

  /** The record loop over `recs`, in order. */
  function FoldLog(st: FoldState, recs: seq<Record>, t0: int, nbIter: int): FoldState
  {
    if |recs| == 0 then st
    else FoldRecord(FoldLog(st, recs[..|recs| - 1], t0, nbIter), recs[|recs| - 1], t0, nbIter)
  }

  /** The closing vmin/vmax update of one value after the record loop. */
  function CloseVal(d: ValData): ValData
  {
    if d.num > 0 then FoldMinMax(d) else d
  }

  /** The closing loop over `ids`, in order. */
  function FinalizeVals(vd: map<nat, ValData>, ids: seq<nat>): map<nat, ValData>
  {
    if |ids| == 0 then vd
    else
      var vd' := FinalizeVals(vd, ids[..|ids| - 1]);
      var x := ids[|ids| - 1];
      vd'[x := CloseVal(ValAt(vd', x))]
  }

  /** `TimerData::process` on the log `recs`. */
  function Process(recs: seq<Record>, s: Stats): Stats
  {
    if |recs| == 0 then s
    else if s.nbIter + 1 == 0 then s.(nbIter := 0)
    else
      var n := s.nbIter + 1;
      var f := FoldLog(FoldState(0, s.stepData, s.steps, s.valData, s.vals), recs, recs[0].time, n);
      Stats(n, f.stepData, f.steps, FinalizeVals(f.valData, f.vals), f.vals)
  }

  /** `TimerData::clear`. */
  const ClearedStats := Stats(0, map[], [], map[], [])

  /** Whether the `end` that processes `recs` prints the report (and clears). */
  predicate Reports(recs: seq<Record>, s: Stats, interval: int)
  {
    Process(recs, s).nbIter == interval
  }

  /** What `end` does to the statistics of the timer it closes: process the log, then
      print and clear when the iteration counter has reached the interval. */
  function EndIteration(recs: seq<Record>, s: Stats, interval: int): Stats
  {
    if Reports(recs, s, interval) then ClearedStats else Process(recs, s)
  }

  /** Consistency of one step entry; `lastIt` never runs ahead of the iteration counter. */
  ghost predicate StepOk(d: StepData, nbIter: int)
  {
    d.tmin <= d.tmax && 0 <= d.numIt <= d.num && d.lastIt <= nbIter
  }

  /** Consistency of one value entry. */
  ghost predicate ValOk(d: ValData, nbIter: int)
  {
    d.vmin <= d.vmax && 0 <= d.numIt <= d.num && d.lastIt <= nbIter
  }

  /** The invariant `TimerData` keeps: the identifier lists have no repetition, every listed
      step has an entry, the listed values are exactly the value entries, every entry is
      consistent, and nothing is recorded before the first counted iteration. */
  ghost predicate StatsInv(s: Stats)
  {
    && s.nbIter >= -1
    && NoDup(s.steps)
    && (forall i :: 0 <= i < |s.steps| ==> s.steps[i] in s.stepData)
    && NoDup(s.vals)
    && (forall x :: x in s.valData <==> x in s.vals)
    && (forall x :: x in s.stepData ==> StepOk(s.stepData[x], s.nbIter))
    && (forall x :: x in s.valData ==> ValOk(s.valData[x], s.nbIter))
    && (s.nbIter <= 0 ==> s.stepData == map[] && s.steps == [] && s.valData == map[] && s.vals == [])
  }
}
