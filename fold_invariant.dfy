/** `TimerData::process` and `TimerData::clear` keep the statistics consistent. */
module FoldInvariant {
  import opened Basics
  import opened Records
  import opened TimerStats

  /** The invariant of the record loop for iteration `n`. */
  ghost predicate FoldInv(st: FoldState, n: int)
  {
    && n >= 1
    && NoDup(st.steps)
    && (forall i :: 0 <= i < |st.steps| ==> st.steps[i] in st.stepData)
    && NoDup(st.vals)
    && (forall x :: x in st.valData <==> x in st.vals)
    && (forall x :: x in st.stepData ==> StepOk(st.stepData[x], n))
    && (forall x :: x in st.valData ==> ValOk(st.valData[x], n))
  }

  lemma StepStartInv(st: FoldState, id: nat, t: int, n: int)
    requires FoldInv(st, n)
    ensures FoldInv(FoldStepStart(st, id, t, n), n)
  {
    var st' := FoldStepStart(st, id, t, n);
    if id !in st.stepData {
      forall i, j | 0 <= i < j < |st'.steps| ensures st'.steps[i] != st'.steps[j] {
        if j == |st.steps| {
          assert st.steps[i] in st.stepData;
        }
      }
    }
  }

  lemma StepStopInv(st: FoldState, id: nat, t: int, n: int)
    requires FoldInv(st, n)
    ensures FoldInv(FoldStepStop(st, id, t, n), n)
  {
    assert StepOk(StepAt(st.stepData, id), n);
  }

  lemma ValueInv(st: FoldState, id: nat, isSet: bool, v: real, n: int)
    requires FoldInv(st, n)
    ensures FoldInv(FoldValue(st, id, isSet, v, n), n)
  {
    var st' := FoldValue(st, id, isSet, v, n);
    if id !in st.valData {
      forall i, j | 0 <= i < j < |st'.vals| ensures st'.vals[i] != st'.vals[j] {
        if j == |st.vals| {
          assert st.vals[i] in st.valData;
        }
      }
    }
  }

  lemma FoldRecordInv(st: FoldState, r: Record, t0: int, n: int)
    requires FoldInv(st, n)
    ensures FoldInv(FoldRecord(st, r, t0, n), n)
  {
    var s1 := if IsStepStop(r.kind) then st.(level := st.level - 1) else st;
    var t := r.time - t0;
    if IsStepStart(r.kind) {
      StepStartInv(s1, StepIdOf(r), t, n);
    } else if IsStepStop(r.kind) {
      StepStopInv(s1, StepIdOf(r), t, n);
    } else if IsValue(r.kind) {
      ValueInv(s1, r.id, r.kind == RValSet, r.val, n);
    }
  }

  /** The record loop keeps the invariant. */
  lemma {:induction false} FoldLogInv(st: FoldState, recs: seq<Record>, t0: int, n: int)
    requires FoldInv(st, n)
    ensures FoldInv(FoldLog(st, recs, t0, n), n)
  {
    if |recs| > 0 {
      FoldLogInv(st, recs[..|recs| - 1], t0, n);
      FoldRecordInv(FoldLog(st, recs[..|recs| - 1], t0, n), recs[|recs| - 1], t0, n);
    }
  }

  /** The closing loop only touches listed values, keeps the keys and the entries consistent. */
  lemma {:induction false} FinalizeValsInv(vd: map<nat, ValData>, ids: seq<nat>, n: int)
    requires forall x :: x in vd ==> ValOk(vd[x], n)
    requires forall i :: 0 <= i < |ids| ==> ids[i] in vd
    ensures FinalizeVals(vd, ids).Keys == vd.Keys
    ensures forall x :: x in vd ==> ValOk(FinalizeVals(vd, ids)[x], n)
  {
    if |ids| > 0 {
      FinalizeValsInv(vd, ids[..|ids| - 1], n);
    }
  }

  /** `process` keeps the statistics invariant. */
  lemma ProcessInv(recs: seq<Record>, s: Stats)
    requires StatsInv(s)
    ensures StatsInv(Process(recs, s))
  {
    if |recs| > 0 && s.nbIter + 1 != 0 {
      var n := s.nbIter + 1;
      var st := FoldState(0, s.stepData, s.steps, s.valData, s.vals);
      assert FoldInv(st, n) by {
        assert forall x :: x in s.stepData ==> StepOk(s.stepData[x], s.nbIter);
      }
      FoldLogInv(st, recs, recs[0].time, n);
      var f := FoldLog(st, recs, recs[0].time, n);
      FinalizeValsInv(f.valData, f.vals, n);
    }
  }

  /** The fold state a counted iteration of `process` starts from. */
  function StartState(s: Stats): FoldState
  {
    FoldState(0, s.stepData, s.steps, s.valData, s.vals)
  }

  /** Consistent statistics with a counter of at least 0 are a valid start for the record
      loop of the next iteration, every entry lying behind it. */
  lemma StartInv(s: Stats)
    requires StatsInv(s) && s.nbIter >= 0
    ensures FoldInv(StartState(s), s.nbIter + 1)
    ensures forall y :: y in s.stepData ==> s.stepData[y].lastIt < s.nbIter + 1
    ensures forall y :: y in s.valData ==> s.valData[y].lastIt < s.nbIter + 1
  {
    assert forall y :: y in s.stepData ==> StepOk(s.stepData[y], s.nbIter);
    assert forall y :: y in s.valData ==> ValOk(s.valData[y], s.nbIter);
  }

  /** A counted iteration of `process` keeps the loop invariant, and its result is the
      loop's outcome after the closing loop. */
  lemma CountedIteration(recs: seq<Record>, s: Stats)
    requires StatsInv(s) && s.nbIter >= 0 && recs != []
    ensures var n := s.nbIter + 1;
      var f := FoldLog(StartState(s), recs, recs[0].time, n);
      && FoldInv(f, n)
      && Process(recs, s) == Stats(n, f.stepData, f.steps, FinalizeVals(f.valData, f.vals), f.vals)
  {
    StartInv(s);
    FoldLogInv(StartState(s), recs, recs[0].time, s.nbIter + 1);
  }

  /** `clear` establishes the invariant. */
  lemma ClearedInv()
    ensures StatsInv(ClearedStats)
  {
  }

  /** What `end` does to the statistics keeps the invariant. */
  lemma EndIterationInv(recs: seq<Record>, s: Stats, interval: int)
    requires StatsInv(s)
    ensures StatsInv(EndIteration(recs, s, interval))
  {
    ProcessInv(recs, s);
  }
}
