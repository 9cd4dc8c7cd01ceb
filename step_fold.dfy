/** Properties of the per-step part of `TimerData::process`. */
module StepFold {
  import opened Basics
  import opened Records
  import opened TimerStats
  import opened FoldInvariant

  /** `r` is a begin-type or end-type record of step `x`. */
  predicate TouchesStep(r: Record, x: nat)
  {
    (IsStepStart(r.kind) || IsStepStop(r.kind)) && StepIdOf(r) == x
  }

  /** Number of records in `recs` that start an occurrence of step `x`. */
  function CountStarts(recs: seq<Record>, x: nat): nat
  {
    if |recs| == 0 then 0
    else
      var r := recs[|recs| - 1];
      CountStarts(recs[..|recs| - 1], x) + (if IsStepStart(r.kind) && StepIdOf(r) == x then 1 else 0)
  }

  /** Whether the first record of `recs` about step `x` starts it (`Some(true)`), stops it
      (`Some(false)`), or there is none (`None`). */
  function FirstTouch(recs: seq<Record>, x: nat): Option<bool>
  {
    if |recs| == 0 then None
    else
      var p := FirstTouch(recs[..|recs| - 1], x);
      var r := recs[|recs| - 1];
      if p.Some? then p
      else if TouchesStep(r, x) then Some(IsStepStart(r.kind))
      else None
  }

  /** A record that is not about step `x` leaves its entry and its listing alone. */
  lemma StepUntouched(st: FoldState, r: Record, t0: int, n: int, x: nat)
    requires !TouchesStep(r, x)
    ensures var st' := FoldRecord(st, r, t0, n);
      && StepAt(st'.stepData, x) == StepAt(st.stepData, x)
      && (x in st'.stepData <==> x in st.stepData)
      && (x in st'.steps <==> x in st.steps)
  {
  }

  lemma FoldRecordStepsGrow(st: FoldState, r: Record, t0: int, n: int)
    ensures st.steps <= FoldRecord(st, r, t0, n).steps
  {
  }

  /** `steps` only grows at its end, so identifiers keep their first-seen order: the list
      after any prefix of the log is a prefix of the final list. */
  lemma {:induction false} StepsPrefix(st: FoldState, recs: seq<Record>, k: nat, t0: int, n: int)
    requires k <= |recs|
    ensures FoldLog(st, recs[..k], t0, n).steps <= FoldLog(st, recs, t0, n).steps
  {
    if k < |recs| {
      var init := recs[..|recs| - 1];
      assert init[..k] == recs[..k];
      StepsPrefix(st, init, k, t0, n);
      FoldRecordStepsGrow(FoldLog(st, init, t0, n), recs[|recs| - 1], t0, n);
    } else {
      assert recs[..k] == recs;
    }
  }

  /** `num` of every step grows by one per begin, step-begin or step record of it. */
  lemma {:induction false} StepNum(st: FoldState, recs: seq<Record>, t0: int, n: int, x: nat)
    ensures StepAt(FoldLog(st, recs, t0, n).stepData, x).num
            == StepAt(st.stepData, x).num + CountStarts(recs, x)
  {
    if |recs| > 0 {
      var init := recs[..|recs| - 1];
      var r := recs[|recs| - 1];
      StepNum(st, init, t0, n, x);
      if !TouchesStep(r, x) {
        StepUntouched(FoldLog(st, init, t0, n), r, t0, n, x);
      }
    }
  }

  /** The time of the first record of `recs` that starts step `x`, if any. */
  function FirstStart(recs: seq<Record>, x: nat): Option<int>
  {
    if |recs| == 0 then None
    else
      var p := FirstStart(recs[..|recs| - 1], x);
      var r := recs[|recs| - 1];
      if p.None? && IsStepStart(r.kind) && StepIdOf(r) == x then Some(r.time) else p
  }

  /** In an iteration the step had not yet reached, `numIt` grows by one exactly when the
      step starts at least once, `lastIt` then records the iteration, and `tstart` grows by
      the time of the iteration's first start relative to its first record. */
  lemma {:induction false} StepIterations(st: FoldState, recs: seq<Record>, t0: int, n: int, x: nat)
    requires StepAt(st.stepData, x).lastIt != n
    ensures CountStarts(recs, x) > 0 <==> FirstStart(recs, x).Some?
    ensures var d := StepAt(FoldLog(st, recs, t0, n).stepData, x);
      && d.numIt == StepAt(st.stepData, x).numIt + (if CountStarts(recs, x) > 0 then 1 else 0)
      && d.lastIt == (if CountStarts(recs, x) > 0 then n else StepAt(st.stepData, x).lastIt)
      && d.tstart == StepAt(st.stepData, x).tstart
                     + (if FirstStart(recs, x).Some? then FirstStart(recs, x).value - t0 else 0)
  {
    if |recs| > 0 {
      var init := recs[..|recs| - 1];
      var r := recs[|recs| - 1];
      StepIterations(st, init, t0, n, x);
      if !TouchesStep(r, x) {
        StepUntouched(FoldLog(st, init, t0, n), r, t0, n, x);
      }
    }
  }

  /** A step gets an entry exactly when some record is about it. */
  lemma {:induction false} StepKeys(st: FoldState, recs: seq<Record>, t0: int, n: int, x: nat)
    ensures x in FoldLog(st, recs, t0, n).stepData <==> x in st.stepData || FirstTouch(recs, x).Some?
  {
    if |recs| > 0 {
      var init := recs[..|recs| - 1];
      var r := recs[|recs| - 1];
      StepKeys(st, init, t0, n, x);
      if !TouchesStep(r, x) {
        StepUntouched(FoldLog(st, init, t0, n), r, t0, n, x);
      }
    }
  }

  /** A step is listed in `steps` exactly when it was listed before, or it had no entry and
      the first record about it starts it. A step whose first record is an end gets an
      entry but is never listed (line 433). */
  lemma {:induction false} StepListed(st: FoldState, recs: seq<Record>, t0: int, n: int, x: nat)
    requires FoldInv(st, n)
    ensures x in FoldLog(st, recs, t0, n).steps
            <==> x in st.steps || (x !in st.stepData && FirstTouch(recs, x) == Some(true))
  {
    if |recs| > 0 {
      var init := recs[..|recs| - 1];
      var r := recs[|recs| - 1];
      var mid := FoldLog(st, init, t0, n);
      StepListed(st, init, t0, n, x);
      StepKeys(st, init, t0, n, x);
      FoldLogInv(st, init, t0, n);
      if !TouchesStep(r, x) {
        StepUntouched(mid, r, t0, n, x);
      } else if x in mid.steps {
        assert x in mid.stepData by {
          var i :| 0 <= i < |mid.steps| && mid.steps[i] == x;
        }
      }
    }
  }

  /** The root row: when the log starts with the timer's begin record and the previous
      statistics are consistent, the first listed step is the root step 0, and no entry
      exists before anything is listed. */
  ghost predicate RootFirst(s: Stats)
  {
    (s.steps == [] ==> s.stepData == map[]) && (s.steps != [] ==> s.steps[0] == 0)
  }

  lemma ProcessRootFirst(recs: seq<Record>, s: Stats)
    requires StatsInv(s) && RootFirst(s)
    requires recs != [] && recs[0].kind == RBegin
    ensures RootFirst(Process(recs, s))
  {
    if s.nbIter + 1 != 0 {
      var n := s.nbIter + 1;
      var t0 := recs[0].time;
      var st := FoldState(0, s.stepData, s.steps, s.valData, s.vals);
      StepsPrefix(st, recs, 1, t0, n);
      assert recs[..1][..0] == [];
      var first := FoldLog(st, recs[..1], t0, n);
      assert first.steps != [] && first.steps[0] == 0;
    }
  }

  /** Times never decrease along the log. */
  ghost predicate Monotone(recs: seq<Record>)
  {
    forall i, j :: 0 <= i < j < |recs| ==> recs[i].time <= recs[j].time
  }

  /** Every entry started in iteration `n` started at a relative time in `[0, bound]`. */
  ghost predicate StartsBefore(st: FoldState, n: int, bound: int)
  {
    forall y :: y in st.stepData && st.stepData[y].lastIt == n ==>
      0 <= st.stepData[y].lastTime <= bound
  }

  /** From `a` to `b` no step lost total time, and a non-negative minimum stayed so. */
  ghost predicate Grows(a: map<nat, StepData>, b: map<nat, StepData>)
  {
    forall y ::
      && StepAt(b, y).ttotal >= StepAt(a, y).ttotal
      && StepAt(b, y).ttotal2 >= StepAt(a, y).ttotal2
      && (StepAt(a, y).tmin >= 0 ==> StepAt(b, y).tmin >= 0)
  }

  lemma StartDurations(st: FoldState, id: nat, t: int, n: int, bound: int)
    requires StartsBefore(st, n, bound) && bound <= t && 0 <= t
    ensures Grows(st.stepData, FoldStepStart(st, id, t, n).stepData)
    ensures StartsBefore(FoldStepStart(st, id, t, n), n, t)
  {
  }

  lemma StopDurations(st: FoldState, id: nat, t: int, n: int, bound: int)
    requires StartsBefore(st, n, bound) && bound <= t && n >= 0
    ensures Grows(st.stepData, FoldStepStop(st, id, t, n).stepData)
    ensures StartsBefore(FoldStepStop(st, id, t, n), n, t)
  {
    var f := FoldStepStop(st, id, t, n);
    assert StepAt(st.stepData, id).lastIt == n ==> StepAt(st.stepData, id).lastTime <= t;
    forall y ensures StepAt(f.stepData, y).tmin >= 0 || StepAt(st.stepData, y).tmin < 0 {
    }
  }

  lemma RecordDurations(st: FoldState, r: Record, t0: int, n: int, bound: int)
    requires StartsBefore(st, n, bound) && bound <= r.time - t0 && 0 <= r.time - t0 && n >= 0
    ensures Grows(st.stepData, FoldRecord(st, r, t0, n).stepData)
    ensures StartsBefore(FoldRecord(st, r, t0, n), n, r.time - t0)
  {
    var t := r.time - t0;
    var s1 := if IsStepStop(r.kind) then st.(level := st.level - 1) else st;
    var f := FoldRecord(st, r, t0, n);
    if IsStepStart(r.kind) {
      StartDurations(s1, StepIdOf(r), t, n, bound);
      assert f.stepData == FoldStepStart(s1, StepIdOf(r), t, n).stepData;
    } else if IsStepStop(r.kind) {
      StopDurations(s1, StepIdOf(r), t, n, bound);
      assert f.stepData == FoldStepStop(s1, StepIdOf(r), t, n).stepData;
    } else {
      assert f.stepData == st.stepData;
    }
  }

  /** With times that never decrease, every duration folded in is non-negative: `ttotal`
      and `ttotal2` never decrease and a non-negative `tmin` stays non-negative. */
  lemma {:induction false} MonotoneDurations(st: FoldState, recs: seq<Record>, t0: int, n: int)
    requires Monotone(recs) && n >= 0
    requires forall y :: y in st.stepData ==> st.stepData[y].lastIt != n
    requires |recs| > 0 ==> t0 <= recs[0].time
    ensures Grows(st.stepData, FoldLog(st, recs, t0, n).stepData)
    ensures |recs| > 0 ==> StartsBefore(FoldLog(st, recs, t0, n), n, recs[|recs| - 1].time - t0)
  {
    if |recs| > 0 {
      var init := recs[..|recs| - 1];
      var r := recs[|recs| - 1];
      assert Monotone(init);
      MonotoneDurations(st, init, t0, n);
      var mid := FoldLog(st, init, t0, n);
      if |init| > 0 {
        assert init[|init| - 1].time <= r.time && recs[0].time <= r.time;
        RecordDurations(mid, r, t0, n, init[|init| - 1].time - t0);
      } else {
        RecordDurations(mid, r, t0, n, 0);
      }
    }
  }

  /** Steps other than the root are the only ones touched by the records in between. */
  ghost predicate RootOnlyAtEnds(mid: seq<Record>)
  {
    forall i :: 0 <= i < |mid| ==> !TouchesStep(mid[i], 0)
  }

  lemma {:induction false} RootUntouchedBy(st: FoldState, mid: seq<Record>, t0: int, n: int)
    requires RootOnlyAtEnds(mid)
    ensures StepAt(FoldLog(st, mid, t0, n).stepData, 0) == StepAt(st.stepData, 0)
  {
    if |mid| > 0 {
      var init := mid[..|mid| - 1];
      assert RootOnlyAtEnds(init) by {
        forall i | 0 <= i < |init| ensures !TouchesStep(init[i], 0) {
          assert init[i] == mid[i];
        }
      }
      RootUntouchedBy(st, init, t0, n);
      StepUntouched(FoldLog(st, init, t0, n), mid[|mid| - 1], t0, n, 0);
    }
  }

  /** The root row spans the whole timer: for a log that opens with the timer's begin,
      closes with its end and has no other root record, a counted iteration adds exactly
      `end.time - begin.time` to the root's `ttotal`. */
  lemma RootSpan(recs: seq<Record>, s: Stats)
    requires StatsInv(s) && s.nbIter >= 0
    requires |recs| >= 2 && recs[0].kind == RBegin && recs[|recs| - 1].kind == REnd
    requires RootOnlyAtEnds(recs[1..|recs| - 1])
    ensures StepAt(Process(recs, s).stepData, 0).ttotal
            == StepAt(s.stepData, 0).ttotal + (recs[|recs| - 1].time - recs[0].time)
  {
    var n := s.nbIter + 1;
    var t0 := recs[0].time;
    var st := FoldState(0, s.stepData, s.steps, s.valData, s.vals);
    var m := |recs| - 1;
    var afterBegin := FoldLog(st, recs[..1], t0, n);
    assert recs[..1][..0] == [];
    assert FoldLog(st, recs[..1][..0], t0, n) == st;
    assert afterBegin == FoldRecord(st, recs[0], t0, n);
    assert StepAt(afterBegin.stepData, 0).lastIt == n && StepAt(afterBegin.stepData, 0).lastTime == 0
        && StepAt(afterBegin.stepData, 0).ttotal == StepAt(s.stepData, 0).ttotal by {
      assert 0 in s.stepData ==> StepOk(s.stepData[0], s.nbIter);
    }
    var mid := recs[1..m];
    ghost var front := recs[..m];
    assert FoldLog(st, front, t0, n) == FoldLog(afterBegin, mid, t0, n) by {
      FoldLogSplit(st, recs[..1], mid, t0, n);
      assert recs[..1] + mid == front;
    }
    RootUntouchedBy(afterBegin, mid, t0, n);
    assert recs[..m] == front;
  }

  /** Folding a concatenation is folding its parts in turn. */
  lemma {:induction false} FoldLogSplit(st: FoldState, a: seq<Record>, b: seq<Record>, t0: int, n: int)
    ensures FoldLog(st, a + b, t0, n) == FoldLog(FoldLog(st, a, t0, n), b, t0, n)
  {
    if |b| == 0 {
      assert a + b == a;
    } else {
      assert (a + b)[..|a + b| - 1] == a + b[..|b| - 1];
      FoldLogSplit(st, a, b[..|b| - 1], t0, n);
    }
  }

  /** Number of records in `recs` that raise the nesting level. */
  function CountOpens(recs: seq<Record>): nat
  {
    if |recs| == 0 then 0
    else CountOpens(recs[..|recs| - 1]) + (if OpensLevel(recs[|recs| - 1].kind) then 1 else 0)
  }

  /** Number of records in `recs` that lower the nesting level. */
  function CountCloses(recs: seq<Record>): nat
  {
    if |recs| == 0 then 0
    else CountCloses(recs[..|recs| - 1]) + (if IsStepStop(recs[|recs| - 1].kind) then 1 else 0)
  }

  /** The nesting level is the number of opened minus the number of closed occurrences. */
  lemma {:induction false} LevelCount(st: FoldState, recs: seq<Record>, t0: int, n: int)
    ensures FoldLog(st, recs, t0, n).level == st.level + CountOpens(recs) - CountCloses(recs)
  {
    if |recs| > 0 {
      LevelCount(st, recs[..|recs| - 1], t0, n);
    }
  }

  /** The time of the latest record of `recs` that starts step `x`, if any. */
  function LastStart(recs: seq<Record>, x: nat): Option<int>
  {
    if |recs| == 0 then None
    else
      var r := recs[|recs| - 1];
      if IsStepStart(r.kind) && StepIdOf(r) == x then Some(r.time)
      else LastStart(recs[..|recs| - 1], x)
  }

  /** The durations an iteration's log gives step `x`, in order: for every record that
      stops `x` after some start of `x`, its time minus the time of the latest such start.
      A stop with no start before it gives nothing; a second stop after the same start
      is measured from that start again. */
  function MatchedDurations(recs: seq<Record>, x: nat): seq<int>
  {
    if |recs| == 0 then []
    else
      var init := recs[..|recs| - 1];
      var r := recs[|recs| - 1];
      var p := LastStart(init, x);
      if IsStepStop(r.kind) && StepIdOf(r) == x && p.Some?
      then MatchedDurations(init, x) + [r.time - p.value]
      else MatchedDurations(init, x)
  }

  function Sum(ds: seq<int>): int
  {
    if |ds| == 0 then 0 else Sum(ds[..|ds| - 1]) + ds[|ds| - 1]
  }

  function SumSquares(ds: seq<int>): int
  {
    if |ds| == 0 then 0 else SumSquares(ds[..|ds| - 1]) + ds[|ds| - 1] * ds[|ds| - 1]
  }

  lemma SumAppend(ds: seq<int>, d: int)
    ensures Sum(ds + [d]) == Sum(ds) + d
    ensures SumSquares(ds + [d]) == SumSquares(ds) + d * d
  {
    assert (ds + [d])[..|ds|] == ds;
  }

  /** Entry `d` of step `x` after the records `recs` of iteration `n`, starting from `d0`
      (which lies behind `n`): untouched while `x` has not been started, otherwise marked
      with `n` and the relative time of the latest start, and its running totals grown
      by the matched durations and their squares. */
  ghost predicate StepSince(d: StepData, d0: StepData, recs: seq<Record>, x: nat, n: int, t0: int)
  {
    var p := LastStart(recs, x);
    && (p.None? ==> d == d0)
    && (p.Some? ==> d.lastIt == n && d.lastTime == p.value - t0)
    && d.ttotal == d0.ttotal + Sum(MatchedDurations(recs, x))
    && d.ttotal2 == d0.ttotal2 + SumSquares(MatchedDurations(recs, x))
  }

  /** A record about step `x` applies `StartStep` or `StopStep` to its entry. */
  lemma StepTouched(st: FoldState, r: Record, t0: int, n: int, x: nat)
    requires TouchesStep(r, x)
    ensures IsStepStart(r.kind) ==> StepAt(FoldRecord(st, r, t0, n).stepData, x)
                                    == StartStep(StepAt(st.stepData, x), st.level, r.time - t0, n)
    ensures IsStepStop(r.kind) ==> StepAt(FoldRecord(st, r, t0, n).stepData, x)
                                   == StopStep(StepAt(st.stepData, x), r.time - t0, n)
  {
  }

  /** The total and the total of squares a step accumulates over an iteration are the
      sum of its matched durations and of their squares. */
  lemma {:induction false} StepTotal(st: FoldState, recs: seq<Record>, t0: int, n: int, x: nat)
    requires StepAt(st.stepData, x).lastIt != n
    ensures StepSince(StepAt(FoldLog(st, recs, t0, n).stepData, x), StepAt(st.stepData, x), recs, x, n, t0)
  {
    if |recs| > 0 {
      var init := recs[..|recs| - 1];
      var r := recs[|recs| - 1];
      var before := FoldLog(st, init, t0, n);
      StepTotal(st, init, t0, n, x);
      if !TouchesStep(r, x) {
        StepUntouched(before, r, t0, n, x);
      } else {
        StepTouched(before, r, t0, n, x);
      }
      StepSinceStep(StepAt(before.stepData, x), StepAt(FoldLog(st, recs, t0, n).stepData, x),
                    StepAt(st.stepData, x), before.level, init, r, x, n, t0);
      assert init + [r] == recs;
    }
  }

  /** One more record keeps an entry the fold of the matched durations so far. */
  lemma StepSinceStep(b: StepData, a: StepData, d0: StepData, level: int, init: seq<Record>, r: Record,
                      x: nat, n: int, t0: int)
    requires StepSince(b, d0, init, x, n, t0) && d0.lastIt != n
    requires !TouchesStep(r, x) ==> a == b
    requires TouchesStep(r, x) && IsStepStart(r.kind) ==> a == StartStep(b, level, r.time - t0, n)
    requires TouchesStep(r, x) && IsStepStop(r.kind) ==> a == StopStep(b, r.time - t0, n)
    ensures StepSince(a, d0, init + [r], x, n, t0)
  {
    var recs := init + [r];
    assert recs[..|recs| - 1] == init && recs[|recs| - 1] == r;
    if TouchesStep(r, x) && IsStepStop(r.kind) && LastStart(init, x).Some? {
      SumAppend(MatchedDurations(init, x), r.time - LastStart(init, x).value);
    }
  }

  /** Over one counted iteration, the total time of every step grows by the sum of its
      matched durations and the total of squares by the sum of their squares. */
  lemma ProcessStepTotal(recs: seq<Record>, s: Stats, x: nat)
    requires StatsInv(s) && s.nbIter >= 0 && recs != []
    ensures var d := StepAt(Process(recs, s).stepData, x);
      && d.ttotal == StepAt(s.stepData, x).ttotal + Sum(MatchedDurations(recs, x))
      && d.ttotal2 == StepAt(s.stepData, x).ttotal2 + SumSquares(MatchedDurations(recs, x))
  {
    var n := s.nbIter + 1;
    assert StepAt(s.stepData, x).lastIt != n by {
      if x in s.stepData {
        assert StepOk(s.stepData[x], s.nbIter);
      }
    }
    var f := FoldLog(StartState(s), recs, recs[0].time, n);
    assert Process(recs, s).stepData == f.stepData;
    StepTotal(StartState(s), recs, recs[0].time, n, x);
    assert StepSince(StepAt(f.stepData, x), StepAt(s.stepData, x), recs, x, n, recs[0].time);
  }

  /** Over one counted iteration, a step started in it counts one more iteration and adds
      its first start, relative to the iteration's first record, to `tstart`; any other
      step keeps both. */
  lemma ProcessStepIterations(recs: seq<Record>, s: Stats, x: nat)
    requires StatsInv(s) && s.nbIter >= 0 && recs != []
    ensures var d := StepAt(Process(recs, s).stepData, x);
      var d0 := StepAt(s.stepData, x);
      && (CountStarts(recs, x) > 0 <==> FirstStart(recs, x).Some?)
      && d.numIt == d0.numIt + (if CountStarts(recs, x) > 0 then 1 else 0)
      && d.tstart == d0.tstart + (if FirstStart(recs, x).Some? then FirstStart(recs, x).value - recs[0].time else 0)
  {
    var n := s.nbIter + 1;
    assert StepAt(s.stepData, x).lastIt != n by {
      if x in s.stepData {
        assert StepOk(s.stepData[x], s.nbIter);
      }
    }
    var f := FoldLog(StartState(s), recs, recs[0].time, n);
    assert Process(recs, s).stepData == f.stepData;
    StepIterations(StartState(s), recs, recs[0].time, n, x);
  }

  /** What the bounds of step `x` are compared against over `recs`, for an entry whose
      `num` was `num0`: every matched duration in turn, where one folded while `num == 1`
      discards everything before it. The flag says whether that happened; if not, the
      entry's old bounds still take part. */
  function Compared(recs: seq<Record>, x: nat, num0: int): (bool, seq<int>)
  {
    if |recs| == 0 then (false, [])
    else
      var init := recs[..|recs| - 1];
      var r := recs[|recs| - 1];
      var c := Compared(init, x, num0);
      var p := LastStart(init, x);
      if IsStepStop(r.kind) && StepIdOf(r) == x && p.Some? then
        var dur := r.time - p.value;
        if num0 + CountStarts(init, x) == 1 then (true, [dur]) else (c.0, c.1 + [dur])
      else c
  }

  /** The durations the bounds of an entry that started as `d0` have seen: those
      `Compared` lists, plus the old bounds when no overwrite discarded them. */
  function ComparedWith(d0: StepData, c: (bool, seq<int>)): seq<int>
  {
    if c.0 then c.1 else [d0.tmin, d0.tmax] + c.1
  }

  /** `tmin` and `tmax` are among the durations `c` and bound every one of them. */
  ghost predicate TimeBounds(d: StepData, c: seq<int>)
  {
    && (c != [] ==> d.tmin in c && d.tmax in c)
    && (forall i :: 0 <= i < |c| ==> d.tmin <= c[i] <= d.tmax)
  }

  /** A matched stop overwrites both bounds when `num == 1`, and otherwise widens them by
      its duration. */
  lemma StopBounds(d: StepData, t: int, n: int, c: seq<int>)
    requires d.lastIt == n && c != [] && TimeBounds(d, c)
    ensures var dur := t - d.lastTime;
      TimeBounds(StopStep(d, t, n), if d.num == 1 then [dur] else c + [dur])
  {
  }

  /** A start leaves the bounds alone. */
  lemma StartKeepsBounds(d: StepData, level: int, t: int, n: int)
    ensures StartStep(d, level, t, n).tmin == d.tmin && StartStep(d, level, t, n).tmax == d.tmax
  {
  }

  lemma ComparedNonEmpty(d0: StepData, c: (bool, seq<int>))
    requires c.0 ==> c.1 != []
    ensures ComparedWith(d0, c) != []
  {
  }

  /** The last record of `recs` as seen by the bounds of step `x`. */
  lemma ComparedStep(recs: seq<Record>, x: nat, num0: int)
    requires recs != []
    ensures var c := Compared(recs, x, num0); c.0 ==> c.1 != []
  {
    if |recs| > 1 {
      ComparedStep(recs[..|recs| - 1], x, num0);
    }
  }

  /** The last record of `recs` as seen from the bounds of step `x`. */
  lemma StepLast(st: FoldState, recs: seq<Record>, t0: int, n: int, x: nat)
    requires recs != []
    ensures var r := recs[|recs| - 1];
      var b := StepAt(FoldLog(st, recs[..|recs| - 1], t0, n).stepData, x);
      var a := StepAt(FoldLog(st, recs, t0, n).stepData, x);
      && (!TouchesStep(r, x) ==> a == b)
      && (TouchesStep(r, x) && IsStepStart(r.kind) ==> a.tmin == b.tmin && a.tmax == b.tmax)
      && (TouchesStep(r, x) && IsStepStop(r.kind) ==> a == StopStep(b, r.time - t0, n))
  {
    var before := FoldLog(st, recs[..|recs| - 1], t0, n);
    var r := recs[|recs| - 1];
    if !TouchesStep(r, x) {
      StepUntouched(before, r, t0, n, x);
    } else {
      StepTouched(before, r, t0, n, x);
      if IsStepStart(r.kind) {
        StartKeepsBounds(StepAt(before.stepData, x), before.level, r.time - t0, n);
      }
    }
  }

  /** `Compared` after one more record. */
  lemma ComparedAppend(init: seq<Record>, r: Record, x: nat, num0: int)
    ensures var c := Compared(init, x, num0);
      var p := LastStart(init, x);
      Compared(init + [r], x, num0)
      == if IsStepStop(r.kind) && StepIdOf(r) == x && p.Some? then
           (if num0 + CountStarts(init, x) == 1 then (true, [r.time - p.value])
            else (c.0, c.1 + [r.time - p.value]))
         else c
  {
    var recs := init + [r];
    assert recs[..|recs| - 1] == init && recs[|recs| - 1] == r;
  }

  /** A matched stop keeps the bounds those of the compared durations. */
  lemma MatchedStopBounds(init: seq<Record>, r: Record, x: nat, d0: StepData, b: StepData, t0: int, n: int)
    requires IsStepStop(r.kind) && StepIdOf(r) == x && LastStart(init, x).Some?
    requires TimeBounds(b, ComparedWith(d0, Compared(init, x, d0.num)))
    requires b.lastIt == n && b.lastTime == LastStart(init, x).value - t0
    requires b.num == d0.num + CountStarts(init, x)
    ensures TimeBounds(StopStep(b, r.time - t0, n), ComparedWith(d0, Compared(init + [r], x, d0.num)))
  {
    var c := Compared(init, x, d0.num);
    var dur := r.time - LastStart(init, x).value;
    if init != [] {
      ComparedStep(init, x, d0.num);
    }
    ComparedNonEmpty(d0, c);
    ComparedAppend(init, r, x, d0.num);
    StopComparedBounds(b, r.time - t0, n, d0, c, Compared(init + [r], x, d0.num), dur);
  }

  /** A stop of duration `dur` on bounds over `ComparedWith(d0, c)` gives bounds over
      `ComparedWith(d0, c')`, where `c'` restarts at `dur` while `num == 1` and otherwise
      appends it. */
  lemma StopComparedBounds(b: StepData, t: int, n: int, d0: StepData, c: (bool, seq<int>),
                           c': (bool, seq<int>), dur: int)
    requires b.lastIt == n && dur == t - b.lastTime
    requires ComparedWith(d0, c) != [] && TimeBounds(b, ComparedWith(d0, c))
    requires c' == if b.num == 1 then (true, [dur]) else (c.0, c.1 + [dur])
    ensures TimeBounds(StopStep(b, t, n), ComparedWith(d0, c'))
  {
    StopBounds(b, t, n, ComparedWith(d0, c));
    if b.num != 1 {
      assert ComparedWith(d0, c') == ComparedWith(d0, c) + [dur];
    }
  }

  /** One more record keeps the bounds those of the compared durations. */
  lemma ComparedBoundsStep(init: seq<Record>, r: Record, x: nat, d0: StepData, b: StepData, a: StepData, t0: int, n: int)
    requires TimeBounds(b, ComparedWith(d0, Compared(init, x, d0.num)))
    requires LastStart(init, x).None? ==> b.lastIt != n
    requires LastStart(init, x).Some? ==> b.lastIt == n && b.lastTime == LastStart(init, x).value - t0
    requires b.num == d0.num + CountStarts(init, x)
    requires !TouchesStep(r, x) ==> a == b
    requires TouchesStep(r, x) && IsStepStart(r.kind) ==> a.tmin == b.tmin && a.tmax == b.tmax
    requires TouchesStep(r, x) && IsStepStop(r.kind) ==> a == StopStep(b, r.time - t0, n)
    ensures TimeBounds(a, ComparedWith(d0, Compared(init + [r], x, d0.num)))
  {
    if TouchesStep(r, x) && IsStepStop(r.kind) && LastStart(init, x).Some? {
      MatchedStopBounds(init, r, x, d0, b, t0, n);
    } else {
      ComparedAppend(init, r, x, d0.num);
      assert a.tmin == b.tmin && a.tmax == b.tmax;
    }
  }

  /** Over the record loop of an iteration the step had not reached, `tmin` and `tmax`
      are the smallest and largest of the durations they were compared against since
      the last overwrite, or since the start together with the old bounds. */
  lemma {:induction false} StepBounds(st: FoldState, recs: seq<Record>, t0: int, n: int, x: nat)
    requires StepAt(st.stepData, x).lastIt != n && StepAt(st.stepData, x).tmin <= StepAt(st.stepData, x).tmax
    ensures var d0 := StepAt(st.stepData, x);
      TimeBounds(StepAt(FoldLog(st, recs, t0, n).stepData, x), ComparedWith(d0, Compared(recs, x, d0.num)))
  {
    var d0 := StepAt(st.stepData, x);
    if |recs| > 0 {
      var init := recs[..|recs| - 1];
      var r := recs[|recs| - 1];
      StepBounds(st, init, t0, n, x);
      StepLast(st, recs, t0, n, x);
      StepTotal(st, init, t0, n, x);
      StepNum(st, init, t0, n, x);
      ComparedBoundsStep(init, r, x, d0, StepAt(FoldLog(st, init, t0, n).stepData, x),
                         StepAt(FoldLog(st, recs, t0, n).stepData, x), t0, n);
      assert init + [r] == recs;
    }
  }

  /** After a counted iteration, `tmin` and `tmax` of every step are the smallest and the
      largest of the durations they were compared against (see `Compared`). */
  lemma ProcessStepBounds(recs: seq<Record>, s: Stats, x: nat)
    requires StatsInv(s) && s.nbIter >= 0 && recs != []
    ensures var d0 := StepAt(s.stepData, x);
      TimeBounds(StepAt(Process(recs, s).stepData, x), ComparedWith(d0, Compared(recs, x, d0.num)))
  {
    var n := s.nbIter + 1;
    assert StepAt(s.stepData, x).lastIt != n && StepAt(s.stepData, x).tmin <= StepAt(s.stepData, x).tmax by {
      if x in s.stepData {
        assert StepOk(s.stepData[x], s.nbIter);
      }
    }
    var f := FoldLog(StartState(s), recs, recs[0].time, n);
    assert Process(recs, s).stepData == f.stepData;
    StepBounds(StartState(s), recs, recs[0].time, n, x);
  }

  /** The first iteration after a `clear`: every step's total is the sum of its matched
      durations, and its bounds are the default 0 together with the durations it compared,
      or only the latter once an overwrite has happened. */
  lemma ClearedStep(recs: seq<Record>, x: nat)
    requires recs != []
    ensures var d := StepAt(Process(recs, ClearedStats).stepData, x);
      && d.ttotal == Sum(MatchedDurations(recs, x))
      && TimeBounds(d, ComparedWith(NewStepData, Compared(recs, x, 0)))
  {
    ClearedInv();
    ProcessStepBounds(recs, ClearedStats, x);
    ProcessStepTotal(recs, ClearedStats, x);
  }

  /** `tmin` and `tmax` bounding `[0, 0, dur]` with a positive `dur`. */
  lemma BoundsZeroAnd(d: StepData, dur: int)
    requires dur > 0 && TimeBounds(d, [0, 0, dur])
    ensures d.tmin == 0 && d.tmax == dur
  {
    assert d.tmin <= [0, 0, dur][0] && [0, 0, dur][2] <= d.tmax;
  }

  /** `tmin` and `tmax` bounding `[dur]`. */
  lemma BoundsOne(d: StepData, dur: int)
    requires TimeBounds(d, [dur])
    ensures d.tmin == dur && d.tmax == dur
  {
    assert d.tmin <= [dur][0] <= d.tmax;
  }

  /** An iteration of a timer in which step `x` is begun twice, then ended once. */
  function DoubleStartLog(t1: int, t2: int, t3: int, x: nat): seq<Record>
  {
    [Record(t1, RBegin, 0, 0, 0.0), Record(t1, RStepBegin, x, 0, 0.0), Record(t2, RStepBegin, x, 0, 0.0),
     Record(t3, RStepEnd, x, 0, 0.0), Record(t3, REnd, 0, 0, 0.0)]
  }

  lemma DoubleStartCompared(t1: int, t2: int, t3: int, x: nat)
    requires x != 0
    ensures MatchedDurations(DoubleStartLog(t1, t2, t3, x), x) == [t3 - t2]
    ensures Compared(DoubleStartLog(t1, t2, t3, x), x, 0) == (false, [t3 - t2])
  {
    var l := DoubleStartLog(t1, t2, t3, x);
    assert l[..4][..3] == l[..3] && l[..3][..2] == l[..2] && l[..2][..1] == l[..1] && l[..1][..0] == [];
    assert LastStart(l[..1], x) == None && CountStarts(l[..1], x) == 0;
    assert Compared(l[..1], x, 0) == (false, []) && MatchedDurations(l[..1], x) == [];
    assert Compared(l[..2], x, 0) == (false, []) && MatchedDurations(l[..2], x) == [];
    assert LastStart(l[..2], x) == Some(t1) && CountStarts(l[..2], x) == 1;
    assert LastStart(l[..3], x) == Some(t2) && CountStarts(l[..3], x) == 2;
    assert Compared(l[..3], x, 0) == (false, []) && MatchedDurations(l[..3], x) == [];
    assert [] + [t3 - t2] == [t3 - t2];
    assert Compared(l[..4], x, 0) == (false, [t3 - t2]);
    assert LastStart(l[..4], x) == Some(t2);
  }

  /** From a `clear`, a step begun twice before its first end compares its one duration
      against the default bounds 0, so `tmin` stays 0 although the only duration is
      positive. */
  lemma DoubleStartKeepsZero(t1: int, t2: int, t3: int, x: nat)
    requires x != 0 && t2 < t3
    ensures var d := StepAt(Process(DoubleStartLog(t1, t2, t3, x), ClearedStats).stepData, x);
      d.ttotal == t3 - t2 && d.tmin == 0 && d.tmax == t3 - t2
  {
    var l := DoubleStartLog(t1, t2, t3, x);
    DoubleStartCompared(t1, t2, t3, x);
    ClearedStep(l, x);
    assert ComparedWith(NewStepData, (false, [t3 - t2])) == [0, 0, t3 - t2];
    BoundsZeroAnd(StepAt(Process(l, ClearedStats).stepData, x), t3 - t2);
    assert Sum([t3 - t2]) == Sum([]) + (t3 - t2);
  }

  lemma SumPair(a: int, b: int)
    ensures Sum([a, b]) == a + b
  {
    assert [a, b][..1] == [a] && [a][..0] == [];
    assert Sum([a]) == a;
  }

  /** An iteration of a timer in which step `x` is begun once, then ended twice. */
  function SecondEndLog(t1: int, t2: int, t3: int, x: nat): seq<Record>
  {
    [Record(t1, RBegin, 0, 0, 0.0), Record(t1, RStepBegin, x, 0, 0.0), Record(t2, RStepEnd, x, 0, 0.0),
     Record(t3, RStepEnd, x, 0, 0.0), Record(t3, REnd, 0, 0, 0.0)]
  }

  lemma SecondEndCompared(t1: int, t2: int, t3: int, x: nat)
    requires x != 0
    ensures MatchedDurations(SecondEndLog(t1, t2, t3, x), x) == [t2 - t1, t3 - t1]
    ensures Compared(SecondEndLog(t1, t2, t3, x), x, 0) == (true, [t3 - t1])
  {
    var l := SecondEndLog(t1, t2, t3, x);
    assert l[..4][..3] == l[..3] && l[..3][..2] == l[..2] && l[..2][..1] == l[..1] && l[..1][..0] == [];
    assert LastStart(l[..1], x) == None && CountStarts(l[..1], x) == 0;
    assert Compared(l[..1], x, 0) == (false, []) && MatchedDurations(l[..1], x) == [];
    assert Compared(l[..2], x, 0) == (false, []) && MatchedDurations(l[..2], x) == [];
    assert LastStart(l[..2], x) == Some(t1) && CountStarts(l[..2], x) == 1;
    assert LastStart(l[..3], x) == Some(t1) && CountStarts(l[..3], x) == 1;
    assert Compared(l[..3], x, 0) == (true, [t2 - t1]) && MatchedDurations(l[..3], x) == [t2 - t1];
    assert Compared(l[..4], x, 0) == (true, [t3 - t1]);
    assert LastStart(l[..4], x) == Some(t1);
  }

  /** From a `clear`, a second end after the same single start overwrites both bounds:
      `tmin` and `tmax` are the second duration only, though both durations are added to
      the total. */
  lemma SecondEndOverwrites(t1: int, t2: int, t3: int, x: nat)
    requires x != 0
    ensures var d := StepAt(Process(SecondEndLog(t1, t2, t3, x), ClearedStats).stepData, x);
      d.ttotal == (t2 - t1) + (t3 - t1) && d.tmin == t3 - t1 && d.tmax == t3 - t1
  {
    var l := SecondEndLog(t1, t2, t3, x);
    SecondEndCompared(t1, t2, t3, x);
    ClearedStep(l, x);
    var d := StepAt(Process(l, ClearedStats).stepData, x);
    assert ComparedWith(NewStepData, (true, [t3 - t1])) == [t3 - t1];
    BoundsOne(d, t3 - t1);
    SumPair(t2 - t1, t3 - t1);
  }
}
