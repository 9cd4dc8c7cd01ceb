/** Properties of the per-value part of `TimerData::process`. */
module ValFold {
  import opened Basics
  import opened Records
  import opened TimerStats
  import opened FoldInvariant

  /** `r` is a set or add record of value `x`. */
  predicate IsValOf(r: Record, x: nat)
  {
    IsValue(r.kind) && r.id == x
  }

  /** The set and add records of value `x`, in log order. */
  function ValEvents(recs: seq<Record>, x: nat): (evs: seq<Record>)
    ensures forall i :: 0 <= i < |evs| ==> IsValOf(evs[i], x)
  {
    if |recs| == 0 then []
    else
      var r := recs[|recs| - 1];
      ValEvents(recs[..|recs| - 1], x) + (if IsValOf(r, x) then [r] else [])
  }

  /** Sum of the raw samples of `evs`. */
  function SumVals(evs: seq<Record>): real
  {
    if |evs| == 0 then 0.0 else SumVals(evs[..|evs| - 1]) + evs[|evs| - 1].val
  }

  /** Number of set records in `evs`. */
  function CountSets(evs: seq<Record>): nat
  {
    if |evs| == 0 then 0
    else CountSets(evs[..|evs| - 1]) + (if evs[|evs| - 1].kind == RValSet then 1 else 0)
  }

  /** Where the per-iteration aggregate last restarted: the last set record, or the first
      event when no later set exists. */
  function LastRestart(evs: seq<Record>): (k: nat)
    requires evs != []
    ensures k < |evs|
    ensures k == 0 || evs[k].kind == RValSet
    ensures forall j :: k < j < |evs| ==> evs[j].kind != RValSet
  {
    if |evs| == 1 then 0
    else if evs[|evs| - 1].kind == RValSet then |evs| - 1
    else LastRestart(evs[..|evs| - 1])
  }

  /** The per-iteration aggregate of a value: the sample that last restarted it plus every
      add after it. */
  function IterAggregate(evs: seq<Record>): real
    requires evs != []
  {
    var k := LastRestart(evs);
    evs[k].val + SumVals(evs[k + 1..])
  }

  /** A record that is not about value `x` leaves its entry and its listing alone. */
  lemma ValUntouched(st: FoldState, r: Record, t0: int, n: int, x: nat)
    requires !IsValOf(r, x)
    ensures var st' := FoldRecord(st, r, t0, n);
      && ValAt(st'.valData, x) == ValAt(st.valData, x)
      && (x in st'.valData <==> x in st.valData)
      && (x in st'.vals <==> x in st.vals)
  {
  }

  /** A value gets an entry exactly when some record is about it. */
  lemma {:induction false} ValKeys(st: FoldState, recs: seq<Record>, t0: int, n: int, x: nat)
    ensures x in FoldLog(st, recs, t0, n).valData <==> x in st.valData || ValEvents(recs, x) != []
  {
    if |recs| > 0 {
      ValKeys(st, recs[..|recs| - 1], t0, n, x);
      if !IsValOf(recs[|recs| - 1], x) {
        ValUntouched(FoldLog(st, recs[..|recs| - 1], t0, n), recs[|recs| - 1], t0, n, x);
      }
    }
  }

  /** A record about value `x` samples its entry. */
  lemma ValTouched(st: FoldState, r: Record, t0: int, n: int, x: nat)
    requires IsValOf(r, x)
    ensures ValAt(FoldRecord(st, r, t0, n).valData, x)
            == SampleVal(ValAt(st.valData, x), r.kind == RValSet, r.val, n)
  {
  }

  /** The last record of `recs` as seen from value `x`. */
  lemma ValStep(st: FoldState, recs: seq<Record>, t0: int, n: int, x: nat)
    requires recs != []
    ensures var init := recs[..|recs| - 1];
      var r := recs[|recs| - 1];
      var before := ValAt(FoldLog(st, init, t0, n).valData, x);
      var after := ValAt(FoldLog(st, recs, t0, n).valData, x);
      && (IsValOf(r, x) ==> after == SampleVal(before, r.kind == RValSet, r.val, n)
                            && ValEvents(recs, x) == ValEvents(init, x) + [r])
      && (!IsValOf(r, x) ==> after == before && ValEvents(recs, x) == ValEvents(init, x))
  {
    var init := recs[..|recs| - 1];
    var r := recs[|recs| - 1];
    if IsValOf(r, x) {
      ValTouched(FoldLog(st, init, t0, n), r, t0, n, x);
    } else {
      ValUntouched(FoldLog(st, init, t0, n), r, t0, n, x);
    }
  }

  /** Every sample adds itself to `vtotal` and its square to `vtotal2`. */
  lemma SampleSums(d: ValData, isSet: bool, v: real, n: int)
    ensures SampleVal(d, isSet, v, n).vtotal == d.vtotal + v
    ensures SampleVal(d, isSet, v, n).vtotal2 == d.vtotal2 + v * v
  {
  }

  /** Sum of the squares of the raw samples of `evs`. */
  function SumSquareVals(evs: seq<Record>): real
  {
    if |evs| == 0 then 0.0
    else SumSquareVals(evs[..|evs| - 1]) + evs[|evs| - 1].val * evs[|evs| - 1].val
  }

  /** `vtotal` grows by the sum of all raw samples of the value. */
  lemma {:induction false} ValTotal(st: FoldState, recs: seq<Record>, t0: int, n: int, x: nat)
    ensures ValAt(FoldLog(st, recs, t0, n).valData, x).vtotal
            == ValAt(st.valData, x).vtotal + SumVals(ValEvents(recs, x))
  {
    if |recs| > 0 {
      var init := recs[..|recs| - 1];
      ValTotal(st, init, t0, n, x);
      ValStep(st, recs, t0, n, x);
      var evs := ValEvents(recs, x);
      if IsValOf(recs[|recs| - 1], x) {
        assert evs[..|evs| - 1] == ValEvents(init, x);
      }
    }
  }

  /** `vtotal2` grows by the sum of the squares of all raw samples of the value. */
  lemma {:induction false} ValSquares(st: FoldState, recs: seq<Record>, t0: int, n: int, x: nat)
    ensures ValAt(FoldLog(st, recs, t0, n).valData, x).vtotal2
            == ValAt(st.valData, x).vtotal2 + SumSquareVals(ValEvents(recs, x))
  {
    ValSampled(st, recs, t0, n, x);
    SampledSquares(ValAt(st.valData, x), ValEvents(recs, x), n);
  }

  /** The entry of a value after sampling the events `evs` in iteration `n`, in order. */
  function Sampled(d: ValData, evs: seq<Record>, n: int): ValData
  {
    if |evs| == 0 then d
    else
      var r := evs[|evs| - 1];
      SampleVal(Sampled(d, evs[..|evs| - 1], n), r.kind == RValSet, r.val, n)
  }

  /** The record loop, as seen from value `x`, samples exactly its events in order. */
  lemma {:induction false} ValSampled(st: FoldState, recs: seq<Record>, t0: int, n: int, x: nat)
    ensures ValAt(FoldLog(st, recs, t0, n).valData, x) == Sampled(ValAt(st.valData, x), ValEvents(recs, x), n)
  {
    if |recs| > 0 {
      var init := recs[..|recs| - 1];
      ValSampled(st, init, t0, n, x);
      ValStep(st, recs, t0, n, x);
      var evs := ValEvents(recs, x);
      if IsValOf(recs[|recs| - 1], x) {
        assert evs[..|evs| - 1] == ValEvents(init, x);
      }
    }
  }

  /** Sampling adds the square of every sample to `vtotal2`. */
  lemma {:induction false} SampledSquares(d: ValData, evs: seq<Record>, n: int)
    ensures Sampled(d, evs, n).vtotal2 == d.vtotal2 + SumSquareVals(evs)
  {
    if |evs| > 0 {
      var r := evs[|evs| - 1];
      SampledSquares(d, evs[..|evs| - 1], n);
      SampleSums(Sampled(d, evs[..|evs| - 1], n), r.kind == RValSet, r.val, n);
    }
  }

  /** The entry `d` of a value that started the iteration `n` as `d0` and has seen the
      events `evs` since: `numIt` grew by one if the value occurs, and `num` by one per set
      plus one when the first event of the iteration is an add; a value that does not occur
      is left as it was. */
  ghost predicate CountedSince(d: ValData, d0: ValData, evs: seq<Record>, n: int)
  {
    && d.numIt == d0.numIt + (if evs == [] then 0 else 1)
    && d.num == d0.num + CountSets(evs) + (if evs != [] && evs[0].kind == RValAdd then 1 else 0)
    && (evs == [] ==> d == d0)
    && (evs != [] ==> d.lastIt == n)
  }

  /** One more event of the value moves its counts accordingly. */
  lemma CountedStep(d: ValData, d0: ValData, e: seq<Record>, r: Record, n: int)
    requires d0.lastIt != n && IsValue(r.kind) && CountedSince(d, d0, e, n)
    ensures CountedSince(SampleVal(d, r.kind == RValSet, r.val, n), d0, e + [r], n)
  {
    var evs := e + [r];
    assert evs[..|evs| - 1] == e;
    if e != [] {
      assert evs[0] == e[0];
    }
  }

  /** The counts of a value over an iteration it had not yet reached. */
  lemma {:induction false} ValCounts(st: FoldState, recs: seq<Record>, t0: int, n: int, x: nat)
    requires ValAt(st.valData, x).lastIt != n
    ensures CountedSince(ValAt(FoldLog(st, recs, t0, n).valData, x), ValAt(st.valData, x),
                         ValEvents(recs, x), n)
  {
    if |recs| > 0 {
      var init := recs[..|recs| - 1];
      var r := recs[|recs| - 1];
      ValCounts(st, init, t0, n, x);
      ValStep(st, recs, t0, n, x);
      if IsValOf(r, x) {
        CountedStep(ValAt(FoldLog(st, init, t0, n).valData, x), ValAt(st.valData, x),
                    ValEvents(init, x), r, n);
      }
    }
  }

  /** How one more event moves the per-iteration aggregate: a set restarts it, an add
      accumulates onto it. */
  lemma AggregateAppend(e: seq<Record>, r: Record)
    ensures r.kind == RValSet || e == [] ==> IterAggregate(e + [r]) == r.val
    ensures r.kind != RValSet && e != [] ==> IterAggregate(e + [r]) == IterAggregate(e) + r.val
  {
    var evs := e + [r];
    assert evs[..|evs| - 1] == e;
    if r.kind == RValSet || e == [] {
      assert evs[LastRestart(evs) + 1..] == [];
    } else {
      var k := LastRestart(e);
      assert LastRestart(evs) == k;
      assert evs[k + 1..] == e[k + 1..] + [r];
      assert (e[k + 1..] + [r])[..|e[k + 1..] + [r]| - 1] == e[k + 1..];
    }
  }

  /** At the end of the loop, `vtotalIt` is the per-iteration aggregate of the value. */
  lemma {:induction false} ValAggregate(st: FoldState, recs: seq<Record>, t0: int, n: int, x: nat)
    requires ValAt(st.valData, x).lastIt != n
    requires ValEvents(recs, x) != []
    ensures ValAt(FoldLog(st, recs, t0, n).valData, x).vtotalIt == IterAggregate(ValEvents(recs, x))
  {
    var init := recs[..|recs| - 1];
    var r := recs[|recs| - 1];
    var e := ValEvents(init, x);
    ValStep(st, recs, t0, n, x);
    if !IsValOf(r, x) {
      ValAggregate(st, init, t0, n, x);
    } else {
      ValCounts(st, init, t0, n, x);
      AggregateAppend(e, r);
      if e != [] {
        ValAggregate(st, init, t0, n, x);
      }
    }
  }

  /** The closing loop keeps everything but the bounds, */
  lemma {:induction false} FinalizeKeepsSums(vd: map<nat, ValData>, ids: seq<nat>, x: nat)
    ensures ValAt(FinalizeVals(vd, ids), x).(vmin := 0.0, vmax := 0.0)
            == ValAt(vd, x).(vmin := 0.0, vmax := 0.0)
  {
    if |ids| > 0 {
      FinalizeKeepsSums(vd, ids[..|ids| - 1], x);
    }
  }

  /** ... and puts the last iteration's aggregate of every listed value within its bounds. */
  lemma {:induction false} FinalizeBounds(vd: map<nat, ValData>, ids: seq<nat>, x: nat)
    requires x in ids && ValAt(FinalizeVals(vd, ids), x).num > 0
    ensures var d := ValAt(FinalizeVals(vd, ids), x); d.vmin <= d.vtotalIt <= d.vmax
  {
    var init := ids[..|ids| - 1];
    if ids[|ids| - 1] != x {
      assert x in init;
      FinalizeBounds(vd, init, x);
    }
  }

  /** A counted iteration of `process`, as seen from one value `x`: it is listed once it
      occurs, `vtotal` grows by its raw samples, `numIt` by one if it occurs, `num` by one
      per set and one for a first-in-iteration add. */
  lemma ProcessValueCounts(recs: seq<Record>, s: Stats, x: nat)
    requires StatsInv(s) && s.nbIter >= 0 && recs != []
    ensures var p := Process(recs, s);
      var d := ValAt(p.valData, x);
      var d0 := ValAt(s.valData, x);
      var evs := ValEvents(recs, x);
      && (x in p.vals <==> x in s.vals || evs != [])
      && d.vtotal == d0.vtotal + SumVals(evs)
      && d.vtotal2 == d0.vtotal2 + SumSquareVals(evs)
      && d.numIt == d0.numIt + (if evs == [] then 0 else 1)
      && d.num == d0.num + CountSets(evs) + (if evs != [] && evs[0].kind == RValAdd then 1 else 0)
  {
    var n := s.nbIter + 1;
    var t0 := recs[0].time;
    StartInv(s);
    CountedIteration(recs, s);
    var f := FoldLog(StartState(s), recs, t0, n);
    ValKeys(StartState(s), recs, t0, n, x);
    ValTotal(StartState(s), recs, t0, n, x);
    ValSquares(StartState(s), recs, t0, n, x);
    ValCounts(StartState(s), recs, t0, n, x);
    FinalizeKeepsSums(f.valData, f.vals, x);
  }

  /** After a counted iteration in which value `x` occurs, `vtotalIt` is its per-iteration
      aggregate and lies between `vmin` and `vmax`. */
  lemma ProcessValueAggregate(recs: seq<Record>, s: Stats, x: nat)
    requires StatsInv(s) && s.nbIter >= 0 && recs != []
    requires ValEvents(recs, x) != []
    ensures var d := ValAt(Process(recs, s).valData, x);
      d.vtotalIt == IterAggregate(ValEvents(recs, x)) && d.vmin <= d.vtotalIt <= d.vmax
  {
    var n := s.nbIter + 1;
    var t0 := recs[0].time;
    StartInv(s);
    CountedIteration(recs, s);
    var f := FoldLog(StartState(s), recs, t0, n);
    ValKeys(StartState(s), recs, t0, n, x);
    ValCounts(StartState(s), recs, t0, n, x);
    ValAggregate(StartState(s), recs, t0, n, x);
    FinalizeKeepsSums(f.valData, f.vals, x);
    FinalizeBounds(f.valData, f.vals, x);
  }

  /** The aggregates the stretches of `evs` build, in order: the first event and every
      set start a new stretch with their sample, an add accumulates onto the current one. */
  function Segments(evs: seq<Record>): (a: seq<real>)
    ensures evs != [] ==> a != []
  {
    if |evs| == 0 then []
    else
      var a := Segments(evs[..|evs| - 1]);
      var r := evs[|evs| - 1];
      if a == [] || r.kind == RValSet then a + [r.val]
      else a[..|a| - 1] + [a[|a| - 1] + r.val]
  }

  /** There is one stretch per set, plus one when the first event is an add. */
  lemma {:induction false} SegmentsCount(evs: seq<Record>)
    ensures |Segments(evs)| == CountSets(evs) + (if evs != [] && evs[0].kind != RValSet then 1 else 0)
  {
    if |evs| > 0 {
      var e := evs[..|evs| - 1];
      SegmentsCount(e);
      if e != [] {
        assert evs[0] == e[0];
      }
    }
  }

  /** The last stretch ends on the per-iteration aggregate. */
  lemma {:induction false} SegmentsLast(evs: seq<Record>)
    requires evs != []
    ensures Segments(evs)[|Segments(evs)| - 1] == IterAggregate(evs)
  {
    var e := evs[..|evs| - 1];
    var r := evs[|evs| - 1];
    assert evs == e + [r];
    AggregateAppend(e, r);
    if e != [] {
      SegmentsLast(e);
    }
  }

  /** `vmin` and `vmax` are among the aggregates `c` and bound every one of them. */
  ghost predicate Bounds(d: ValData, c: seq<real>)
  {
    && (c != [] ==> d.vmin in c && d.vmax in c)
    && (forall i :: 0 <= i < |c| ==> d.vmin <= c[i] <= d.vmax)
  }

  /** Entry `d` has folded exactly the aggregates `a`: one per counted sample, the last of
      them in `vtotalIt`, and `vmin`/`vmax` their smallest and largest. */
  ghost predicate Covers(d: ValData, a: seq<real>)
  {
    && |a| == d.num
    && (a != [] ==> d.vtotalIt == a[|a| - 1])
    && Bounds(d, a)
  }

  /** Entry `d` of a value that covered `a0` before iteration `n` and has seen the events
      `evs` of it since: the open stretch is in `vtotalIt`, the closed ones are bounded. */
  ghost predicate BoundedSince(d: ValData, a0: seq<real>, evs: seq<Record>, n: int)
  {
    var s := Segments(evs);
    && (evs == [] ==> Covers(d, a0) && d.lastIt != n)
    && (evs != [] ==> && d.lastIt == n && d.num == |a0| + |s| && d.vtotalIt == s[|s| - 1]
                      && Bounds(d, a0 + s[..|s| - 1]))
  }

  /** Folding the open aggregate closes it into the bounds. */
  lemma FoldInto(d: ValData, c: seq<real>)
    requires d.num == |c| + 1 && Bounds(d, c)
    ensures Bounds(FoldMinMax(d), c + [d.vtotalIt])
  {
  }

  /** Folding an aggregate already covered changes nothing that matters. */
  lemma FoldKnown(d: ValData, a: seq<real>)
    requires Covers(d, a) && a != []
    ensures Covers(FoldMinMax(d), a)
  {
    if |a| == 1 {
      assert a == [d.vtotalIt];
    } else {
      assert d.vtotalIt == a[|a| - 1];
    }
  }

  /** The first event of the iteration folds the aggregate left from before (already
      covered) and opens a stretch. */
  lemma BoundedFirst(d: ValData, a0: seq<real>, r: Record, n: int)
    requires IsValue(r.kind) && Covers(d, a0) && d.lastIt != n
    ensures BoundedSince(SampleVal(d, r.kind == RValSet, r.val, n), a0, [r], n)
  {
    assert [r][..0] == [];
    assert Segments([r]) == [r.val];
    if a0 != [] {
      FoldKnown(d, a0);
    }
    assert a0 + Segments([r])[..0] == a0;
  }

  /** A later set closes the open stretch and opens a new one. */
  lemma BoundedSet(d: ValData, a0: seq<real>, e: seq<Record>, r: Record, n: int)
    requires r.kind == RValSet && e != [] && BoundedSince(d, a0, e, n)
    ensures BoundedSince(SampleVal(d, true, r.val, n), a0, e + [r], n)
  {
    var evs := e + [r];
    assert evs[..|evs| - 1] == e;
    var s := Segments(e);
    var s' := Segments(evs);
    assert s' == s + [r.val];
    assert (a0 + s[..|s| - 1]) + [s[|s| - 1]] == a0 + s;
    FoldInto(d, a0 + s[..|s| - 1]);
    assert s'[..|s'| - 1] == s;
  }

  /** A later add grows the open stretch. */
  lemma BoundedAdd(d: ValData, a0: seq<real>, e: seq<Record>, r: Record, n: int)
    requires r.kind == RValAdd && e != [] && BoundedSince(d, a0, e, n)
    ensures BoundedSince(SampleVal(d, false, r.val, n), a0, e + [r], n)
  {
    var evs := e + [r];
    assert evs[..|evs| - 1] == e;
    var s := Segments(e);
    var s' := Segments(evs);
    assert s' == s[..|s| - 1] + [s[|s| - 1] + r.val];
    assert s'[..|s'| - 1] == s[..|s| - 1];
  }

  /** One more event of the value keeps the stretches bounded. */
  lemma BoundedStep(d: ValData, a0: seq<real>, e: seq<Record>, r: Record, n: int)
    requires IsValue(r.kind) && BoundedSince(d, a0, e, n)
    ensures BoundedSince(SampleVal(d, r.kind == RValSet, r.val, n), a0, e + [r], n)
  {
    if e == [] {
      assert e + [r] == [r];
      BoundedFirst(d, a0, r, n);
    } else if r.kind == RValSet {
      BoundedSet(d, a0, e, r, n);
    } else {
      BoundedAdd(d, a0, e, r, n);
    }
  }

  /** The closing update folds the open stretch. */
  lemma CloseCovers(d: ValData, a0: seq<real>, evs: seq<Record>, n: int)
    requires BoundedSince(d, a0, evs, n)
    ensures Covers(CloseVal(d), a0 + Segments(evs))
  {
    var s := Segments(evs);
    if evs == [] {
      assert a0 + s == a0;
      if a0 != [] {
        FoldKnown(d, a0);
      }
    } else {
      assert (a0 + s[..|s| - 1]) + [s[|s| - 1]] == a0 + s;
      FoldInto(d, a0 + s[..|s| - 1]);
    }
  }

  /** Over the record loop of an iteration the value had not reached, its stretches stay
      bounded. */
  lemma {:induction false} ValBounds(st: FoldState, recs: seq<Record>, t0: int, n: int, x: nat, a0: seq<real>)
    requires ValAt(st.valData, x).lastIt != n && Covers(ValAt(st.valData, x), a0)
    ensures BoundedSince(ValAt(FoldLog(st, recs, t0, n).valData, x), a0, ValEvents(recs, x), n)
  {
    if |recs| > 0 {
      var init := recs[..|recs| - 1];
      var r := recs[|recs| - 1];
      ValBounds(st, init, t0, n, x, a0);
      ValStep(st, recs, t0, n, x);
      if IsValOf(r, x) {
        BoundedStep(ValAt(FoldLog(st, init, t0, n).valData, x), a0, ValEvents(init, x), r, n);
      }
    }
  }

  /** The closing loop closes each listed value once and leaves the others alone. */
  lemma {:induction false} FinalizeAt(vd: map<nat, ValData>, ids: seq<nat>, x: nat)
    requires NoDup(ids)
    ensures ValAt(FinalizeVals(vd, ids), x) == if x in ids then CloseVal(ValAt(vd, x)) else ValAt(vd, x)
  {
    if |ids| > 0 {
      var init := ids[..|ids| - 1];
      assert NoDup(init) by {
        assert forall i, j :: 0 <= i < j < |init| ==> init[i] == ids[i] && init[j] == ids[j];
      }
      FinalizeAt(vd, init, x);
      assert x in ids <==> x in init || x == ids[|ids| - 1];
      if x == ids[|ids| - 1] {
        assert x !in init;
      }
    }
  }

  /** The closing loop turns the bounded stretches of a value into covered ones. */
  lemma FinalizeCovers(vd: map<nat, ValData>, ids: seq<nat>, x: nat, a: seq<real>, evs: seq<Record>, n: int)
    requires NoDup(ids) && (x in ids <==> x in vd) && (x !in vd ==> evs == [])
    requires BoundedSince(ValAt(vd, x), a, evs, n)
    ensures Covers(ValAt(FinalizeVals(vd, ids), x), a + Segments(evs))
  {
    FinalizeAt(vd, ids, x);
    if x in ids {
      CloseCovers(ValAt(vd, x), a, evs, n);
    } else {
      assert a + Segments(evs) == a;
    }
  }

  /** After a counted iteration, `vmin` and `vmax` of every value are the smallest and the
      largest of the stretch aggregates it had covered before and those of the new log:
      every set closes a stretch, not only the end of an iteration. */
  lemma ProcessValueBounds(recs: seq<Record>, s: Stats, x: nat, a: seq<real>)
    requires StatsInv(s) && s.nbIter >= 0 && Covers(ValAt(s.valData, x), a)
    ensures Covers(ValAt(Process(recs, s).valData, x), a + Segments(ValEvents(recs, x)))
  {
    if recs == [] {
      assert a + Segments(ValEvents(recs, x)) == a;
    } else {
      var n := s.nbIter + 1;
      var t0 := recs[0].time;
      var f := FoldLog(StartState(s), recs, t0, n);
      assert NoDup(f.vals) && (x in f.vals <==> x in f.valData) by {
        StartInv(s);
        CountedIteration(recs, s);
      }
      assert Process(recs, s).valData == FinalizeVals(f.valData, f.vals);
      assert ValAt(s.valData, x).lastIt != n by {
        if x in s.valData {
          assert ValOk(s.valData[x], s.nbIter);
        }
      }
      ValKeys(StartState(s), recs, t0, n, x);
      ValBounds(StartState(s), recs, t0, n, x, a);
      FinalizeCovers(f.valData, f.vals, x, a, ValEvents(recs, x), n);
    }
  }

  /** `process` over a sequence of iteration logs, in order. */
  function ProcessAll(logs: seq<seq<Record>>, s: Stats): Stats
  {
    if |logs| == 0 then s else Process(logs[|logs| - 1], ProcessAll(logs[..|logs| - 1], s))
  }

  /** The stretch aggregates of value `x` over a sequence of iteration logs. */
  function AllSegments(logs: seq<seq<Record>>, x: nat): seq<real>
  {
    if |logs| == 0 then []
    else AllSegments(logs[..|logs| - 1], x) + Segments(ValEvents(logs[|logs| - 1], x))
  }

  /** From a `clear`, `vmin` and `vmax` of every value are the smallest and the largest
      stretch aggregate of all the iterations processed since. */
  lemma {:induction false} BoundsSinceClear(logs: seq<seq<Record>>, x: nat)
    ensures var p := ProcessAll(logs, ClearedStats);
      StatsInv(p) && p.nbIter >= 0 && Covers(ValAt(p.valData, x), AllSegments(logs, x))
  {
    if |logs| > 0 {
      var init := logs[..|logs| - 1];
      BoundsSinceClear(init, x);
      var p := ProcessAll(init, ClearedStats);
      ProcessInv(logs[|logs| - 1], p);
      ProcessValueBounds(logs[|logs| - 1], p, x, AllSegments(init, x));
    }
  }

  /** An entry covering two aggregates has their smaller and larger as bounds. */
  lemma CoversTwo(d: ValData, p: real, q: real)
    requires Covers(d, [p, q])
    ensures d.vtotalIt == q
    ensures d.vmax == (if p < q then q else p) && d.vmin == (if p < q then p else q)
  {
    assert d.vmin <= [p, q][0] <= d.vmax && d.vmin <= [p, q][1] <= d.vmax;
  }

  /** Two samples of a value in one iteration from a `clear`, the second a set: the
      iteration's aggregate is the second sample, yet `vmin` and `vmax` range over both,
      since the set closed the stretch of the first. */
  lemma SetReplacesAggregate(recs: seq<Record>, x: nat)
    requires |ValEvents(recs, x)| == 2 && ValEvents(recs, x)[1].kind == RValSet
    ensures var evs := ValEvents(recs, x);
      var d := ValAt(Process(recs, ClearedStats).valData, x);
      var a := evs[0].val;
      var b := evs[1].val;
      && d.vtotalIt == IterAggregate(evs) == b
      && d.vmax == (if a < b then b else a)
      && d.vmin == (if a < b then a else b)
  {
    var evs := ValEvents(recs, x);
    assert recs != [];
    assert evs[..1][..0] == [];
    assert evs[..1] == [evs[0]];
    assert Segments(evs[..1]) == [evs[0].val];
    assert Segments(evs) == [evs[0].val, evs[1].val];
    assert [] + Segments(evs) == Segments(evs);
    ProcessValueBounds(recs, ClearedStats, x, []);
    CoversTwo(ValAt(Process(recs, ClearedStats).valData, x), evs[0].val, evs[1].val);
    SegmentsLast(evs);
  }
}
