/** When `end` prints: the statistics of one timer across the iterations it closes. */
module Cadence {
  import opened Records
  import opened TimerStats

  /** The statistics after `end` has closed one iteration with each log of `logs` in turn,
      starting from `s`. */
  function RunEnds(logs: seq<seq<Record>>, s: Stats, interval: int): Stats
  {
    if |logs| == 0 then s
    else EndIteration(logs[|logs| - 1], RunEnds(logs[..|logs| - 1], s, interval), interval)
  }

  /** How many of those `end` calls printed the report. */
  function ReportCount(logs: seq<seq<Record>>, s: Stats, interval: int): nat
  {
    if |logs| == 0 then 0
    else
      var before := RunEnds(logs[..|logs| - 1], s, interval);
      ReportCount(logs[..|logs| - 1], s, interval)
        + if Reports(logs[|logs| - 1], before, interval) then 1 else 0
  }

  /** Every log holds at least one record, as every log `end` processes does (it starts
      with the begin record and ends with the end record). */
  ghost predicate AllNonEmpty(logs: seq<seq<Record>>)
  {
    forall i :: 0 <= i < |logs| ==> logs[i] != []
  }

  /** `process` advances the iteration counter by one on a non-empty log (from -1 to 0 on
      the first) and leaves it alone on an empty one. */
  lemma ProcessCounter(recs: seq<Record>, s: Stats)
    ensures Process(recs, s).nbIter == if recs == [] then s.nbIter else s.nbIter + 1
  {
  }

  /** The first iteration is a warm-up: closing it with a non-empty log leaves the
      statistics of a fresh timer exactly as `clear` leaves them, whatever was recorded. */
  lemma WarmUp(recs: seq<Record>, interval: int)
    requires recs != []
    ensures EndIteration(recs, NewStats, interval) == ClearedStats
    ensures Reports(recs, NewStats, interval) <==> interval == 0
  {
  }

  /** With a positive interval, once the first iteration (the warm-up) is closed, one report
      is printed every `interval` iterations: the counter stays below the interval and
      counts the iterations since the last report. */
  lemma {:induction false} Periodic(logs: seq<seq<Record>>, interval: int)
    requires interval >= 1 && logs != [] && AllNonEmpty(logs)
    ensures var r := RunEnds(logs, NewStats, interval);
      && 0 <= r.nbIter < interval
      && ReportCount(logs, NewStats, interval) * interval + r.nbIter == |logs| - 1
  {
    var init := logs[..|logs| - 1];
    var last := logs[|logs| - 1];
    if |init| == 0 {
      WarmUp(last, interval);
    } else {
      assert AllNonEmpty(init) by {
        forall i | 0 <= i < |init| ensures init[i] != [] {
          assert init[i] == logs[i];
        }
      }
      Periodic(init, interval);
      var before := RunEnds(init, NewStats, interval);
      var c := ReportCount(init, NewStats, interval);
      ProcessCounter(last, before);
      var r := RunEnds(logs, NewStats, interval);
      if Reports(last, before, interval) {
        assert r == ClearedStats && ReportCount(logs, NewStats, interval) == c + 1;
        assert (c + 1) * interval == c * interval + interval;
      } else {
        assert r == Process(last, before) && ReportCount(logs, NewStats, interval) == c;
      }
    }
  }

  /** The `end` closing the `n`-th iteration prints exactly when `n - 1` is a positive
      multiple of the interval. */
  lemma LastReports(logs: seq<seq<Record>>, interval: int)
    requires interval >= 1 && logs != [] && AllNonEmpty(logs)
    ensures Reports(logs[|logs| - 1], RunEnds(logs[..|logs| - 1], NewStats, interval), interval)
            <==> |logs| >= 2 && (|logs| - 1) % interval == 0
  {
    var init := logs[..|logs| - 1];
    var last := logs[|logs| - 1];
    if |init| == 0 {
      WarmUp(last, interval);
    } else {
      assert AllNonEmpty(init) by {
        forall i | 0 <= i < |init| ensures init[i] != [] {
          assert init[i] == logs[i];
        }
      }
      Periodic(init, interval);
      var before := RunEnds(init, NewStats, interval);
      ProcessCounter(last, before);
      var c := ReportCount(init, NewStats, interval);
      MultipleIff(c, before.nbIter + 1, interval);
    }
  }

  /** Three iterations of a fresh timer with interval 2: the second `end` does not print,
      the third does. */
  lemma IntervalTwo(l1: seq<Record>, l2: seq<Record>, l3: seq<Record>)
    requires l1 != [] && l2 != [] && l3 != []
    ensures !Reports(l2, RunEnds([l1], NewStats, 2), 2)
    ensures Reports(l3, RunEnds([l1, l2], NewStats, 2), 2)
  {
    var two, three := [l1, l2], [l1, l2, l3];
    assert two[..1] == [l1] && three[..2] == two;
    LastReports(two, 2);
    LastReports(three, 2);
  }

  /** A positive multiple of `i` is at least `i`. */
  lemma MulAtLeast(k: int, i: int)
    requires k >= 1 && i >= 1
    ensures k * i >= i
  {
    assert k * i == (k - 1) * i + i;
    assert (k - 1) * i >= 0;
  }

  /** The remainder of Euclidean division is the only `m` in `[0, i)` with `x == q * i + m`. */
  lemma ModUnique(x: int, i: int, q: int, m: int)
    requires i >= 1 && 0 <= m < i && x == q * i + m
    ensures x % i == m
  {
    var q', m' := x / i, x % i;
    assert x == q' * i + m';
    assert (q - q') * i == m' - m;
    if q > q' {
      MulAtLeast(q - q', i);
    } else if q < q' {
      MulAtLeast(q' - q, i);
    }
  }

  /** `c * i + r` with `1 <= r <= i` is a multiple of `i` exactly when `r == i`. */
  lemma MultipleIff(c: nat, r: int, i: int)
    requires 1 <= r <= i
    ensures (c * i + r) % i == 0 <==> r == i
  {
    if r == i {
      ModUnique(c * i + r, i, c + 1, 0);
    } else {
      ModUnique(c * i + r, i, c, r);
    }
  }

  /** A negative interval never prints: every processed log moves the counter to 0 or
      above. */
  lemma {:induction false} NegativeNeverReports(logs: seq<seq<Record>>, s: Stats, interval: int)
    requires interval < 0 && s.nbIter >= -1 && AllNonEmpty(logs)
    ensures ReportCount(logs, s, interval) == 0
    ensures RunEnds(logs, s, interval).nbIter >= -1
  {
    if |logs| > 0 {
      var init := logs[..|logs| - 1];
      assert AllNonEmpty(init) by {
        forall i | 0 <= i < |init| ensures init[i] != [] {
          assert init[i] == logs[i];
        }
      }
      NegativeNeverReports(init, s, interval);
      ProcessCounter(logs[|logs| - 1], RunEnds(init, s, interval));
    }
  }
}
