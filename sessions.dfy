/** Properly nested `begin`/`end` pairs with recording calls in between, and what a whole
    session does to the globals: the stack comes back to what it was, timers the session
    never names are untouched, and the log that `end` processes is the begin record,
    the recording calls made directly inside the session, and the end record. */
module Sessions {
  import opened Basics
  import opened Records
  import opened TimerDatas
  import opened Profilers

  /** A recording call under its timestamp. */
  datatype Call =
    | StepBeginCall(id: nat, obj: nat, now: int)
    | StepEndCall(id: nat, now: int)
    | StepEndOnCall(id: nat, obj: nat, now: int)
    | StepNextCall(prevId: nat, nextId: nat, now: int)
    | StepCall(id: nat, obj: nat, now: int)
    | ValSetCall(id: nat, v: real, now: int)
    | ValAddCall(id: nat, v: real, now: int)

  /** `begin(id)` at `start`, the body, then `end(id)` at `finish`. */
  datatype Block = Block(id: nat, start: int, envInterval: int, body: Body, finish: int)

  /** What happens between a `begin` and its `end`: recording calls and nested sessions. */
  datatype Body = Done | Calls(call: Call, rest: Body) | Nested(inner: Block, rest: Body)

  /** The records a call appends to the current log. */
  function Written(c: Call): (rs: seq<Record>)
    ensures |rs| == if c.StepNextCall? then 2 else 1
    ensures forall i :: 0 <= i < |rs| ==> rs[i].time == c.now
  {
    match c
    case StepBeginCall(id, obj, now) => [Record(now, RStepBegin, id, obj, 0.0)]
    case StepEndCall(id, now) => [Record(now, RStepEnd, id, 0, 0.0)]
    case StepEndOnCall(id, obj, now) => [Record(now, RStepEnd, id, obj, 0.0)]
    case StepNextCall(prevId, nextId, now) =>
      [Record(now, RStepEnd, prevId, 0, 0.0), Record(now, RStepBegin, nextId, 0, 0.0)]
    case StepCall(id, obj, now) => [Record(now, RStep, id, obj, 0.0)]
    case ValSetCall(id, v, now) => [Record(now, RValSet, id, 0, v)]
    case ValAddCall(id, v, now) => [Record(now, RValAdd, id, 0, v)]
  }

  /** The calls that run the synchronisation callback: neither `stepBegin`, nor
      `stepEnd(id, obj)`, nor the value calls do. */
  predicate Syncs(c: Call)
  {
    c.StepEndCall? || c.StepNextCall? || c.StepCall?
  }

  /** Performs one recording call. */
  function Apply(p: Profiler, c: Call): (q: Profiler)
    ensures q == Log(p, Written(c), Syncs(c))
  {
    match c
    case StepBeginCall(id, obj, now) => StepBegin(p, id, obj, now)
    case StepEndCall(id, now) => StepEnd(p, id, now)
    case StepEndOnCall(id, obj, now) => StepEndOn(p, id, obj, now)
    case StepNextCall(prevId, nextId, now) => StepNext(p, prevId, nextId, now)
    case StepCall(id, obj, now) => Step(p, id, obj, now)
    case ValSetCall(id, v, now) => ValSet(p, id, v, now)
    case ValAddCall(id, v, now) => ValAdd(p, id, v, now)
  }

  function RunBlock(p: Profiler, b: Block): Profiler
    decreases b
  {
    End(RunBody(Begin(p, b.id, b.start, b.envInterval), b.body), b.id, b.finish)
  }

  function RunBody(p: Profiler, body: Body): Profiler
    decreases body
  {
    match body
    case Done => p
    case Calls(c, rest) => RunBody(Apply(p, c), rest)
    case Nested(inner, rest) => RunBody(RunBlock(p, inner), rest)
  }

  /** Whether a session or one nested in it, at any depth, uses timer `k`. */
  predicate BlockMentions(b: Block, k: nat)
    decreases b
  {
    b.id == k || BodyMentions(b.body, k)
  }

  predicate BodyMentions(body: Body, k: nat)
    decreases body
  {
    match body
    case Done => false
    case Calls(_, rest) => BodyMentions(rest, k)
    case Nested(inner, rest) => BlockMentions(inner, k) || BodyMentions(rest, k)
  }

  /** The records the body's own calls write, nested sessions excluded. */
  function DirectRecords(body: Body): seq<Record>
  {
    match body
    case Done => []
    case Calls(c, rest) => Written(c) + DirectRecords(rest)
    case Nested(_, rest) => DirectRecords(rest)
  }

  /** A session keeps the invariant and gives back the stack it started from. */
  lemma {:induction false} BlockRestores(p: Profiler, b: Block)
    requires WellFormed(p)
    ensures WellFormed(RunBlock(p, b)) && RunBlock(p, b).curTimer == p.curTimer
    decreases b
  {
    var q := Begin(p, b.id, b.start, b.envInterval);
    BeginWellFormed(p, b.id, b.start, b.envInterval);
    BodyRestores(q, b.body);
    var r := RunBody(q, b.body);
    EndWellFormed(r, b.id, b.finish);
    assert r.curTimer[..|r.curTimer| - 1] == p.curTimer;
  }

  /** A body keeps the invariant and the stack. */
  lemma {:induction false} BodyRestores(p: Profiler, body: Body)
    requires WellFormed(p)
    ensures WellFormed(RunBody(p, body)) && RunBody(p, body).curTimer == p.curTimer
    decreases body
  {
    match body
    case Done =>
    case Calls(c, rest) =>
      LogWellFormed(p, Written(c), Syncs(c));
      BodyRestores(Apply(p, c), rest);
    case Nested(inner, rest) =>
      BlockRestores(p, inner);
      BodyRestores(RunBlock(p, inner), rest);
  }

  /** Timer `k` has the same entry, or the same absence of one, in `p` and `q`. */
  ghost predicate SameEntry(p: Profiler, q: Profiler, k: nat)
  {
    (k in q.timers <==> k in p.timers) && (k in p.timers ==> q.timers[k] == p.timers[k])
  }

  /** A session that never uses timer `k` leaves its entry alone. */
  lemma {:induction false} BlockLeaves(p: Profiler, b: Block, k: nat)
    requires WellFormed(p) && !BlockMentions(b, k)
    ensures SameEntry(p, RunBlock(p, b), k)
    decreases b
  {
    var q := Begin(p, b.id, b.start, b.envInterval);
    BeginWellFormed(p, b.id, b.start, b.envInterval);
    BodyLeaves(q, b.body, k);
    BodyRestores(q, b.body);
  }

  /** A body run under a top timer other than `k` that never uses `k` leaves its entry alone. */
  lemma {:induction false} BodyLeaves(p: Profiler, body: Body, k: nat)
    requires WellFormed(p) && !BodyMentions(body, k)
    requires p.curTimer == [] || p.curTimer[|p.curTimer| - 1] != k
    ensures SameEntry(p, RunBody(p, body), k)
    decreases body
  {
    match body
    case Done =>
    case Calls(c, rest) =>
      LogWellFormed(p, Written(c), Syncs(c));
      BodyLeaves(Apply(p, c), rest, k);
    case Nested(inner, rest) =>
      BlockRestores(p, inner);
      BlockLeaves(p, inner, k);
      BodyLeaves(RunBlock(p, inner), rest, k);
  }

  /** A session that does not use the timer on top of the stack also gives back the
      current log. */
  lemma BlockRestoresLog(p: Profiler, b: Block)
    requires WellFormed(p)
    requires p.curTimer == [] || !BlockMentions(b, p.curTimer[|p.curTimer| - 1])
    ensures RunBlock(p, b).curTimer == p.curTimer && RunBlock(p, b).curRecords == p.curRecords
  {
    BlockRestores(p, b);
    if p.curTimer != [] {
      BlockLeaves(p, b, p.curTimer[|p.curTimer| - 1]);
    }
  }

  /** The condition under which `BodyLog` describes a body run from `p`: timer `k` is on
      top of the stack and its log is current. */
  ghost predicate LogsTo(p: Profiler, k: nat)
  {
    WellFormed(p) && p.curTimer != [] && p.curTimer[|p.curTimer| - 1] == k && p.curRecords == Some(k)
  }

  /** From `p` to `q`, the stack and the current log of timer `k` are kept and `rs` is
      appended to the records of `k`, nothing else of `k` changing. */
  ghost predicate AppendedTo(p: Profiler, q: Profiler, k: nat, rs: seq<Record>)
  {
    && q.curTimer == p.curTimer && q.curRecords == Some(k)
    && k in p.timers && k in q.timers
    && q.timers[k] == p.timers[k].(records := p.timers[k].records + rs)
  }

  lemma AppendedTrans(p: Profiler, q: Profiler, r: Profiler, k: nat, a: seq<Record>, b: seq<Record>)
    requires AppendedTo(p, q, k, a) && AppendedTo(q, r, k, b)
    ensures AppendedTo(p, r, k, a + b)
  {
    assert p.timers[k].records + a + b == p.timers[k].records + (a + b);
  }

  /** A recording call made while timer `k` is on top with a current log appends its
      records to that log. */
  lemma CallLog(p: Profiler, rs: seq<Record>, sync: bool, k: nat)
    requires LogsTo(p, k)
    ensures LogsTo(Log(p, rs, sync), k) && AppendedTo(p, Log(p, rs, sync), k, rs)
  {
    LogWellFormed(p, rs, sync);
  }

  /** A nested session that does not use timer `k`, on top with a current log, gives back
      the stack and the current log and leaves `k` alone. */
  lemma NestedLog(p: Profiler, inner: Block, k: nat)
    requires LogsTo(p, k) && !BlockMentions(inner, k)
    ensures LogsTo(RunBlock(p, inner), k) && AppendedTo(p, RunBlock(p, inner), k, [])
  {
    BlockRestores(p, inner);
    BlockLeaves(p, inner, k);
    assert p.timers[k].records + [] == p.timers[k].records;
  }

  /** While timer `k` is on top with a current log, a body that does not use `k` appends
      exactly the records of its own calls to that log and changes nothing else about `k`. */
  lemma {:induction false} BodyLog(p: Profiler, body: Body, k: nat)
    requires LogsTo(p, k) && !BodyMentions(body, k)
    ensures AppendedTo(p, RunBody(p, body), k, DirectRecords(body))
    decreases body, 0
  {
    match body
    case Done =>
      assert p.timers[k].records + [] == p.timers[k].records;
    case Calls(c, rest) =>
      CallsLog(p, c, rest, k);
    case Nested(inner, rest) =>
      NestedThenLog(p, inner, rest, k);
  }

  /** The step of `BodyLog` for a body that starts with a recording call. */
  lemma {:induction false} CallsLog(p: Profiler, c: Call, rest: Body, k: nat)
    requires LogsTo(p, k) && !BodyMentions(rest, k)
    ensures AppendedTo(p, RunBody(Apply(p, c), rest), k, Written(c) + DirectRecords(rest))
    decreases rest, 1
  {
    var q := Apply(p, c);
    CallLog(p, Written(c), Syncs(c), k);
    BodyLog(q, rest, k);
    AppendedTrans(p, q, RunBody(q, rest), k, Written(c), DirectRecords(rest));
  }

  /** The step of `BodyLog` for a body that starts with a nested session. */
  lemma {:induction false} NestedThenLog(p: Profiler, inner: Block, rest: Body, k: nat)
    requires LogsTo(p, k) && !BlockMentions(inner, k) && !BodyMentions(rest, k)
    ensures AppendedTo(p, RunBody(RunBlock(p, inner), rest), k, DirectRecords(rest))
    decreases rest, 1
  {
    var q := RunBlock(p, inner);
    NestedLog(p, inner, k);
    BodyLog(q, rest, k);
    AppendedTrans(p, q, RunBody(q, rest), k, [], DirectRecords(rest));
    assert [] + DirectRecords(rest) == DirectRecords(rest);
  }

  /** One iteration of a timer with a non-zero interval that no nested session reuses: its
      `end` processes exactly the begin record, the records of the calls made directly in
      the session and the end record, with the statistics the timer had before. */
  lemma Iteration(p: Profiler, b: Block)
    requires WellFormed(p)
    requires Initialised(p.timers, b.id, b.envInterval).interval != 0
    requires !BodyMentions(b.body, b.id)
    ensures var d := Initialised(p.timers, b.id, b.envInterval);
      var log := [Record(b.start, RBegin, b.id, 0, 0.0)] + DirectRecords(b.body);
      var q := RunBlock(p, b);
      b.id in q.timers && q.timers[b.id] == CloseIteration(d.(records := log), b.id, b.finish)
  {
    var q := Begin(p, b.id, b.start, b.envInterval);
    BeginWellFormed(p, b.id, b.start, b.envInterval);
    BodyLog(q, b.body, b.id);
  }
}
