# AdvancedTimer: a verified model of SOFA's profiling engine

`AdvancedTimer` instruments a simulation with named timers.

- **Timers and logs.** `begin(id)` pushes a timer on a global stack. With a non-zero sampling interval, it restarts that timer's per-iteration log with a begin record and makes that log current. Recording calls append timestamped records to the current log: `stepBegin`, `stepEnd`, `stepNext`, `step`, `valSet` and `valAdd`. `end(id)` closes the iteration of the timer on top of the stack.
- **Processing an iteration.** End appends the end record, then `TimerData::process` folds the log into the timer's statistics:
  - per step: occurrences, iterations, start time, total, squared total, minimum and maximum duration;
  - per value: samples, iterations, total, squared total, and the per-iteration aggregate with its bounds.
- **Reporting.** When the iteration counter reaches the interval, the report is printed and the statistics are cleared. The first processed iteration is a warm-up that is not counted.
- **Names.** Timer, step, object and value names are interned to small integers by `IdFactory`.

The model follows the code in `framework/sofa/helper/AdvancedTimer.cpp`, in the same form:

- **Classes.** `IdFactory`, `TimerData` and the global state are classes. Methods state their effect in `ensures` clauses.
  - `IdFactories.IdFactory` is the name table.
  - `TimerDatas.TimerData` holds one timer's log and statistics.
  - `AdvancedTimers.AdvancedTimer` holds the globals `timers`, `curTimer`, `curRecords` and `syncCallBack`.
- **Loops.** The loops of `getID`, `clear` and `process` are `while` loops with invariants.
- **Effect functions.** Every entry point of `AdvancedTimer` (`SetSyncCallBack`, `Clear`, `Begin`, `End` and the recording calls) is proved to have exactly the effect of a function of module `Profilers` on the globals seen as a value, and to keep the invariant `Profilers.WellFormed`. Their sub-steps (`CallSync`, `InitEntry`, `Install`, `Store`, `Open`, `RestartLog`, `StartTimer`, `CloseEntry`) state their effect too: `Install`, `Open`, `RestartLog` and `StartTimer` as a function of `Profilers`, `CallSync` on the callback log, and `InitEntry`, `Store` and `CloseEntry` on the one timer entry or key they change. They keep only the coupling between the objects and their snapshots. `TimerData.Process` is proved equal to the function `TimerStats.Process`.
- **Properties of those functions** are proved in separate modules:
  - `FoldInvariant`: the invariant of the statistics;
  - `StepFold`: step counts, listing order, start times, totals as sums of matched durations, minimum and maximum as the bounds of the durations compared since the last overwrite, non-negative durations, and the root row spanning the timer;
  - `ValFold`: value counts, totals and totals of squares, per-iteration aggregates, and bounds that are the smallest and largest stretch aggregate since `clear`;
  - `Sessions`: nested `begin`/`end` sessions restore the stack, and the log an `end` processes is exactly the session's own records;
  - `Cadence`: when reports are printed.

Timestamps, the environment lookup and the callback are outside the model. They become parameters and a ghost log, as listed below.

Five behaviours of the code differ from what a reader of the timer interface would expect. The model follows the code.

- **Report cadence.**
  - Expected: with interval 2, the first report is printed at the 2nd `end`.
  - In the code the counter starts at -1 (line 166). The first processed iteration only moves it to 0 (line 393), and the report is printed when the counter equals the interval (line 259).
  - So the first report comes at the 3rd `end`, then one every `interval` ends (`Cadence.IntervalTwo`, `Cadence.LastReports`).
- **Negative intervals.**
  - Expected: a non-positive configured interval leaves recording disabled.
  - The code keeps whatever `atoi` parsed (line 178). Only 0 disables recording (line 221).
  - A negative interval records and processes every iteration, but its counter never equals the interval, so it never prints (`Cadence.NegativeNeverReports`).
- **Nested timers under a disabled timer.**
  - Expected: a timer with interval 0 silences the timers nested under it.
  - In the code, `begin` of a nested timer with a non-zero interval makes that timer's own log current (lines 221-233), whatever the enclosing timer's interval.
  - The nested timer records and processes its iterations (`Profilers.BeginEffect`, `Sessions.Iteration`).
- **Step minimum and maximum.**
  - Expected: `tmin` and `tmax` are the smallest and largest duration of a step.
  - The code compares at every end record that follows a start of the same iteration, and overwrites both whenever `num == 1` (lines 439-440).
  - So a second end after the same start replaces both bounds while the step has one occurrence. A step started twice after a `clear` before its first end compares a positive duration against the default 0, so its `tmin` stays 0.
  - The model keeps the bounds as written and states them exactly (`StepFold.ProcessStepBounds`): `tmin` and `tmax` are members of, and bound, the durations compared since the last overwrite, together with the old bounds if no overwrite happened in the iteration (`StepFold.Compared`).
  - `StepFold.SecondEndOverwrites`: from a `clear`, one start then two ends give `tmin == tmax ==` the second duration, while `ttotal` holds both. `StepFold.DoubleStartKeepsZero`: two starts then one end of positive duration `d` give `tmin == 0` and `tmax == d`.
- **Value minimum and maximum.**
  - Expected: `vmin` and `vmax` range over the per-iteration aggregates.
  - In the code, every set record first folds the aggregate it replaces (lines 451-456). So the bounds range over every stretch between sets, not only over each iteration's final aggregate.
  - Example: one iteration with set 5.0 then set 1.0 has aggregate 1.0, yet `vmax` is 5.0 (`ValFold.SetReplacesAggregate`).
  - `ValFold.ProcessValueBounds` and `ValFold.BoundsSinceClear` state the bounds exactly: the smallest and largest of the stretch aggregates since the last `clear`.

## Model

| member | source | states |
|---|---|---|
| IdFactories.IndexOf | framework/sofa/helper/AdvancedTimer.cpp:42-52 | the linear search stops at the first occurrence of the name, and runs off the end exactly when the name is absent |
| IdFactories.IdFactory.constructor | framework/sofa/helper/AdvancedTimer.cpp:26-29 | a new factory holds only the name "0" for identifier 0 |
| IdFactories.IdFactory.GetID | framework/sofa/helper/AdvancedTimer.cpp:38-59 | the empty name is 0 and never interned; a known name gets its first index and the table is unchanged; a new name is appended and gets the next identifier; issued identifiers keep their names; `getName(getID(name)) == name` for every non-empty name |
| IdFactories.IdFactory.GetLastID | framework/sofa/helper/AdvancedTimer.cpp:61-64 | the last identifier has a name and every larger one has none |
| IdFactories.IdFactory.GetName | framework/sofa/helper/AdvancedTimer.cpp:67-73 | the name is empty exactly when the identifier is out of range, and otherwise is the stored name |
| IdFactories.NameAt | framework/sofa/helper/AdvancedTimer.cpp:67-73 | the name table lookup behind `getName`: the stored name in range, the empty name outside it |
| IdFactories.IdFromString | framework/sofa/helper/AdvancedTimer.cpp:83-89 | the empty string gives 0 and leaves the table alone; any other string gets an identifier naming it; the table grows by the string exactly when it was new |
| IdFactories.IdFromCString | framework/sofa/helper/AdvancedTimer.cpp:91-97 | a null pointer or an empty string gives 0 and leaves the table alone; any other string gets an identifier naming it; the table grows by the string exactly when it was new |
| IdFactories.IdToString | framework/sofa/helper/AdvancedTimer.cpp:99-104 | identifier 0 converts to "0", and every identifier converts to its `getName` |
| TimerDatas.TimerData.constructor | framework/sofa/helper/AdvancedTimer.cpp:165-168 | counter -1, interval 0, identifier 0, empty log and statistics |
| TimerDatas.TimerData.Init | framework/sofa/helper/AdvancedTimer.cpp:170-181 | sets the identifier and the interval, and nothing else |
| TimerDatas.TimerData.Clear | framework/sofa/helper/AdvancedTimer.cpp:380-387 | counter 0 and empty statistics; the log is kept; the invariant holds |
| TimerDatas.TimerData.FoldStart | framework/sofa/helper/AdvancedTimer.cpp:408-426 | the begin-type branch updates the fold state as `FoldStepStart` does |
| TimerDatas.TimerData.FoldStop | framework/sofa/helper/AdvancedTimer.cpp:428-442 | the end-type branch updates the fold state as `FoldStepStop` does |
| TimerDatas.TimerData.FoldVal | framework/sofa/helper/AdvancedTimer.cpp:444-479 | the value branch updates the fold state as `FoldValue` does |
| TimerDatas.TimerData.CloseValue | framework/sofa/helper/AdvancedTimer.cpp:488-495 | one closing pass changes only the entry of that value, as `CloseVal` does |
| TimerDatas.TimerData.FoldOne | framework/sofa/helper/AdvancedTimer.cpp:400-483 | one pass of the record loop, level included, is `FoldRecord` |
| TimerDatas.TimerData.FoldRecords | framework/sofa/helper/AdvancedTimer.cpp:395-484 | the record loop yields `FoldLog` of the whole log from the first record's time, and keeps the log, counter and configuration |
| TimerDatas.TimerData.CloseValues | framework/sofa/helper/AdvancedTimer.cpp:486-496 | the closing loop yields `FinalizeVals` over the listed values and changes nothing else |
| TimerDatas.TimerData.CountIteration | framework/sofa/helper/AdvancedTimer.cpp:392-496 | a counted iteration leaves the statistics equal to `TimerStats.Process` of the old ones |
| TimerDatas.TimerData.Process | framework/sofa/helper/AdvancedTimer.cpp:389-497 | the statistics become `TimerStats.Process(records, old statistics)`, covering an empty log and the warm-up; nothing else changes; the invariant holds |
| TimerDatas.TimerData.Print | framework/sofa/helper/AdvancedTimer.cpp:605-738 | one more report is written and nothing else changes |
| TimerDatas.TimerData.Append | framework/sofa/helper/AdvancedTimer.cpp:285 | the records are appended to the log and nothing else changes |
| TimerDatas.TimerData.ClearLog | framework/sofa/helper/AdvancedTimer.cpp:227 | the log becomes empty and nothing else changes |
| TimerStats.StartStep | framework/sofa/helper/AdvancedTimer.cpp:416-425 | the entry of a step after a start: level set, a first start in the iteration marks it and adds its relative time to `tstart`, `lastTime` and `num` updated; its effect on `tstart` and `numIt` is stated by `StepFold.StepIterations`, on `lastTime` by `StepFold.StepTotal`, and it leaves the bounds alone (`StepFold.StartKeepsBounds`) |
| TimerStats.FoldStepStart | framework/sofa/helper/AdvancedTimer.cpp:412-426 | a start record for a step, listing it when it had no entry; properties in `StepFold.StepListed` and `StepFold.StepNum` |
| TimerStats.StopStep | framework/sofa/helper/AdvancedTimer.cpp:433-441 | the entry of a step after an end: a start of the same iteration makes it add the duration and its square (`StepFold.StepTotal`) and compare the bounds, overwriting both while `num == 1` (`StepFold.StopBounds`, `StepFold.StepBounds`) |
| TimerStats.FoldStepStop | framework/sofa/helper/AdvancedTimer.cpp:431-442 | an end record for a step: the entry is created but the step is not listed; stated by `StepFold.StepListed` |
| TimerStats.FoldMinMax | framework/sofa/helper/AdvancedTimer.cpp:453-455 | the `vmin`/`vmax` update of the running aggregate; stated by `ValFold.FoldInto` and `ValFold.FoldKnown` |
| TimerStats.SampleVal | framework/sofa/helper/AdvancedTimer.cpp:450-478 | the entry of a value after a set or add; stated by `ValFold.ValCounts`, `ValFold.ValAggregate` and `ValFold.BoundedStep` |
| TimerStats.FoldValue | framework/sofa/helper/AdvancedTimer.cpp:447-479 | a value record, listing a value seen for the first time; stated by `ValFold.ValKeys` |
| TimerStats.FoldRecord | framework/sofa/helper/AdvancedTimer.cpp:400-483 | one pass of the record loop, level included; stated by `FoldInvariant.FoldRecordInv` and `StepFold.LevelCount` |
| TimerStats.FoldLog | framework/sofa/helper/AdvancedTimer.cpp:398-484 | the record loop over the log in order; stated by `StepFold.FoldLogSplit` |
| TimerStats.CloseVal | framework/sofa/helper/AdvancedTimer.cpp:490-495 | the closing bound update of one value; stated by `ValFold.CloseCovers` |
| TimerStats.FinalizeVals | framework/sofa/helper/AdvancedTimer.cpp:486-496 | the closing loop over the listed values; stated by `ValFold.FinalizeAt` |
| TimerStats.Process | framework/sofa/helper/AdvancedTimer.cpp:389-497 | `process`: nothing on an empty log, the warm-up only moves the counter, otherwise the record loop then the closing loop; stated by `FoldInvariant.CountedIteration` and the `Process…` lemmas |
| TimerStats.ClearedStats | framework/sofa/helper/AdvancedTimer.cpp:380-387 | the statistics after `clear`: counter 0, nothing recorded |
| TimerStats.EndIteration | framework/sofa/helper/AdvancedTimer.cpp:257-263 | process, then print and clear when the counter equals the interval; stated by `FoldInvariant.EndIterationInv` and the `Cadence` lemmas |
| FoldInvariant.StepStartInv | framework/sofa/helper/AdvancedTimer.cpp:408-426 | a begin-type record keeps the loop invariant |
| FoldInvariant.StepStopInv | framework/sofa/helper/AdvancedTimer.cpp:428-442 | an end-type record keeps the loop invariant |
| FoldInvariant.ValueInv | framework/sofa/helper/AdvancedTimer.cpp:444-479 | a value record keeps the loop invariant |
| FoldInvariant.FoldRecordInv | framework/sofa/helper/AdvancedTimer.cpp:400-483 | any record keeps the loop invariant |
| FoldInvariant.FoldLogInv | framework/sofa/helper/AdvancedTimer.cpp:398-484 | the whole record loop keeps the loop invariant |
| FoldInvariant.FinalizeValsInv | framework/sofa/helper/AdvancedTimer.cpp:486-496 | the closing loop keeps the value keys and every value entry consistent |
| FoldInvariant.ProcessInv | framework/sofa/helper/AdvancedTimer.cpp:389-497 | `process` keeps the statistics invariant: identifier lists without repetition, listed values exactly the value entries, consistent entries |
| FoldInvariant.StartInv | framework/sofa/helper/AdvancedTimer.cpp:392-393 | the statistics at a counted iteration are a valid start for its record loop, every entry lying behind the new counter |
| FoldInvariant.CountedIteration | framework/sofa/helper/AdvancedTimer.cpp:389-497 | a counted iteration is the record loop from the old statistics followed by the closing loop, and the loop invariant holds at its end |
| FoldInvariant.ClearedInv | framework/sofa/helper/AdvancedTimer.cpp:380-387 | `clear` establishes the invariant |
| FoldInvariant.EndIterationInv | framework/sofa/helper/AdvancedTimer.cpp:257-263 | process, then print and clear at the interval, keeps the invariant |
| StepFold.StepUntouched | framework/sofa/helper/AdvancedTimer.cpp:404-481 | a record about another step leaves an entry and its listing alone |
| StepFold.FoldRecordStepsGrow | framework/sofa/helper/AdvancedTimer.cpp:414-415 | one record only appends to the step list |
| StepFold.StepsPrefix | framework/sofa/helper/AdvancedTimer.cpp:414-415 | the step list after any prefix of the log is a prefix of the final list, so steps keep their first-seen order |
| StepFold.StepNum | framework/sofa/helper/AdvancedTimer.cpp:425 | `num` grows by exactly the number of begin, step-begin and step records of the step |
| StepFold.StepIterations | framework/sofa/helper/AdvancedTimer.cpp:418-423 | `numIt` grows by one exactly when the step starts in the iteration, `lastIt` then records the iteration, and `tstart` grows by the time of the first start relative to the iteration's start, and by nothing when the step does not start |
| StepFold.FirstStart | framework/sofa/helper/AdvancedTimer.cpp:418-422 | the time of the first start of a step in a log, the reference for what `tstart` adds |
| StepFold.ProcessStepIterations | framework/sofa/helper/AdvancedTimer.cpp:389-497 | after a counted iteration, a step started in it counts one more iteration and its `tstart` grew by its first start relative to the iteration's first record; a step not started keeps both |
| StepFold.StepKeys | framework/sofa/helper/AdvancedTimer.cpp:414-433 | a step gets an entry exactly when it had one or some record is about it |
| StepFold.StepListed | framework/sofa/helper/AdvancedTimer.cpp:414-433 | a step is listed exactly when it was listed before, or it had no entry and its first record starts it; a step first seen through an end record gets an entry but is never listed |
| StepFold.ProcessRootFirst | framework/sofa/helper/AdvancedTimer.cpp:408-415 | for logs starting with the timer's begin, the root step 0 stays the first listed step |
| StepFold.StartDurations | framework/sofa/helper/AdvancedTimer.cpp:408-426 | a start record loses no total time and records a start no earlier than the previous ones |
| StepFold.StopDurations | framework/sofa/helper/AdvancedTimer.cpp:434-441 | a stop record after every start of the iteration adds a non-negative duration |
| StepFold.RecordDurations | framework/sofa/helper/AdvancedTimer.cpp:400-483 | any record in time order loses no total time |
| StepFold.MonotoneDurations | framework/sofa/helper/AdvancedTimer.cpp:434-441 | with non-decreasing times, `ttotal` and `ttotal2` never decrease and a non-negative `tmin` stays non-negative |
| StepFold.RootUntouchedBy | framework/sofa/helper/AdvancedTimer.cpp:408-442 | records about other steps leave the root row alone |
| StepFold.RootSpan | framework/sofa/helper/AdvancedTimer.cpp:401-438 | a counted iteration over begin, other records, end adds exactly `end.time - begin.time` to the root's total |
| StepFold.FoldLogSplit | framework/sofa/helper/AdvancedTimer.cpp:398-484 | folding a concatenated log is folding its parts in turn |
| StepFold.LevelCount | framework/sofa/helper/AdvancedTimer.cpp:397-483 | the nesting level is the number of begin and step-begin records minus the number of end and step-end records |
| StepFold.LastStart | framework/sofa/helper/AdvancedTimer.cpp:418-424 | the time of the latest start of a step in a log, the reference for `lastTime` |
| StepFold.MatchedDurations | framework/sofa/helper/AdvancedTimer.cpp:434-438 | the reference list of durations: every end of a step after one of its starts, measured from the latest start |
| StepFold.SumAppend | framework/sofa/helper/AdvancedTimer.cpp:437-438 | the sums of durations and of their squares grow by one more duration |
| StepFold.StepTouched | framework/sofa/helper/AdvancedTimer.cpp:408-442 | a record about the step applies the start or the stop update to its entry |
| StepFold.StepTotal | framework/sofa/helper/AdvancedTimer.cpp:398-484 | over the record loop, a step not yet started in the iteration keeps its entry until its first start, then holds the latest start time, and its `ttotal` and `ttotal2` grow by the sum of its matched durations and of their squares |
| StepFold.ProcessStepTotal | framework/sofa/helper/AdvancedTimer.cpp:389-497 | after a counted iteration, every step's `ttotal` and `ttotal2` grew by the sum of its matched durations and of their squares |
| StepFold.StepSinceStep | framework/sofa/helper/AdvancedTimer.cpp:408-442 | one more record, applied as a start or a stop or not at all, keeps the entry the fold of the matched durations so far |
| StepFold.Compared | framework/sofa/helper/AdvancedTimer.cpp:434-440 | the reference list of the durations the bounds are compared with: every matched duration in turn, one folded while `num == 1` discarding all before it, with a flag saying whether that happened |
| StepFold.ComparedWith | framework/sofa/helper/AdvancedTimer.cpp:439-440 | the durations the bounds have seen: the compared ones, plus the old bounds when no overwrite discarded them |
| StepFold.TimeBounds | framework/sofa/helper/AdvancedTimer.cpp:439-440 | `tmin` and `tmax` are members of a list of durations and bound all of them |
| StepFold.StopBounds | framework/sofa/helper/AdvancedTimer.cpp:433-441 | a matched end makes the bounds those of its duration alone while `num == 1`, and otherwise of the old durations and it |
| StepFold.StartKeepsBounds | framework/sofa/helper/AdvancedTimer.cpp:416-425 | a start leaves `tmin` and `tmax` alone |
| StepFold.ComparedNonEmpty | framework/sofa/helper/AdvancedTimer.cpp:439-440 | the durations the bounds have seen are never empty |
| StepFold.ComparedStep | framework/sofa/helper/AdvancedTimer.cpp:439-440 | once an overwrite happened, the compared list holds at least the overwriting duration |
| StepFold.StepLast | framework/sofa/helper/AdvancedTimer.cpp:408-442 | the last record leaves the entry alone, keeps its bounds (a start), or applies the stop update (an end) |
| StepFold.ComparedAppend | framework/sofa/helper/AdvancedTimer.cpp:434-440 | one more record extends the compared list by its matched duration, restarting it when the entry has one occurrence |
| StepFold.StopComparedBounds | framework/sofa/helper/AdvancedTimer.cpp:433-441 | a matched end turns bounds over the seen durations into bounds over the seen durations after it |
| StepFold.MatchedStopBounds | framework/sofa/helper/AdvancedTimer.cpp:433-441 | an end after a start of the same iteration keeps the bounds those of the durations seen |
| StepFold.ComparedBoundsStep | framework/sofa/helper/AdvancedTimer.cpp:408-442 | any record keeps the bounds those of the durations seen |
| StepFold.StepBounds | framework/sofa/helper/AdvancedTimer.cpp:398-484 | over the record loop, `tmin` and `tmax` are members of, and bound, the durations compared since the last overwrite, plus the old bounds if there was none |
| StepFold.ProcessStepBounds | framework/sofa/helper/AdvancedTimer.cpp:389-497 | after a counted iteration, every step's `tmin` and `tmax` are members of, and bound, the durations it compared since the last overwrite, plus its old bounds if there was none |
| StepFold.ClearedStep | framework/sofa/helper/AdvancedTimer.cpp:389-497 | after the first iteration following a `clear`, a step's total is the sum of its matched durations and its bounds range over the default 0 and the compared durations, or over the latter alone after an overwrite |
| StepFold.DoubleStartLog | framework/sofa/helper/AdvancedTimer.cpp:408-441 | an iteration starting a step twice and ending it once |
| StepFold.DoubleStartCompared | framework/sofa/helper/AdvancedTimer.cpp:434-440 | in that iteration the one matched duration runs from the second start, and, two starts having been counted, it does not overwrite the bounds |
| StepFold.DoubleStartKeepsZero | framework/sofa/helper/AdvancedTimer.cpp:433-441 | from a `clear`, two starts then one end of positive duration `d` give `ttotal == d`, `tmax == d` and `tmin == 0` |
| StepFold.SecondEndLog | framework/sofa/helper/AdvancedTimer.cpp:408-441 | an iteration starting a step once and ending it twice |
| StepFold.SecondEndCompared | framework/sofa/helper/AdvancedTimer.cpp:434-440 | in that iteration both ends are matched to the one start, and the second overwrites the bounds |
| StepFold.SecondEndOverwrites | framework/sofa/helper/AdvancedTimer.cpp:433-441 | from a `clear`, one start then two ends give `ttotal` the sum of both durations, and `tmin == tmax ==` the second duration |
| ValFold.ValEvents | framework/sofa/helper/AdvancedTimer.cpp:444-447 | the selected records are set or add records of the value |
| ValFold.LastRestart | framework/sofa/helper/AdvancedTimer.cpp:457-468 | the restart point is the last set record, or the first event when there is no later set |
| ValFold.ValUntouched | framework/sofa/helper/AdvancedTimer.cpp:404-481 | a record about something else leaves a value's entry and listing alone |
| ValFold.ValKeys | framework/sofa/helper/AdvancedTimer.cpp:448-450 | a value gets an entry exactly when it had one or some record is about it |
| ValFold.ValTouched | framework/sofa/helper/AdvancedTimer.cpp:450-478 | a record about the value samples its entry with its kind and sample |
| ValFold.ValStep | framework/sofa/helper/AdvancedTimer.cpp:444-479 | the last record of a log either samples the value and is its last event, or leaves it alone |
| ValFold.ValTotal | framework/sofa/helper/AdvancedTimer.cpp:461-477 | `vtotal` grows by the sum of all raw samples of the value |
| ValFold.SampleSums | framework/sofa/helper/AdvancedTimer.cpp:459-478 | one sample adds its value to `vtotal` and its square to `vtotal2`, whatever the kind |
| ValFold.SumSquareVals | framework/sofa/helper/AdvancedTimer.cpp:462-477 | the reference sum of the squares of a value's raw samples |
| ValFold.Sampled | framework/sofa/helper/AdvancedTimer.cpp:444-479 | the reference fold of one value's events onto its entry |
| ValFold.ValSampled | framework/sofa/helper/AdvancedTimer.cpp:398-484 | over the record loop, a value's entry is the fold of its own events alone |
| ValFold.SampledSquares | framework/sofa/helper/AdvancedTimer.cpp:462-477 | folding a value's events adds the sum of their squares to `vtotal2` |
| ValFold.ValSquares | framework/sofa/helper/AdvancedTimer.cpp:462-477 | over the record loop, `vtotal2` grows by the sum of the squares of all raw samples of the value |
| ValFold.CountedStep | framework/sofa/helper/AdvancedTimer.cpp:457-472 | one more event moves `num` and `numIt` as the counting rule says |
| ValFold.ValCounts | framework/sofa/helper/AdvancedTimer.cpp:457-472 | over an iteration, `numIt` grows by one if the value occurs, and `num` by one per set plus one when its first event is an add |
| ValFold.AggregateAppend | framework/sofa/helper/AdvancedTimer.cpp:457-478 | a set, or the first event, restarts the per-iteration aggregate; a later add accumulates onto it (set then add x gives set + x) |
| ValFold.ValAggregate | framework/sofa/helper/AdvancedTimer.cpp:457-478 | at the end of the record loop, `vtotalIt` is the per-iteration aggregate |
| ValFold.FinalizeKeepsSums | framework/sofa/helper/AdvancedTimer.cpp:486-496 | the closing loop changes nothing but `vmin` and `vmax` |
| ValFold.FinalizeBounds | framework/sofa/helper/AdvancedTimer.cpp:486-496 | after the closing loop, every listed sampled value's aggregate lies within `[vmin, vmax]` |
| ValFold.ProcessValueCounts | framework/sofa/helper/AdvancedTimer.cpp:389-497 | a counted iteration lists a value once it occurs, adds its raw samples to `vtotal` and their squares to `vtotal2`, and counts `numIt` and `num` by the rule |
| ValFold.ProcessValueAggregate | framework/sofa/helper/AdvancedTimer.cpp:389-497 | after a counted iteration in which the value occurs, `vtotalIt` is its per-iteration aggregate and lies within `[vmin, vmax]` |
| ValFold.Segments | framework/sofa/helper/AdvancedTimer.cpp:451-478 | the reference list of stretch aggregates: the first event and every set open a stretch, an add accumulates onto the open one |
| ValFold.SegmentsCount | framework/sofa/helper/AdvancedTimer.cpp:457-472 | one stretch per set plus one when the first event is an add, the count `num` keeps |
| ValFold.SegmentsLast | framework/sofa/helper/AdvancedTimer.cpp:457-478 | the last stretch is the per-iteration aggregate |
| ValFold.FoldInto | framework/sofa/helper/AdvancedTimer.cpp:451-456 | folding the open aggregate makes the bounds the smallest and largest of the closed stretches and it |
| ValFold.FoldKnown | framework/sofa/helper/AdvancedTimer.cpp:451-456 | folding an aggregate already folded keeps the bounds |
| ValFold.BoundedFirst | framework/sofa/helper/AdvancedTimer.cpp:451-465 | the first event of an iteration folds the previous aggregate again harmlessly and opens a stretch |
| ValFold.BoundedSet | framework/sofa/helper/AdvancedTimer.cpp:451-472 | a later set closes the open stretch into the bounds and opens a new one |
| ValFold.BoundedAdd | framework/sofa/helper/AdvancedTimer.cpp:473-478 | a later add grows the open stretch and leaves the bounds |
| ValFold.BoundedStep | framework/sofa/helper/AdvancedTimer.cpp:444-479 | any value record keeps the closed stretches within the bounds and the open one in `vtotalIt` |
| ValFold.CloseCovers | framework/sofa/helper/AdvancedTimer.cpp:490-495 | the closing update folds the open stretch, so the bounds are exactly the smallest and largest stretch |
| ValFold.ValBounds | framework/sofa/helper/AdvancedTimer.cpp:398-484 | over the record loop the closed stretches of a value stay bounded and the open one is in `vtotalIt` |
| ValFold.FinalizeAt | framework/sofa/helper/AdvancedTimer.cpp:486-496 | the closing loop closes each listed value once and leaves unlisted ones alone |
| ValFold.FinalizeCovers | framework/sofa/helper/AdvancedTimer.cpp:486-496 | the closing loop turns bounded stretches into a covered list |
| ValFold.ProcessValueBounds | framework/sofa/helper/AdvancedTimer.cpp:389-497 | after a counted iteration, `num` counts and `vmin`/`vmax` are the smallest and largest of the stretch aggregates covered before plus those of the new log |
| ValFold.ProcessAll | framework/sofa/helper/AdvancedTimer.cpp:389-497 | `process` over a sequence of iteration logs |
| ValFold.AllSegments | framework/sofa/helper/AdvancedTimer.cpp:451-478 | the stretch aggregates over a sequence of iteration logs |
| ValFold.BoundsSinceClear | framework/sofa/helper/AdvancedTimer.cpp:380-497 | from a `clear`, `vmin` and `vmax` are the smallest and largest stretch aggregate of every iteration processed since, and `num` is their number |
| ValFold.CoversTwo | framework/sofa/helper/AdvancedTimer.cpp:490-495 | with two covered stretches the bounds are their smaller and larger |
| ValFold.SetReplacesAggregate | framework/sofa/helper/AdvancedTimer.cpp:451-472 | two samples in one iteration from a `clear`, the second a set: the aggregate is the second, yet `vmin` and `vmax` are the smaller and larger of both |
| Profilers.CurrentLog | framework/sofa/helper/AdvancedTimer.cpp:265-275 | the current log is the top timer's exactly when the stack is non-empty and that timer's interval is non-zero |
| Profilers.Sync | framework/sofa/helper/AdvancedTimer.cpp:228 | the callback is called once with its data when it is non-null, and nothing else changes |
| Profilers.SetSyncCallBack | framework/sofa/helper/AdvancedTimer.cpp:195-203 | returns the previous callback and data, and installs the new ones |
| Profilers.Clear | framework/sofa/helper/AdvancedTimer.cpp:205-211 | no timers, an empty stack, no current log; the callback is kept |
| Profilers.Initialise | framework/sofa/helper/AdvancedTimer.cpp:216-220 | only an entry whose identifier is 0 takes the identifier and the interval; log, statistics and reports are kept |
| Profilers.CloseIteration | framework/sofa/helper/AdvancedTimer.cpp:250-263 | the end record of the timer is appended, the statistics are processed then printed and cleared at the interval, exactly one report is added when printing, and identifier and interval are kept |
| Profilers.BeginEffect | framework/sofa/helper/AdvancedTimer.cpp:213-234 | `begin` pushes the timer and creates its entry if missing, with the environment interval and fresh statistics; other entries are untouched; a non-zero interval restarts the log with one begin record, makes it current and runs the callback; interval 0 leaves the log and clears the current log |
| Profilers.EndEffect | framework/sofa/helper/AdvancedTimer.cpp:236-276 | `end` with an empty stack or a non-top timer changes nothing; otherwise, with a current log, it runs the callback and closes the iteration, then pops and makes the new top's log current if its interval is non-zero |
| Profilers.LogEffect | framework/sofa/helper/AdvancedTimer.cpp:278-378 | a recording call changes nothing without a current log; otherwise it appends its records to that log only, running the callback for the calls that sync |
| Profilers.Initialised | framework/sofa/helper/AdvancedTimer.cpp:216-220 | the entry `timers[id]` after lookup and `init`; stated by `Profilers.Initialise` |
| Profilers.Opened | framework/sofa/helper/AdvancedTimer.cpp:215-220 | the globals after the entry is found or created and initialised; stated by `Profilers.BeginEffect` |
| Profilers.Restarted | framework/sofa/helper/AdvancedTimer.cpp:226-233 | the log cleared, the callback run and the begin record pushed; stated by `Profilers.BeginEffect` |
| Profilers.Started | framework/sofa/helper/AdvancedTimer.cpp:214-233 | the timer pushed, then its log disabled or restarted by its interval; stated by `Profilers.BeginEffect` |
| Profilers.Begin | framework/sofa/helper/AdvancedTimer.cpp:213-234 | `begin`; stated by `Profilers.BeginEffect` and `Profilers.BeginWellFormed` |
| Profilers.Closed | framework/sofa/helper/AdvancedTimer.cpp:248-264 | the closing of the top timer's iteration when a log is current; stated by `Profilers.EndEffect` and `Profilers.ClosedWellFormed` |
| Profilers.Pop | framework/sofa/helper/AdvancedTimer.cpp:265-275 | the pop and the choice of the next current log; stated by `Profilers.CurrentLog` and `Profilers.PopWellFormed` |
| Profilers.End | framework/sofa/helper/AdvancedTimer.cpp:236-276 | `end`; stated by `Profilers.EndEffect` and `Profilers.EndWellFormed` |
| Profilers.Log | framework/sofa/helper/AdvancedTimer.cpp:278-378 | a recording call: nothing without a current log, else an append; stated by `Profilers.LogEffect` |
| Profilers.StepBegin | framework/sofa/helper/AdvancedTimer.cpp:278-297 | `stepBegin` writes one step-begin record; stated by `Sessions.Written` |
| Profilers.StepEnd | framework/sofa/helper/AdvancedTimer.cpp:299-308 | `stepEnd` writes one step-end record; stated by `Sessions.Written` |
| Profilers.StepEndOn | framework/sofa/helper/AdvancedTimer.cpp:310-319 | `stepEnd` with an object writes one step-end record; stated by `Sessions.Written` |
| Profilers.StepNext | framework/sofa/helper/AdvancedTimer.cpp:321-333 | `stepNext` writes a step-end then a step-begin record; stated by `Sessions.Written` |
| Profilers.Step | framework/sofa/helper/AdvancedTimer.cpp:335-356 | `step` writes one instantaneous step record; stated by `Sessions.Written` |
| Profilers.ValSet | framework/sofa/helper/AdvancedTimer.cpp:358-367 | `valSet` writes one set record; stated by `Sessions.Written` |
| Profilers.ValAdd | framework/sofa/helper/AdvancedTimer.cpp:369-378 | `valAdd` writes one add record; stated by `Sessions.Written` |
| Profilers.BeginWellFormed | framework/sofa/helper/AdvancedTimer.cpp:213-234 | `begin` keeps the invariant of the globals |
| Profilers.CloseIterationOk | framework/sofa/helper/AdvancedTimer.cpp:250-263 | closing an iteration keeps a timer entry consistent |
| Profilers.ClosedWellFormed | framework/sofa/helper/AdvancedTimer.cpp:248-264 | the closing part of `end` keeps the invariant |
| Profilers.PopWellFormed | framework/sofa/helper/AdvancedTimer.cpp:265-275 | the pop at the end of `end` keeps the invariant |
| Profilers.EndWellFormed | framework/sofa/helper/AdvancedTimer.cpp:236-276 | `end` keeps the invariant |
| Profilers.LogWellFormed | framework/sofa/helper/AdvancedTimer.cpp:278-378 | recording calls keep the invariant |
| Sessions.Written | framework/sofa/helper/AdvancedTimer.cpp:278-378 | each recording call writes one record, except `stepNext`, which writes two, all with the call's timestamp |
| Sessions.Apply | framework/sofa/helper/AdvancedTimer.cpp:278-378 | a recording call is a log append with or without the callback |
| Sessions.BlockRestores | framework/sofa/helper/AdvancedTimer.cpp:213-276 | a properly nested session keeps the invariant and gives back the stack |
| Sessions.BodyRestores | framework/sofa/helper/AdvancedTimer.cpp:213-378 | the inside of a session keeps the invariant and the stack |
| Sessions.BlockLeaves | framework/sofa/helper/AdvancedTimer.cpp:213-276 | a session that never uses a timer leaves its entry alone |
| Sessions.BodyLeaves | framework/sofa/helper/AdvancedTimer.cpp:213-378 | a session body that never uses a timer, which is not on top, leaves its entry alone |
| Sessions.BlockRestoresLog | framework/sofa/helper/AdvancedTimer.cpp:265-275 | a session not using the top timer gives back the current log too |
| Sessions.AppendedTrans | framework/sofa/helper/AdvancedTimer.cpp:285 | appending in two steps is appending the concatenation |
| Sessions.CallLog | framework/sofa/helper/AdvancedTimer.cpp:278-378 | a recording call under a current top timer appends its records to that timer's log |
| Sessions.NestedLog | framework/sofa/helper/AdvancedTimer.cpp:265-275 | a nested session leaves the enclosing timer's log current and unchanged |
| Sessions.BodyLog | framework/sofa/helper/AdvancedTimer.cpp:278-378 | a body appends exactly the records of its own calls, nested sessions excluded, to the enclosing log |
| Sessions.CallsLog | framework/sofa/helper/AdvancedTimer.cpp:278-378 | the case of a body that starts with a call |
| Sessions.NestedThenLog | framework/sofa/helper/AdvancedTimer.cpp:213-276 | the case of a body that starts with a nested session |
| Sessions.Iteration | framework/sofa/helper/AdvancedTimer.cpp:213-264 | the `end` of a recording session processes exactly its begin record, its own calls' records and its end record, from the statistics the timer had before |
| AdvancedTimers.AdvancedTimer.constructor | framework/sofa/helper/AdvancedTimer.cpp:187-193 | the globals at program start: no timers, empty stack, no log, no callback |
| AdvancedTimers.AdvancedTimer.SetSyncCallBack | framework/sofa/helper/AdvancedTimer.cpp:195-203 | the effect of `Profilers.SetSyncCallBack`, keeping the invariant |
| AdvancedTimers.AdvancedTimer.Clear | framework/sofa/helper/AdvancedTimer.cpp:205-211 | the effect of `Profilers.Clear`, through the popping loop |
| AdvancedTimers.AdvancedTimer.CallSync | framework/sofa/helper/AdvancedTimer.cpp:228 | the callback is logged exactly as `Profilers.Sync` says |
| AdvancedTimers.AdvancedTimer.InitEntry | framework/sofa/helper/AdvancedTimer.cpp:216-220 | `init` runs only on an entry without an identifier, and other entries stay coupled to their snapshots |
| AdvancedTimers.AdvancedTimer.Install | framework/sofa/helper/AdvancedTimer.cpp:216-220 | the globals become `Profilers.Opened` |
| AdvancedTimers.AdvancedTimer.Store | framework/sofa/helper/AdvancedTimer.cpp:216 | the entry is stored under its own key and every entry matches its snapshot |
| AdvancedTimers.AdvancedTimer.Open | framework/sofa/helper/AdvancedTimer.cpp:216-220 | `timers[id]` is found or created, then initialised: the globals become `Profilers.Opened` |
| AdvancedTimers.AdvancedTimer.RestartLog | framework/sofa/helper/AdvancedTimer.cpp:226-233 | clear, callback, push of the begin record: the globals become `Profilers.Restarted` |
| AdvancedTimers.AdvancedTimer.StartTimer | framework/sofa/helper/AdvancedTimer.cpp:214-233 | the globals become `Profilers.Started` with the timer pushed |
| AdvancedTimers.AdvancedTimer.Begin | framework/sofa/helper/AdvancedTimer.cpp:213-234 | the effect of `Profilers.Begin`, keeping the invariant |
| AdvancedTimers.AdvancedTimer.CloseIteration | framework/sofa/helper/AdvancedTimer.cpp:250-263 | the entry becomes `Profilers.CloseIteration` of its old snapshot |
| AdvancedTimers.AdvancedTimer.CloseEntry | framework/sofa/helper/AdvancedTimer.cpp:250-263 | only the closed timer's entry changes, to `Profilers.CloseIteration` |
| AdvancedTimers.AdvancedTimer.CloseTop | framework/sofa/helper/AdvancedTimer.cpp:248-264 | the effect of `Profilers.Closed`, keeping the invariant |
| AdvancedTimers.AdvancedTimer.PopTimer | framework/sofa/helper/AdvancedTimer.cpp:265-275 | the effect of `Profilers.Pop`, keeping the invariant |
| AdvancedTimers.AdvancedTimer.End | framework/sofa/helper/AdvancedTimer.cpp:236-276 | the effect of `Profilers.End`, keeping the invariant |
| AdvancedTimers.AdvancedTimer.Push | framework/sofa/helper/AdvancedTimer.cpp:285 | records appended to the current log: the effect of `Profilers.Log` without the callback |
| AdvancedTimers.AdvancedTimer.StepBegin | framework/sofa/helper/AdvancedTimer.cpp:278-297 | the effect of `Profilers.StepBegin` |
| AdvancedTimers.AdvancedTimer.StepEnd | framework/sofa/helper/AdvancedTimer.cpp:299-308 | the effect of `Profilers.StepEnd` |
| AdvancedTimers.AdvancedTimer.StepEndOn | framework/sofa/helper/AdvancedTimer.cpp:310-319 | the effect of `Profilers.StepEndOn` |
| AdvancedTimers.AdvancedTimer.StepNext | framework/sofa/helper/AdvancedTimer.cpp:321-333 | the effect of `Profilers.StepNext` |
| AdvancedTimers.AdvancedTimer.Step | framework/sofa/helper/AdvancedTimer.cpp:335-356 | the effect of `Profilers.Step` |
| AdvancedTimers.AdvancedTimer.ValSet | framework/sofa/helper/AdvancedTimer.cpp:358-367 | the effect of `Profilers.ValSet` |
| AdvancedTimers.AdvancedTimer.ValAdd | framework/sofa/helper/AdvancedTimer.cpp:369-378 | the effect of `Profilers.ValAdd` |
| Cadence.ProcessCounter | framework/sofa/helper/AdvancedTimer.cpp:391-392 | `process` advances the counter by one on a non-empty log and not at all on an empty one |
| Cadence.WarmUp | framework/sofa/helper/AdvancedTimer.cpp:391-393 | the first iteration of a fresh timer leaves the statistics as `clear` does, and prints only with interval 0 |
| Cadence.Periodic | framework/sofa/helper/AdvancedTimer.cpp:257-263 | with a positive interval, after the warm-up, the reports printed times the interval plus the counter equals the iterations after the first, and the counter stays below the interval |
| Cadence.LastReports | framework/sofa/helper/AdvancedTimer.cpp:259-263 | the `end` closing the n-th iteration prints exactly when n - 1 is a positive multiple of the interval |
| Cadence.IntervalTwo | framework/sofa/helper/AdvancedTimer.cpp:259-263 | with interval 2, the 2nd `end` does not print and the 3rd does |
| Cadence.NegativeNeverReports | framework/sofa/helper/AdvancedTimer.cpp:259-263 | with a negative interval no `end` ever prints |

## Left out

- `TimerData::print` and the helpers `printVal`, `printNoVal` and `printTime` (lines 499-738) format text with floating-point arithmetic. Their output, the `tmargin` threshold and the standard deviations are not modelled. `TimerData.Print` only counts the reports written.
- The timestamps of `CTime::getTime` are the `now` parameter of each call. The ticks-per-second scaling is not modelled.
- `TimerData::init` looks the interval up with `getenv` and `atoi`. This is the `envInterval` parameter of `Begin`, used only when `init` runs. The variable names and the `SOFA_TIMER_ALL` fallback are not modelled.
- The synchronisation callback is a foreign function pointer. It is an opaque handle, and its invocations are kept as the ghost list `syncCalls`. What the callback does is not modelled.
- The error messages that `end` writes to `std::cerr` on an empty or mismatched stack are not modelled. The state change, which is none, is.
- Identifiers are unbounded naturals. The 32-bit `unsigned int` of `IdFactory` and the `int` counters never wrap in the model.
- `ctime_t` durations and their squares are unbounded integers. A 64-bit overflow of `ttotal2` is not modelled.
- `double` values are reals, without rounding.
- `IdFactory::getInstance` creates one function-static singleton per name space. In the model each factory is an object passed in, and the globals are the fields of one `AdvancedTimer` object.
- The two `push_back` calls of `stepNext` are one append of the two records. Nothing observes the log between them.
- `begin` pushes the timer before looking its entry up. The model folds both into the one state change, which no caller can tell apart.
- The `Record::RNONE` case of `process` (line 406) is kept in the data type and leaves the statistics alone. No entry point writes it.
- The `MutationListener` test is a client of the scene graph and is not part of this model.
