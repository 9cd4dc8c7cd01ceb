/** One entry of a timer's per-iteration event log (class `Record`). */
module Records {

  /** `Record::Type`: RNONE, RBEGIN, REND, RSTEP_BEGIN, RSTEP_END, RSTEP, RVAL_SET, RVAL_ADD. */
  datatype RecordType = RNone | RBegin | REnd | RStepBegin | RStepEnd | RStep | RValSet | RValAdd

  /** A timestamped event. `id` is a timer, step or value identifier depending on `kind`,
      `obj` an object identifier (0 when absent) and `val` the sample of a value event. */
  datatype Record = Record(time: int, kind: RecordType, id: nat, obj: nat, val: real)

  /** Records that open a step occurrence: a timer begin, a step begin, an instantaneous step. */
  predicate IsStepStart(k: RecordType)
  {
    k == RBegin || k == RStepBegin || k == RStep
  }

  /** Records that close a step occurrence. */
  predicate IsStepStop(k: RecordType)
  {
    k == REnd || k == RStepEnd
  }

  /** Records that carry a value sample. */
  predicate IsValue(k: RecordType)
  {
    k == RValSet || k == RValAdd
  }

  /** Records that increase the nesting level once processed. */
  predicate OpensLevel(k: RecordType)
  {
    k == RBegin || k == RStepBegin
  }

  /** The step a step record refers to: the whole timer is the root step 0. */
  function StepIdOf(r: Record): nat
  {
    if r.kind == RBegin || r.kind == REnd then 0 else r.id
  }
}
