/** Conditions and time periods as the task core sees them. The predicate and
    period libraries themselves are not part of this model: a period is the
    value a factory call built, and whether an occurrence predicate holds is
    decided by an oracle (`ran`) that the caller derives from the log and the
    clock. */
module Conditions {
  import opened Wrappers
  import opened StatusLog

  /** A time period, as built by the period library. */
  datatype TimePeriod =
    | AllTime                                  // StaticInterval(): all of time
    | Cycle(expr: string)                      // get_cycle(value), or cond.in_cycle(value)
    | Between(args: string)                    // period_factory.between(...)
    | Past(args: string)                       // period_factory.past(...)
    | In(args: string)                         // period_factory.in_(...)
    | From(args: string)                       // period_factory.from_(...)
    | InCycle(args: string)                    // period_factory.in_cycle(...)
    | Both(left: TimePeriod, right: TimePeriod) // left & right

  /** A window of time: what period.next(t) returns. */
  datatype Window = Window(left: Time, right: Time)

  /** A condition tree. `Ran(task, p)` is the occurrence predicate
      task_ran(task=...) with period p: "task ran within the current window of p". */
  datatype Condition =
    | AlwaysTrue
    | AlwaysFalse
    | And(left: Condition, right: Condition)
    | Not(operand: Condition)
    | Ran(task: TaskName, period: TimePeriod)

  /** Evaluates a condition, given the oracle for occurrence predicates. */
  function Holds(c: Condition, ran: (TaskName, TimePeriod) -> bool): bool
  {
    match c
    case AlwaysTrue => true
    case AlwaysFalse => false
    case And(l, r) => Holds(l, ran) && Holds(r, ran)
    case Not(o) => !Holds(o, ran)
    case Ran(t, p) => ran(t, p)
  }

  /** The occurrence predicate a condition exposes (its event and period),
      if any. A negation delegates to its operand, as next_start expects of
      ~task_ran(...). */
  function Occurrence(c: Condition): Option<(TaskName, TimePeriod)>
  {
    match c
    case Ran(t, p) => Some((t, p))
    case Not(o) => Occurrence(o)
    case _ => None
  }

  /** Whether the log holds a "run" record of `task` whose time lies in the
      current window of `p`; `inWindow` is the period library's membership test. */
  predicate RanWithin(log: seq<Record>, task: TaskName, p: TimePeriod, inWindow: (TimePeriod, Time) -> bool)
  {
    exists i :: 0 <= i < |log| && log[i].taskName == task && log[i].action == Run && inWindow(p, log[i].time)
  }
}
