/** The mixins of pypipe/task/mixins.py: the execution mixin keeps its own
    execution condition (rebuilt on every set, refined by the builder calls)
    and derives the period and the next start from it; the logging mixin
    appends tagged records to the shared log and reads status and history
    back from it. */
module TaskMixins {
  import opened Wrappers
  import opened StatusLog
  import opened Conditions

  /** An execution value: a cadence string, or a period object. */
  datatype Execution = Cadence(expr: string) | Span(period: TimePeriod)

  datatype NextStartError =
    | NoEvent     // the condition exposes no event (cond.function is missing)
    | NoEvents    // max() of an empty sequence of events

  /** The period an execution value stands for: a string names its cycle. */
  function ExecutionPeriod(e: Execution): TimePeriod
  {
    match e
    case Cadence(s) => Cycle(s)
    case Span(p) => p
  }

  /** _execution_condition for an execution value: always-true for None;
      otherwise "the task has not run" in the value's cycle (a string) or
      within the value itself (a period). */
  function ExecutionCondition(name: TaskName, value: Option<Execution>): (c: Condition)
    ensures value.None? ==> c == AlwaysTrue
    ensures value.Some? ==> Occurrence(c) == Some((name, ExecutionPeriod(value.value)))
  {
    match value
    case None => AlwaysTrue
    case Some(Cadence(s)) => Not(Ran(name, Cycle(s)))
    case Some(Span(p)) => Not(Ran(name, p))
  }

  /** The execution condition holds exactly when no execution is set or the
      task has not run within the execution's period. */
  lemma ExecutionConditionMeaning(name: TaskName, value: Option<Execution>, ran: (TaskName, TimePeriod) -> bool)
    ensures Holds(ExecutionCondition(name, value), ran) <==>
      value.None? || !ran(name, ExecutionPeriod(value.value))
  {
    if value.Some? {
      assert Holds(Ran(name, ExecutionPeriod(value.value)), ran) == ran(name, ExecutionPeriod(value.value));
    }
  }

  /** The separate constraints a period is the conjunction of. */
  function Constraints(p: TimePeriod): seq<TimePeriod>
  {
    if p.Both? then Constraints(p.left) + Constraints(p.right) else [p]
  }

  /** What a builder stores: the new period when no execution is set,
      otherwise the old execution AND the new period. The constraints
      accumulate in call order; none is replaced. */
  function Refine(current: Option<Execution>, p: TimePeriod): (e: Execution)
    requires !p.Both?
    ensures Constraints(ExecutionPeriod(e)) ==
      (if current.None? then [] else Constraints(ExecutionPeriod(current.value))) + [p]
  {
    match current
    case None => Span(p)
    case Some(prior) => Span(Both(ExecutionPeriod(prior), p))
  }

  /** The latest of a non-empty sequence of times. */
  function Max(s: seq<Time>): (m: Time)
    requires |s| > 0
    ensures m in s
    ensures forall x :: x in s ==> x <= m
  {
    if |s| == 1 then s[0]
    else
      var rest := Max(s[1..]);
      assert forall x :: x in s ==> x == s[0] || x in s[1..];
      if s[0] >= rest then s[0] else rest
  }

  class ExecutionMixin {
    const name: TaskName
    var execution: Option<Execution>
    var executionCondition: Condition

    /** The stored condition is the one the stored execution value yields. */
    ghost predicate Valid()
      reads this
    {
      executionCondition == ExecutionCondition(name, execution)
    }

    constructor (name: TaskName, execution: Option<Execution>)
      ensures this.name == name && this.execution == execution && Valid()
    {
      this.name := name;
      this.execution := execution;
      executionCondition := ExecutionCondition(name, execution);
    }

    /** The execution setter: store the value and rebuild the condition. */
    method SetExecution(value: Option<Execution>)
      modifies this
      ensures execution == value && Valid()
    {
      execution := value;
      if value.None? {
        executionCondition := AlwaysTrue;
        return;
      }
      match value.value {
        case Cadence(s) =>
          executionCondition := Not(Ran(name, Cycle(s)));
        case Span(p) =>
          var cond := Ran(name, p);
          executionCondition := Not(cond);
      }
    }

    /** Shared step of the five builders: set or AND the factory's period. */
    method AddPeriod(p: TimePeriod)
      requires !p.Both?
      modifies this
      ensures execution == Some(Refine(old(execution), p)) && Valid()
    {
      if execution.None? {
        SetExecution(Some(Span(p)));
      } else {
        SetExecution(Some(Span(Both(ExecutionPeriod(execution.value), p))));
      }
    }

    method Between(args: string) returns (self: ExecutionMixin)
      modifies this
      ensures self == this && execution == Some(Refine(old(execution), Conditions.Between(args))) && Valid()
    {
      AddPeriod(Conditions.Between(args));
      self := this;
    }

    method Every(args: string) returns (self: ExecutionMixin)
      modifies this
      ensures self == this && execution == Some(Refine(old(execution), Past(args))) && Valid()
    {
      AddPeriod(Past(args));
      self := this;
    }

    method In(args: string) returns (self: ExecutionMixin)
      modifies this
      ensures self == this && execution == Some(Refine(old(execution), Conditions.In(args))) && Valid()
    {
      AddPeriod(Conditions.In(args));
      self := this;
    }

    method From(args: string) returns (self: ExecutionMixin)
      modifies this
      ensures self == this && execution == Some(Refine(old(execution), Conditions.From(args))) && Valid()
    {
      AddPeriod(Conditions.From(args));
      self := this;
    }

    method InCycle(args: string) returns (self: ExecutionMixin)
      modifies this
      ensures self == this && execution == Some(Refine(old(execution), Conditions.InCycle(args))) && Valid()
    {
      AddPeriod(Conditions.InCycle(args));
      self := this;
    }

    /** period: the execution condition's own period, else all time. */
    function Period(): (p: TimePeriod)
      reads this
      ensures Valid() && execution.None? ==> p == AllTime
      ensures Valid() && execution.Some? ==> p == ExecutionPeriod(execution.value)
    {
      match Occurrence(executionCondition)
      case Some(o) => o.1
      case None => AllTime
    }

    /** next_start: `now` when the execution condition holds; otherwise the
        left edge of the window after the latest of `events`, the times the
        condition's event reports. `ran` decides occurrence predicates and
        `next` is the period library's period.next. */
    function NextStart(now: Time, ran: (TaskName, TimePeriod) -> bool, events: seq<Time>,
                       next: (TimePeriod, Time) -> Window): (r: Result<Time, NextStartError>)
      reads this
      ensures Holds(executionCondition, ran) ==> r == Ok(now)
      ensures !Holds(executionCondition, ran) && Occurrence(executionCondition).None? ==> r == Err(NoEvent)
      ensures !Holds(executionCondition, ran) && Occurrence(executionCondition).Some? && events == [] ==> r == Err(NoEvents)
      ensures !Holds(executionCondition, ran) && Occurrence(executionCondition).Some? && events != [] ==>
        exists latest :: latest in events && (forall e :: e in events ==> e <= latest) &&
          r == Ok(next(Occurrence(executionCondition).value.1, latest).left)
    {
      if Holds(executionCondition, ran) then Ok(now)
      else
        match Occurrence(executionCondition)
        case None => Err(NoEvent)
        case Some(o) =>
          if events == [] then Err(NoEvents)
          else
            var latestRun := Max(events);
            Ok(next(o.1, latestRun).left)
    }
  }

  /** The logger name: the base name, with ".group" appended when a group is given. */
  function LoggerName(basename: string, group: Option<string>): (n: string)
    ensures |basename| <= |n| && n[..|basename|] == basename
    ensures group.None? <==> |n| == |basename|
    ensures group.Some? ==> n[|basename|] == '.' && n[|basename| + 1..] == group.value
  {
    if group.None? then basename else basename + "." + group.value
  }

  /** The termination reason written: the given one, or "unknown reason"
      when it is missing or empty. */
  function ReasonText(reason: Option<string>): string
  {
    if reason.None? || reason.value == "" then "unknown reason" else reason.value
  }

  class LoggingMixin {
    const name: TaskName
    /** The shared log, seen through the task's log adapter. */
    const log: Log

    constructor (name: TaskName, log: Log)
      ensures this.name == name && this.log == log
    {
      this.name := name;
      this.log := log;
    }

    method LogRunning(now: Time)
      modifies log
      ensures log.records == old(log.records) +
        [Record(now, Info, Run, name, "Running '" + NameText(name) + "'", None)]
      ensures Status() == Some(Run)
    {
      StatusAfterAppend(log.records, Record(now, Info, Run, name, "Running '" + NameText(name) + "'", None), name);
      log.Append(Record(now, Info, Run, name, "Running '" + NameText(name) + "'", None));
    }

    /** `handling` is the exception being handled when it is called, if any.
        With exc_info=True the record always carries exception information:
        the handled exception's text, or, outside any handler, the empty
        triple that a formatter renders as "NoneType: None". */
    method LogFailure(handling: Option<Exc>, now: Time)
      modifies log
      ensures log.records == old(log.records) +
        [Record(now, Error, Fail, name, "Task '" + NameText(name) + "' failed",
                Some(if handling.Some? then Describe(handling.value) else "NoneType: None"))]
      ensures Status() == Some(Fail)
    {
      var r := Record(now, Error, Fail, name, "Task '" + NameText(name) + "' failed",
                      Some(if handling.Some? then Describe(handling.value) else "NoneType: None"));
      StatusAfterAppend(log.records, r, name);
      log.Append(r);
    }

    method LogSuccess(now: Time)
      modifies log
      ensures log.records == old(log.records) +
        [Record(now, Info, Success, name, "Task '" + NameText(name) + "' succeeded", None)]
      ensures Status() == Some(Success)
    {
      var r := Record(now, Info, Success, name, "Task '" + NameText(name) + "' succeeded", None);
      StatusAfterAppend(log.records, r, name);
      log.Append(r);
    }

    method LogTermination(reason: Option<string>, now: Time)
      modifies log
      ensures log.records == old(log.records) +
        [Record(now, Info, Terminate, name, "Task '" + NameText(name) + "' terminated due to: " + ReasonText(reason), None)]
      ensures Status() == Some(Terminate)
    {
      var r := Record(now, Info, Terminate, name, "Task '" + NameText(name) + "' terminated due to: " + ReasonText(reason), None);
      StatusAfterAppend(log.records, r, name);
      log.Append(r);
    }

    /** log_record: replay a record produced by a copy of the task elsewhere;
        it lands in the log unchanged. */
    method LogRecord(record: Record)
      modifies log
      ensures log.records == old(log.records) + [record]
      ensures record.taskName == name ==> Status() == Some(record.action)
      ensures record.taskName != name ==> Status() == old(Status())
    {
      StatusAfterAppend(log.records, record, name);
      log.Append(record);
    }

    /** status: None when the task has no record, else the latest record's action. */
    function Status(): (s: Option<Action>)
      reads this, log
      ensures s.None? <==> GetHistory() == []
      ensures s.Some? ==> s.value == GetHistory()[|GetHistory()| - 1].action
    {
      StatusIsLastOfHistory(log.records, name);
      StatusOf(log.records, name)
    }

    /** get_history: every record of this task, oldest first. The contract
        states membership; the order is the log's, as HistoryAppend shows. */
    function GetHistory(): (h: seq<Record>)
      reads this, log
      ensures forall r :: r in h <==> r in log.records && r.taskName == name
      ensures forall i :: 0 <= i < |h| ==> h[i].taskName == name
    {
      HistoryMembers(log.records, name);
      History(log.records, name)
    }
  }
}
