/** The task of pypipe/schedule/task.py: a process-wide registry of tasks,
    the defaults and the crash release applied when a task is created, the
    guarded run call with its callbacks, the execution setter, and status
    derived from the shared log. */
module ScheduleTask {
  import opened Wrappers
  import opened StatusLog
  import opened Conditions

  /** What the action returned (opaque). */
  datatype Value = NoneValue | Data(repr: string)

  /** A notebook artifact handle (JupyterTask._notebook). */
  datatype Notebook = Notebook(handle: nat)

  /** Task is a plain task; JupyterTask runs a notebook and overrides the
      success and finish steps. */
  datatype Kind = Plain | Jupyter

  /** The `name` keyword argument: not given, given as None, or given. */
  datatype NameArg = NameOmitted | NameNone | Named(name: string)

  /** The constructor's arguments. Each callback is present or None; what a
      callback does when called is part of the call's environment. An
      omitted priority is None here (it defaults to 1). */
  datatype TaskArgs = TaskArgs(
    action: string,
    startCond: Option<Condition>,
    runCond: Option<Condition>,
    endCond: Option<Condition>,
    execution: Option<string>,
    timeout: Option<int>,
    priority: Option<int>,
    onSuccess: bool,
    onFailure: bool,
    onFinish: bool,
    name: NameArg)

  datatype RegistryError = DuplicateName(key: TaskName) | UnknownTask(key: TaskName)

  /** The status passed to on_finish. */
  datatype FinishStatus = Succeeded | Failed

  /** What on_success receives: the output (Task) or the notebook (JupyterTask). */
  datatype HookArg = OutputArg(output: Value) | NotebookArg(notebook: Option<Notebook>)

  /** A callback invocation, in the order the call makes them. For a plain
      task OnFinish carries no notebook. */
  datatype Event =
    | OnSuccess(arg: HookArg)
    | OnFailure(error: Exc)
    | OnFinish(status: FinishStatus, notebook: Option<Notebook>)

  /** How the action behaved when executed. */
  datatype ActionRun = ActionReturned(output: Value) | ActionRaised(error: Exc)

  /** Everything outside the task that one call depends on: the action's
      outcome, the notebook handle a JupyterTask stored before the action
      returned or raised (None when it raised before storing one), and the
      exception each callback raises if it is called (None: it returns). */
  datatype CallEnv = CallEnv(
    action: ActionRun,
    stored: Option<Notebook>,
    successHook: Option<Exc>,
    failureHook: Option<Exc>,
    finishHook: Option<Exc>)

  /** What the caller sees: the returned output, or the exception raised. */
  datatype CallResult = CallReturned(output: Value) | CallRaised(error: Exc)

  /** Which callbacks are set. */
  datatype Hooks = Hooks(onSuccess: bool, onFailure: bool, onFinish: bool)

  /** The effect of one callback step: the callbacks made, the exception it
      raised, and the notebook handle left afterwards. */
  datatype Step = Step(events: seq<Event>, raised: Option<Exc>, notebook: Option<Notebook>)

  /** The effect of a whole call on everything but the log. */
  datatype Guarded = Guarded(
    trace: seq<Event>,
    result: CallResult,
    exception: Option<Exc>,
    notebook: Option<Notebook>)

  // ----- names and the registry key -----

  /** The name __init__ gives the task: the given name, else its identity. */
  function TaskNameOf(arg: NameArg, ident: nat): TaskName
  {
    if arg.Named? then Text(arg.name) else Ident(ident)
  }

  /** The key __new__ registers under, as written: kwargs.get("name", id(instance)).
      An explicit name=None yields the key None (here: the result None). */
  function RegistryKeyAsWritten(arg: NameArg, ident: nat): (k: Option<TaskName>)
    ensures k == Some(TaskNameOf(arg, ident)) <==> !arg.NameNone?
  {
    match arg
    case NameOmitted => Some(Ident(ident))
    case NameNone => None
    case Named(s) => Some(Text(s))
  }

  /** As written, two tasks created with name=None share the registry key
      None although __init__ names them by their distinct identities: the
      second creation fails, and neither is registered under its own name. */
  lemma UnnamedTasksCollideAsWritten(i: nat, j: nat)
    requires i != j
    ensures RegistryKeyAsWritten(NameNone, i) == RegistryKeyAsWritten(NameNone, j)
    ensures TaskNameOf(NameNone, i) != TaskNameOf(NameNone, j)
    ensures RegistryKeyAsWritten(NameNone, i) != Some(TaskNameOf(NameNone, i))
  {
  }

  /** With the registry keyed by the task's own name, tasks that were not
      given a name never collide when their identities differ. */
  lemma UnnamedTasksDistinct(a: NameArg, i: nat, b: NameArg, j: nat)
    requires !a.Named? && !b.Named? && i != j
    ensures TaskNameOf(a, i) != TaskNameOf(b, j)
  {
  }

  // ----- the records the task writes -----

  function RunningRecord(name: TaskName, now: Time): Record
  {
    Record(now, Info, Run, name, "Running " + NameText(name), None)
  }

  function FailureRecord(name: TaskName, e: Exc, now: Time): Record
  {
    Record(now, Error, Fail, name, "Task " + NameText(name) + " failed", Some(Describe(e)))
  }

  function SuccessRecord(name: TaskName, now: Time): Record
  {
    Record(now, Info, Success, name, "Task " + NameText(name) + " succeeded", None)
  }

  function CrashReleaseRecord(name: TaskName, now: Time): Record
  {
    Record(now, Warning, CrashRelease, name, "Task " + NameText(name) + " previously crashed unexpectedly.", None)
  }

  /** The records initialisation appends: one crash release when the task's
      latest record is "run", nothing otherwise. */
  function CrashReleaseRecords(log: seq<Record>, name: TaskName, now: Time): seq<Record>
  {
    if StatusOf(log, name) == Some(Run) then [CrashReleaseRecord(name, now)] else []
  }

  /** Crash release un-sticks a task found running and writes no run,
      success or fail record (the action is not invoked); any other status
      is left as it was. */
  lemma CrashReleaseUnsticks(log: seq<Record>, name: TaskName, now: Time)
    ensures var added := CrashReleaseRecords(log, name, now);
      && |added| <= 1
      && (forall r :: r in added ==> r.action == CrashRelease && r.taskName == name)
      && StatusOf(log + added, name) ==
           (if StatusOf(log, name) == Some(Run) then Some(CrashRelease) else StatusOf(log, name))
      && StatusOf(log + added, name) != Some(Run)
  {
    var added := CrashReleaseRecords(log, name, now);
    if added == [] {
      assert log + added == log;
    } else {
      StatusAfterAppend(log, CrashReleaseRecord(name, now), name);
    }
  }

  /** The records one call appends: run, then success or fail. */
  function CallRecords(name: TaskName, action: ActionRun, t0: Time, t1: Time): seq<Record>
  {
    [RunningRecord(name, t0),
     match action
     case ActionReturned(_) => SuccessRecord(name, t1)
     case ActionRaised(e) => FailureRecord(name, e, t1)]
  }

  /** After a call the task's status is "success" or "fail", whether or not
      a callback raised. The action and the callbacks write nothing to the
      log themselves. */
  lemma StatusAfterCall(log: seq<Record>, name: TaskName, action: ActionRun, t0: Time, t1: Time)
    ensures StatusOf(log + CallRecords(name, action, t0, t1), name) ==
      Some(if action.ActionReturned? then Success else Fail)
  {
    var recs := CallRecords(name, action, t0, t1);
    assert log + recs == (log + [recs[0]]) + [recs[1]];
    StatusAfterAppend(log, recs[0], name);
    StatusAfterAppend(log + [recs[0]], recs[1], name);
  }

  /** A call leaves every other task's status as it was, given that the
      action and the callbacks write nothing to the log themselves. */
  lemma OtherStatusesAfterCall(log: seq<Record>, name: TaskName, action: ActionRun, t0: Time, t1: Time)
    ensures forall other :: other != name ==>
      StatusOf(log + CallRecords(name, action, t0, t1), other) == StatusOf(log, other)
  {
    var recs := CallRecords(name, action, t0, t1);
    assert log + recs == (log + [recs[0]]) + [recs[1]];
    forall other | other != name
      ensures StatusOf(log + recs, other) == StatusOf(log, other)
    {
      StatusAfterAppend(log, recs[0], other);
      StatusAfterAppend(log + [recs[0]], recs[1], other);
    }
  }

  // ----- the execution setter -----

  /** start_cond after setting execution to `value`: unchanged for None,
      otherwise ANDed with "the task has not run in the cycle of value". */
  function ExecutionGuard(start: Condition, name: TaskName, value: Option<string>): (c: Condition)
    ensures value.None? ==> c == start
  {
    if value.None? then start else And(start, Not(Ran(name, Cycle(value.value))))
  }

  /** The guarded start condition holds exactly when the original one does
      and, if an execution value is set, the task has not run in its cycle. */
  lemma ExecutionGuardMeaning(start: Condition, name: TaskName, value: Option<string>, ran: (TaskName, TimePeriod) -> bool)
    ensures Holds(ExecutionGuard(start, name, value), ran) <==>
      Holds(start, ran) && (value.Some? ==> !ran(name, Cycle(value.value)))
  {
    if value.Some? {
      assert Holds(Not(Ran(name, Cycle(value.value))), ran) == !ran(name, Cycle(value.value));
    }
  }

  /** Setting execution again never removes the constraint an earlier
      setting added, not even setting it to None. */
  lemma ExecutionGuardsAccumulate(start: Condition, name: TaskName, first: string, later: Option<string>, ran: (TaskName, TimePeriod) -> bool)
    ensures Holds(ExecutionGuard(ExecutionGuard(start, name, Some(first)), name, later), ran)
      ==> !ran(name, Cycle(first))
  {
    ExecutionGuardMeaning(ExecutionGuard(start, name, Some(first)), name, later, ran);
    ExecutionGuardMeaning(start, name, Some(first), ran);
  }

  /** Once a call has run inside the current window of the execution cycle,
      the guarded start condition is false for the rest of that window. */
  lemma RunBlocksRestOfCycle(log: seq<Record>, name: TaskName, start: Condition, value: string,
                             action: ActionRun, t0: Time, t1: Time, inWindow: (TimePeriod, Time) -> bool)
    requires inWindow(Cycle(value), t0)
    ensures var after := log + CallRecords(name, action, t0, t1);
      !Holds(ExecutionGuard(start, name, Some(value)), (t, p) => RanWithin(after, t, p, inWindow))
  {
    var after := log + CallRecords(name, action, t0, t1);
    assert after[|log|] == RunningRecord(name, t0);
    assert RanWithin(after, name, Cycle(value), inWindow);
    ExecutionGuardMeaning(start, name, Some(value), (t, p) => RanWithin(after, t, p, inWindow));
  }

  // ----- the callback steps -----

  /** process_success: Task passes the output to on_success, JupyterTask the
      notebook. The callback's exception, if any, propagates. */
  function SuccessStep(kind: Kind, onSuccess: bool, output: Value, notebook: Option<Notebook>, hookError: Option<Exc>): (s: Step)
    ensures s.notebook == notebook
    ensures onSuccess ==>
      && s.events == [OnSuccess(if kind == Jupyter then NotebookArg(notebook) else OutputArg(output))]
      && s.raised == hookError
    ensures !onSuccess ==> s.events == [] && s.raised == None
  {
    if !onSuccess then Step([], None, notebook)
    else
      var arg := if kind == Jupyter then NotebookArg(notebook) else OutputArg(output);
      Step([OnSuccess(arg)], hookError, notebook)
  }

  /** process_finish of JupyterTask as written: `self._notebook` is read to
      call on_finish and then deleted, so a missing handle raises
      AttributeError and on_finish is not called. Task's own process_finish
      is unaffected. */
  function FinishStepAsWritten(kind: Kind, onFinish: bool, notebook: Option<Notebook>, status: FinishStatus, hookError: Option<Exc>): (s: Step)
    ensures kind == Jupyter && notebook.None? ==> s.events == [] && s.raised == Some(MissingAttribute("_notebook"))
  {
    if kind == Plain then FinishStep(kind, onFinish, notebook, status, hookError)
    else if notebook.None? then Step([], Some(MissingAttribute("_notebook")), None)
    else if !onFinish then Step([], None, None)
    else if hookError.Some? then Step([OnFinish(status, notebook)], hookError, notebook)
    else Step([OnFinish(status, notebook)], None, None)
  }

  /** As written, a notebook task whose action failed before storing its
      handle never calls on_finish, and the caller sees AttributeError
      instead of the action's own failure. */
  lemma FinishMasksFailureAsWritten(e: Exc)
    ensures var s := FinishStepAsWritten(Jupyter, true, None, Failed, None);
      && FinishCount(s.events) == 0
      && s.raised == Some(MissingAttribute("_notebook"))
      && (e != MissingAttribute("_notebook") ==> s.raised != Some(e))
  {
  }

  /** process_finish: on_finish runs exactly once when set, receiving the
      notebook handle first for a JupyterTask (None if none was stored); the
      handle is then discarded. Only the callback's own exception can
      escape; it skips the discard. */
  function FinishStep(kind: Kind, onFinish: bool, notebook: Option<Notebook>, status: FinishStatus, hookError: Option<Exc>): (s: Step)
    ensures onFinish ==> s.events == [OnFinish(status, if kind == Jupyter then notebook else None)]
    ensures !onFinish ==> s.events == []
    ensures s.raised.Some? ==> onFinish && s.raised == hookError
    ensures kind == Plain ==> s.notebook == notebook
    ensures kind == Jupyter && s.raised.None? ==> s.notebook == None
  {
    match kind
    case Plain =>
      if onFinish then Step([OnFinish(status, None)], hookError, notebook) else Step([], None, notebook)
    case Jupyter =>
      if !onFinish then Step([], None, None)
      else Step([OnFinish(status, notebook)], hookError, if hookError.Some? then notebook else None)
  }

  /** How many on_finish invocations a trace holds. */
  function FinishCount(t: seq<Event>): nat
  {
    if t == [] then 0 else (if t[0].OnFinish? then 1 else 0) + FinishCount(t[1..])
  }

  lemma {:induction false} FinishCountAppend(a: seq<Event>, b: seq<Event>)
    ensures FinishCount(a + b) == FinishCount(a) + FinishCount(b)
  {
    if a != [] {
      assert (a + b)[1..] == a[1..] + b;
      FinishCountAppend(a[1..], b);
    } else {
      assert a + b == b;
    }
  }

  /** A notebook task that returns has stored its handle first (the handle is
      stored before the notebook runs). */
  predicate Consistent(kind: Kind, env: CallEnv)
  {
    kind == Jupyter && env.action.ActionReturned? ==> env.stored.Some?
  }

  /** JupyterTask._notebook once the action has returned or raised: the
      stored handle, else whatever was there before. */
  function HandleAfterRun(kind: Kind, env: CallEnv, notebook: Option<Notebook>): Option<Notebook>
  {
    if kind == Jupyter && env.stored.Some? then env.stored else notebook
  }

  /** The run call: log "run"; execute; on failure log "fail", call
      on_failure, remember and re-raise the exception; on success log
      "success" and call on_success; in every case finish with on_finish.
      An exception raised by a callback propagates, and one raised while
      finishing replaces whatever was propagating: an exception raised by
      on_finish is what the caller sees, and it keeps a JupyterTask's
      notebook handle alive; otherwise the handle is discarded. A plain
      task's handle is never touched. */
  function Guard(kind: Kind, hooks: Hooks, env: CallEnv, exception: Option<Exc>, notebook: Option<Notebook>): (g: Guarded)
    requires Consistent(kind, env)
    ensures hooks.onFinish && env.finishHook.Some? ==> g.result == CallRaised(env.finishHook.value)
    ensures kind == Jupyter && !(hooks.onFinish && env.finishHook.Some?) ==> g.notebook == None
    ensures kind == Plain ==> g.notebook == notebook
    ensures kind == Jupyter && hooks.onFinish && env.finishHook.Some? ==> g.notebook == HandleAfterRun(kind, env, notebook)
  {
    var nb := HandleAfterRun(kind, env, notebook);
    match env.action
    case ActionRaised(e) =>
      var hookFailed := hooks.onFailure && env.failureHook.Some?;
      var f := FinishStep(kind, hooks.onFinish, nb, Failed, env.finishHook);
      var propagating := if hookFailed then env.failureHook.value else e;
      var before := if hooks.onFailure then [OnFailure(e)] else [];
      Guarded(before + f.events,
              CallRaised(if f.raised.Some? then f.raised.value else propagating),
              if hookFailed then exception else Some(e),
              f.notebook)
    case ActionReturned(out) =>
      var output := if kind == Jupyter then NoneValue else out;
      var s := SuccessStep(kind, hooks.onSuccess, output, nb, env.successHook);
      var f := FinishStep(kind, hooks.onFinish, nb, Succeeded, env.finishHook);
      var raised := if f.raised.Some? then f.raised else s.raised;
      Guarded(s.events + f.events,
              if raised.Some? then CallRaised(raised.value) else CallReturned(output),
              exception,
              f.notebook)
  }

  /** on_finish runs exactly once when it is set, never otherwise, and last,
      with the outcome's status. */
  lemma GuardFinishesOnce(kind: Kind, hooks: Hooks, env: CallEnv, exception: Option<Exc>, notebook: Option<Notebook>)
    requires Consistent(kind, env)
    ensures FinishCount(Guard(kind, hooks, env, exception, notebook).trace) == if hooks.onFinish then 1 else 0
    ensures var g := Guard(kind, hooks, env, exception, notebook);
      hooks.onFinish ==>
        g.trace[|g.trace| - 1] ==
          OnFinish(if env.action.ActionReturned? then Succeeded else Failed,
                   if kind == Jupyter then HandleAfterRun(kind, env, notebook) else None)
  {
    var nb := HandleAfterRun(kind, env, notebook);
    match env.action
    case ActionRaised(e) =>
      var f := FinishStep(kind, hooks.onFinish, nb, Failed, env.finishHook);
      FinishCountAppend(if hooks.onFailure then [OnFailure(e)] else [], f.events);
    case ActionReturned(out) =>
      var output := if kind == Jupyter then NoneValue else out;
      var s := SuccessStep(kind, hooks.onSuccess, output, nb, env.successHook);
      var f := FinishStep(kind, hooks.onFinish, nb, Succeeded, env.finishHook);
      FinishCountAppend(s.events, f.events);
  }

  /** When the action returns: on_failure is never called, on_success (if
      set) comes first, the stored exception is untouched, and the output is
      returned unless a callback raised. */
  lemma GuardSucceeded(kind: Kind, hooks: Hooks, env: CallEnv, exception: Option<Exc>, notebook: Option<Notebook>)
    requires Consistent(kind, env) && env.action.ActionReturned?
    ensures var g := Guard(kind, hooks, env, exception, notebook);
      && (forall e :: e in g.trace ==> !e.OnFailure?)
      && (hooks.onSuccess <==> |g.trace| > 0 && g.trace[0].OnSuccess?)
      && g.exception == exception
    ensures hooks.onSuccess ==>
      Guard(kind, hooks, env, exception, notebook).trace[0] ==
        OnSuccess(if kind == Jupyter then NotebookArg(HandleAfterRun(kind, env, notebook))
                  else OutputArg(env.action.output))
    ensures !(hooks.onSuccess && env.successHook.Some?) && !(hooks.onFinish && env.finishHook.Some?) ==>
      Guard(kind, hooks, env, exception, notebook).result == CallReturned(if kind == Jupyter then NoneValue else env.action.output)
    // an exception from on_success propagates unless on_finish raises in turn
    ensures hooks.onSuccess && env.successHook.Some? && !(hooks.onFinish && env.finishHook.Some?) ==>
      Guard(kind, hooks, env, exception, notebook).result == CallRaised(env.successHook.value)
    // the whole callback sequence: on_success at most once, then on_finish
    ensures Guard(kind, hooks, env, exception, notebook).trace ==
      (if hooks.onSuccess
       then [OnSuccess(if kind == Jupyter then NotebookArg(HandleAfterRun(kind, env, notebook))
                       else OutputArg(env.action.output))]
       else []) +
      (if hooks.onFinish
       then [OnFinish(Succeeded, if kind == Jupyter then HandleAfterRun(kind, env, notebook) else None)]
       else [])
  {
  }

  /** When the action raises e: on_success is never called, on_failure(e)
      (if set) comes first, and the call never returns normally; unless a
      callback raised, e is stored and re-raised. */
  lemma GuardFailed(kind: Kind, hooks: Hooks, env: CallEnv, exception: Option<Exc>, notebook: Option<Notebook>)
    requires Consistent(kind, env) && env.action.ActionRaised?
    ensures var g := Guard(kind, hooks, env, exception, notebook);
      && (forall e :: e in g.trace ==> !e.OnSuccess?)
      && (hooks.onFailure <==> |g.trace| > 0 && g.trace[0] == OnFailure(env.action.error))
      && g.result.CallRaised?
    ensures !(hooks.onFailure && env.failureHook.Some?) ==>
      Guard(kind, hooks, env, exception, notebook).exception == Some(env.action.error)
    ensures !(hooks.onFailure && env.failureHook.Some?) && !(hooks.onFinish && env.finishHook.Some?) ==>
      Guard(kind, hooks, env, exception, notebook).result == CallRaised(env.action.error)
    // an exception from on_failure propagates before self.exception is set,
    // unless on_finish raises in turn
    ensures hooks.onFailure && env.failureHook.Some? ==>
      && Guard(kind, hooks, env, exception, notebook).exception == exception
      && (!(hooks.onFinish && env.finishHook.Some?) ==> Guard(kind, hooks, env, exception, notebook).result == CallRaised(env.failureHook.value))
    // the whole callback sequence: on_failure at most once, then on_finish
    ensures Guard(kind, hooks, env, exception, notebook).trace ==
      (if hooks.onFailure then [OnFailure(env.action.error)] else []) +
      (if hooks.onFinish
       then [OnFinish(Failed, if kind == Jupyter then HandleAfterRun(kind, env, notebook) else None)]
       else [])
  {
  }

  // ----- the task object -----

  /** An argument: the given one, or the default when it is None or omitted. */
  function OrDefault<T>(given: Option<T>, default: T): T
  {
    if given.None? then default else given.value
  }

  class Task {
    const name: TaskName
    const kind: Kind
    const action: string
    /** The shared log, seen through the task's log adapter. */
    const log: Log
    var startCond: Condition
    var runCond: Condition
    var endCond: Condition
    var execution: Option<string>
    var timeout: Option<int>
    var priority: int
    var onSuccess: bool
    var onFailure: bool
    var onFinish: bool
    /** The last exception the action raised (absent until one does). */
    var exception: Option<Exc>
    /** JupyterTask._notebook (absent unless a notebook run stored it). */
    var notebook: Option<Notebook>

    /** __init__: missing conditions default to always-true (start, run) and
        always-false (end); execution is set through its setter; a task whose
        latest record is "run" gets one crash release record. */
    constructor Init(args: TaskArgs, kind: Kind, ident: nat, log: Log, now: Time)
      modifies log
      ensures this.name == TaskNameOf(args.name, ident) && this.kind == kind && this.log == log
      ensures action == args.action && timeout == args.timeout && priority == OrDefault(args.priority, 1)
      ensures onSuccess == args.onSuccess && onFailure == args.onFailure && onFinish == args.onFinish
      ensures startCond == ExecutionGuard(OrDefault(args.startCond, AlwaysTrue), name, args.execution)
      ensures runCond == OrDefault(args.runCond, AlwaysTrue)
      ensures endCond == OrDefault(args.endCond, AlwaysFalse)
      ensures execution == args.execution
      ensures exception == None && notebook == None
      ensures log.records == old(log.records) + CrashReleaseRecords(old(log.records), name, now)
      ensures Status() != Some(Run)
    {
      this.action := args.action;
      this.kind := kind;
      this.log := log;
      startCond := OrDefault(args.startCond, AlwaysTrue);
      runCond := OrDefault(args.runCond, AlwaysTrue);
      endCond := OrDefault(args.endCond, AlwaysFalse);
      timeout := args.timeout;
      priority := OrDefault(args.priority, 1);
      onFailure := args.onFailure;
      onSuccess := args.onSuccess;
      onFinish := args.onFinish;
      execution := None;
      this.name := TaskNameOf(args.name, ident);
      exception := None;
      notebook := None;
      new;
      ghost var defaultStart := startCond;
      SetExecution(args.execution);
      assert startCond == ExecutionGuard(defaultStart, name, args.execution);
      ReleaseCrash(now);
    }

    /** The crash release step of __init__: a task whose latest record is
        "run" crashed while running, and gets a crash release record. */
    method ReleaseCrash(now: Time)
      modifies log
      ensures log.records == old(log.records) + CrashReleaseRecords(old(log.records), name, now)
      ensures Status() != Some(Run)
    {
      CrashReleaseUnsticks(log.records, name, now);
      if Status() == Some(Run) {
        log.Append(CrashReleaseRecord(name, now));
      }
    }

    /** The execution setter: store the value and, unless it is None, AND
        "has not run in the value's cycle" into start_cond. */
    method SetExecution(value: Option<string>)
      modifies this`execution, this`startCond
      ensures execution == value
      ensures startCond == ExecutionGuard(old(startCond), name, value)
    {
      execution := value;
      if value.None? {
        return;
      }
      var period := Cycle(value.value);
      var hasTaskNotRun := Not(Ran(name, period));
      startCond := And(startCond, hasTaskNotRun);
    }

    /** status: None when the task has no record, else the latest record's
        action; read from the log every time. */
    function Status(): (s: Option<Action>)
      reads this, log
      ensures s.None? <==> History(log.records, name) == []
      ensures s.Some? ==> s.value == History(log.records, name)[|History(log.records, name)| - 1].action
    {
      StatusIsLastOfHistory(log.records, name);
      StatusOf(log.records, name)
    }

    /** is_running: the latest record of the task is a "run". */
    function IsRunning(): (b: bool)
      reads this, log
      ensures var h := History(log.records, name);
        b <==> h != [] && h[|h| - 1].action == Run
    {
      StatusIsLastOfHistory(log.records, name);
      Status() == Some(Run)
    }

    method LogRunning(now: Time)
      modifies log
      ensures log.records == old(log.records) + [RunningRecord(name, now)]
    {
      log.Append(RunningRecord(name, now));
    }

    method LogFailure(e: Exc, now: Time)
      modifies log
      ensures log.records == old(log.records) + [FailureRecord(name, e, now)]
    {
      log.Append(FailureRecord(name, e, now));
    }

    method LogSuccess(now: Time)
      modifies log
      ensures log.records == old(log.records) + [SuccessRecord(name, now)]
    {
      log.Append(SuccessRecord(name, now));
    }

    /** __call__: the log gains "run" and then "success" or "fail"; the
        callbacks, the result, the stored exception and the notebook handle
        are those of Guard. */
    method Call(env: CallEnv, t0: Time, t1: Time) returns (result: CallResult, trace: seq<Event>)
      requires Consistent(kind, env)
      modifies log, this`exception, this`notebook
      ensures log.records == old(log.records) + CallRecords(name, env.action, t0, t1)
      ensures var g := Guard(kind, Hooks(onSuccess, onFailure, onFinish), env, old(exception), old(notebook));
        result == g.result && trace == g.trace && exception == g.exception && notebook == g.notebook
      ensures Status() == Some(if env.action.ActionReturned? then Success else Fail)
    {
      StatusAfterCall(log.records, name, env.action, t0, t1);
      LogRunning(t0);
      var status: FinishStatus;
      var raised: Option<Exc> := None;
      var output := NoneValue;
      ghost var nb0 := notebook;
      if kind == Jupyter && env.stored.Some? {
        notebook := env.stored;
      }
      assert notebook == HandleAfterRun(kind, env, nb0);
      match env.action {
        case ActionRaised(e) =>
          status := Failed;
          LogFailure(e, t1);
          raised := Some(e);
          trace := [];
          if onFailure {
            trace := [OnFailure(e)];
            if env.failureHook.Some? {
              // on_failure raised: its exception propagates, self.exception is not set
              raised := env.failureHook;
            } else {
              exception := Some(e);
            }
          } else {
            exception := Some(e);
          }
        case ActionReturned(out) =>
          output := if kind == Jupyter then NoneValue else out;
          LogSuccess(t1);
          status := Succeeded;
          var s := SuccessStep(kind, onSuccess, output, notebook, env.successHook);
          trace := s.events;
          raised := s.raised;
      }
      assert log.records == old(log.records) + CallRecords(name, env.action, t0, t1);
      // finally: process_finish(status)
      var f := FinishStep(kind, onFinish, notebook, status, env.finishHook);
      trace := trace + f.events;
      notebook := f.notebook;
      if f.raised.Some? {
        raised := f.raised;
      }
      result := if raised.Some? then CallRaised(raised.value) else CallReturned(output);
    }
  }

  /** The process-wide registry TASKS: name to task. */
  class Registry {
    var tasks: map<TaskName, Task>

    /** Every task is registered under its own name. */
    ghost predicate Valid()
      reads this
    {
      forall k | k in tasks :: tasks[k].name == k
    }

    constructor ()
      ensures tasks == map[] && Valid()
    {
      tasks := map[];
    }

    /** get_task: the task registered under `n`; an absent name is a KeyError. */
    function GetTask(n: TaskName): (r: Result<Task, RegistryError>)
      reads this
      ensures r.Ok? <==> n in tasks
      ensures r.Ok? ==> r.value == tasks[n] && (Valid() ==> r.value.name == n)
      ensures r.Err? ==> r.error == UnknownTask(n)
    {
      if n in tasks then Ok(tasks[n]) else Err(UnknownTask(n))
    }

    /** Task(...): __new__ refuses a name already registered, leaving the
        registry and the log as they were; otherwise the new task is
        initialised and registered under its name, and nothing else is. */
    method Create(args: TaskArgs, kind: Kind, ident: nat, log: Log, now: Time) returns (r: Result<Task, RegistryError>)
      requires Valid()
      modifies this, log
      ensures Valid()
      ensures var key := TaskNameOf(args.name, ident);
        key in old(tasks) ==> r == Err(DuplicateName(key)) && tasks == old(tasks) && log.records == old(log.records)
      ensures var key := TaskNameOf(args.name, ident);
        key !in old(tasks) ==>
          && r.Ok? && fresh(r.value)
          && tasks == old(tasks)[key := r.value]
          && r.value.name == key && r.value.log == log && r.value.kind == kind
          && r.value.startCond == ExecutionGuard(OrDefault(args.startCond, AlwaysTrue), key, args.execution)
          && r.value.runCond == OrDefault(args.runCond, AlwaysTrue)
          && r.value.endCond == OrDefault(args.endCond, AlwaysFalse)
          && r.value.execution == args.execution
          && r.value.onSuccess == args.onSuccess && r.value.onFailure == args.onFailure
          && r.value.onFinish == args.onFinish
          && log.records == old(log.records) + CrashReleaseRecords(old(log.records), key, now)
          && r.value.Status() != Some(Run)
    {
      var key := TaskNameOf(args.name, ident);
      if key in tasks {
        return Err(DuplicateName(key));
      }
      var task := new Task.Init(args, kind, ident, log, now);
      tasks := tasks[key := task];
      r := Ok(task);
    }
  }
}
