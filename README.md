# Task core of pypipe, modelled in Dafny

This project models the core of pypipe's task scheduling. It has two
versions of the same design.

- `pypipe/schedule/task.py`:
  - a `Task` object whose status is never stored. Every read derives it from
    the latest record of the shared status log.
  - a process-wide registry `TASKS` that refuses duplicate names.
  - defaults for the start, run and end conditions.
  - a crash release at initialisation, which un-sticks a task whose latest
    record is `run`.
  - the guarded run call (`__call__`), which logs `run` and then `success` or
    `fail`, and runs the `on_success`, `on_failure` and `on_finish` callbacks.
  - the `execution` setter, which ANDs "has not run in this cycle" into
    `start_cond`.
  - the `JupyterTask` variant's success and finish steps.
- `pypipe/task/mixins.py`:
  - the execution mixin, which keeps its own execution condition. The five
    builders (`between`, `every`, `in_`, `from_`, `in_cycle`) refine that
    condition, and `period` and `next_start` are derived from it.
  - the logging mixin, which appends records with fixed action tags, replays
    records from workers, and reads status and history back.

Files:
- `wrappers.dfy` defines `Option` and `Result`.
- `status_log.dfy` defines the records and the shared `Log` object. It also
  derives status and history from the log.
- `conditions.dfy` defines the condition tree and time periods as values.
  It also gives the condition tree's meaning, relative to an oracle that
  decides occurrence predicates.
- `schedule_task.dfy` models `pypipe/schedule/task.py`.
- `task_mixins.dfy` models `pypipe/task/mixins.py`.

Things outside the task are parameters of the operations:
- the clock;
- the action's outcome;
- what each callback does when it is called (returns, or raises);
- the object identity `id(instance)`;
- the period library's `next` and window membership.

`Guard` specifies the run call as a function. Its own contract covers the
finish callback's exception and the notebook handle. `GuardSucceeded` and
`GuardFailed` give each path's exact callback sequence and what the caller
sees when a callback raises, and `GuardFinishesOnce` counts `on_finish`.
`Task.Call` makes the same steps imperatively: appends to the log, sets
`exception`, discards the notebook handle. It is proved equal to `Guard`.

A task's status is `StatusOf` the shared log, read afresh on every call
(`Task.Status`, `LoggingMixin.Status`): the action of the latest record of
the task, which is the last record of its history.

Points of the code the model follows closely:
- A duplicate name raises `KeyError`. Here it is the `DuplicateName` error
  of `Registry.Create`.
- In `pypipe/task/mixins.py` the builders refine `_execution` and
  `_execution_condition`. They do not touch `start_cond`.
- `__call__` calls `on_failure(exception=e)` directly. It never calls
  `process_failure`, so `JupyterTask.process_failure` has no effect.
- A callback that raises is not isolated. Its exception propagates. An
  exception raised while finishing replaces the one that was propagating, as
  Python's `finally` does. `GuardSucceeded`, `GuardFailed` and `Guard`
  state both.
- "Most recent record" means the record appended last, which is log order.

## Model

| member | source | states |
|---|---|---|
| `StatusLog.History` | pypipe/task/mixins.py:186-188 | every record of a task's history carries its name, and the history is never longer than the log (membership and order: `HistoryMembers`, `HistoryAppend`) |
| `StatusLog.HistoryMembers` | pypipe/task/mixins.py:186-188 | a task's history holds exactly the log records that carry its name |
| `StatusLog.LatestFound` | pypipe/schedule/task.py:205 | the latest record belongs to the task and is in the log; there is none exactly when no record carries the task's name |
| `StatusLog.StatusIsLastOfHistory` | pypipe/schedule/task.py:203-209 | status is None iff the task's history is empty, otherwise the action of the last record in its history |
| `StatusLog.LatestIsLastOfHistory` | pypipe/task/mixins.py:178-188 | the record `status` reads is the last element of what `get_history` returns |
| `StatusLog.LatestIsHighestIndex` | pypipe/schedule/task.py:203-209 | the latest record is the one at the highest log index carrying the task's name |
| `StatusLog.StatusAfterAppend` | pypipe/task/mixins.py:174-176 | appending a record sets that record's task's status to its action and leaves every other task's status unchanged |
| `StatusLog.HistoryAppend` | pypipe/task/mixins.py:186-188 | appending records keeps a task's history in order: the old history followed by the new records of that task |
| `ScheduleTask.RegistryKeyAsWritten` | pypipe/schedule/task.py:76 | the key `__new__` registers under equals the task's own name exactly when `name` was not passed as None |
| `ScheduleTask.UnnamedTasksCollideAsWritten` | pypipe/schedule/task.py:76-81 | two tasks created with `name=None` get the same key although their names differ, so the second creation raises KeyError |
| `ScheduleTask.UnnamedTasksDistinct` | pypipe/schedule/task.py:117 | when keyed by their own names, tasks without a given name and with distinct identities never collide |
| `ScheduleTask.CrashReleaseUnsticks` | pypipe/schedule/task.py:121-125 | initialisation appends at most one record, a crash release of this task, and only when its status is `run`; afterwards the status is `crash_release` in that case, unchanged otherwise, and never `run` |
| `ScheduleTask.StatusAfterCall` | pypipe/schedule/task.py:136-159 | after a call the task's status is `success` if the action returned and `fail` if it raised, whether or not a callback raised (the action and the callbacks writing nothing to the log) |
| `ScheduleTask.OtherStatusesAfterCall` | pypipe/schedule/task.py:136-159 | a call leaves every other task's status unchanged (the action and the callbacks writing nothing to the log) |
| `ScheduleTask.ExecutionGuard` | pypipe/schedule/task.py:190-197 | setting execution to None leaves `start_cond` as it was |
| `ScheduleTask.ExecutionGuardMeaning` | pypipe/schedule/task.py:190-197 | the new `start_cond` holds iff the old one holds and, when a value is set, the task has not run in that value's cycle |
| `ScheduleTask.ExecutionGuardsAccumulate` | pypipe/schedule/task.py:197 | a later setting, even None, never removes the "has not run" constraint an earlier setting added |
| `ScheduleTask.RunBlocksRestOfCycle` | pypipe/schedule/task.py:195-197 | once a call has logged `run` inside the current window of the execution cycle, the guarded start condition is false |
| `ScheduleTask.SuccessStep` | pypipe/schedule/task.py:178-180 | when set, `on_success` is called exactly once, with the output (Task) or the notebook handle (JupyterTask, lines 240-242), and its exception, if any, is raised; when unset nothing is called or raised; the handle is untouched |
| `ScheduleTask.FinishStepAsWritten` | pypipe/schedule/task.py:244-247 | as written, a JupyterTask without a stored notebook calls no callback and raises AttributeError |
| `ScheduleTask.FinishMasksFailureAsWritten` | pypipe/schedule/task.py:244-247 | as written, when a notebook action fails before storing its handle, `on_finish` is never called and AttributeError is raised instead of the action's failure |
| `ScheduleTask.FinishStep` | pypipe/schedule/task.py:182-184 | `on_finish(status)` is called exactly once when set, and never otherwise; only its own exception escapes; a JupyterTask's handle is discarded unless that callback raised |
| `ScheduleTask.GuardFinishesOnce` | pypipe/schedule/task.py:158-159 | `on_finish` runs exactly once when set and never otherwise, last, with "succeeded" or "failed" as the action's outcome was |
| `ScheduleTask.GuardSucceeded` | pypipe/schedule/task.py:151-156 | when the action returns: no `on_failure`; `on_success` first when set, receiving the output (Task) or the stored notebook handle (JupyterTask); the stored exception untouched; the trace is exactly `on_success` (once, when set) then `on_finish` (when set); the output is returned unless a callback raised, `on_success`'s exception is raised when it raises and `on_finish` does not |
| `ScheduleTask.GuardFailed` | pypipe/schedule/task.py:142-149 | when the action raises `e`: no `on_success`, `on_failure(exception=e)` first when set, never a normal return; the trace is exactly `on_failure` (once, when set) then `on_finish` (when set); `e` is stored and re-raised unless a callback raised; when `on_failure` raises, `self.exception` is left as it was and its exception is raised unless `on_finish` raises |
| `ScheduleTask.Guard` | pypipe/schedule/task.py:136-159 | the run call as a function of the callbacks' behaviour: an exception from `on_finish` is what the caller sees; a JupyterTask's handle is discarded unless that callback raised, and kept (as stored by the action) when it did; a plain task's is untouched |
| `ScheduleTask.Task.Init` | pypipe/schedule/task.py:84-125 | missing conditions default to always-true, always-true and always-false; given ones are kept; an omitted priority is 1; execution goes through its setter; the log gains the crash release records only, and the status is afterwards not `run` |
| `ScheduleTask.Task.ReleaseCrash` | pypipe/schedule/task.py:121-125 | appends a crash release record exactly when the latest record is `run`, and nothing else; the status is afterwards not `run` |
| `ScheduleTask.Task.SetExecution` | pypipe/schedule/task.py:190-197 | stores the value and replaces `start_cond` by the guarded condition |
| `ScheduleTask.Task.Status` | pypipe/schedule/task.py:203-209 | None iff the task has no record in the log, else the action of the last record of its history |
| `ScheduleTask.Task.IsRunning` | pypipe/schedule/task.py:199-201 | true iff the task's last record is a `run` |
| `ScheduleTask.Task.LogRunning` | pypipe/schedule/task.py:161-162 | appends exactly one INFO `run` record for the task |
| `ScheduleTask.Task.LogFailure` | pypipe/schedule/task.py:164-165 | appends exactly one ERROR `fail` record whose exc_text describes the exception |
| `ScheduleTask.Task.LogSuccess` | pypipe/schedule/task.py:167-168 | appends exactly one INFO `success` record |
| `ScheduleTask.Task.Call` | pypipe/schedule/task.py:136-159 | the log gains `run` then `success`/`fail` and nothing else; callbacks, result, stored exception and notebook handle are those of `Guard`, the run call's specification, whose properties its own contract and the three `Guard` lemmas state; the status afterwards is `success`/`fail` |
| `ScheduleTask.Registry.constructor` | pypipe/schedule/task.py:15 | the registry starts empty |
| `ScheduleTask.Registry.GetTask` | pypipe/schedule/task.py:17-18 | succeeds iff the name is registered, returning the task registered under it, whose name it is; fails with an unknown-name error otherwise |
| `ScheduleTask.Registry.Create` | pypipe/schedule/task.py:66-82 | a name already registered is refused with the registry and the log unchanged; otherwise the registry gains exactly that key, mapped to the fresh task that carries that name, with the conditions, execution and callbacks `Task.Init` gives it and the crash release applied (initialisation modelled as never failing) |
| `TaskMixins.ExecutionCondition` | pypipe/task/mixins.py:18-32 | None gives always-true; a value gives a condition whose occurrence is "this task ran" within the value's period, the cycle for a string and the value itself for a period |
| `TaskMixins.ExecutionConditionMeaning` | pypipe/task/mixins.py:26-32 | the execution condition holds iff no execution is set or the task has not run within its period |
| `TaskMixins.Refine` | pypipe/task/mixins.py:35-78 | a builder's new execution is made of the old constraints followed by the new period, so constraints accumulate in call order and none is replaced |
| `TaskMixins.Max` | pypipe/task/mixins.py:100 | the latest run is one of the events and no event is later |
| `TaskMixins.ExecutionMixin.SetExecution` | pypipe/task/mixins.py:18-32 | stores the value and rebuilds the matching execution condition |
| `TaskMixins.ExecutionMixin.AddPeriod` | pypipe/task/mixins.py:37-42 | sets execution to the period when none is set, otherwise to the old execution AND the period |
| `TaskMixins.ExecutionMixin.Between` | pypipe/task/mixins.py:35-42 | refines execution with the `between` period and returns the same object |
| `TaskMixins.ExecutionMixin.Every` | pypipe/task/mixins.py:44-51 | refines execution with the `past` period and returns the same object |
| `TaskMixins.ExecutionMixin.In` | pypipe/task/mixins.py:53-60 | refines execution with the `in_` period and returns the same object |
| `TaskMixins.ExecutionMixin.From` | pypipe/task/mixins.py:62-69 | refines execution with the `from_` period and returns the same object |
| `TaskMixins.ExecutionMixin.InCycle` | pypipe/task/mixins.py:71-78 | refines execution with the `in_cycle` period and returns the same object |
| `TaskMixins.ExecutionMixin.Period` | pypipe/task/mixins.py:80-89 | all time when no execution is set, otherwise the execution's own period |
| `TaskMixins.ExecutionMixin.NextStart` | pypipe/task/mixins.py:91-105 | `now` when the execution condition holds; otherwise the left edge of `period.next(latest)`, where `latest` is an event that no event follows; an error when the condition has no event, or no events are reported |
| `TaskMixins.LoggerName` | pypipe/task/mixins.py:120-126 | the name starts with the base name; it is exactly the base name iff no group is given, else the base name, a dot and the group |
| `TaskMixins.LoggingMixin.LogRunning` | pypipe/task/mixins.py:161-162 | appends exactly one `run` record; status becomes `run` |
| `TaskMixins.LoggingMixin.LogFailure` | pypipe/task/mixins.py:164-165 | appends exactly one ERROR `fail` record; exc_text describes the exception being handled, or is "NoneType: None" outside a handler; status becomes `fail` |
| `TaskMixins.LoggingMixin.LogSuccess` | pypipe/task/mixins.py:167-168 | appends exactly one `success` record; status becomes `success` |
| `TaskMixins.LoggingMixin.LogTermination` | pypipe/task/mixins.py:170-172 | appends exactly one `terminate` record; a missing or empty reason is written as "unknown reason"; status becomes `terminate` |
| `TaskMixins.LoggingMixin.LogRecord` | pypipe/task/mixins.py:174-176 | appends the given record unchanged; this task's status becomes its action if it is this task's record and is unchanged otherwise |
| `TaskMixins.LoggingMixin.Status` | pypipe/task/mixins.py:178-184 | None iff the history is empty, else the action of the history's last record |
| `TaskMixins.LoggingMixin.GetHistory` | pypipe/task/mixins.py:186-188 | holds exactly the log records of this task |

## Findings

| source | as written | input that shows it | evidently intended | confidence | as-written member | corrected member |
|---|---|---|---|---|---|---|
| pypipe/schedule/task.py:76 | `__new__` registers under `kwargs.get("name", id(instance))`, so an explicit `name=None` registers under the key None, while `__init__` names the task `id(self)` | `Task(f, name=None)` twice: the second raises KeyError, and `get_task(t.name)` fails for the first | an unnamed task is registered under the name `__init__` gives it, its identity | high (not executed) | `ScheduleTask.UnnamedTasksCollideAsWritten` | `ScheduleTask.Registry.Create` |
| pypipe/schedule/task.py:244-247 | `process_finish` reads `self._notebook` and then deletes it, and both raise AttributeError when `execute_action` failed before storing the notebook (line 233) | a JupyterTask whose notebook stage raises before line 233 (for example because `on_preprocess` is never set): `on_finish` is skipped, and AttributeError replaces the action's failure | `on_finish` still runs exactly once and the action's failure propagates; the handle is discarded only if present | high (not executed) | `ScheduleTask.FinishMasksFailureAsWritten` | `ScheduleTask.FinishStep` |

`Registry.Create` keys the registry by `TaskNameOf`, the name `__init__`
gives. Its `Valid` invariant (every task is registered under its own name) is
kept, and `UnnamedTasksDistinct` shows that unnamed tasks no longer collide.
`Guard` and `Task.Call` use the corrected `FinishStep`.

## Left out

- Log storage and configuration are not modelled. This covers `CsvHandler`,
  `set_default_logger` (with its directory creation), handler lists,
  `set_logger`, `logger.setLevel` and the `print` calls. The model assumes the
  default handler is installed and the logger's level lets INFO through, so
  every record is kept. pypipe/task/mixins.py:153 sets that level, but
  pypipe/schedule/task.py:27-45 sets none, and under Python's default
  WARNING level its INFO `run` and `success` records would be dropped. A task whose logger
  has no handler and so always reads status None is not modelled.
- `set_queue_logger` and the multiprocessing relay are not modelled.
  `LoggingMixin.LogRecord` only appends the record it is given.
- `ScriptTask.execute_action` is not modelled because it is a foreign call
  (importlib loading and calling `main`). Its outcome is the abstract
  `ActionRun`. `ScriptTask` changes nothing else, so it is not a separate kind.
- The notebook execution in `JupyterTask.execute_action` (`JupyterNotebook`,
  `on_preprocess`) is not modelled because it is a foreign call. Its outcome
  and the handle it stored are parameters (`CallEnv.action`,
  `CallEnv.stored`). `Task.Call` requires the one combination the code
  excludes: a notebook run that returned has stored its handle.
- `JupyterTask.process_failure` is not modelled. `__call__` never calls it.
- `_set_default_task` and `_set_default_param` are not modelled. They bind
  the task into occurrence conditions that lack one, by probing attributes.
- The internals of the condition and period libraries are not modelled:
  `get_cycle`, `period_factory`, `task_ran`, `HasNotOccurred`, the log
  adapter's `get_latest` and `get_records`, and `period.next`. Periods are
  values naming the factory call. `HasNotOccurred(task_ran(self), p)` is the
  negation of the occurrence predicate. Occurrence is decided by a `ran`
  oracle, and `period.next` is a parameter. A negation exposes its operand's
  event and period, as `next_start` expects of `~task_ran(...)`.
- The reduce branch of `period` (pypipe/task/mixins.py:86-87) is not modelled.
  `functools` is never imported there and the operator is a placeholder. A
  conjunction exposes no period, so it falls back to all time.
- `add_logger_handler` is not modelled. It passes a keyword `get_logger` does
  not accept, so it cannot succeed.
- `datetime.now()` is a parameter. So is the event list `cond.function()`
  returns in `next_start`.
- TaskMixins.LoggerName: returns the logger's name, not a `logging.Logger`
  object.
- TaskMixins.Refine: reads a cadence string as its cycle when it ANDs a new
  period onto it. The code evaluates `str & period` through the period
  library's reflected operator, which is not part of this model.
- ScheduleTask.Task.SetExecution: takes the execution value as a cadence
  string. `get_cycle(value)` becomes the period `Cycle(value)`.
- ScheduleTask.Task.LogFailure: reduces exc_text, the formatted traceback,
  to the exception's description.
- TaskMixins.LoggingMixin.LogFailure: reduces exc_text, the formatted
  traceback, to the exception's description. Outside a handler it is the
  text "NoneType: None", which is what a formatter writes for the empty
  exception triple; whether the CSV handler writes it is not part of this
  model.
- ScheduleTask.Task.Call: models only actions that raise an `Exception`
  subclass. An action that raises another `BaseException` (`SystemExit`,
  `KeyboardInterrupt`) skips the `except` and `else` branches, so no `fail`
  record is written and no callback runs. The `finally` at
  pypipe/schedule/task.py:159 then reads the unbound `status` and raises
  `UnboundLocalError`, so `on_finish` is not called and the task's latest
  record stays `run`, to be released as a crash at the next initialisation.
  `GuardFinishesOnce` and `StatusAfterCall` do not cover that case. The
  action and the callbacks are modelled as only returning or raising: they
  write nothing to the log. In the code they are arbitrary code and may
  call tasks themselves (an `on_failure` that calls the task again, an
  action that calls another task), whose records then land in the same log.
  `Task.Call`'s log equation, `StatusAfterCall` and `OtherStatusesAfterCall`
  hold only under that assumption.
- ScheduleTask.Task.Init: an explicit `priority=None` is stored as None by
  the code; here priority None means omitted and becomes 1.
- ScheduleTask.Registry.Create: takes the name only as a keyword. A name
  passed positionally is registered under the identity, but this is not
  modelled. User-given names are strings. In the code `__new__`
  (pypipe/schedule/task.py:81) registers the instance before `__init__`
  runs, so an initialisation that raises (a missing action, an execution
  value the setter refuses, a failing status read) leaves the name taken
  and a later task of that name is refused. Here initialisation cannot
  fail, so that outcome is not modelled.
- Failures of the logging backend inside `__call__` are not modelled. For
  example, `log_success` raising leaves `status` unbound at the `finally`.
- `timeout` and `priority` are stored and never read, as in the code.
