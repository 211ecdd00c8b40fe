/** The status log shared by every task: an append-only sequence of records,
    from which a task's status and history are derived on every read. */
module StatusLog {
  import opened Wrappers

  /** A clock reading (the record's asctime). */
  type Time = int

  /** A task's name: the `name` given by the user, or the object's identity
      (Python's id(instance)) when none is given. */
  datatype TaskName = Text(text: string) | Ident(id: nat)

  /** The action tag a record carries. */
  datatype Action = Run | Success | Fail | Terminate | CrashRelease

  /** The logging level (levelname). */
  datatype Level = Info | Warning | Error

  /** A raised exception: an opaque failure with its description, or the
      AttributeError Python raises when an attribute is missing. */
  datatype Exc = Raised(description: string) | MissingAttribute(attribute: string)

  /** One log record: asctime, levelname, action, task_name, the message
      and exc_text. */
  datatype Record = Record(
    time: Time,
    level: Level,
    action: Action,
    taskName: TaskName,
    message: string,
    excText: Option<string>)

  /** The text an exception leaves in exc_text. */
  function Describe(e: Exc): string
  {
    match e
    case Raised(d) => d
    case MissingAttribute(a) => "AttributeError: " + a
  }

  /** Decimal digits of a natural number, as Python's str() writes an int. */
  function NatText(n: nat): (s: string)
    ensures |s| > 0
    ensures forall i :: 0 <= i < |s| ==> '0' <= s[i] <= '9'
  {
    var digit := [(n % 10 + '0' as int) as char];
    if n < 10 then digit else NatText(n / 10) + digit
  }

  /** How a task name reads inside an f-string. */
  function NameText(n: TaskName): string
  {
    match n
    case Text(s) => s
    case Ident(k) => NatText(k)
  }

  /** The records of task `name`, oldest first (what get_records returns). */
  function History(log: seq<Record>, name: TaskName): (h: seq<Record>)
    ensures |h| <= |log|
    ensures forall i :: 0 <= i < |h| ==> h[i].taskName == name
  {
    if log == [] then []
    else
      var last := log[|log| - 1];
      History(log[..|log| - 1], name) + (if last.taskName == name then [last] else [])
  }

  /** A task's history holds exactly the log's records that carry its name. */
  lemma {:induction false} HistoryMembers(log: seq<Record>, name: TaskName)
    ensures forall i :: 0 <= i < |History(log, name)| ==> History(log, name)[i].taskName == name
    ensures forall r :: r in History(log, name) <==> r in log && r.taskName == name
  {
    if log != [] {
      var front := log[..|log| - 1];
      assert log == front + [log[|log| - 1]];
      HistoryMembers(front, name);
    }
  }

  /** The most recent record of task `name`, if any (what get_latest returns). */
  function Latest(log: seq<Record>, name: TaskName): Option<Record>
  {
    if log == [] then None
    else if log[|log| - 1].taskName == name then Some(log[|log| - 1])
    else Latest(log[..|log| - 1], name)
  }

  /** The latest record belongs to the task and is in the log; there is none
      exactly when no record carries the task's name. */
  lemma {:induction false} LatestFound(log: seq<Record>, name: TaskName)
    ensures Latest(log, name).Some? ==> Latest(log, name).value in log && Latest(log, name).value.taskName == name
    ensures Latest(log, name).None? <==> forall i :: 0 <= i < |log| ==> log[i].taskName != name
  {
    if log != [] && log[|log| - 1].taskName != name {
      var front := log[..|log| - 1];
      LatestFound(front, name);
      assert forall i :: 0 <= i < |front| ==> front[i] == log[i];
    }
  }

  /** A task's status: None when it has no record, otherwise the action of
      its latest record. Never stored; recomputed from the log on each read. */
  function StatusOf(log: seq<Record>, name: TaskName): Option<Action>
  {
    match Latest(log, name)
    case None => None
    case Some(r) => Some(r.action)
  }

  /** Status is None exactly when the task's history is empty, and otherwise
      the action of the last record of its history. */
  lemma {:induction false} StatusIsLastOfHistory(log: seq<Record>, name: TaskName)
    ensures StatusOf(log, name).None? <==> History(log, name) == []
    ensures StatusOf(log, name).Some? ==>
      StatusOf(log, name).value == History(log, name)[|History(log, name)| - 1].action
  {
    LatestIsLastOfHistory(log, name);
  }

  /** The latest record is the last element of the task's history. */
  lemma {:induction false} LatestIsLastOfHistory(log: seq<Record>, name: TaskName)
    ensures var h := History(log, name);
      Latest(log, name) == if h == [] then None else Some(h[|h| - 1])
  {
    if log != [] && log[|log| - 1].taskName != name {
      var front := log[..|log| - 1];
      assert History(log, name) == History(front, name);
      LatestIsLastOfHistory(front, name);
    }
  }

  /** The latest record is the record at the highest index that belongs to the task. */
  lemma {:induction false} LatestIsHighestIndex(log: seq<Record>, name: TaskName, i: nat)
    requires i < |log| && log[i].taskName == name
    requires forall j :: i < j < |log| ==> log[j].taskName != name
    ensures Latest(log, name) == Some(log[i])
  {
    if i < |log| - 1 {
      LatestIsHighestIndex(log[..|log| - 1], name, i);
    }
  }

  /** Appending one record changes the status of that record's task only. */
  lemma StatusAfterAppend(log: seq<Record>, r: Record, name: TaskName)
    ensures StatusOf(log + [r], name) ==
      if r.taskName == name then Some(r.action) else StatusOf(log, name)
  {
    assert (log + [r])[..|log|] == log;
  }

  /** Appending preserves the order of each task's history. */
  lemma {:induction false} HistoryAppend(log: seq<Record>, more: seq<Record>, name: TaskName)
    ensures History(log + more, name) == History(log, name) + History(more, name)
  {
    if more != [] {
      var front := more[..|more| - 1];
      assert (log + more)[..|log + more| - 1] == log + front;
      assert more[..|more| - 1] == front;
      HistoryAppend(log, front, name);
    } else {
      assert log + more == log;
    }
  }

  /** The physical log every task writes to (the CSV file behind the logger). */
  class Log {
    var records: seq<Record>

    /** A log holding what earlier process lifetimes persisted. */
    constructor (persisted: seq<Record>)
      ensures records == persisted
    {
      records := persisted;
    }

    /** A handler writes one record at the end of the log. */
    method Append(r: Record)
      modifies this
      ensures records == old(records) + [r]
    {
      records := records + [r];
    }
  }
}
