/**
 What a log of commands makes of one task (pkg/reef/raft/types.go:494-822): its status is
 the one fixed last, and its escalations are counted from where it was last entered.
 */
module CommandLaws {
  import opened Tasks
  import opened ReplicatedState

  // ----- Status -----

  /** The status a command fixes for the task, if it takes effect on it. */
  function Fixes(m: Maps, op: Op, id: string): Option<string> {
    match op
    case TaskEnqueue(e, data, direct) =>
      if e == "" then (if direct.Some? && direct.value.id == id then Some(direct.value.status) else None)
      else if e != id || data.Garbled? then None
      else Some(if data.Given? && data.task.status != "" then data.task.status else "Created")
    case ClaimPost(e, data) => if e == id && id !in m.tasks && data.Given? then Some(data.task.status) else None
    case TaskAssign(e, _) => if e == id && id in m.tasks then Some("Running") else None
    case TaskStart(e) => if e == id && id in m.tasks then Some("Running") else None
    case TaskComplete(e, _) => if e == id && id in m.tasks then Some("Completed") else None
    case TaskFailed(e, _, _) => if e == id && id in m.tasks then Some("Failed") else None
    case TaskCancel(e) => if e == id && id in m.tasks then Some("Cancelled") else None
    case TaskEscalate(e) => if e == id && id in m.tasks then Some("Failed") else None
    case TaskTimedOut(e) => if e == id && id in m.tasks then Some("Failed") else None
    case ClaimAssign(e, _) => if e == id && id in m.tasks then Some("Running") else None
    case ClaimExpire(e) => if e == id && id in m.tasks then Some("Queued") else None
    case _ => None
  }

  lemma StepStatus(m: Maps, cmd: Command, id: string)
    ensures var m', status := Applied(m, cmd), Fixes(m, cmd.op, id);
      if status.Some? then id in m'.tasks && m'.tasks[id].status == status.value
      else (id in m'.tasks <==> id in m.tasks) && (id in m.tasks ==> m'.tasks[id].status == m.tasks[id].status)
  {
    hide Put;
    OneTask(m, cmd, id);
  }

  /** The entry under the task's key, as the maps show it. */
  lemma OneTask(m: Maps, cmd: Command, id: string)
    ensures At(Applied(m, cmd), TaskKey(id)) == CellStep(cmd, TaskKey(id), At(m, TaskKey(id)))
  {
    AppliedAt(m, cmd, TaskKey(id));
  }

  /** The status the i-th command of a log fixes. */
  function StatusBy(m: Maps, log: seq<Command>, i: nat, id: string): Option<string>
    requires i < |log|
  {
    Fixes(AllApplied(m, log[..i]), log[i].op, id)
  }

  /** Commands that fix no status leave it, and neither add nor remove the task. */
  lemma {:induction false} StatusStays(m: Maps, log: seq<Command>, k: nat, id: string)
    requires k <= |log| && forall j :: k <= j < |log| ==> StatusBy(m, log, j, id).None?
    ensures var was, now := AllApplied(m, log[..k]).tasks, AllApplied(m, log).tasks;
      (id in now <==> id in was) && (id in was ==> now[id].status == was[id].status)
    decreases |log|
  {
    hide Fixes, Applied;
    assert log[..|log|] == log;
    if k < |log| {
      var front := log[..|log| - 1];
      forall j | 0 <= j < |front| ensures StatusBy(m, front, j, id) == StatusBy(m, log, j, id) {
        assert front[..j] == log[..j];
      }
      assert front[..k] == log[..k];
      StatusStays(m, front, k, id);
      StepStatus(AllApplied(m, front), log[|log| - 1], id);
      assert StatusBy(m, log, |log| - 1, id).None?;
    }
  }

  /** After any log a task's status is the one that the last command fixing it has fixed. */
  lemma StatusIsLastFixed(m: Maps, log: seq<Command>, id: string, i: nat)
    requires i < |log| && StatusBy(m, log, i, id).Some? && forall j :: i < j < |log| ==> StatusBy(m, log, j, id).None?
    ensures id in AllApplied(m, log).tasks && AllApplied(m, log).tasks[id].status == StatusBy(m, log, i, id).value
  {
    hide Fixes, Applied;
    StepStatus(AllApplied(m, log[..i]), log[i], id);
    assert log[..i + 1][..i] == log[..i];
    StatusStays(m, log, i + 1, id);
  }

  // ----- Escalations -----

  /** The count a task is entered with, by the commands that enter one. */
  function Enters(m: Maps, op: Op, id: string): Option<int> {
    match op
    case TaskEnqueue(e, data, direct) =>
      if e == "" then (if direct.Some? && direct.value.id == id then Some(direct.value.escalations) else None)
      else if e != id || data.Garbled? then None
      else Some(if data.Given? then data.task.escalations else 0)
    case ClaimPost(e, data) => if e == id && id !in m.tasks && data.Given? then Some(data.task.escalations) else None
    case _ => None
  }

  lemma StepEscalations(m: Maps, cmd: Command, id: string)
    ensures var m', count := Applied(m, cmd), Enters(m, cmd.op, id);
      if count.Some? then id in m'.tasks && m'.tasks[id].escalations == count.value
      else
        && (id in m'.tasks <==> id in m.tasks)
        && (id in m.tasks ==> m'.tasks[id].escalations == m.tasks[id].escalations + if cmd.op == TaskEscalate(id) then 1 else 0)
  {
    hide Put;
    OneTask(m, cmd, id);
  }

  function EnteredBy(m: Maps, log: seq<Command>, i: nat, id: string): Option<int>
    requires i < |log|
  {
    Enters(AllApplied(m, log[..i]), log[i].op, id)
  }

  /** The positions from k on at which the task is escalated. */
  function EscalatedAt(log: seq<Command>, k: nat, id: string): set<nat> {
    set j: nat | k <= j < |log| && log[j].op == TaskEscalate(id)
  }

  lemma EscalatedSnoc(log: seq<Command>, k: nat, id: string)
    requires k < |log|
    ensures |EscalatedAt(log, k, id)| == |EscalatedAt(log[..|log| - 1], k, id)| + if log[|log| - 1].op == TaskEscalate(id) then 1 else 0
  {
    var last := |log| - 1;
    assert EscalatedAt(log, k, id) == EscalatedAt(log[..last], k, id) + if log[last].op == TaskEscalate(id) then {last} else {};
  }

  /** While the task is not entered anew, each escalation counts one. */
  lemma {:induction false} EscalationsGrow(m: Maps, log: seq<Command>, k: nat, id: string)
    requires k <= |log| && forall j :: k <= j < |log| ==> EnteredBy(m, log, j, id).None?
    ensures var was, now := AllApplied(m, log[..k]).tasks, AllApplied(m, log).tasks;
      (id in now <==> id in was) && (id in was ==> now[id].escalations == was[id].escalations + |EscalatedAt(log, k, id)|)
    decreases |log|
  {
    hide Enters, Applied, EscalatedAt;
    assert log[..|log|] == log;
    if k < |log| {
      var front := log[..|log| - 1];
      forall j | 0 <= j < |front| ensures EnteredBy(m, front, j, id) == EnteredBy(m, log, j, id) {
        assert front[..j] == log[..j];
      }
      assert front[..k] == log[..k];
      EscalationsGrow(m, front, k, id);
      StepEscalations(AllApplied(m, front), log[|log| - 1], id);
      assert EnteredBy(m, log, |log| - 1, id).None?;
      EscalatedSnoc(log, k, id);
    } else {
      NoneEscalated(log, id);
    }
  }

  lemma NoneEscalated(log: seq<Command>, id: string)
    ensures EscalatedAt(log, |log|, id) == {}
  {
  }

  /** A task's escalations are the count it was last entered with plus the escalations since. */
  lemma EscalationsAreCounted(m: Maps, log: seq<Command>, id: string, i: nat)
    requires i < |log| && EnteredBy(m, log, i, id).Some? && forall j :: i < j < |log| ==> EnteredBy(m, log, j, id).None?
    ensures id in AllApplied(m, log).tasks
    ensures AllApplied(m, log).tasks[id].escalations
         == EnteredBy(m, log, i, id).value + |set j: nat | i < j < |log| && log[j].op == TaskEscalate(id)|
  {
    hide Enters, Applied;
    StepEscalations(AllApplied(m, log[..i]), log[i], id);
    assert log[..i + 1][..i] == log[..i];
    EscalationsGrow(m, log, i + 1, id);
    assert EscalatedAt(log, i + 1, id) == set j: nat | i < j < |log| && log[j].op == TaskEscalate(id);
  }
}
