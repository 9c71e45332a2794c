/**
 What the DAG engine does, on values (pkg/reef/server/dag_engine.go), over the scheduler
 and the in-memory store (pkg/reef/server/store/memory.go).

 A sub-task with dependencies exists only as a record in the store until they are
 completed; then it is filed with the scheduler and submitted.
 */
module DagSpec {
  import opened Tasks
  import opened SchedulerSpec
  import Strings

  datatype Plan = Plan(role: string, skills: seq<string>, dependsOn: seq<string>)

  datatype Dag = Dag(sched: State, store: map<string, TaskRec>, children: map<string, seq<string>>, parentOf: map<string, string>)
  {
    /** The scheduler's live task, or else the store's copy. */
    function Lookup(id: string): Option<TaskRec> {
      if id in sched.tasks then Some(sched.tasks[id])
      else if id in store then Some(store[id])
      else None
    }

    function Subs(parent: string): seq<string> {
      if parent in children then children[parent] else []
    }

    function Parent(id: string): string {
      if id in parentOf then parentOf[id] else ""
    }

    predicate Done(id: string) {
      Lookup(id).Some? && Lookup(id).value.status.Completed?
    }

    /** checkUnblock's test: blocked, with every dependency completed. */
    predicate Ready(id: string) {
      && Lookup(id).Some? && Lookup(id).value.status.Blocked?
      && forall dep :: dep in Lookup(id).value.deps ==> Done(dep)
    }
  }

  /** A task found by Lookup is changed: the live object if it is one, and the store's copy if there is one. */
  function Written(d: Dag, rec: TaskRec): Dag {
    d.(sched := if rec.id in d.sched.tasks then d.sched.(tasks := d.sched.tasks[rec.id := rec]) else d.sched,
       store := if rec.id in d.store then d.store[rec.id := rec] else d.store)
  }

  // ----- Completion -----

  /** allSubTasksDone after the emptiness test; None when a sub-task is missing. */
  function AllTerminal(d: Dag, ids: seq<string>): Option<bool> {
    if ids == [] then Some(true)
    else match d.Lookup(ids[0])
         case None => None
         case Some(t) => if t.status.IsTerminal() then AllTerminal(d, ids[1..]) else Some(false)
  }

  function AllDone(d: Dag, parent: string): Option<bool> {
    if d.Subs(parent) == [] then Some(false) else AllTerminal(d, d.Subs(parent))
  }

  function UnblockOne(d: Dag, id: string): Dag {
    if d.Ready(id) then Written(d, d.Lookup(id).value.Moved(Queued)) else d
  }

  /** The loop of checkUnblock. */
  function Unblock(d: Dag, ids: seq<string>): Dag {
    if ids == [] then d else UnblockOne(Unblock(d, ids[..|ids| - 1]), ids[|ids| - 1])
  }

  /** The tasks it returns. */
  function Unblocked(d: Dag, ids: seq<string>): seq<TaskRec> {
    if ids == [] then []
    else
      var before, last := Unblock(d, ids[..|ids| - 1]), ids[|ids| - 1];
      Unblocked(d, ids[..|ids| - 1]) + if before.Ready(last) then [before.Lookup(last).value.Moved(Queued)] else []
  }

  /** The tasks are registered and submitted one after the other. */
  ghost predicate Released(s: State, recs: seq<TaskRec>, logs: seq<seq<Act>>, s': State)
    decreases |recs|
  {
    && |logs| == |recs|
    && if recs == [] then s' == s
       else exists m :: Submitted(s, recs[0], logs[0], m) && Released(m, recs[1..], logs[1..], s')
  }

  function Aggregated(d: Dag, parent: string): Dag {
    if parent in d.sched.tasks then Written(d, d.sched.tasks[parent].Moved(Aggregating)) else d
  }

  /** OnSubTaskCompleted; `done` tells whether the whole plan is finished. */
  ghost predicate SubTaskCompleted(d: Dag, id: string, logs: seq<seq<Act>>, done: bool, d': Dag) {
    var parent := d.Parent(id);
    if parent == "" || AllDone(d, parent).None? then d' == d && !done && logs == []
    else if AllDone(d, parent).value then d' == Aggregated(d, parent) && done && logs == []
    else
      var m := Unblock(d, d.Subs(parent));
      !done && d' == m.(sched := d'.sched) && Released(m.sched, Unblocked(d, d.Subs(parent)), logs, d'.sched)
  }

  // ----- Failure -----

  /** A sibling that depends on the failed task fails with it; a copy that cannot fail still gets the error. */
  function FailOne(d: Dag, failed: string, sib: string): Dag {
    if sib == failed || d.Lookup(sib).None? || failed !in d.Lookup(sib).value.deps then d
    else Written(d, d.Lookup(sib).value.(error := Some(DependencyError(failed))).Moved(Failed))
  }

  function DependencyError(failed: string): string {
    "dependency task " + failed + " failed"
  }

  function FailAll(d: Dag, failed: string, ids: seq<string>): Dag {
    if ids == [] then d else FailOne(FailAll(d, failed, ids[..|ids| - 1]), failed, ids[|ids| - 1])
  }

  function SubTaskFailed(d: Dag, id: string): Dag {
    if d.Parent(id) == "" then d else FailAll(d, id, d.Subs(d.Parent(id)))
  }

  // ----- Creation -----

  function SubID(parent: string, k: nat): string {
    parent + "-sub-" + Strings.Decimal(k)
  }

  /** NewTask with the plan's fields; blocked if it has dependencies. */
  function NewSub(parent: TaskRec, k: nat, plan: Plan, now: int): (r: TaskRec)
    ensures r.status == if plan.dependsOn != [] then Blocked else Created
    ensures r.id == SubID(parent.id, k) && r.deps == plan.dependsOn
  {
    var t := TaskRec(SubID(parent.id, k), Created, plan.role, plan.skills, parent.priority, parent.id, [], plan.dependsOn,
                     "", [], now, 0, "", None, None);
    if plan.dependsOn != [] then t.Moved(Blocked) else t
  }

  /** The first n sub-tasks, numbered from 1. */
  function NewSubs(parent: TaskRec, plans: seq<Plan>, now: int, n: nat): (r: seq<TaskRec>)
    requires n <= |plans|
    ensures |r| == n
  {
    seq(n, k requires 0 <= k < n => NewSub(parent, k + 1, plans[k], now))
  }

  function Ids(recs: seq<TaskRec>): (r: seq<string>)
    ensures |r| == |recs|
  {
    seq(|recs|, k requires 0 <= k < |recs| => recs[k].id)
  }

  /** SaveTask and SaveRelation for one sub-task. */
  function Saved(d: Dag, parent: string, sub: TaskRec): Dag {
    d.(store := d.store[sub.id := sub],
       children := d.children[parent := d.Subs(parent) + [sub.id]],
       parentOf := d.parentOf[sub.id := parent])
  }

  function SavedAll(d: Dag, parent: string, subs: seq<TaskRec>): Dag {
    if subs == [] then d else Saved(SavedAll(d, parent, subs[..|subs| - 1]), parent, subs[|subs| - 1])
  }

  function Unblockeds(subs: seq<TaskRec>): seq<TaskRec> {
    if subs == [] then []
    else Unblockeds(subs[..|subs| - 1]) + if subs[|subs| - 1].status.Blocked? then [] else [subs[|subs| - 1]]
  }

  /** How many sub-tasks can be saved before an ID is taken, counting from the k-th. */
  function Fitting(store: map<string, TaskRec>, parent: string, k: nat, n: nat): (r: nat)
    requires k <= n
    ensures k <= r <= n
    decreases n - k
  {
    if k == n || SubID(parent, k + 1) in store then k else Fitting(store, parent, k + 1, n)
  }

  /** CreateSubTasks: stops with an error at the first sub-task whose ID is taken. */
  ghost predicate SubTasksCreated(d: Dag, parent: TaskRec, plans: seq<Plan>, now: int, logs: seq<seq<Act>>, ok: bool, d': Dag) {
    var n := Fitting(d.store, parent.id, 0, |plans|);
    var subs := NewSubs(parent, plans, now, n);
    var saved := SavedAll(d, parent.id, subs);
    if plans == [] || n < |plans| then !ok && d' == saved && logs == []
    else
      var m := Written(saved, parent.(subTasks := Ids(subs)));
      ok && d' == m.(sched := d'.sched) && Released(m.sched, Unblockeds(subs), logs, d'.sched)
  }

  // ----- Runs -----

  datatype DagLabel =
    | Sched(l: Label)
    | Create(parent: TaskRec, plans: seq<Plan>, now: int, clogs: seq<seq<Act>>, ok: bool)
    | SubDone(id: string, logs: seq<seq<Act>>, done: bool)
    | SubFailed(failed: string)

  ghost predicate DagNext(d: Dag, l: DagLabel, d': Dag) {
    match l
    case Sched(l) => d' == d.(sched := d'.sched) && Next(d.sched, l, d'.sched)
    case Create(parent, plans, now, logs, ok) => SubTasksCreated(d, parent, plans, now, logs, ok, d')
    case SubDone(id, logs, done) => SubTaskCompleted(d, id, logs, done, d')
    case SubFailed(id) => d' == SubTaskFailed(d, id)
  }
}
