/**
 The DAG engine object (pkg/reef/server/dag_engine.go) with its in-memory store
 (pkg/reef/server/store/memory.go).

 The store keeps copies: SaveTask and UpdateTask copy in, GetTask copies out.  The engine
 prefers the scheduler's live object to the store's copy.
 */
module DagEngines {
  import opened Tasks
  import opened DequeueOrder
  import opened Queues
  import opened Registries
  import opened SchedulerSpec
  import opened Schedulers
  import SI = SchedulerInvariant
  import opened DagSpec
  import opened DagSafety
  import PriorityQueues
  import Strings

  lemma {:induction false} ReleasedSnoc(s: State, recs: seq<TaskRec>, logs: seq<seq<Act>>, m: State, rec: TaskRec, log: seq<Act>, s': State)
    requires Released(s, recs, logs, m) && Submitted(m, rec, log, s')
    ensures Released(s, recs + [rec], logs + [log], s')
    decreases |recs|
  {
    hide Submitted;
    var all, alls := recs + [rec], logs + [log];
    if recs == [] {
      assert all[1..] == [] && alls[1..] == [];
      assert Released(s', all[1..], alls[1..], s');
    } else {
      var n :| Submitted(s, recs[0], logs[0], n) && Released(n, recs[1..], logs[1..], m);
      ReleasedSnoc(n, recs[1..], logs[1..], m, rec, log, s');
      assert all[1..] == recs[1..] + [rec] && alls[1..] == logs[1..] + [log];
    }
  }

  /** Registering a task before submitting it makes no difference. */
  lemma RegisteredTwice(s: State, rec: TaskRec, log: seq<Act>, s': State)
    requires Submitted(s.(tasks := s.tasks[rec.id := rec]), rec, log, s')
    ensures Submitted(s, rec, log, s')
  {
    var r := if rec.status.Queued? then rec else rec.Moved(Queued);
    assert s.tasks[rec.id := rec][rec.id := r] == s.tasks[rec.id := r];
  }

  lemma ReleasedNone(s: State)
    ensures Released(s, [], [], s)
  {
  }

  lemma AreApart(d: Dag, ids: seq<string>, recs: seq<TaskRec>)
    requires AreReady(d, ids, recs)
    ensures Apart(recs)
  {
  }

  /** An ID is taken after the earlier sub-tasks were saved exactly when it was taken before. */
  lemma SavedIdsDiffer(d: Dag, parent: TaskRec, plans: seq<Plan>, now: int, i: nat)
    requires i < |plans|
    ensures SubID(parent.id, i + 1) in SavedAll(d, parent.id, NewSubs(parent, plans, now, i)).store <==> SubID(parent.id, i + 1) in d.store
  {
    hide Saved, SavedAll, NewSubs, SubID, Apart, Ids;
    var subs := NewSubs(parent, plans, now, i);
    NewSubsApart(parent, plans, now, i);
    SavingIsExact(d, parent.id, subs);
    if SubID(parent.id, i + 1) in IdSet(subs) {
      var k :| 0 <= k < |subs| && subs[k].id == SubID(parent.id, i + 1);
      SubIdsDiffer(parent.id, k + 1, i + 1);
    }
  }

  lemma SaveNone(d: Dag, parent: TaskRec, plans: seq<Plan>, now: int)
    ensures NewSubs(parent, plans, now, 0) == [] && SavedAll(d, parent.id, []) == d
  {
  }

  lemma SaveNext(d: Dag, parent: TaskRec, plans: seq<Plan>, now: int, i: nat)
    requires i < |plans|
    ensures var next := NewSub(parent, i + 1, plans[i], now);
      && NewSubs(parent, plans, now, i + 1) == NewSubs(parent, plans, now, i) + [next]
      && SavedAll(d, parent.id, NewSubs(parent, plans, now, i + 1)) == Saved(SavedAll(d, parent.id, NewSubs(parent, plans, now, i)), parent.id, next)
  {
    hide NewSub, Saved;
    var subs := NewSubs(parent, plans, now, i);
    var next := NewSub(parent, i + 1, plans[i], now);
    assert NewSubs(parent, plans, now, i + 1) == subs + [next];
    assert (subs + [next])[..i] == subs;
  }

  lemma CreatesNone(d: Dag, parent: TaskRec, plans: seq<Plan>, now: int)
    requires plans == []
    ensures SubTasksCreated(d, parent, plans, now, [], false, d)
  {
    NothingFits(d, parent, plans, now);
  }

  lemma CreationStops(d: Dag, parent: TaskRec, plans: seq<Plan>, now: int)
    requires plans != [] && Fitting(d.store, parent.id, 0, |plans|) < |plans|
    ensures SubTasksCreated(d, parent, plans, now, [], false, SavedAll(d, parent.id, NewSubs(parent, plans, now, Fitting(d.store, parent.id, 0, |plans|))))
  {
  }

  lemma CreationEnds(d: Dag, parent: TaskRec, plans: seq<Plan>, now: int, logs: seq<seq<Act>>, d': Dag)
    requires plans != [] && Fitting(d.store, parent.id, 0, |plans|) == |plans|
    requires var subs := NewSubs(parent, plans, now, |plans|);
      var w := Written(SavedAll(d, parent.id, subs), parent.(subTasks := Ids(subs)));
      d' == w.(sched := d'.sched) && Released(w.sched, Unblockeds(subs), logs, d'.sched)
    ensures SubTasksCreated(d, parent, plans, now, logs, true, d')
  {
  }

  lemma NothingFits(d: Dag, parent: TaskRec, plans: seq<Plan>, now: int)
    requires plans == []
    ensures Fitting(d.store, parent.id, 0, |plans|) == 0 && SavedAll(d, parent.id, NewSubs(parent, plans, now, 0)) == d
  {
  }

  // ----- The store -----

  class MemoryStore {
    var tasks: map<string, TaskRec>
    var relations: map<string, seq<string>>
    var parentOf: map<string, string>

    constructor ()
      ensures tasks == map[] && relations == map[] && parentOf == map[]
    {
      tasks, relations, parentOf := map[], map[], map[];
    }

    method SaveTask(task: Task) returns (ok: bool)
      modifies `tasks
      ensures ok == (task.id !in old(tasks))
      ensures tasks == if ok then old(tasks)[task.id := task.Rec()] else old(tasks)
    {
      ok := task.id !in tasks;
      if ok {
        tasks := tasks[task.id := task.Rec()];
      }
    }

    /** A copy: the caller's changes stay with the caller. */
    method GetTask(id: string) returns (t: Option<Task>)
      ensures t.None? <==> id !in tasks
      ensures t.Some? ==> fresh(t.value) && t.value.Rec() == tasks[id]
    {
      if id !in tasks {
        return None;
      }
      var cp := new Task(tasks[id]);
      return Some(cp);
    }

    method UpdateTask(task: Task) returns (ok: bool)
      modifies `tasks
      ensures ok == (task.id in old(tasks))
      ensures tasks == if ok then old(tasks)[task.id := task.Rec()] else old(tasks)
    {
      ok := task.id in tasks;
      if ok {
        tasks := tasks[task.id := task.Rec()];
      }
    }

    method SaveRelation(parentID: string, childID: string)
      modifies `relations, `parentOf
      ensures relations == old(relations)[parentID := old(if parentID in relations then relations[parentID] else []) + [childID]]
      ensures parentOf == old(parentOf)[childID := parentID]
    {
      relations := relations[parentID := (if parentID in relations then relations[parentID] else []) + [childID]];
      parentOf := parentOf[childID := parentID];
    }
  }

  // ----- The engine -----

  lemma UnblockedNone(d: Dag)
    ensures Unblock(d, []) == d && Unblocked(d, []) == []
  {
  }

  lemma UnblockedMore(d: Dag, front: seq<string>, last: string)
    ensures var m := Unblock(d, front);
      && Unblock(d, front + [last]) == UnblockOne(m, last)
      && Unblocked(d, front + [last]) == Unblocked(d, front) + if m.Ready(last) then [m.Lookup(last).value.Moved(Queued)] else []
  {
    assert (front + [last])[..|front|] == front;
  }

  predicate Live(tasks: map<string, Task>, t: Task) {
    t.id in tasks ==> tasks[t.id] == t
  }

  lemma FoundTaskChanged(tasks: map<string, Task>, t: Task, was: map<string, TaskRec>)
    requires Filed(tasks) && Live(tasks, t)
    requires was.Keys == tasks.Keys && forall id :: id in tasks && id != t.id ==> tasks[id].Rec() == was[id]
    ensures TaskViews(tasks) == if t.id in tasks then was[t.id := t.Rec()] else was
  {
  }

  ghost predicate Made(subs: seq<Task>, recs: seq<TaskRec>)
    reads subs
  {
    |subs| == |recs| && forall k :: 0 <= k < |subs| ==> subs[k].Rec() == recs[k]
  }

  lemma MadeNone()
    ensures Made([], [])
  {
  }

  lemma MadeIds(subs: seq<Task>, recs: seq<TaskRec>)
    requires Made(subs, recs)
    ensures |subs| == |recs| && forall k :: 0 <= k < |subs| ==> subs[k].id == recs[k].id
  {
    forall k | 0 <= k < |subs| ensures subs[k].id == recs[k].id {
      assert subs[k].Rec() == recs[k];
    }
  }

  lemma MadeOneMore(subs: seq<Task>, recs: seq<TaskRec>, sub: Task)
    requires Made(subs, recs)
    ensures Made(subs + [sub], recs + [sub.Rec()])
  {
  }

  /** The scheduler's state after a live task changed. */
  function Seen(s: State, rec: TaskRec): State {
    if rec.id in s.tasks then s.(tasks := s.tasks[rec.id := rec]) else s
  }

  /** The store's copy, if it has one, is replaced. */
  function Noted(d: Dag, rec: TaskRec): Dag {
    d.(store := if rec.id in d.store then d.store[rec.id := rec] else d.store)
  }

  /** SaveRelation. */
  function Joined(d: Dag, parent: string, child: string): Dag {
    d.(children := d.children[parent := d.Subs(parent) + [child]], parentOf := d.parentOf[child := parent])
  }

  lemma WrittenAs(d: Dag, rec: TaskRec)
    ensures Written(d, rec) == Noted(d.(sched := Seen(d.sched, rec)), rec)
  {
  }

  /** The inner loop of OnSubTaskFailed. */
  method Lists(deps: seq<string>, id: string) returns (found: bool)
    ensures found <==> id in deps
  {
    for i := 0 to |deps|
      invariant id !in deps[..i]
    {
      if deps[i] == id {
        return true;
      }
    }
    return false;
  }

  class DAGEngine {
    const store: MemoryStore
    const scheduler: Scheduler

    constructor (store: MemoryStore, scheduler: Scheduler)
      ensures this.store == store && this.scheduler == scheduler
    {
      this.store, this.scheduler := store, scheduler;
    }

    ghost predicate Valid()
      reads store, scheduler, scheduler.registry, scheduler.queue.Fifos(), scheduler.queue.Prios(), scheduler.queue.Heaps()
      reads scheduler.queue.Items(), if scheduler.queue.Prio? then scheduler.queue.prio.heap.items else []
    {
      scheduler.Valid() && forall id :: id in store.tasks ==> store.tasks[id].id == id
    }

    ghost function View(): Dag
      reads store, scheduler, scheduler.registry, scheduler.queue.Fifos(), scheduler.queue.Prios(), scheduler.tasks.Values
    {
      Dag(scheduler.View(), store.tasks, store.relations, store.parentOf)
    }

    /** The scheduler's live task, or else a copy from the store. */
    method FindTask(id: string) returns (t: Option<Task>)
      requires Valid()
      ensures Valid() && View() == old(View())
      ensures t.None? <==> View().Lookup(id).None?
      ensures t.Some? ==> t.value.id == id && t.value.Rec() == View().Lookup(id).value
      ensures id in scheduler.tasks ==> t == Some(scheduler.tasks[id])
      ensures id !in scheduler.tasks ==>
        if id in store.tasks then t.Some? && fresh(t.value) && t.value.Rec() == store.tasks[id] else t.None?
      ensures t.Some? ==> Live(scheduler.tasks, t.value) && (fresh(t.value) || t.value in scheduler.tasks.Values)
    {
      hide PriorityQueues.PriorityQueue.Valid;
      t := scheduler.GetTask(id);
      if t.None? {
        t := store.GetTask(id);
      }
    }

    /** The inner loop of checkUnblock. */
    method DepsMet(deps: seq<string>) returns (met: bool)
      requires Valid()
      ensures Valid() && View() == old(View())
      ensures met <==> forall dep :: dep in deps ==> View().Done(dep)
    {
      hide PriorityQueues.PriorityQueue.Valid, Queue.Valid, Scheduler.Valid;
      for i := 0 to |deps|
        invariant Valid() && View() == old(View())
        invariant forall k :: 0 <= k < i ==> View().Done(deps[k])
      {
        var t := FindTask(deps[i]);
        if t.None? || !t.value.status.Completed? {
          assert deps[i] in deps && !View().Done(deps[i]);
          return false;
        }
      }
      return true;
    }

    /** allSubTasksDone; None stands for its error. */
    method AllSubTasksDone(parentID: string) returns (r: Option<bool>)
      requires Valid()
      ensures Valid() && View() == old(View())
      ensures r == AllDone(View(), parentID)
    {
      hide PriorityQueues.PriorityQueue.Valid, Queue.Valid, Scheduler.Valid;
      var subIDs := if parentID in store.relations then store.relations[parentID] else [];
      if |subIDs| == 0 {
        return Some(false);
      }
      ghost var d := View();
      assert subIDs[0..] == subIDs;
      for i := 0 to |subIDs|
        invariant Valid() && View() == d
        invariant AllTerminal(d, subIDs) == AllTerminal(d, subIDs[i..])
      {
        assert subIDs[i..][1..] == subIDs[i + 1..];
        var t := FindTask(subIDs[i]);
        if t.None? {
          return None;
        }
        if !t.value.status.IsTerminal() {
          return Some(false);
        }
      }
      return Some(true);
    }

    /** Transition on a found task: the scheduler sees it if the task is live. */
    method TransitionFound(task: Task, to: Status) returns (ok: bool)
      requires Valid() && Live(scheduler.tasks, task)
      modifies task`status
      ensures Valid() && task.Rec() == old(task.Rec()).Moved(to)
      ensures scheduler.View() == Seen(old(scheduler.View()), task.Rec())
    {
      hide PriorityQueues.PriorityQueue.Valid;
      ok := task.Transition(to);
      assert scheduler.Waiting() == old(scheduler.Waiting());
      FoundTaskChanged(scheduler.tasks, task, old(TaskViews(scheduler.tasks)));
    }

    /** UpdateTask, whose error the engine ignores. */
    method Record(task: Task)
      requires Valid()
      modifies store`tasks
      ensures Valid() && scheduler.View() == old(scheduler.View())
      ensures View() == Noted(old(View()), task.Rec())
      ensures task.id in store.tasks ==> store.tasks[task.id] == task.Rec()
    {
      hide PriorityQueues.PriorityQueue.Valid;
      var ok := store.UpdateTask(task);
    }

    /** Transition on a found task, written back to the store. */
    method MoveFound(task: Task, to: Status)
      requires Valid() && Live(scheduler.tasks, task) && View().Lookup(task.id) == Some(task.Rec())
      modifies task`status, store`tasks
      ensures Valid() && View() == Written(old(View()), old(task.Rec()).Moved(to)) && task.Rec() == old(task.Rec()).Moved(to)
      ensures task.id in store.tasks ==> store.tasks[task.id] == task.Rec()
    {
      hide PriorityQueues.PriorityQueue.Valid, Queue.Valid, Scheduler.Valid, Scheduler.View, Noted, Written, Seen;
      ghost var d := View();
      var ok := TransitionFound(task, to);
      Record(task);
      WrittenAs(d, task.Rec());
    }

    /** One turn of the loop of checkUnblock. */
    method UnblockIfReady(id: string) returns (t: Option<Task>)
      requires Valid()
      modifies scheduler.tasks.Values`status, store`tasks
      ensures Valid() && View() == UnblockOne(old(View()), id)
      ensures forall x :: x in scheduler.tasks.Values && (x.id != id || t.None?) ==> x.status == old(x.status)
      ensures t.Some? <==> old(View()).Ready(id)
      ensures t.Some? <==>
        && old(View()).Lookup(id).Some? && old(View()).Lookup(id).value.status == Blocked
        && forall dep :: dep in old(View()).Lookup(id).value.deps ==>
             old(View()).Lookup(dep).Some? && old(View()).Lookup(dep).value.status == Completed
      ensures t.Some? ==> t.value.id == id && t.value.Rec() == old(View()).Lookup(id).value.Moved(Queued)
      ensures t.Some? ==> Live(scheduler.tasks, t.value) && (fresh(t.value) || t.value in scheduler.tasks.Values)
    {
      hide PriorityQueues.PriorityQueue.Valid, Queue.Valid, Scheduler.Valid;
      t := FindTask(id);
      if t.None? || !t.value.status.Blocked? {
        return None;
      }
      var met := DepsMet(t.value.deps);
      if !met {
        return None;
      }
      MoveFound(t.value, Queued);
    }

    /** The found objects carry these records. */
    ghost predicate Holds(found: seq<Task>, recs: seq<TaskRec>)
      reads scheduler, found
    {
      && |found| == |recs|
      && forall k :: 0 <= k < |found| ==> found[k].Rec() == recs[k] && Live(scheduler.tasks, found[k])
    }

    lemma HoldsNone()
      ensures Holds([], [])
    {
    }

    lemma HoldsOneMore(found: seq<Task>, recs: seq<TaskRec>, t: Task, rec: TaskRec)
      requires Holds(found, recs) && t.Rec() == rec && Live(scheduler.tasks, t)
      ensures Holds(found + [t], recs + [rec])
    {
    }

    /** One turn of the loop of checkUnblock: the tasks found so far stay as they are. */
    method UnblockNext(found: seq<Task>, ghost recs: seq<TaskRec>, id: string) returns (found': seq<Task>)
      requires Valid() && Holds(found, recs) && forall t :: t in found && t.id == id ==> !View().Ready(id)
      modifies scheduler.tasks.Values`status, store`tasks
      ensures Valid() && View() == UnblockOne(old(View()), id)
      ensures Holds(found', recs + if old(View()).Ready(id) then [old(View()).Lookup(id).value.Moved(Queued)] else [])
      ensures forall t :: t in found' ==> t in found || (t.id == id && (fresh(t) || t in scheduler.tasks.Values))
    {
      hide PriorityQueues.PriorityQueue.Valid, Queue.Valid, UnblockOne;
      assert Filed(scheduler.tasks);
      ghost var was := seq(|found|, k requires 0 <= k < |found| reads found => found[k].Rec());
      var t := UnblockIfReady(id);
      forall k | 0 <= k < |found| ensures found[k].Rec() == was[k] {
        assert found[k] in found && (found[k].id != id || t.None?);
      }
      assert Holds(found, recs);
      found' := found;
      if t.Some? {
        HoldsOneMore(found, recs, t.value, t.value.Rec());
        found' := found + [t.value];
      } else {
        assert recs + [] == recs;
      }
    }

    /** A task found already is Queued by now, should its ID come again. */
    lemma FoundNotReady(d: Dag, ids: seq<string>, found: seq<Task>)
      requires Keyed(d) && Holds(found, Unblocked(d, ids))
      ensures forall t :: t in found ==> !Unblock(d, ids).Ready(t.id)
    {
      hide PriorityQueues.PriorityQueue.Valid, Queue.Valid, Scheduler.Valid, Unblock, Unblocked;
      UnblockIsExact(d, ids);
      forall t | t in found ensures !Unblock(d, ids).Ready(t.id) {
        var k :| 0 <= k < |found| && found[k] == t;
        assert t.Rec() == Unblocked(d, ids)[k] && t.id in IdSet(Unblocked(d, ids));
        assert Unblock(d, ids).Lookup(t.id) == Some(t.Rec());
      }
    }

    lemma ViewIsKeyed()
      requires Valid()
      ensures Keyed(View())
    {
      hide PriorityQueues.PriorityQueue.Valid, Queue.Valid;
    }

    /** checkUnblock. */
    method CheckUnblock(parentID: string) returns (unblocked: seq<Task>)
      requires Valid()
      modifies scheduler.tasks.Values`status, store`tasks
      ensures Valid() && View() == Unblock(old(View()), old(View()).Subs(parentID))
      ensures Holds(unblocked, Unblocked(old(View()), old(View()).Subs(parentID)))
      ensures forall t :: t in unblocked ==> fresh(t) || t in scheduler.tasks.Values
    {
      hide PriorityQueues.PriorityQueue.Valid, Queue.Valid, Scheduler.Valid, Holds, Unblock, Unblocked, Keyed;
      unblocked := [];
      var subIDs := if parentID in store.relations then store.relations[parentID] else [];
      ghost var d := View();
      ViewIsKeyed();
      HoldsNone();
      UnblockedNone(d);
      for i := 0 to |subIDs|
        invariant Valid() && View() == Unblock(d, subIDs[..i])
        invariant Holds(unblocked, Unblocked(d, subIDs[..i]))
        invariant forall t :: t in unblocked ==> (fresh(t) || t in scheduler.tasks.Values) 
      {
        assert subIDs[..i + 1] == subIDs[..i] + [subIDs[i]];
        FoundNotReady(d, subIDs[..i], unblocked);
        UnblockedMore(d, subIDs[..i], subIDs[i]);
        unblocked := UnblockNext(unblocked, Unblocked(d, subIDs[..i]), subIDs[i]);
      }
      assert subIDs[..|subIDs|] == subIDs;
    }

    /** The found tasks do not wait in the queue. */
    ghost predicate Idle(recs: seq<TaskRec>)
      reads scheduler.queue.Fifos(), scheduler.queue.Prios()
    {
      forall k :: 0 <= k < |recs| ==> recs[k].id !in TicketIds(scheduler.queue.Order())
    }

    /** RegisterTask and Submit. */
    method Release(task: Task) returns (ghost log: seq<Act>)
      requires Valid() && Live(scheduler.tasks, task) && task.id !in TicketIds(scheduler.queue.Order())
      modifies scheduler, scheduler.registry, scheduler.tasks.Values`status, scheduler.tasks.Values`client, task`status, task`client
      modifies scheduler.queue.Fifos(), scheduler.queue.Prios(), scheduler.queue.Heaps(), scheduler.queue.Items()`index
      ensures Valid() && (forall x :: x in scheduler.queue.Items() ==> x in old(scheduler.queue.Items()) || fresh(x))
      ensures scheduler.tasks == old(scheduler.tasks)[task.id := task]
      ensures Submitted(old(scheduler.View()), old(task.Rec()), log, scheduler.View())
    {
      hide PriorityQueues.PriorityQueue.Valid, Submitted, Scheduler.View, Queue.Order, Queue.Objects;
      ghost var s, rec := scheduler.View(), task.Rec();
      scheduler.queue.OrderIsObjects();
      scheduler.RegisterTask(task);
      var ok;
      ok, log := scheduler.Submit(task);
      RegisteredTwice(s, rec, log, scheduler.View());
    }

    /** The tasks still to come stay as they are while one is released. */
    method ReleaseOne(task: Task, ghost rest: seq<Task>, ghost recs: seq<TaskRec>) returns (ghost log: seq<Act>)
      requires Valid() && Live(scheduler.tasks, task) && task.id !in TicketIds(scheduler.queue.Order())
      requires Holds(rest, recs) && Idle(recs) && forall t :: t in rest ==> t.id != task.id
      modifies scheduler, scheduler.registry, scheduler.tasks.Values`status, scheduler.tasks.Values`client, task`status, task`client
      modifies scheduler.queue.Fifos(), scheduler.queue.Prios(), scheduler.queue.Heaps(), scheduler.queue.Items()`index
      ensures Valid() && (forall x :: x in scheduler.queue.Items() ==> x in old(scheduler.queue.Items()) || fresh(x))
      ensures scheduler.tasks == old(scheduler.tasks)[task.id := task]
      ensures Submitted(old(scheduler.View()), old(task.Rec()), log, scheduler.View())
      ensures Holds(rest, recs) && Idle(recs)
    {
      hide PriorityQueues.PriorityQueue.Valid, Queue.Valid, Submitted;
      assert Filed(scheduler.tasks);
      ghost var s, rec := scheduler.View(), task.Rec();
      log := Release(task);
      SI.SubmitSpares(s, rec, log, scheduler.View());
      forall k | 0 <= k < |rest| ensures rest[k].Rec() == recs[k] && Live(scheduler.tasks, rest[k]) {
        assert rest[k] in rest;
        assert rest[k].id in s.tasks ==> scheduler.View().tasks[rest[k].id] == s.tasks[rest[k].id];
      }
    }

    /** The loops over RegisterTask and Submit in CreateSubTasks and OnSubTaskCompleted. */
    method ReleaseAll(found: seq<Task>, ghost recs: seq<TaskRec>) returns (ghost logs: seq<seq<Act>>)
      requires Valid() && Holds(found, recs) && Idle(recs) && Apart(recs)
      modifies scheduler, scheduler.registry, scheduler.tasks.Values`status, scheduler.tasks.Values`client, found`status, found`client
      modifies scheduler.queue.Fifos(), scheduler.queue.Prios(), scheduler.queue.Heaps(), scheduler.queue.Items()`index
      ensures Valid() && (forall x :: x in scheduler.queue.Items() ==> x in old(scheduler.queue.Items()) || fresh(x))
      ensures Released(old(scheduler.View()), recs, logs, scheduler.View())
    {
      hide PriorityQueues.PriorityQueue.Valid, Queue.Valid, Scheduler.Valid, Scheduler.View, Submitted, Released, Holds, Idle, Apart;
      ghost var s := scheduler.View();
      logs := [];
      ReleasedNone(s);
      HoldsAsMany(found, recs);
      assert found[0..] == found && recs[0..] == recs && recs[..0] == [];
      for i := 0 to |found|
        invariant Valid() && (forall x :: x in scheduler.queue.Items() ==> x in old(scheduler.queue.Items()) || fresh(x))
        invariant forall x :: x in scheduler.tasks.Values ==> x in old(scheduler.tasks.Values) || x in found
        invariant Holds(found[i..], recs[i..]) && Idle(recs[i..]) && Apart(recs[i..])
        invariant Released(s, recs[..i], logs, scheduler.View())
      {
        ghost var m := scheduler.View();
        HoldsSplit(found[i..], recs[i..]);
        assert found[i..][1..] == found[i + 1..] && recs[i..][1..] == recs[i + 1..];
        ghost var log := ReleaseOne(found[i], found[i + 1..], recs[i + 1..]);
        ReleasedSnoc(s, recs[..i], logs, m, recs[i], log, scheduler.View());
        assert recs[..i] + [recs[i]] == recs[..i + 1];
        logs := logs + [log];
      }
      assert recs[..|recs|] == recs;
    }

    lemma HoldsAsMany(found: seq<Task>, recs: seq<TaskRec>)
      requires Holds(found, recs)
      ensures |found| == |recs|
    {
    }

    lemma HoldsSplit(found: seq<Task>, recs: seq<TaskRec>)
      requires Holds(found, recs) && Idle(recs) && found != [] && Apart(recs)
      ensures found[0].Rec() == recs[0] && Live(scheduler.tasks, found[0]) && found[0].id !in TicketIds(scheduler.queue.Order())
      ensures Holds(found[1..], recs[1..]) && Idle(recs[1..]) && Apart(recs[1..])
      ensures forall t :: t in found[1..] ==> t.id != found[0].id
    {
      forall k | 0 <= k < |found[1..]| ensures found[1..][k].id != found[0].id {
        assert found[1..][k] == found[k + 1];
      }
    }

    /** What waits in the queue is not blocked, so no ready task waits. */
    lemma ReadyIdle(d: Dag, ids: seq<string>, recs: seq<TaskRec>)
      requires Valid() && View().sched.queue == d.sched.queue && AreReady(d, ids, recs)
      requires forall id :: id in TicketIds(d.sched.queue) ==> id in d.sched.tasks && !d.sched.tasks[id].status.Blocked?
      ensures Idle(recs)
    {
      hide PriorityQueues.PriorityQueue.Valid, Queue.Valid, Scheduler.Valid;
      forall k | 0 <= k < |recs| ensures recs[k].id !in TicketIds(scheduler.queue.Order()) {
        assert d.Ready(recs[k].id);
      }
    }

    lemma QueuedAreFiled()
      requires Valid() && forall t :: t in scheduler.queue.Objects() ==> !t.status.Blocked?
      ensures forall id :: id in TicketIds(View().sched.queue) ==> id in View().sched.tasks && !View().sched.tasks[id].status.Blocked?
    {
      hide PriorityQueues.PriorityQueue.Valid, Queue.Valid;
      scheduler.queue.OrderIsObjects();
    }

    /** The branch of OnSubTaskCompleted for an unfinished plan. */
    method ReleaseReady(parentID: string) returns (ghost logs: seq<seq<Act>>)
      requires Valid()
      requires forall t :: t in scheduler.queue.Objects() ==> !t.status.Blocked?
      modifies store`tasks, scheduler, scheduler.registry, scheduler.tasks.Values`status, scheduler.tasks.Values`client
      modifies scheduler.queue.Fifos(), scheduler.queue.Prios(), scheduler.queue.Heaps(), scheduler.queue.Items()`index
      ensures Valid() && (forall x :: x in scheduler.queue.Items() ==> x in old(scheduler.queue.Items()) || fresh(x))
      ensures var m := Unblock(old(View()), old(View()).Subs(parentID));
        && View() == m.(sched := View().sched)
        && Released(m.sched, Unblocked(old(View()), old(View()).Subs(parentID)), logs, View().sched)
    {
      hide PriorityQueues.PriorityQueue.Valid, Queue.Valid, Released, AreReady, Unblock, Unblocked, Idle, Holds;
      ghost var d := View();
      ghost var ids := d.Subs(parentID);
      QueuedAreFiled();
      UnblockIsExact(d, ids);
      var unblocked := CheckUnblock(parentID);
      ghost var recs := Unblocked(d, ids);
      ReadyIdle(d, ids, recs);
      AreApart(d, ids, recs);
      logs := ReleaseAll(unblocked, recs);
    }

    /** OnSubTaskCompleted. */
    method OnSubTaskCompleted(subTaskID: string) returns (done: bool, ok: bool, ghost logs: seq<seq<Act>>)
      requires Valid()
      requires forall t :: t in scheduler.queue.Objects() ==> !t.status.Blocked?
      modifies store`tasks, scheduler, scheduler.registry, scheduler.tasks.Values`status, scheduler.tasks.Values`client
      modifies scheduler.queue.Fifos(), scheduler.queue.Prios(), scheduler.queue.Heaps(), scheduler.queue.Items()`index
      ensures Valid() && SubTaskCompleted(old(View()), subTaskID, logs, done, View())
      ensures ok <==> old(View()).Parent(subTaskID) == "" || AllDone(old(View()), old(View()).Parent(subTaskID)).Some?
      ensures done && old(View()).Parent(subTaskID) in scheduler.tasks && old(View()).Parent(subTaskID) in store.tasks ==>
        store.tasks[old(View()).Parent(subTaskID)] == scheduler.tasks[old(View()).Parent(subTaskID)].Rec()
    {
      hide PriorityQueues.PriorityQueue.Valid, Queue.Valid, Released, AllDone, Unblock, Unblocked;
      logs, done, ok := [], false, true;
      var parentID := if subTaskID in store.parentOf then store.parentOf[subTaskID] else "";
      if parentID == "" {
        return;
      }
      var allDone := AllSubTasksDone(parentID);
      if allDone.None? {
        ok := false;
      } else if allDone.value {
        done := true;
        var parentTask := scheduler.GetTask(parentID);
        if parentTask.Some? {
          MoveFound(parentTask.value, Aggregating);
        }
      } else {
        logs := ReleaseReady(parentID);
      }
    }

    method MarkFailed(task: Task, failed: string)
      requires Valid() && Live(scheduler.tasks, task)
      modifies task`status, task`error
      ensures Valid() && task.Rec() == old(task.Rec()).(error := Some(DependencyError(failed))).Moved(Failed)
      ensures scheduler.View() == Seen(old(scheduler.View()), task.Rec())
      ensures task.error == Some("dependency task " + failed + " failed")
    {
      hide PriorityQueues.PriorityQueue.Valid;
      task.error := Some(DependencyError(failed));
      var ok := task.Transition(Failed);
      assert scheduler.Waiting() == old(scheduler.Waiting());
      FoundTaskChanged(scheduler.tasks, task, old(TaskViews(scheduler.tasks)));
    }

    /** A dependent sibling fails, and the store hears of it. */
    method FailFound(task: Task, failed: string)
      requires Valid() && Live(scheduler.tasks, task) && View().Lookup(task.id) == Some(task.Rec())
      modifies task`status, task`error, store`tasks
      ensures Valid()
      ensures View() == Written(old(View()), old(task.Rec()).(error := Some(DependencyError(failed))).Moved(Failed))
      ensures task.error == Some("dependency task " + failed + " failed") && (task.id in store.tasks ==> store.tasks[task.id] == task.Rec())
    {
      hide PriorityQueues.PriorityQueue.Valid, Queue.Valid, Scheduler.Valid, Scheduler.View, Noted, Written, Seen;
      ghost var d := View();
      MarkFailed(task, failed);
      Record(task);
      WrittenAs(d, task.Rec());
    }

    /** One turn of the loop of OnSubTaskFailed. */
    method FailDependent(failed: string, sibID: string)
      requires Valid()
      modifies store`tasks, scheduler.tasks.Values`status, scheduler.tasks.Values`error
      ensures Valid() && View() == FailOne(old(View()), failed, sibID)
    {
      hide PriorityQueues.PriorityQueue.Valid, Written;
      if sibID == failed {
        return;
      }
      var sib := FindTask(sibID);
      if sib.Some? {
        var depends := Lists(sib.value.deps, failed);
        if depends {
          FailFound(sib.value, failed);
        }
      }
    }

    /** OnSubTaskFailed. */
    method OnSubTaskFailed(subTaskID: string)
      requires Valid()
      modifies store`tasks, scheduler.tasks.Values`status, scheduler.tasks.Values`error
      ensures Valid() && View() == SubTaskFailed(old(View()), subTaskID)
    {
      hide PriorityQueues.PriorityQueue.Valid, Queue.Valid, Scheduler.Valid;
      var parentID := if subTaskID in store.parentOf then store.parentOf[subTaskID] else "";
      if parentID == "" {
        return;
      }
      var siblings := if parentID in store.relations then store.relations[parentID] else [];
      ghost var d := View();
      for i := 0 to |siblings|
        invariant Valid() && View() == FailAll(d, subTaskID, siblings[..i])
      {
        assert siblings[..i + 1][..i] == siblings[..i];
        FailDependent(subTaskID, siblings[i]);
      }
      assert siblings[..|siblings|] == siblings;
    }

    // ----- Creation -----

    /** NewTask with the plan's fields. */
    method NewSubTask(parent: Task, k: nat, plan: Plan, now: int) returns (sub: Task)
      ensures fresh(sub) && sub.Rec() == NewSub(parent.Rec(), k, plan, now)
      ensures sub.Rec() == TaskRec(parent.id + "-sub-" + Strings.Decimal(k), if plan.dependsOn == [] then Created else Blocked,
                                   plan.role, plan.skills, parent.priority, parent.id, [], plan.dependsOn, "", [], now, 0, "", None, None)
    {
      sub := new Task(TaskRec(SubID(parent.id, k), Created, plan.role, plan.skills, parent.priority, parent.id, [], plan.dependsOn,
                              "", [], now, 0, "", None, None));
      if |plan.dependsOn| > 0 {
        var ok := sub.Transition(Blocked);
      }
    }

    method SaveRecord(sub: Task) returns (ok: bool)
      requires Valid()
      modifies store
      ensures Valid() && ok == (sub.id !in old(View()).store)
      ensures View() == if ok then old(View()).(store := old(View()).store[sub.id := sub.Rec()]) else old(View())
    {
      hide PriorityQueues.PriorityQueue.Valid;
      ok := store.SaveTask(sub);
      assert scheduler.View() == old(scheduler.View());
    }

    method Relate(parentID: string, childID: string)
      requires Valid()
      modifies store
      ensures Valid() && View() == Joined(old(View()), parentID, childID)
    {
      hide PriorityQueues.PriorityQueue.Valid;
      store.SaveRelation(parentID, childID);
      assert scheduler.View() == old(scheduler.View());
    }

    /** SaveTask and SaveRelation of one sub-task, unless its ID is taken. */
    method SaveSub(parentID: string, sub: Task) returns (ok: bool)
      requires Valid()
      modifies store
      ensures Valid() && ok == (sub.id !in old(View()).store)
      ensures View() == if ok then Saved(old(View()), parentID, sub.Rec()) else old(View())
    {
      hide PriorityQueues.PriorityQueue.Valid, Queue.Valid, Scheduler.Valid, Scheduler.View, Valid, View;
      ok := SaveRecord(sub);
      if ok {
        Relate(parentID, sub.id);
      }
    }

    /** One turn of the first loop of CreateSubTasks. */
    method SaveNew(parent: Task, k: nat, plan: Plan, now: int) returns (sub: Task, ok: bool)
      requires Valid()
      modifies store
      ensures Valid() && fresh(sub) && sub.Rec() == NewSub(parent.Rec(), k, plan, now)
      ensures ok == (SubID(parent.id, k) !in old(View()).store)
      ensures View() == if ok then Saved(old(View()), parent.id, sub.Rec()) else old(View())
    {
      hide PriorityQueues.PriorityQueue.Valid, Saved;
      sub := NewSubTask(parent, k, plan, now);
      ok := SaveSub(parent.id, sub);
    }

    /** The first loop of CreateSubTasks. */
    method SaveSubs(parent: Task, plans: seq<Plan>, now: int) returns (subs: seq<Task>, ok: bool)
      requires Valid()
      modifies store
      ensures Valid() && ok == (Fitting(old(View()).store, parent.id, 0, |plans|) == |plans|)
      ensures var recs := NewSubs(parent.Rec(), plans, now, Fitting(old(View()).store, parent.id, 0, |plans|));
        && View() == SavedAll(old(View()), parent.id, recs)
        && Made(subs, recs) && forall t :: t in subs ==> fresh(t)
    {
      hide PriorityQueues.PriorityQueue.Valid, Queue.Valid, Scheduler.Valid, NewSub, NewSubs, Saved, SavedAll, Made;
      subs, ok := [], true;
      ghost var d, rec := View(), parent.Rec();
      SaveNone(d, rec, plans, now);
      MadeNone();
      for i := 0 to |plans|
        invariant Valid() && View() == SavedAll(d, parent.id, NewSubs(rec, plans, now, i))
        invariant Made(subs, NewSubs(rec, plans, now, i)) && forall t :: t in subs ==> fresh(t)
        invariant Fitting(d.store, parent.id, 0, |plans|) == Fitting(d.store, parent.id, i, |plans|)
      {
        SavedIdsDiffer(d, rec, plans, now, i);
        SaveNext(d, rec, plans, now, i);
        var sub;
        sub, ok := SaveNew(parent, i + 1, plans[i], now);
        if !ok {
          return;
        }
        MadeOneMore(subs, NewSubs(rec, plans, now, i), sub);
        subs := subs + [sub];
      }
    }

    method SetSubTasks(parent: Task, ids: seq<string>)
      requires Valid() && Live(scheduler.tasks, parent)
      modifies parent`subTasks
      ensures Valid() && parent.Rec() == old(parent.Rec()).(subTasks := ids)
      ensures scheduler.View() == Seen(old(scheduler.View()), parent.Rec())
    {
      hide PriorityQueues.PriorityQueue.Valid;
      parent.subTasks := ids;
      assert scheduler.Waiting() == old(scheduler.Waiting());
      FoundTaskChanged(scheduler.tasks, parent, old(TaskViews(scheduler.tasks)));
    }

    /** The parent learns its sub-tasks, and the store hears of it. */
    method UpdateParent(parent: Task, subs: seq<Task>, ghost recs: seq<TaskRec>)
      requires Valid() && Live(scheduler.tasks, parent) && Made(subs, recs) && parent !in subs
      modifies parent`subTasks, store`tasks
      ensures Valid() && View() == Written(old(View()), old(parent.Rec()).(subTasks := Ids(recs)))
      ensures Made(subs, recs) && parent.subTasks == Ids(recs)
    {
      hide PriorityQueues.PriorityQueue.Valid, Queue.Valid, Scheduler.Valid, Scheduler.View, Noted, Written, Seen;
      ghost var d := View();
      var ids := seq(|subs|, i requires 0 <= i < |subs| => subs[i].id);
      MadeIds(subs, recs);
      assert ids == Ids(recs);
      SetSubTasks(parent, ids);
      Record(parent);
      WrittenAs(d, parent.Rec());
    }

    /** The sub-tasks that are not blocked. */
    method PickUnblocked(subs: seq<Task>, ghost recs: seq<TaskRec>) returns (picked: seq<Task>)
      requires Made(subs, recs)
      ensures Made(picked, Unblockeds(recs)) && forall t :: t in picked ==> t in subs
    {
      picked := [];
      for i := 0 to |subs|
        invariant Made(picked, Unblockeds(recs[..i])) && forall t :: t in picked ==> t in subs
      {
        assert recs[..i + 1][..i] == recs[..i];
        if !subs[i].status.Blocked? {
          picked := picked + [subs[i]];
        }
      }
      assert recs[..|subs|] == recs;
    }

    /** The new sub-tasks are unknown to the scheduler, so they neither run nor wait. */
    lemma NewAreIdle(subs: seq<Task>, recs: seq<TaskRec>)
      requires Valid() && Made(subs, recs) && forall k :: 0 <= k < |recs| ==> recs[k].id !in scheduler.tasks
      ensures Holds(subs, recs) && Idle(recs)
    {
      hide PriorityQueues.PriorityQueue.Valid, Queue.Valid;
      scheduler.queue.OrderIsObjects();
      forall k | 0 <= k < |recs| ensures subs[k].id == recs[k].id {
        assert subs[k].Rec() == recs[k];
      }
    }

    /** The last loop of CreateSubTasks. */
    method SubmitUnblocked(subs: seq<Task>, ghost recs: seq<TaskRec>) returns (ghost logs: seq<seq<Act>>)
      requires Valid() && Made(subs, recs) && Apart(recs) && forall k :: 0 <= k < |recs| ==> recs[k].id !in scheduler.tasks
      modifies scheduler, scheduler.registry, scheduler.tasks.Values`status, scheduler.tasks.Values`client, subs`status, subs`client
      modifies scheduler.queue.Fifos(), scheduler.queue.Prios(), scheduler.queue.Heaps(), scheduler.queue.Items()`index
      ensures Valid() && Released(old(scheduler.View()), Unblockeds(recs), logs, scheduler.View())
    {
      hide PriorityQueues.PriorityQueue.Valid, Queue.Valid, Scheduler.Valid, Made, Holds, Idle, Unblockeds, Released;
      var picked := PickUnblocked(subs, recs);
      UnblockedsAre(recs);
      forall k | 0 <= k < |Unblockeds(recs)| ensures Unblockeds(recs)[k].id !in scheduler.tasks {
        assert Unblockeds(recs)[k] in recs;
      }
      NewAreIdle(picked, Unblockeds(recs));
      assert forall k :: 0 <= k < |picked| ==> picked[k] in picked;
      logs := ReleaseAll(picked, Unblockeds(recs));
    }

    /** CreateSubTasks after its first loop. */
    method Announce(parent: Task, subs: seq<Task>, ghost recs: seq<TaskRec>) returns (ghost logs: seq<seq<Act>>)
      requires Valid() && Live(scheduler.tasks, parent) && Made(subs, recs) && parent !in subs
      requires Apart(recs) && forall k :: 0 <= k < |recs| ==> recs[k].id !in scheduler.tasks
      modifies store`tasks, parent`subTasks, scheduler, scheduler.registry, scheduler.tasks.Values`status, scheduler.tasks.Values`client
      modifies subs`status, subs`client
      modifies scheduler.queue.Fifos(), scheduler.queue.Prios(), scheduler.queue.Heaps(), scheduler.queue.Items()`index
      ensures Valid() && parent.subTasks == Ids(recs)
      ensures var w := Written(old(View()), old(parent.Rec()).(subTasks := Ids(recs)));
        View() == w.(sched := View().sched) && Released(w.sched, Unblockeds(recs), logs, View().sched)
    {
      hide PriorityQueues.PriorityQueue.Valid, Queue.Valid, Scheduler.Valid, Scheduler.View, Made, Written, Ids, Unblockeds, Released, Apart;
      UpdateParent(parent, subs, recs);
      logs := SubmitUnblocked(subs, recs);
    }

    /** CreateSubTasks. */
    method CreateSubTasks(parent: Task, plans: seq<Plan>, now: int) returns (subs: seq<Task>, ok: bool, ghost logs: seq<seq<Act>>)
      requires Valid() && Live(scheduler.tasks, parent)
      requires forall k :: 1 <= k <= |plans| && SubID(parent.id, k) in scheduler.tasks ==> SubID(parent.id, k) in store.tasks
      modifies store, parent`subTasks, scheduler, scheduler.registry, scheduler.tasks.Values`status, scheduler.tasks.Values`client
      modifies scheduler.queue.Fifos(), scheduler.queue.Prios(), scheduler.queue.Heaps(), scheduler.queue.Items()`index
      ensures Valid() && SubTasksCreated(old(View()), old(parent.Rec()), plans, now, logs, ok, View())
      ensures |subs| == (if ok then |plans| else 0) && forall k :: 0 <= k < |subs| ==> subs[k].id == SubID(parent.id, k + 1)
      ensures CreationShows(old(View()), old(parent.Rec()), plans, now, ok, View())
      ensures ok ==> parent.subTasks == Numbered(parent.id, |plans|)
    {
      hide PriorityQueues.PriorityQueue.Valid, Queue.Valid, Scheduler.Valid, Made, Holds, Idle, NewSub, NewSubs, SavedAll, Written, Ids, Unblockeds, Released, SubTasksCreated, SubID, Fitting, CreationShows, Numbered;
      subs, logs, ok := [], [], false;
      if |plans| == 0 {
        CreatesNone(View(), parent.Rec(), plans, now);
        CreationIs(View(), parent.Rec(), plans, now, [], false, View());
        return;
      }
      ghost var d, rec, n := View(), parent.Rec(), Fitting(store.tasks, parent.id, 0, |plans|);
      ghost var recs := NewSubs(rec, plans, now, n);
      FittingAreNew(d, rec, plans, now, n);
      NewSubsApart(rec, plans, now, n);
      subs, ok := SaveSubs(parent, plans, now);
      if !ok {
        subs := [];
        CreationStops(d, rec, plans, now);
        CreationIs(d, rec, plans, now, [], false, View());
        return;
      }
      MadeIds(subs, recs);
      SubIdsAre(rec, plans, now, n);
      forall k | 0 <= k < |subs| ensures fresh(subs[k]) {
        assert subs[k] in subs;
      }
      logs := Announce(parent, subs, recs);
      CreationEnds(d, rec, plans, now, logs, View());
      CreationIs(d, rec, plans, now, logs, true, View());
    }
  }
}
