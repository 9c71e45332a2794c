/**
 DAG completion and progress: when a parent is moved to Aggregating, and how a plan whose
 dependencies are acyclic finishes.
 */
module DagProgress {
  import opened Tasks
  import opened DequeueOrder
  import opened SchedulerSpec
  import SI = SchedulerInvariant
  import StuckTasks
  import opened DagSpec
  import opened DagSafety

  // ----- Aggregation -----

  ghost predicate Finished(d: Dag, id: string) {
    d.Lookup(id).Some? && d.Lookup(id).value.status.IsTerminal()
  }

  lemma {:induction false} AllTerminalIff(d: Dag, ids: seq<string>)
    ensures AllTerminal(d, ids) == Some(true) <==> forall id :: id in ids ==> Finished(d, id)
  {
    if ids != [] {
      assert ids == [ids[0]] + ids[1..];
      if Finished(d, ids[0]) {
        AllTerminalIff(d, ids[1..]);
      } else {
        assert ids[0] in ids;
      }
    }
  }

  /** A plan is done exactly when it has sub-tasks and all of them are found in a terminal status. */
  lemma AllDoneIff(d: Dag, p: string)
    ensures AllDone(d, p) == Some(true) <==> d.Subs(p) != [] && forall id :: id in d.Subs(p) ==> Finished(d, id)
  {
    AllTerminalIff(d, d.Subs(p));
  }

  lemma {:induction false} AllTerminalFailsIff(d: Dag, ids: seq<string>)
    ensures AllTerminal(d, ids).None? <==>
      exists i :: 0 <= i < |ids| && d.Lookup(ids[i]).None? && forall j :: 0 <= j < i ==> Finished(d, ids[j])
  {
    if ids != [] {
      AllTerminalFailsIff(d, ids[1..]);
      if Finished(d, ids[0]) {
        if i :| 0 <= i < |ids| && d.Lookup(ids[i]).None? && forall j :: 0 <= j < i ==> Finished(d, ids[j]) {
          assert ids[1..][i - 1] == ids[i] && forall j :: 0 <= j < i - 1 ==> ids[1..][j] == ids[j + 1];
        }
        if i :| 0 <= i < |ids[1..]| && d.Lookup(ids[1..][i]).None? && forall j :: 0 <= j < i ==> Finished(d, ids[1..][j]) {
          assert ids[i + 1] == ids[1..][i] && forall j :: 0 < j < i + 1 ==> ids[j] == ids[1..][j - 1];
        }
      }
    }
  }

  /** Whether a plan is done cannot be told exactly if a missing sub-task comes before any that is not terminal. */
  lemma AllDoneFailsIff(d: Dag, p: string)
    ensures var ids := d.Subs(p);
      AllDone(d, p).None? <==>
        exists i :: 0 <= i < |ids| && d.Lookup(ids[i]).None? && forall j :: 0 <= j < i ==> Finished(d, ids[j])
  {
    AllTerminalFailsIff(d, d.Subs(p));
  }

  lemma FailingAggregatesNone(d: Dag, failed: string, ids: seq<string>, p: string)
    requires Keyed(d) && p in d.sched.tasks
    ensures p in FailAll(d, failed, ids).sched.tasks
    ensures FailAll(d, failed, ids).sched.tasks[p].status.Aggregating? ==> d.sched.tasks[p].status.Aggregating?
  {
    hide Follows;
    FailAllFollows(d, failed, ids);
    if ids != [] {
      FailAllFollows(d, failed, ids[..|ids| - 1]);
      FailingAggregatesNone(d, failed, ids[..|ids| - 1], p);
    }
  }

  /** In any step, a task is moved to Aggregating only by the report that finds all its sub-tasks terminal. */
  lemma AggregatesOnlyWhenDone(d: Dag, l: DagLabel, d': Dag, p: string)
    requires DagInv(d) && DagClean(d, l) && DagNext(d, l, d')
    requires p in d.sched.tasks && !d.sched.tasks[p].status.Aggregating?
    requires p in d'.sched.tasks && d'.sched.tasks[p].status.Aggregating?
    ensures l.SubDone? && l.done && d.Parent(l.id) == p
    ensures d.Subs(p) != [] && forall id :: id in d.Subs(p) ==> Finished(d, id)
  {
    hide Next, Released, Follows, Safe, SavedWell;
    match l
    case Sched(l) => NextCarries(d.sched, l, d'.sched);
    case SubFailed(id) =>
      if d.Parent(id) != "" { FailingAggregatesNone(d, id, d.Subs(d.Parent(id)), p); }
    case Create(parent, plans, now, logs, ok) => CreateKeeps(d, parent, plans, now, logs, ok, d');
    case SubDone(id, logs, done) =>
      AllDoneIff(d, d.Parent(id));
      if d.Parent(id) != "" && AllDone(d, d.Parent(id)) == Some(false) {
        ReleaseAggregatesNone(d, id, logs, d', p);
      }
  }

  lemma ReleaseAggregatesNone(d: Dag, id: string, logs: seq<seq<Act>>, d': Dag, p: string)
    requires DagInv(d) && d.Parent(id) != "" && AllDone(d, d.Parent(id)) == Some(false)
    requires SubTaskCompleted(d, id, logs, false, d') && p in d.sched.tasks && p in d'.sched.tasks
    ensures d'.sched.tasks[p].status.Aggregating? ==> d.sched.tasks[p].status.Aggregating?
  {
    hide Released, Safe, Follows, AreReady, Family;
    var ids := d.Subs(d.Parent(id));
    UnblockIsExact(d, ids);
    ReleasedFollows(d, ids, Unblock(d, ids), Unblocked(d, ids), logs, d');
  }

  /**
   The report that finds the plan done does not always move the parent: the table lets
   only Created and Queued tasks become Aggregating, so a parent that is Running stays so.
   */
  lemma ParentAggregatesIff(d: Dag, id: string, logs: seq<seq<Act>>, d': Dag)
    requires DagInv(d) && SubTaskCompleted(d, id, logs, true, d') && d.Parent(id) in d.sched.tasks
    ensures var s := d.sched.tasks[d.Parent(id)].status;
      && d.Parent(id) in d'.sched.tasks
      && (d'.sched.tasks[d.Parent(id)].status.Aggregating? <==> s.Created? || s.Queued? || s.Aggregating?)
      && (!s.Created? && !s.Queued? ==> d'.sched.tasks[d.Parent(id)] == d.sched.tasks[d.Parent(id)])
  {
    hide Released;
  }

  /**
   Moving a parent to Aggregating while it still waits in the queue leaves it there with a
   status no dispatch can take it from: the queue stays sound, but free of such entries
   exactly when the parent does not wait.
   */
  lemma AggregationSticksIff(d: Dag, id: string, logs: seq<seq<Act>>, d': Dag)
    requires Keyed(d) && SI.QueueSound(d.sched) && StuckTasks.NoneStuck(d.sched) && SubTaskCompleted(d, id, logs, true, d')
    ensures SI.QueueSound(d'.sched)
    ensures StuckTasks.NoneStuck(d'.sched) <==> d.Parent(id) !in TicketIds(d.sched.queue)
    ensures forall x :: x in TicketIds(d'.sched.queue) && StuckTasks.Stuck(d'.sched, x) ==> x == d.Parent(id)
  {
    hide Released, DistinctTickets, Descending;
    var p := d.Parent(id);
    assert d'.sched.queue == d.sched.queue;
    forall i | 0 <= i < |d'.sched.queue| ensures SI.Queueable(d'.sched, d'.sched.queue[i]) {
      assert SI.Queueable(d.sched, d.sched.queue[i]) && d.sched.queue[i].id in TicketIds(d.sched.queue);
    }
    if p in TicketIds(d.sched.queue) {
      assert !StuckTasks.Stuck(d.sched, p);
      SI.QueuedMayWait(d.sched);
      assert StuckTasks.Stuck(d'.sched, p);
    }
  }

  // ----- Progress -----

  /** The sub-tasks of p that the scheduler has not seen. */
  ghost function Unreleased(d: Dag, p: string): set<string> {
    set id | id in d.Subs(p) && id !in d.sched.tasks
  }

  /** Dependencies are siblings, and following them goes down in rank. */
  ghost predicate Acyclic(d: Dag, p: string, rank: map<string, nat>) {
    forall id, dep :: id in d.Subs(p) && d.Lookup(id).Some? && dep in d.Lookup(id).value.deps ==>
      dep in d.Subs(p) && id in rank && dep in rank && rank[dep] < rank[id]
  }

  /** Every released sub-task has come to an end, and the others wait or have failed. */
  ghost predicate Rested(d: Dag, p: string) {
    forall id :: id in d.Subs(p) ==>
      d.Lookup(id).Some? && (Finished(d, id) || (d.Lookup(id).value.status.Blocked? && id !in d.sched.tasks))
  }

  /** No waiting sub-task depends on one that ended without being completed. */
  ghost predicate Spared(d: Dag, p: string) {
    forall id, dep :: id in d.Subs(p) && !Finished(d, id) && d.Lookup(id).Some? && dep in d.Lookup(id).value.deps ==>
      d.Done(dep) || !Finished(d, dep)
  }

  lemma {:induction false} LowestIsReady(d: Dag, p: string, rank: map<string, nat>, id: string) returns (x: string)
    requires Acyclic(d, p, rank) && Rested(d, p) && Spared(d, p)
    requires id in d.Subs(p) && !Finished(d, id)
    ensures x in d.Subs(p) && d.Ready(x) && x !in d.sched.tasks
    decreases if id in rank then rank[id] else 0
  {
    if dep :| dep in d.Lookup(id).value.deps && !d.Done(dep) {
      x := LowestIsReady(d, p, rank, dep);
    } else {
      x := id;
    }
  }

  /** When every released sub-task has ended and none failed under a waiting one, the plan is done or more is released. */
  lemma ReportMakesProgress(d: Dag, id: string, logs: seq<seq<Act>>, done: bool, d': Dag, rank: map<string, nat>)
    requires DagInv(d) && SubTaskCompleted(d, id, logs, done, d') && d.Parent(id) != ""
    requires Acyclic(d, d.Parent(id), rank) && Rested(d, d.Parent(id)) && Spared(d, d.Parent(id))
    ensures done <==> forall x :: x in d.Subs(d.Parent(id)) ==> Finished(d, x)
    ensures !done ==> exists x :: x in Unreleased(d, d.Parent(id)) && x in d'.sched.tasks
    ensures forall x :: x in Unreleased(d, d.Parent(id)) && x in d'.sched.tasks ==> d.Ready(x)
  {
    hide Released, Safe, Follows, AreReady, Family, Unblock, Unblocked;
    var p, ids := d.Parent(id), d.Subs(d.Parent(id));
    HasSubs(d, id);
    AllDoneIff(d, p);
    RestedIsFound(d, ids);
    if AllDone(d, p) == Some(false) {
      UnblockIsExact(d, ids);
      ReleasedFollows(d, ids, Unblock(d, ids), Unblocked(d, ids), logs, d');
      var x :| x in ids && !Finished(d, x);
      var y := LowestIsReady(d, p, rank, x);
      assert y in Unreleased(d, p);
    }
  }

  lemma HasSubs(d: Dag, id: string)
    requires Family(d) && d.Parent(id) != ""
    ensures d.Subs(d.Parent(id)) != []
  {
  }

  lemma {:induction false} RestedIsFound(d: Dag, ids: seq<string>)
    requires forall id :: id in ids ==> d.Lookup(id).Some?
    ensures AllTerminal(d, ids).Some?
  {
    if ids != [] {
      RestedIsFound(d, ids[1..]);
    }
  }

  // ----- Rounds -----

  lemma SubsStay(d: Dag, l: DagLabel, d': Dag, p: string)
    requires DagInv(d) && DagNext(d, l, d') && (l.Create? ==> l.parent.id != p)
    ensures d'.Subs(p) == d.Subs(p)
  {
    hide Next, Released, DagInv, Follows, Unblock, Unblocked, SubTasksCreated, FailAll, AllDone, OnlyReadyMoved, AreReady, Keyed;
    InvIsKeyed(d);
    match l
    case Sched(l) =>
    case SubFailed(id) => FailAllFollows(d, id, d.Subs(d.Parent(id)));
    case SubDone(id, logs, done) => DoneKeepsChildren(d, id, logs, done, d');
    case Create(parent, plans, now, logs, ok) => CreateKeepsOthers(d, parent, plans, now, logs, ok, d', p);
  }

  lemma InvIsKeyed(d: Dag)
    requires DagInv(d)
    ensures Keyed(d)
  {
  }

  lemma DoneKeepsChildren(d: Dag, id: string, logs: seq<seq<Act>>, done: bool, d': Dag)
    requires Keyed(d) && SubTaskCompleted(d, id, logs, done, d')
    ensures d'.children == d.children
  {
    hide Released, Unblock, Unblocked, AllDone, AreReady, Keyed;
    UnblockIsExact(d, d.Subs(d.Parent(id)));
  }

  lemma CreateKeepsOthers(d: Dag, parent: TaskRec, plans: seq<Plan>, now: int, logs: seq<seq<Act>>, ok: bool, d': Dag, p: string)
    requires SubTasksCreated(d, parent, plans, now, logs, ok, d') && parent.id != p
    ensures d'.Subs(p) == d.Subs(p)
  {
    hide Released, NewSubs, SavedAll, Fitting, Stored, Ids, IdSet, Unblockeds;
    var n := Fitting(d.store, parent.id, 0, |plans|);
    NewSubsApart(parent, plans, now, n);
    SavingIsExact(d, parent.id, NewSubs(parent, plans, now, n));
  }

  lemma AcyclicStays(d: Dag, d': Dag, p: string, rank: map<string, nat>)
    requires Acyclic(d, p, rank) && Follows(d, d') && d'.Subs(p) == d.Subs(p) && Family(d)
    ensures Acyclic(d', p, rank)
  {
    forall id | id in d.Subs(p) ensures d.Lookup(id).Some? {
      assert id in d.parentOf;
    }
  }

  /** Step i reports a finished sub-task of p at a moment when nothing of the plan runs and none failed under a waiting one. */
  ghost predicate Round(r: DagRun, i: nat, p: string)
    requires IsDagRun(r) && i < |r.labels|
  {
    && r.labels[i].SubDone? && !r.labels[i].done && r.states[i].Parent(r.labels[i].id) == p
    && Rested(r.states[i], p) && Spared(r.states[i], p)
  }

  ghost function Rounds(r: DagRun, k: nat, p: string): nat
    requires IsDagRun(r) && k <= |r.labels|
  {
    if k == 0 then 0 else Rounds(r, k - 1, p) + if Round(r, k - 1, p) then 1 else 0
  }

  ghost predicate PlanStands(r: DagRun, k: nat, p: string)
    requires IsDagRun(r) && k <= |r.labels|
  {
    forall i :: 0 <= i < k ==> !(r.labels[i].Create? && r.labels[i].parent.id == p)
  }

  lemma {:induction false} PlanStaysAcyclic(r: DagRun, k: nat, p: string, rank: map<string, nat>)
    requires IsDagRun(r) && k <= |r.labels| && PlanStands(r, k, p) && Acyclic(r.states[0], p, rank)
    ensures Acyclic(r.states[k], p, rank) && r.states[k].Subs(p) == r.states[0].Subs(p)
  {
    hide Acyclic, DagNext, Follows;
    if k > 0 {
      PlanStaysAcyclic(r, k - 1, p, rank);
      DagRunKeeps(r, k - 1);
      DagStepKeeps(r.states[k - 1], r.labels[k - 1], r.states[k]);
      SubsStay(r.states[k - 1], r.labels[k - 1], r.states[k], p);
      AcyclicStays(r.states[k - 1], r.states[k], p, rank);
    }
  }

  lemma UnreleasedShrinks(d: Dag, d': Dag, p: string)
    requires Follows(d, d') && d'.Subs(p) == d.Subs(p)
    ensures Unreleased(d', p) <= Unreleased(d, p) && |Unreleased(d', p)| <= |Unreleased(d, p)|
    ensures (exists x :: x in Unreleased(d, p) && x in d'.sched.tasks) ==> |Unreleased(d', p)| < |Unreleased(d, p)|
  {
    FewerIn(Unreleased(d', p), Unreleased(d, p));
  }

  lemma FewerIn(a: set<string>, b: set<string>)
    requires a <= b
    ensures |a| <= |b| && (a != b ==> |a| < |b|)
  {
    assert b == a + (b - a);
  }

  /** A round releases a sub-task for good, so a plan needs no more rounds than it has sub-tasks waiting. */
  lemma {:induction false} RoundsAreBounded(r: DagRun, k: nat, p: string, rank: map<string, nat>)
    requires IsDagRun(r) && k <= |r.labels| && PlanStands(r, k, p) && Acyclic(r.states[0], p, rank) && p != ""
    ensures Rounds(r, k, p) + |Unreleased(r.states[k], p)| <= |Unreleased(r.states[0], p)|
  {
    hide Acyclic, DagNext, Follows, Rested, Spared, Unreleased, DagInv;
    if k > 0 {
      var d, l, d' := r.states[k - 1], r.labels[k - 1], r.states[k];
      RoundsAreBounded(r, k - 1, p, rank);
      PlanStaysAcyclic(r, k - 1, p, rank);
      DagRunKeeps(r, k - 1);
      DagStepKeeps(d, l, d');
      SubsStay(d, l, d', p);
      UnreleasedShrinks(d, d', p);
      if Round(r, k - 1, p) {
        RoundReleases(d, l, d', rank);
      }
    }
  }

  lemma RoundReleases(d: Dag, l: DagLabel, d': Dag, rank: map<string, nat>)
    requires DagInv(d) && DagNext(d, l, d') && l.SubDone? && !l.done && d.Parent(l.id) != ""
    requires Acyclic(d, d.Parent(l.id), rank) && Rested(d, d.Parent(l.id)) && Spared(d, d.Parent(l.id))
    ensures exists x :: x in Unreleased(d, d.Parent(l.id)) && x in d'.sched.tasks
  {
    ReportMakesProgress(d, l.id, l.logs, l.done, d', rank);
  }
}
