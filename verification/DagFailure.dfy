/**
 Failure in a plan: what a failure report does to the siblings, which sub-tasks it leaves
 stranded, and exactly when a plan with failures still ends.
 */
module DagFailure {
  import opened Tasks
  import opened DequeueOrder
  import opened SchedulerSpec
  import SI = SchedulerInvariant
  import opened DagSpec
  import opened DagSafety
  import opened DagProgress

  // ----- One report -----

  /** Siblings that depend on the failed task fail, and nothing else changes. */
  ghost predicate DependentsFailed(d: Dag, failed: string, ids: seq<string>, d': Dag) {
    var holds :=
      forall x :: d'.Lookup(x) ==
        if x in ids && Depends(d, failed, x) then Some(d.Lookup(x).value.(error := Some("dependency task " + failed + " failed")).Moved(Failed))
        else d.Lookup(x);
    holds
  }

  predicate Depends(d: Dag, failed: string, x: string) {
    x != failed && d.Lookup(x).Some? && failed in d.Lookup(x).value.deps
  }

  lemma {:induction false} FailAllIsExact(d: Dag, failed: string, ids: seq<string>)
    requires Keyed(d) && Distinct(ids)
    ensures DependentsFailed(d, failed, ids, FailAll(d, failed, ids))
    ensures (forall x :: x in ids && Depends(d, failed, x) ==> x !in d.sched.tasks) ==> FailAll(d, failed, ids).sched == d.sched
  {
    if ids != [] {
      var front, last := ids[..|ids| - 1], ids[|ids| - 1];
      assert ids == front + [last];
      FailAllIsExact(d, failed, front);
      FailAllFollows(d, failed, front);
      OneMoreFails(d, failed, front, FailAll(d, failed, front), last);
    }
  }

  lemma DependsAlike(d: Dag, m: Dag, failed: string, x: string)
    requires m.Lookup(x) == d.Lookup(x)
    ensures Depends(d, failed, x) ==> d.Lookup(x).Some?
    ensures Depends(d, failed, x) ==>
      FailOne(m, failed, x) == Written(m, m.Lookup(x).value.(error := Some(DependencyError(failed))).Moved(Failed))
    ensures !Depends(d, failed, x) ==> FailOne(m, failed, x) == m
  {
  }

  lemma OneMoreFails(d: Dag, failed: string, front: seq<string>, m: Dag, last: string)
    requires Keyed(d) && Keyed(m) && SameShape(d, m) && DependentsFailed(d, failed, front, m) && last !in front
    ensures DependentsFailed(d, failed, front + [last], FailOne(m, failed, last))
    ensures (last !in d.sched.tasks || !Depends(d, failed, last)) ==> FailOne(m, failed, last).sched == m.sched
  {
    hide Follows, Keyed, Depends;
    assert m.Lookup(last) == d.Lookup(last);
    DependsAlike(d, m, failed, last);
    if Depends(d, failed, last) {
      var rec := m.Lookup(last).value.(error := Some(DependencyError(failed))).Moved(Failed);
      LookupIsKeyed(m, last);
      WrittenFollows(m, rec);
    }
  }

  /** A failure report fails exactly the dependent siblings; none of them is released, so no running task is touched. */
  lemma FailureHitsOnlyWaiting(d: Dag, id: string)
    requires DagInv(d) && !d.Done(id) && d.Parent(id) != ""
    ensures DependentsFailed(d, id, d.Subs(d.Parent(id)), SubTaskFailed(d, id))
    ensures SubTaskFailed(d, id).sched == d.sched
  {
    hide Family, DependentsFailed;
    var ids := d.Subs(d.Parent(id));
    DistinctSubs(d, d.Parent(id));
    ChildrenAreSubs(d, d.Parent(id));
    FailAllIsExact(d, id, ids);
    forall x | x in ids && Depends(d, id, x) ensures x !in d.sched.tasks {
      assert !DepsDone(d, x);
    }
  }

  lemma ChildrenAreSubs(d: Dag, p: string)
    requires Family(d)
    ensures forall x :: x in d.Subs(p) ==> x in d.parentOf
  {
    if p in d.children {
      assert ChildrenOf(d, p);
    }
  }

  // ----- Sub-tasks only the store knows -----

  /** A sub-task of p that the scheduler has not seen. */
  ghost predicate ShelvedAs(d: Dag, id: string, p: string, status: Status, deps: seq<string>) {
    var holds :=
      && id in d.parentOf && d.parentOf[id] == p && id !in d.sched.tasks
      && id in d.store && d.store[id].status == status && d.store[id].deps == deps;
    holds
  }

  /** The step reports a failure of a sibling that the sub-task depends on. */
  ghost predicate FailsWith(d: Dag, l: DagLabel, id: string) {
    l.SubFailed? && d.Parent(l.failed) != "" && id in d.Subs(d.Parent(l.failed)) && Depends(d, l.failed, id)
  }

  function FailedFrom(status: Status): Status {
    if status.CanTransitionTo(Failed) then Failed else status
  }

  /** Such a sub-task stays as it is until it is released, which takes that it is ready, or until one it depends on is reported as failed. */
  lemma StaysShelved(d: Dag, l: DagLabel, d': Dag, id: string, p: string, status: Status, deps: seq<string>)
    requires DagInv(d) && DagClean(d, l) && DagNext(d, l, d') && ShelvedAs(d, id, p, status, deps)
    ensures id in d'.sched.tasks ==> d.Ready(id)
    ensures id !in d'.sched.tasks ==> ShelvedAs(d', id, p, if FailsWith(d, l, id) then FailedFrom(status) else status, deps)
  {
    hide Next, Released, Safe, Follows, SavedWell, AreReady, OnlyReadyMoved, Unblock, Unblocked, FailAll, SubTasksCreated, DependentsFailed, Carries;
    match l
    case Sched(l) => SchedKeepsShelved(d, l, d', id, p, status, deps);
    case SubFailed(failed) =>
      if d.Parent(failed) != "" { FailingShelved(d, failed, d.Subs(d.Parent(failed)), id, p, status, deps); }
    case SubDone(x, logs, done) => SubDoneKeepsShelved(d, x, logs, done, d', id, p, status, deps);
    case Create(parent, plans, now, logs, ok) => CreateKeepsShelved(d, parent, plans, now, logs, ok, d', id, p, status, deps);
  }

  lemma SchedKeepsShelved(d: Dag, l: Label, d': Dag, id: string, p: string, status: Status, deps: seq<string>)
    requires DagInv(d) && DagClean(d, Sched(l)) && DagNext(d, Sched(l), d') && ShelvedAs(d, id, p, status, deps)
    ensures ShelvedAs(d', id, p, status, deps)
  {
    hide Next, Safe, Family;
    NextCarries(d.sched, l, d'.sched);
  }

  lemma FailingShelved(d: Dag, failed: string, ids: seq<string>, id: string, p: string, status: Status, deps: seq<string>)
    requires DagInv(d) && ids == d.Subs(d.Parent(failed)) && ShelvedAs(d, id, p, status, deps)
    ensures ShelvedAs(FailAll(d, failed, ids), id, p, if id in ids && Depends(d, failed, id) then FailedFrom(status) else status, deps)
  {
    hide Follows, Safe, Family, Keyed;
    DistinctSubs(d, d.Parent(failed));
    FailAllIsExact(d, failed, ids);
    FailAllFollows(d, failed, ids);
    assert d.Lookup(id) == Some(d.store[id]);
    assert FailAll(d, failed, ids).Lookup(id) == Some(FailAll(d, failed, ids).store[id]);
  }

  lemma SubDoneKeepsShelved(d: Dag, x: string, logs: seq<seq<Act>>, done: bool, d': Dag, id: string, p: string, status: Status, deps: seq<string>)
    requires DagInv(d) && SubTaskCompleted(d, x, logs, done, d') && ShelvedAs(d, id, p, status, deps)
    ensures id in d'.sched.tasks ==> d.Ready(id)
    ensures id !in d'.sched.tasks ==> ShelvedAs(d', id, p, status, deps)
  {
    hide Released, Safe, Follows, AreReady, Unblock, Unblocked, Family;
    if d.Parent(x) != "" && AllDone(d, d.Parent(x)) == Some(false) {
      var ids := d.Subs(d.Parent(x));
      var m := Unblock(d, ids);
      UnblockIsExact(d, ids);
      ReleasedFollows(d, ids, m, Unblocked(d, ids), logs, d');
      assert !(id in ids && d.Ready(id)) ==> m.Lookup(id) == d.Lookup(id) == Some(d.store[id]);
    }
  }

  lemma SavedKeepsShelved(d: Dag, parent: string, subs: seq<TaskRec>, m: Dag, id: string, p: string, status: Status, deps: seq<string>)
    requires New(d, subs) && SavedWell(d, parent, subs, m) && ShelvedAs(d, id, p, status, deps)
    ensures ShelvedAs(m, id, p, status, deps) && id !in IdSet(subs)
  {
    assert id !in IdSet(subs);
  }

  lemma UpdateKeepsShelved(m: Dag, parent: TaskRec, subTasks: seq<string>, id: string, p: string, status: Status, deps: seq<string>)
    requires IsCurrent(m, parent) && ShelvedAs(m, id, p, status, deps)
    ensures ShelvedAs(Written(m, parent.(subTasks := subTasks)), id, p, status, deps)
  {
  }

  lemma CreateKeepsShelved(d: Dag, parent: TaskRec, plans: seq<Plan>, now: int, logs: seq<seq<Act>>, ok: bool, d': Dag, id: string, p: string, status: Status, deps: seq<string>)
    requires DagInv(d) && DagClean(d, Create(parent, plans, now, logs, ok))
    requires SubTasksCreated(d, parent, plans, now, logs, ok, d') && ShelvedAs(d, id, p, status, deps)
    ensures ShelvedAs(d', id, p, status, deps)
  {
    hide Released, Follows, Safe, Keyed, Family, SavedWell, IsCurrent, Apart, New, SI.QueueSound, SettlesNone, IdSet, Written, Stored, ShelvedAs;
    var n := Fitting(d.store, parent.id, 0, |plans|);
    var subs := NewSubs(parent, plans, now, n);
    var m := SavedAll(d, parent.id, subs);
    SavedKeeps(d, parent, plans, now, n);
    SavedKeepsShelved(d, parent.id, subs, m, id, p, status, deps);
    OnlyTheseAdded(d, parent.id, subs, m);
    if plans != [] && n == |plans| {
      NewSubsApart(parent, plans, now, n);
      ParentUpdated(m, parent, subs);
      UpdateKeepsShelved(m, parent, Ids(subs), id, p, status, deps);
      SubmitsKeepShelved(d, parent, subs, Written(m, parent.(subTasks := Ids(subs))), logs, d', id, p, status, deps);
    }
  }

  lemma SubmitsKeepShelved(d: Dag, parent: TaskRec, subs: seq<TaskRec>, w: Dag, logs: seq<seq<Act>>, d': Dag, id: string, p: string, status: Status, deps: seq<string>)
    requires New(d, subs) && Keyed(w) && Apart(subs) && w.sched.tasks.Keys == d.sched.tasks.Keys
    requires forall k :: 0 <= k < |subs| ==> w.Lookup(subs[k].id) == Some(subs[k]) && Fresh(subs[k])
    requires d' == w.(sched := d'.sched) && Released(w.sched, Unblockeds(subs), logs, d'.sched)
    requires id !in IdSet(subs) && ShelvedAs(w, id, p, status, deps)
    ensures ShelvedAs(d', id, p, status, deps)
  {
    hide Released, Follows;
    ReleasedAtOnce(w, subs, logs, d');
  }

  // ----- Stranded -----

  ghost predicate Shelved(d: Dag, id: string, status: Status) {
    var holds :=
      id in d.parentOf && id !in d.sched.tasks && id in d.store && d.store[id].status == status;
    holds
  }

  /** Failed before it was released, or blocked under one that is stranded, within n steps. */
  ghost predicate StrandedIn(d: Dag, id: string, n: nat)
    decreases n
  {
    || Shelved(d, id, Failed)
    || (n > 0 && Shelved(d, id, Blocked) && exists dep :: dep in d.store[id].deps && StrandedIn(d, dep, n - 1))
  }

  ghost predicate Stranded(d: Dag, id: string) {
    exists n: nat :: StrandedIn(d, id, n)
  }

  lemma StrandedIsNotDone(d: Dag, id: string, n: nat)
    requires StrandedIn(d, id, n)
    ensures id in d.parentOf && id !in d.sched.tasks && id in d.store && !d.Done(id)
    ensures d.store[id].status.Failed? || d.store[id].status.Blocked?
    ensures n > 0 && d.store[id].status.Blocked? ==> !d.Ready(id)
  {
    if !Shelved(d, id, Failed) {
      var dep :| dep in d.store[id].deps && StrandedIn(d, dep, n - 1);
      assert !d.Done(dep);
    }
  }

  lemma {:induction false} StrandedStays(d: Dag, l: DagLabel, d': Dag, id: string, n: nat)
    requires DagInv(d) && DagClean(d, l) && DagNext(d, l, d') && StrandedIn(d, id, n)
    ensures StrandedIn(d', id, n)
    ensures Shelved(d, id, Blocked) && !FailsWith(d, l, id) ==> Shelved(d', id, Blocked)
    ensures id in d'.parentOf && d'.parentOf[id] == d.parentOf[id]
    decreases n
  {
    hide DagInv, DagClean, DagNext, FailsWith;
    StrandedIsNotDone(d, id, n);
    var t := d.store[id];
    StaysShelved(d, l, d', id, d.parentOf[id], t.status, t.deps);
    if t.status.Blocked? {
      var dep :| dep in t.deps && StrandedIn(d, dep, n - 1);
      StrandedStays(d, l, d', dep, n - 1);
    }
  }

  /** Once stranded, a sub-task is never released and never Completed, and nothing that depends on it is released either. */
  lemma {:induction false} FailureStrands(r: DagRun, i: nat, k: nat, id: string)
    requires IsDagRun(r) && i <= k < |r.states| && Stranded(r.states[i], id)
    ensures Stranded(r.states[k], id) && id !in r.states[k].sched.tasks && !r.states[k].Done(id)
    ensures forall w :: w in r.states[k].parentOf && r.states[k].Lookup(w).Some? && id in r.states[k].Lookup(w).value.deps ==>
      w !in r.states[k].sched.tasks
  {
    hide DagInv, DagNext, DagClean, StrandedIn;
    if i < k {
      FailureStrands(r, i, k - 1, id);
      DagRunKeeps(r, k - 1);
      var n: nat :| StrandedIn(r.states[k - 1], id, n);
      StrandedStays(r.states[k - 1], r.labels[k - 1], r.states[k], id, n);
    }
    var d := r.states[k];
    var n: nat :| StrandedIn(d, id, n);
    StrandedIsNotDone(d, id, n);
    DagRunKeeps(r, k);
    forall w | w in d.parentOf && d.Lookup(w).Some? && id in d.Lookup(w).value.deps ensures w !in d.sched.tasks {
      NotReleased(d, id, w);
    }
  }

  lemma NotReleased(d: Dag, id: string, w: string)
    requires DagInv(d) && !d.Done(id) && w in d.parentOf && d.Lookup(w).Some? && id in d.Lookup(w).value.deps
    ensures w !in d.sched.tasks
  {
    assert !DepsDone(d, w);
  }

  /** A stranded sub-task that is still blocked keeps its plan from ever being found done, unless a failure of one it depends on itself is reported. */
  lemma {:induction false} StrandedHoldsPlan(r: DagRun, i: nat, k: nat, id: string, p: string)
    requires IsDagRun(r) && i <= k < |r.states| && id in r.states[i].Subs(p)
    requires Shelved(r.states[i], id, Blocked) && Stranded(r.states[i], id)
    requires forall m :: i <= m < k ==> !FailsWith(r.states[m], r.labels[m], id)
    ensures Shelved(r.states[k], id, Blocked) && Stranded(r.states[k], id) && id in r.states[k].Subs(p)
    ensures AllDone(r.states[k], p) != Some(true)
  {
    hide DagInv, DagNext, DagClean, StrandedIn, FailsWith;
    DagRunKeeps(r, k);
    if i < k {
      StrandedHoldsPlan(r, i, k - 1, id, p);
      var d, d' := r.states[k - 1], r.states[k];
      DagRunKeeps(r, k - 1);
      var n: nat :| StrandedIn(d, id, n);
      StrandedStays(d, r.labels[k - 1], d', id, n);
      SubsAndParents(d, p, id);
      SubsAndParents(d', p, id);
    }
    BlockedHoldsPlan(r.states[k], id, p);
  }

  lemma SubsAndParents(d: Dag, p: string, id: string)
    requires DagInv(d)
    ensures id in d.Subs(p) <==> id in d.parentOf && d.parentOf[id] == p
  {
    if p in d.children {
      assert ChildrenOf(d, p);
    }
  }

  lemma BlockedHoldsPlan(d: Dag, id: string, p: string)
    requires id in d.Subs(p) && Shelved(d, id, Blocked)
    ensures AllDone(d, p) != Some(true)
  {
    AllDoneIff(d, p);
    assert !Finished(d, id);
  }

  // ----- When a plan with failures ends -----

  /** Every failure of a released sub-task was reported: no waiting one depends on it any more. */
  ghost predicate Reported(d: Dag, p: string) {
    forall id, dep :: id in d.Subs(p) && !Finished(d, id) && d.Lookup(id).Some? && dep in d.Lookup(id).value.deps ==>
      d.Done(dep) || !Finished(d, dep) || Shelved(d, dep, Failed)
  }

  ghost predicate NoneReady(d: Dag, p: string) {
    forall id :: id in d.Subs(p) ==> !d.Ready(id)
  }

  /** Nothing of the plan runs or can be released, and all failures are reported. */
  ghost predicate WorkedOff(d: Dag, p: string) {
    Rested(d, p) && Reported(d, p) && NoneReady(d, p)
  }

  /** Some sub-task of p is blocked under a stranded one. */
  ghost predicate HasStranded(d: Dag, p: string) {
    exists id :: id in d.Subs(p) && Shelved(d, id, Blocked) && Stranded(d, id)
  }

  lemma {:induction false} WaitingIsStranded(d: Dag, p: string, rank: map<string, nat>, id: string) returns (n: nat)
    requires DagInv(d) && Acyclic(d, p, rank) && WorkedOff(d, p) && id in d.Subs(p) && !Finished(d, id)
    ensures Shelved(d, id, Blocked) && StrandedIn(d, id, n)
    decreases if id in rank then rank[id] else 0
  {
    hide DagInv;
    SubsAndParents(d, p, id);
    StoredSubs(d, p, id);
    var dep :| dep in d.store[id].deps && !d.Done(dep);
    if Finished(d, dep) {
      assert Shelved(d, dep, Failed);
      n := 1;
      assert StrandedIn(d, dep, n - 1);
    } else {
      var k := WaitingIsStranded(d, p, rank, dep);
      n := k + 1;
      assert StrandedIn(d, dep, n - 1);
    }
  }

  lemma StoredSubs(d: Dag, p: string, id: string)
    requires DagInv(d) && id in d.Subs(p)
    ensures id in d.parentOf && id in d.store
  {
    SubsAndParents(d, p, id);
  }

  /** When a plan is worked off, it is done exactly if no sub-task is left blocked under a stranded one. */
  lemma PlanEndsIff(d: Dag, p: string, rank: map<string, nat>)
    requires DagInv(d) && Acyclic(d, p, rank) && WorkedOff(d, p) && d.Subs(p) != []
    ensures AllDone(d, p) == Some(true) <==> !HasStranded(d, p)
  {
    hide DagInv, WorkedOff, Acyclic, StrandedIn;
    AllDoneIff(d, p);
    if id :| id in d.Subs(p) && !Finished(d, id) {
      var n := WaitingIsStranded(d, p, rank, id);
      assert Stranded(d, id);
    }
  }

  /** A report on a plan whose released sub-tasks have ended, with all failures reported, finds it done, releases more, or leaves it to stranded ones. */
  lemma ReportOutcome(d: Dag, id: string, logs: seq<seq<Act>>, done: bool, d': Dag, rank: map<string, nat>)
    requires DagInv(d) && SubTaskCompleted(d, id, logs, done, d') && d.Parent(id) != ""
    requires Acyclic(d, d.Parent(id), rank) && Rested(d, d.Parent(id)) && Reported(d, d.Parent(id))
    ensures (exists x :: x in Unreleased(d, d.Parent(id)) && x in d'.sched.tasks) <==> !NoneReady(d, d.Parent(id))
    ensures NoneReady(d, d.Parent(id)) ==> (done <==> !HasStranded(d, d.Parent(id)))
    ensures !NoneReady(d, d.Parent(id)) ==> !done
  {
    hide DagInv, Released, Reported, Acyclic, HasStranded, Unblock, Unblocked, AreReady, Follows;
    var p, ids := d.Parent(id), d.Subs(d.Parent(id));
    InvParts(d);
    HasSubs(d, id);
    AllDoneIff(d, p);
    RestedIsFound(d, ids);
    if NoneReady(d, p) {
      PlanEndsIff(d, p, rank);
    }
    if AllDone(d, p) == Some(false) {
      UnblockIsExact(d, ids);
      ReleasedFollows(d, ids, Unblock(d, ids), Unblocked(d, ids), logs, d');
      if x :| x in ids && d.Ready(x) {
        assert x in Unreleased(d, p);
      }
    }
  }

  lemma InvParts(d: Dag)
    requires DagInv(d)
    ensures Keyed(d) && Family(d) && Safe(d)
  {
  }

  // ----- Over a run -----

  /** The step neither adds to plan p nor reports a failure in it. */
  predicate Undisturbed(d: Dag, l: DagLabel, p: string) {
    !(l.Create? && l.parent.id == p) && !(l.SubFailed? && d.Parent(l.failed) == p)
  }

  lemma UndisturbedFailsNone(d: Dag, l: DagLabel, p: string, id: string)
    requires DagInv(d) && Undisturbed(d, l, p) && id in d.Subs(p)
    ensures !FailsWith(d, l, id)
  {
    hide DagInv;
    SubsAndParents(d, p, id);
    if l.SubFailed? {
      SubsAndParents(d, d.Parent(l.failed), id);
    }
  }

  /** What is stranded after an undisturbed step was stranded before it. */
  lemma {:induction false} StrandedBefore(d: Dag, l: DagLabel, d': Dag, p: string, rank: map<string, nat>, id: string, n: nat)
    requires DagInv(d) && DagClean(d, l) && DagNext(d, l, d') && Undisturbed(d, l, p) && Acyclic(d, p, rank)
    requires id in d.Subs(p) && StrandedIn(d', id, n)
    ensures StrandedIn(d, id, n) && (Shelved(d', id, Blocked) ==> Shelved(d, id, Blocked))
    decreases n
  {
    hide DagInv, DagClean, DagNext, FailsWith, Follows;
    SubsAndParents(d, p, id);
    StoredSubs(d, p, id);
    UndisturbedFailsNone(d, l, p, id);
    DagStepKeeps(d, l, d');
    StrandedIsNotDone(d', id, n);
    NotReleasedYet(d, d', id);
    var t := d.store[id];
    StaysShelved(d, l, d', id, p, t.status, t.deps);
    if t.status.Blocked? {
      var dep :| dep in d'.store[id].deps && StrandedIn(d', dep, n - 1);
      assert d.Lookup(id) == Some(t);
      StrandedBefore(d, l, d', p, rank, dep, n - 1);
    }
  }

  lemma NotReleasedYet(d: Dag, d': Dag, id: string)
    requires Follows(d, d') && id !in d'.sched.tasks
    ensures id !in d.sched.tasks
  {
  }

  ghost predicate UndisturbedRun(r: DagRun, i: nat, k: nat, p: string)
    requires i <= k < |r.states| && |r.states| == |r.labels| + 1
  {
    forall m :: i <= m < k ==> Undisturbed(r.states[m], r.labels[m], p)
  }

  lemma {:induction false} StrandedFromStart(r: DagRun, i: nat, k: nat, p: string, rank: map<string, nat>, id: string)
    requires IsDagRun(r) && i <= k < |r.states| && UndisturbedRun(r, i, k, p) && Acyclic(r.states[i], p, rank)
    ensures Acyclic(r.states[k], p, rank) && r.states[k].Subs(p) == r.states[i].Subs(p)
    ensures id in r.states[k].Subs(p) && Shelved(r.states[k], id, Blocked) && Stranded(r.states[k], id) ==>
      Shelved(r.states[i], id, Blocked) && Stranded(r.states[i], id)
    decreases k
  {
    hide DagInv, DagNext, DagClean, StrandedIn, Acyclic, Follows, Shelved, Undisturbed;
    if i < k {
      var d, l, d' := r.states[k - 1], r.labels[k - 1], r.states[k];
      StrandedFromStart(r, i, k - 1, p, rank, id);
      DagRunKeeps(r, k - 1);
      InvParts(d);
      DagStepKeeps(d, l, d');
      UndisturbedSubs(d, l, d', p);
      AcyclicStays(d, d', p, rank);
      if id in d'.Subs(p) && Shelved(d', id, Blocked) && Stranded(d', id) {
        var n: nat :| StrandedIn(d', id, n);
        StrandedBefore(d, l, d', p, rank, id, n);
      }
    }
  }

  lemma UndisturbedSubs(d: Dag, l: DagLabel, d': Dag, p: string)
    requires DagInv(d) && DagNext(d, l, d') && Undisturbed(d, l, p)
    ensures d'.Subs(p) == d.Subs(p)
  {
    SubsStay(d, l, d', p);
  }

  /**
   Once the failures in a plan are reported, whatever else happens: when the plan is
   worked off, it is done exactly if no sub-task was left blocked under a stranded one by
   those reports.
   */
  lemma PlanEndsInRunIff(r: DagRun, i: nat, k: nat, p: string, rank: map<string, nat>)
    requires IsDagRun(r) && i <= k < |r.states| && UndisturbedRun(r, i, k, p)
    requires Acyclic(r.states[i], p, rank) && r.states[i].Subs(p) != [] && WorkedOff(r.states[k], p)
    ensures AllDone(r.states[k], p) == Some(true) <==> !HasStranded(r.states[i], p)
  {
    hide DagInv, DagNext, DagClean, Acyclic, WorkedOff, StrandedIn, Shelved, FailsWith, Undisturbed;
    DagRunKeeps(r, k);
    StrandedFromStart(r, i, k, p, rank, "");
    PlanEndsIff(r.states[k], p, rank);
    if HasStranded(r.states[i], p) {
      var id :| id in r.states[i].Subs(p) && Shelved(r.states[i], id, Blocked) && Stranded(r.states[i], id);
      forall m | i <= m < k ensures !FailsWith(r.states[m], r.labels[m], id) {
        DagRunKeeps(r, m);
        StrandedFromStart(r, i, m, p, rank, id);
        UndisturbedFailsNone(r.states[m], r.labels[m], p, id);
      }
      StrandedHoldsPlan(r, i, k, id, p);
    }
    if HasStranded(r.states[k], p) {
      var id :| id in r.states[k].Subs(p) && Shelved(r.states[k], id, Blocked) && Stranded(r.states[k], id);
      StrandedFromStart(r, i, k, p, rank, id);
    }
  }

  // ----- What one failure strands -----

  /** A waiting sub-task depends on the failed one, directly or through other waiting ones. */
  ghost predicate Under(d: Dag, failed: string, id: string, n: nat)
    decreases n
  {
    && Shelved(d, id, Blocked)
    && (failed in d.store[id].deps || (n > 0 && exists dep :: dep in d.store[id].deps && Under(d, failed, dep, n - 1)))
  }

  /** The sub-tasks the scheduler has not seen wait or have ended. */
  ghost predicate AllWait(d: Dag, p: string) {
    forall id :: id in d.Subs(p) && id !in d.sched.tasks ==> Finished(d, id) || Shelved(d, id, Blocked)
  }

  ghost predicate SiblingDeps(d: Dag, p: string) {
    forall id, dep :: id in d.Subs(p) && d.Lookup(id).Some? && dep in d.Lookup(id).value.deps ==> dep in d.Subs(p)
  }

  /** What a report does to one waiting sub-task: it fails if it depends on the failed one, and keeps its dependencies. */
  ghost predicate ReportedTo(d: Dag, failed: string, id: string, d': Dag) {
    var told :=
      && id in d.store && Shelved(d, id, d.store[id].status) && d'.sched.tasks.Keys == d.sched.tasks.Keys
      && id in d'.store && d'.store[id].deps == d.store[id].deps
      && Shelved(d', id, if failed in d.store[id].deps then FailedFrom(d.store[id].status) else d.store[id].status);
    told
  }

  lemma ReportOn(d: Dag, failed: string, id: string)
    requires DagInv(d) && d.Parent(failed) != "" && id in d.Subs(d.Parent(failed)) && id != failed && id !in d.sched.tasks
    ensures ReportedTo(d, failed, id, SubTaskFailed(d, failed))
  {
    hide DagInv, FailAll;
    var p := d.Parent(failed);
    InvParts(d);
    SubsAndParents(d, p, id);
    StoredSubs(d, p, id);
    FailAllFollows(d, failed, d.Subs(p));
    var t := d.store[id];
    FailingShelved(d, failed, d.Subs(p), id, p, t.status, t.deps);
  }

  lemma {:induction false} UnderIsStranded(d: Dag, failed: string, id: string, n: nat)
    requires DagInv(d) && d.Parent(failed) != "" && failed in d.sched.tasks && id in d.Subs(d.Parent(failed))
    requires AllWait(d, d.Parent(failed)) && SiblingDeps(d, d.Parent(failed)) && Under(d, failed, id, n)
    ensures StrandedIn(SubTaskFailed(d, failed), id, n)
    decreases n
  {
    hide DagInv, AllWait, SubTaskFailed;
    ReportOn(d, failed, id);
    if failed !in d.store[id].deps {
      var dep :| dep in d.store[id].deps && Under(d, failed, dep, n - 1);
      assert d.Lookup(id) == Some(d.store[id]);
      UnderIsStranded(d, failed, dep, n - 1);
    }
  }

  lemma {:induction false} StrandedIsUnder(d: Dag, failed: string, id: string, n: nat)
    requires DagInv(d) && d.Parent(failed) != "" && failed in d.sched.tasks && id in d.Subs(d.Parent(failed))
    requires AllWait(d, d.Parent(failed)) && SiblingDeps(d, d.Parent(failed))
    requires (forall x :: x in d.Subs(d.Parent(failed)) ==> !Shelved(d, x, Failed)) && StrandedIn(SubTaskFailed(d, failed), id, n)
    ensures Under(d, failed, id, n)
    decreases n
  {
    hide DagInv, SubTaskFailed;
    var d' := SubTaskFailed(d, failed);
    StrandedIsNotDone(d', id, n);
    SameFiled(d, failed);
    ReportOn(d, failed, id);
    assert d.Lookup(id) == Some(d.store[id]);
    if failed !in d.store[id].deps {
      var dep :| dep in d'.store[id].deps && StrandedIn(d', dep, n - 1);
      StrandedIsUnder(d, failed, dep, n - 1);
    }
  }

  lemma SameFiled(d: Dag, failed: string)
    requires DagInv(d)
    ensures SubTaskFailed(d, failed).sched.tasks.Keys == d.sched.tasks.Keys
  {
    hide DagInv, Follows, FailAll;
    InvParts(d);
    FailAllFollows(d, failed, d.Subs(d.Parent(failed)));
  }

  /**
   The first failure reported in a plan strands exactly the waiting sub-tasks under the
   failed one: those that depend on it directly fail with it, those further down stay
   blocked.
   */
  lemma FailureStrandsIff(d: Dag, failed: string, id: string)
    requires DagInv(d) && d.Parent(failed) != "" && failed in d.sched.tasks && id in d.Subs(d.Parent(failed))
    requires AllWait(d, d.Parent(failed)) && SiblingDeps(d, d.Parent(failed))
    requires forall x :: x in d.Subs(d.Parent(failed)) ==> !Shelved(d, x, Failed)
    ensures var d' := SubTaskFailed(d, failed);
      && (Stranded(d', id) <==> exists n: nat :: Under(d, failed, id, n))
      && (Stranded(d', id) && failed in d.store[id].deps ==> Shelved(d', id, Failed))
      && (Stranded(d', id) && failed !in d.store[id].deps ==> Shelved(d', id, Blocked))
  {
    hide DagInv, AllWait, SiblingDeps, SubTaskFailed, StrandedIn;
    var d' := SubTaskFailed(d, failed);
    if n: nat :| Under(d, failed, id, n) {
      UnderIsStranded(d, failed, id, n);
    }
    if Stranded(d', id) {
      var n: nat :| StrandedIn(d', id, n);
      StrandedIsUnder(d, failed, id, n);
      ReportOn(d, failed, id);
    }
  }
}
