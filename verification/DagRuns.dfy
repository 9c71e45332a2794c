/**
 The scheduler under the DAG engine: what the engine releases are clean submissions, so
 the queue stays sound in every run of both, and the books stay right in clean ones.
 */
module DagRuns {
  import opened Tasks
  import opened DequeueOrder
  import opened SchedulerSpec
  import SI = SchedulerInvariant
  import opened SchedulerRuns
  import opened DagSpec
  import opened DagSafety
  import opened DagFailure
  import opened StuckTasks
  import DispatchTheorems

  // ----- Releases -----

  /** None of the tasks waits. */
  ghost predicate NoneWaits(s: State, recs: seq<TaskRec>) {
    var holds :=
      forall k :: 0 <= k < |recs| ==> recs[k].id !in TicketIds(s.queue);
    holds
  }

  ghost predicate AllSlotless(s: State, recs: seq<TaskRec>) {
    var holds :=
      forall k :: 0 <= k < |recs| ==> Slotless(s, recs[k]);
    holds
  }

  /** The tasks still to be released are as they were after the first was submitted. */
  lemma RestAsBefore(s: State, recs: seq<TaskRec>, log: seq<Act>, m: State)
    requires recs != [] && Apart(recs) && NoneWaits(s, recs) && Submitted(s, recs[0], log, m)
    ensures Apart(recs[1..]) && NoneWaits(m, recs[1..])
    ensures AllSlotless(s, recs) ==> AllSlotless(m, recs[1..])
  {
    hide Submitted;
    SI.SubmitSpares(s, recs[0], log, m);
    forall k | 0 <= k < |recs[1..]|
      ensures recs[1..][k].id !in TicketIds(m.queue) && (AllSlotless(s, recs) ==> Slotless(m, recs[1..][k]))
    {
      assert recs[1..][k] == recs[k + 1] && recs[k + 1].id != recs[0].id;
    }
  }

  lemma {:induction false} ReleasedKeepsQueue(s: State, recs: seq<TaskRec>, logs: seq<seq<Act>>, s': State)
    requires SI.QueueSound(s) && Released(s, recs, logs, s') && Apart(recs) && NoneWaits(s, recs)
    ensures SI.QueueSound(s')
    decreases |recs|
  {
    hide SI.QueueSound, Submitted, NoneWaits;
    if recs != [] {
      var m :| Submitted(s, recs[0], logs[0], m) && Released(m, recs[1..], logs[1..], s');
      FirstWaitsNot(s, recs);
      SubmitKeepsQueue(s, recs[0], logs[0], m);
      RestAsBefore(s, recs, logs[0], m);
      ReleasedKeepsQueue(m, recs[1..], logs[1..], s');
    }
  }

  lemma FirstWaitsNot(s: State, recs: seq<TaskRec>)
    requires recs != [] && NoneWaits(s, recs)
    ensures recs[0].id !in TicketIds(s.queue)
    ensures AllSlotless(s, recs) ==> Slotless(s, recs[0])
  {
  }

  lemma {:induction false} ReleasedKeepsBooks(s: State, recs: seq<TaskRec>, logs: seq<seq<Act>>, s': State)
    requires SI.Inv(s) && Released(s, recs, logs, s') && Apart(recs) && NoneWaits(s, recs) && AllSlotless(s, recs)
    ensures SI.Books(s')
    decreases |recs|
  {
    hide SI.Books, SI.QueueSound, Submitted, NoneWaits, AllSlotless;
    if recs != [] {
      var m :| Submitted(s, recs[0], logs[0], m) && Released(m, recs[1..], logs[1..], s');
      FirstWaitsNot(s, recs);
      SubmitKeepsQueue(s, recs[0], logs[0], m);
      SubmitKeepsBooks(s, recs[0], logs[0], m);
      RestAsBefore(s, recs, logs[0], m);
      ReleasedKeepsBooks(m, recs[1..], logs[1..], s');
    }
  }

  lemma {:induction false} ReleasedKeepsConfig(s: State, recs: seq<TaskRec>, logs: seq<seq<Act>>, s': State)
    requires Released(s, recs, logs, s')
    ensures s'.cfg == s.cfg
    decreases |recs|
  {
    hide Submitted;
    if recs != [] {
      var m :| Submitted(s, recs[0], logs[0], m) && Released(m, recs[1..], logs[1..], s');
      SI.SubmitSpares(s, recs[0], logs[0], m);
      ReleasedKeepsConfig(m, recs[1..], logs[1..], s');
    }
  }

  // ----- The queue in every run -----

  /** A found task is written back with its priority, and without beginning to run or to block. */
  lemma WrittenKeepsQueue(d: Dag, rec: TaskRec)
    requires SI.QueueSound(d.sched)
    requires rec.id in d.sched.tasks ==>
      rec.priority == d.sched.tasks[rec.id].priority && (SI.MayWait(d.sched.tasks[rec.id].status) ==> SI.MayWait(rec.status))
    ensures SI.QueueSound(Written(d, rec).sched)
  {
    hide SI.QueueSound;
    SI.QueuedMayWait(d.sched);
    if rec.id in d.sched.tasks {
      TasksOnly(d.sched, rec.id, rec);
    }
  }

  lemma {:induction false} FailAllKeepsQueue(d: Dag, failed: string, ids: seq<string>)
    requires SI.QueueSound(d.sched) && Keyed(d)
    ensures SI.QueueSound(FailAll(d, failed, ids).sched)
  {
    hide SI.QueueSound, Keyed, Follows;
    if ids != [] {
      var m, last := FailAll(d, failed, ids[..|ids| - 1]), ids[|ids| - 1];
      FailAllKeepsQueue(d, failed, ids[..|ids| - 1]);
      FailAllFollows(d, failed, ids[..|ids| - 1]);
      if FailOne(m, failed, last) != m {
        LookupIsKeyed(m, last);
        WrittenKeepsQueue(m, m.Lookup(last).value.(error := Some(DependencyError(failed))).Moved(Failed));
      }
    }
  }

  /** Blocked tasks do not wait, so checkUnblock changes no queued task, and what it releases is fresh. */
  lemma UnblockKeepsQueue(d: Dag, ids: seq<string>, m: Dag, recs: seq<TaskRec>)
    requires SI.QueueSound(d.sched) && OnlyReadyMoved(d, ids, m) && AreReady(d, ids, recs)
    ensures SI.QueueSound(m.sched) && NoneWaits(m.sched, recs) && Apart(recs)
  {
    SI.QueuedMayWait(d.sched);
    forall i | 0 <= i < |m.sched.queue| ensures SI.Queueable(m.sched, m.sched.queue[i]) {
      var t := d.sched.queue[i];
      assert SI.Queueable(d.sched, t) && !d.Ready(t.id);
      assert m.Lookup(t.id) == d.Lookup(t.id);
    }
    forall k | 0 <= k < |recs| ensures recs[k].id !in TicketIds(m.sched.queue) {
      assert d.Ready(recs[k].id);
    }
  }

  lemma NewWaitNot(s: State, recs: seq<TaskRec>)
    requires SI.QueueSound(s) && forall k :: 0 <= k < |recs| ==> recs[k].id !in s.tasks
    ensures NoneWaits(s, recs)
  {
    hide SI.QueueSound;
    SI.QueuedMayWait(s);
  }

  /** New sub-tasks occupy no slot, and the scheduler has not seen them. */
  lemma NewSubsAre(d: Dag, parent: TaskRec, plans: seq<Plan>, now: int, n: nat)
    requires n <= |plans| && New(d, NewSubs(parent, plans, now, n))
    ensures forall t :: t in NewSubs(parent, plans, now, n) ==>
      t.escalations == 0 && !t.HoldsSlot() && !Settled(t.status) && t.id !in d.sched.tasks
  {
    var subs := NewSubs(parent, plans, now, n);
    forall t | t in subs ensures t.escalations == 0 && !t.HoldsSlot() && !Settled(t.status) && t.id !in d.sched.tasks {
      var k :| 0 <= k < |subs| && subs[k] == t;
      assert t == NewSub(parent, k + 1, plans[k], now);
    }
  }

  /** What CreateSubTasks saves, and what it then submits. */
  lemma CreationReleases(d: Dag, parent: TaskRec, plans: seq<Plan>, now: int, n: nat)
    requires DagInv(d) && DagClean(d, Create(parent, plans, now, [], true)) && n == Fitting(d.store, parent.id, 0, |plans|)
    ensures var subs := NewSubs(parent, plans, now, n);
      var w := Written(SavedAll(d, parent.id, subs), parent.(subTasks := Ids(subs)));
      && SavedAll(d, parent.id, subs).sched == d.sched && Apart(Unblockeds(subs))
      && w.sched.tasks.Keys == d.sched.tasks.Keys
      && forall t :: t in Unblockeds(subs) ==> t.escalations == 0 && !t.HoldsSlot() && !Settled(t.status) && t.id !in w.sched.tasks
  {
    hide DagInv, SavedWell, IsCurrent, Apart, Follows, NewSubs, New, SavedAll, Unblockeds, IdSet, Ids;
    var subs := NewSubs(parent, plans, now, n);
    NewSubsApart(parent, plans, now, n);
    SavedKeeps(d, parent, plans, now, n);
    OnlyTheseAdded(d, parent.id, subs, SavedAll(d, parent.id, subs));
    UnblockedsAre(subs);
    NewSubsAre(d, parent, plans, now, n);
  }

  lemma CreateKeepsQueue(d: Dag, parent: TaskRec, plans: seq<Plan>, now: int, logs: seq<seq<Act>>, ok: bool, d': Dag)
    requires DagInv(d) && SI.QueueSound(d.sched) && DagClean(d, Create(parent, plans, now, logs, ok))
    requires SubTasksCreated(d, parent, plans, now, logs, ok, d')
    ensures SI.QueueSound(d'.sched)
  {
    hide DagInv, SI.QueueSound, NewSubs, SavedAll, Unblockeds, Released, Ids, Written;
    var n := Fitting(d.store, parent.id, 0, |plans|);
    var subs := NewSubs(parent, plans, now, n);
    var saved := SavedAll(d, parent.id, subs);
    CreationReleases(d, parent, plans, now, n);
    if plans != [] && n == |plans| {
      var w := Written(saved, parent.(subTasks := Ids(subs)));
      ParentIsLive(d, saved, parent);
      WrittenKeepsQueue(saved, parent.(subTasks := Ids(subs)));
      NewWaitNot(w.sched, Unblockeds(subs));
      ReleasedKeepsQueue(w.sched, Unblockeds(subs), logs, d'.sched);
    }
  }

  lemma ParentIsLive(d: Dag, m: Dag, parent: TaskRec)
    requires IsCurrent(d, parent) && m.sched == d.sched
    ensures parent.id in m.sched.tasks ==> m.sched.tasks[parent.id] == parent
  {
  }

  /** No step of the engine or of the scheduler spoils the queue. */
  lemma DagStepKeepsQueue(d: Dag, l: DagLabel, d': Dag)
    requires DagInv(d) && SI.QueueSound(d.sched) && DagClean(d, l) && DagNext(d, l, d')
    requires l.Sched? ==> FreshId(d.sched, l.l)
    ensures SI.QueueSound(d'.sched)
  {
    hide SI.QueueSound, Family, Safe, Next, Released, OnlyReadyMoved, AreReady, Unblock, Unblocked, AllDone;
    match l
    case Sched(l) => StepKeepsQueue(d.sched, l, d'.sched);
    case Create(parent, plans, now, logs, ok) => CreateKeepsQueue(d, parent, plans, now, logs, ok, d');
    case SubFailed(id) => FailAllKeepsQueue(d, id, d.Subs(d.Parent(id)));
    case SubDone(id, logs, done) => SubDoneKeepsQueue(d, id, logs, done, d');
  }

  lemma SubDoneKeepsQueue(d: Dag, id: string, logs: seq<seq<Act>>, done: bool, d': Dag)
    requires Keyed(d) && SI.QueueSound(d.sched) && SubTaskCompleted(d, id, logs, done, d')
    ensures SI.QueueSound(d'.sched)
  {
    hide SI.QueueSound, Released, OnlyReadyMoved, AreReady, Unblock, Unblocked, AllDone;
    var p := d.Parent(id);
    if p != "" && AllDone(d, p) == Some(false) {
      var ids := d.Subs(p);
      UnblockIsExact(d, ids);
      UnblockKeepsQueue(d, ids, Unblock(d, ids), Unblocked(d, ids));
      ReleasedKeepsQueue(Unblock(d, ids).sched, Unblocked(d, ids), logs, d'.sched);
    } else if p != "" && AllDone(d, p) == Some(true) && p in d.sched.tasks {
      WrittenKeepsQueue(d, d.sched.tasks[p].Moved(Aggregating));
    }
  }

  ghost predicate FreshDagRun(r: DagRun) {
    var holds :=
      && IsDagRun(r) && SI.QueueSound(r.states[0].sched)
      && forall i :: 0 <= i < |r.labels| && r.labels[i].Sched? ==> FreshId(r.states[i].sched, r.labels[i].l);
    holds
  }

  /** In every state of a run of engine and scheduler the queue is sound: in particular nothing queued runs or is blocked. */
  lemma {:induction false} DagRunKeepsQueue(r: DagRun, k: nat)
    requires FreshDagRun(r) && k < |r.states|
    ensures SI.QueueSound(r.states[k].sched)
    ensures forall id :: id in TicketIds(r.states[k].sched.queue) ==>
      id in r.states[k].sched.tasks && SI.MayWait(r.states[k].sched.tasks[id].status)
  {
    hide SI.QueueSound, DagInv, DagNext, DagClean;
    if k > 0 {
      DagRunKeepsQueue(r, k - 1);
      DagRunKeeps(r, k - 1);
      DagStepKeepsQueue(r.states[k - 1], r.labels[k - 1], r.states[k]);
    }
    SI.QueuedMayWait(r.states[k].sched);
  }

  // ----- The books in clean runs -----

  /** What waits in the store alone has escalations to spare. */
  ghost predicate StoreFits(d: Dag) {
    var holds :=
      && d.sched.cfg.maxEscalations >= 0
      && forall id :: d.Lookup(id).Some? && d.Lookup(id).value.status.Blocked? ==> d.Lookup(id).value.escalations <= d.sched.cfg.maxEscalations;
    holds
  }

  ghost predicate CleanDag(d: Dag, l: DagLabel) {
    match l
    case Sched(l) => Clean(d.sched, l)
    case SubFailed(id) => !d.Done(id)
    case _ => true
  }

  /** The same slots, escalations and clients. */
  lemma BooksAlike(s: State, s': State)
    requires SI.Books(s) && s'.cfg == s.cfg && s'.clients == s.clients && s'.tasks.Keys == s.tasks.Keys
    requires forall id :: id in s.tasks ==>
      && s'.tasks[id].id == id && s'.tasks[id].escalations == s.tasks[id].escalations
      && s'.tasks[id].HoldsSlot() == s.tasks[id].HoldsSlot() && (s.tasks[id].HoldsSlot() ==> s'.tasks[id].client == s.tasks[id].client)
    ensures SI.Books(s')
  {
    forall c ensures SI.Slots(s'.tasks, c) == SI.Slots(s.tasks, c) {
    }
  }

  lemma UnblockKeepsBooks(d: Dag, ids: seq<string>, m: Dag, recs: seq<TaskRec>)
    requires Keyed(d) && SI.Books(d.sched) && StoreFits(d) && OnlyReadyMoved(d, ids, m) && AreReady(d, ids, recs)
    ensures SI.Books(m.sched) && AllSlotless(m.sched, recs) && StoreFits(m)
  {
    hide SI.Books;
    forall id | id in d.sched.tasks
      ensures m.sched.tasks[id] == d.sched.tasks[id] || (d.sched.tasks[id].status.Blocked? && m.sched.tasks[id] == d.sched.tasks[id].Moved(Queued))
    {
      assert m.Lookup(id) == Some(m.sched.tasks[id]);
    }
    BooksAlike(d.sched, m.sched);
    forall k | 0 <= k < |recs| ensures Slotless(m.sched, recs[k]) {
      var id := recs[k].id;
      assert d.Ready(id) && id in IdSet(recs) && m.Lookup(id) == Some(recs[k]);
    }
  }

  lemma WrittenKeepsBooks(d: Dag, rec: TaskRec)
    requires SI.Books(d.sched)
    requires rec.id in d.sched.tasks ==>
      && rec.escalations == d.sched.tasks[rec.id].escalations
      && rec.HoldsSlot() == d.sched.tasks[rec.id].HoldsSlot() && rec.client == d.sched.tasks[rec.id].client
    ensures SI.Books(Written(d, rec).sched)
  {
    hide SI.Books;
    if rec.id in d.sched.tasks {
      BooksKey(d.sched, rec.id);
      KeepsBooks(d.sched, rec.id, rec);
    }
  }

  /** A later state of the scheduler, with no task blocked anew. */
  lemma StoreStillFits(m: Dag, d': Dag)
    requires StoreFits(m) && SI.Books(d'.sched) && d'.sched.cfg == m.sched.cfg
    requires forall id :: id !in d'.sched.tasks ==> d'.Lookup(id) == m.Lookup(id)
    ensures StoreFits(d')
  {
  }

  lemma NextKeepsConfig(s: State, l: Label, s': State)
    requires Next(s, l, s')
    ensures s'.cfg == s.cfg
  {
    hide Dispatched, Submitted, Escalate;
    match l
    case Submit(rec, log) => SI.SubmitSpares(s, rec, log, s');
    case Dispatch(log) => SI.DispatchSpares(s, log, s');
    case _ =>
  }

  lemma SchedKeepsBooks(d: Dag, l: Label, d': Dag)
    requires DagInv(d) && SI.Inv(d.sched) && StoreFits(d) && DagClean(d, Sched(l)) && Clean(d.sched, l) && DagNext(d, Sched(l), d')
    ensures SI.Books(d'.sched) && StoreFits(d')
  {
    hide SI.Books, SI.QueueSound, StoreFits, Next, Clean, Family, Safe;
    StepKeepsBooks(d.sched, l, d'.sched);
    NextKeepsConfig(d.sched, l, d'.sched);
    NextCarries(d.sched, l, d'.sched);
    StoreStillFits(d, d');
  }

  lemma SubDoneKeepsBooks(d: Dag, id: string, logs: seq<seq<Act>>, done: bool, d': Dag)
    requires Keyed(d) && SI.Inv(d.sched) && StoreFits(d) && SubTaskCompleted(d, id, logs, done, d')
    ensures SI.Books(d'.sched) && StoreFits(d')
  {
    hide SI.QueueSound, SI.Books, StoreFits, Released, OnlyReadyMoved, AreReady, Unblock, Unblocked, AllDone, Submitted;
    var p := d.Parent(id);
    if p != "" && AllDone(d, p) == Some(false) {
      var ids := d.Subs(p);
      var m, recs := Unblock(d, ids), Unblocked(d, ids);
      UnblockIsExact(d, ids);
      UnblockKeepsQueue(d, ids, m, recs);
      UnblockKeepsBooks(d, ids, m, recs);
      ReleasedKeepsBooks(m.sched, recs, logs, d'.sched);
      ReleasedKeepsConfig(m.sched, recs, logs, d'.sched);
      ReadyFits(d, ids, m, recs);
      ReleasedCarries(m.sched, recs, logs, d'.sched);
      StoreStillFits(m, d');
    } else if p != "" && AllDone(d, p) == Some(true) && p in d.sched.tasks {
      AggregatedKeepsBooks(d, p);
    }
  }

  lemma AggregatedKeepsBooks(d: Dag, p: string)
    requires Keyed(d) && SI.Books(d.sched) && StoreFits(d) && p in d.sched.tasks
    ensures SI.Books(Aggregated(d, p).sched) && StoreFits(Aggregated(d, p))
  {
    hide SI.Books, Follows;
    var rec := d.sched.tasks[p].Moved(Aggregating);
    WrittenKeepsBooks(d, rec);
    WrittenFollows(d, rec);
  }

  /** A report of a task that is not Completed leaves the scheduler alone. */
  lemma SubFailedKeepsBooks(d: Dag, id: string)
    requires DagInv(d) && SI.Books(d.sched) && StoreFits(d) && !d.Done(id)
    ensures SI.Books(SubTaskFailed(d, id).sched) && StoreFits(SubTaskFailed(d, id))
  {
    hide SI.Books, Family, Safe;
    if d.Parent(id) != "" {
      FailureHitsOnlyWaiting(d, id);
    }
  }

  lemma CreateKeepsBooks(d: Dag, parent: TaskRec, plans: seq<Plan>, now: int, logs: seq<seq<Act>>, ok: bool, d': Dag)
    requires DagInv(d) && SI.Inv(d.sched) && StoreFits(d) && DagClean(d, Create(parent, plans, now, logs, ok))
    requires SubTasksCreated(d, parent, plans, now, logs, ok, d')
    ensures SI.Books(d'.sched) && StoreFits(d')
  {
    hide DagInv, SI.QueueSound, SI.Books, StoreFits, NewSubs, SavedAll, Unblockeds, Released, Ids, Written, Submitted;
    var n := Fitting(d.store, parent.id, 0, |plans|);
    var subs := NewSubs(parent, plans, now, n);
    var saved := SavedAll(d, parent.id, subs);
    CreationReleases(d, parent, plans, now, n);
    SavedStillFits(d, parent, plans, now, n);
    if plans != [] && n == |plans| {
      var updated := parent.(subTasks := Ids(subs));
      var w, recs := Written(saved, updated), Unblockeds(subs);
      ParentIsLive(d, saved, parent);
      UpdatedStillFits(saved, parent, Ids(subs));
      WrittenKeepsBooks(saved, updated);
      WrittenKeepsQueue(saved, updated);
      NewWaitNot(w.sched, recs);
      NewAreSlotless(w, recs);
      ReleasedKeepsBooks(w.sched, recs, logs, d'.sched);
      ReleasedKeepsConfig(w.sched, recs, logs, d'.sched);
      NewFit(w.sched, recs);
      ReleasedCarries(w.sched, recs, logs, d'.sched);
      StoreStillFits(w, d');
    }
  }

  lemma NewAreSlotless(w: Dag, recs: seq<TaskRec>)
    requires StoreFits(w) && forall t :: t in recs ==> t.id !in w.sched.tasks && t.escalations == 0 && !t.HoldsSlot()
    ensures AllSlotless(w.sched, recs)
  {
  }

  lemma NewFit(s: State, recs: seq<TaskRec>)
    requires Apart(recs) && forall t :: t in recs ==> t.id !in s.tasks && !Settled(t.status)
    ensures Fits(s, recs)
  {
  }

  lemma SavedStillFits(d: Dag, parent: TaskRec, plans: seq<Plan>, now: int, n: nat)
    requires DagInv(d) && StoreFits(d) && DagClean(d, Create(parent, plans, now, [], true)) && n == Fitting(d.store, parent.id, 0, |plans|)
    ensures StoreFits(SavedAll(d, parent.id, NewSubs(parent, plans, now, n)))
    ensures IsCurrent(SavedAll(d, parent.id, NewSubs(parent, plans, now, n)), parent)
  {
    hide DagInv, StoreFits, Follows, NewSubs, SavedAll, New, SavedWell, IdSet;
    var subs := NewSubs(parent, plans, now, n);
    var m := SavedAll(d, parent.id, subs);
    InvParts(d);
    NewSubsApart(parent, plans, now, n);
    SavedKeeps(d, parent, plans, now, n);
    SavedFollows(d, parent.id, subs, m);
    OnlyTheseAdded(d, parent.id, subs, m);
    NewSubsAre(d, parent, plans, now, n);
    MoreFits(d, subs, m);
  }

  lemma MoreFits(d: Dag, subs: seq<TaskRec>, m: Dag)
    requires StoreFits(d) && m.sched == d.sched && forall x :: x !in IdSet(subs) ==> m.Lookup(x) == d.Lookup(x)
    requires forall k :: 0 <= k < |subs| ==> m.Lookup(subs[k].id) == Some(subs[k])
    requires forall t :: t in subs ==> t.escalations == 0
    ensures StoreFits(m)
  {
    forall id | m.Lookup(id).Some? && m.Lookup(id).value.status.Blocked?
      ensures m.Lookup(id).value.escalations <= m.sched.cfg.maxEscalations
    {
      if id in IdSet(subs) {
        var k :| 0 <= k < |subs| && subs[k].id == id;
        assert m.Lookup(id) == Some(subs[k]) && subs[k] in subs;
      }
    }
  }

  lemma UpdatedStillFits(m: Dag, parent: TaskRec, subTasks: seq<string>)
    requires StoreFits(m) && IsCurrent(m, parent)
    ensures StoreFits(Written(m, parent.(subTasks := subTasks)))
  {
    var rec := parent.(subTasks := subTasks);
    forall x ensures Written(m, rec).Lookup(x) == if x == rec.id && m.Lookup(x).Some? then Some(rec) else m.Lookup(x) {
    }
  }

  ghost predicate DagBooks(d: Dag) {
    var holds :=
      SI.Inv(d.sched) && StoreFits(d);
    holds
  }

  lemma CleanIsFresh(d: Dag, l: DagLabel)
    requires CleanDag(d, l)
    ensures l.Sched? ==> FreshId(d.sched, l.l)
  {
  }

  lemma DagStepKeepsBooks(d: Dag, l: DagLabel, d': Dag)
    requires DagInv(d) && DagBooks(d) && DagClean(d, l) && CleanDag(d, l) && DagNext(d, l, d')
    ensures DagBooks(d')
  {
    hide SI.QueueSound, SI.Books, StoreFits, Clean, Family, Safe, SubTasksCreated, SubTaskCompleted, SubTaskFailed, Next;
    CleanIsFresh(d, l);
    DagStepKeepsQueue(d, l, d');
    match l
    case Sched(l) => SchedKeepsBooks(d, l, d');
    case Create(parent, plans, now, logs, ok) => CreateKeepsBooks(d, parent, plans, now, logs, ok, d');
    case SubDone(id, logs, done) => SubDoneKeepsBooks(d, id, logs, done, d');
    case SubFailed(id) => SubFailedKeepsBooks(d, id);
  }

  ghost predicate CleanDagRun(r: DagRun) {
    var holds :=
      && IsDagRun(r) && DagBooks(r.states[0])
      && forall i :: 0 <= i < |r.labels| ==> CleanDag(r.states[i], r.labels[i]);
    holds
  }

  /** In every state of a clean run of engine and scheduler each load is the number of tasks running or paused on the client, within capacity. */
  lemma {:induction false} DagRunKeepsBooks(r: DagRun, k: nat)
    requires CleanDagRun(r) && k < |r.states|
    ensures DagBooks(r.states[k])
  {
    hide DagBooks, DagInv, DagNext, DagClean, CleanDag;
    if k > 0 {
      DagRunKeepsBooks(r, k - 1);
      DagRunKeeps(r, k - 1);
      DagStepKeepsBooks(r.states[k - 1], r.labels[k - 1], r.states[k]);
    }
  }

  /** An engine over an empty store and a fresh scheduler. */
  lemma FreshDagBooks(cfg: Config)
    requires cfg.maxLen > 0 && cfg.maxEscalations >= 0
    ensures var d := Dag(State(cfg, map[], [], map[]), map[], map[], map[]); DagInv(d) && DagBooks(d)
  {
    FreshInv(cfg);
    FreshDagInv(State(cfg, map[], [], map[]));
  }

  // ----- A blocked queue -----

  /** What the step releases ranks below the head of the queue, and client c stays as it is. */
  ghost predicate DagYields(d: Dag, l: DagLabel, c: string)
    requires d.sched.queue != []
  {
    match l
    case Sched(l) => Yields(d.sched, l, c)
    case Create(parent, _, _, _, _) => d.sched.cfg.Rank(parent.priority) < d.sched.queue[0].priority
    case SubDone(id, _, _) =>
      forall y :: y in d.Subs(d.Parent(id)) && d.Ready(y) ==> d.sched.cfg.Rank(d.Lookup(y).value.priority) < d.sched.queue[0].priority
    case SubFailed(_) => true
  }

  /** No dispatch call of the step sends anything. */
  predicate DagSendsNothing(l: DagLabel) {
    match l
    case Sched(l) => SendsNothing(l)
    case Create(_, _, _, logs, _) => forall log :: log in logs ==> DispatchTheorems.SentIds(log) == []
    case SubDone(_, logs, _) => forall log :: log in logs ==> DispatchTheorems.SentIds(log) == []
    case SubFailed(_) => true
  }

  /** A task is written that is not x, or is x with a status no dispatch takes it from. */
  lemma WrittenStaysBlocked(d: Dag, rec: TaskRec, x: string, c: string)
    requires Blocks(d.sched, x, c)
    requires rec.id == x ==>
      && !rec.status.CanTransitionTo(Assigned) && rec.role == d.sched.tasks[x].role && rec.skills == d.sched.tasks[x].skills
      && rec.attempts == d.sched.tasks[x].attempts
    ensures Blocks(Written(d, rec).sched, x, c) && Written(d, rec).sched.queue == d.sched.queue && Written(d, rec).sched.cfg == d.sched.cfg
  {
  }

  ghost predicate AllBelow(s: State, recs: seq<TaskRec>)
    requires s.queue != []
  {
    forall k :: 0 <= k < |recs| ==> s.cfg.Rank(recs[k].priority) < s.queue[0].priority
  }

  lemma {:induction false} ReleasedStaysBlocked(s: State, recs: seq<TaskRec>, logs: seq<seq<Act>>, s': State, x: string, c: string)
    requires SI.QueueSound(s) && Blocks(s, x, c) && Released(s, recs, logs, s') && Apart(recs) && NoneWaits(s, recs) && AllBelow(s, recs)
    ensures Blocks(s', x, c) && forall log :: log in logs ==> DispatchTheorems.SentIds(log) == []
    decreases |recs|
  {
    hide SI.QueueSound, Submitted, NoneWaits, Blocks;
    if recs != [] {
      var m :| Submitted(s, recs[0], logs[0], m) && Released(m, recs[1..], logs[1..], s');
      BlockedHead(s, x, c);
      FirstWaitsNot(s, recs);
      SubmitStaysBlocked(s, recs[0], logs[0], m, x, c);
      SubmitKeepsQueue(s, recs[0], logs[0], m);
      SI.SubmitSpares(s, recs[0], logs[0], m);
      RestAsBefore(s, recs, logs[0], m);
      ReleasedStaysBlocked(m, recs[1..], logs[1..], s', x, c);
      assert logs == [logs[0]] + logs[1..];
    }
  }

  lemma {:induction false} FailAllStaysBlocked(d: Dag, failed: string, ids: seq<string>, x: string, c: string)
    requires Keyed(d) && Blocks(d.sched, x, c)
    ensures Blocks(FailAll(d, failed, ids).sched, x, c)
  {
    hide Keyed, Follows, Blocks;
    if ids != [] {
      var m, last := FailAll(d, failed, ids[..|ids| - 1]), ids[|ids| - 1];
      FailAllStaysBlocked(d, failed, ids[..|ids| - 1], x, c);
      FailAllFollows(d, failed, ids[..|ids| - 1]);
      if FailOne(m, failed, last) != m {
        LookupIsKeyed(m, last);
        StuckHead(m.sched, x, c);
        WrittenStaysBlocked(m, m.Lookup(last).value.(error := Some(DependencyError(failed))).Moved(Failed), x, c);
      }
    }
  }

  lemma StuckHead(s: State, x: string, c: string)
    requires Blocks(s, x, c)
    ensures s.queue != [] && s.queue[0].id == x && x in s.tasks && !s.tasks[x].status.CanTransitionTo(Assigned)
  {
  }

  lemma UnblockStaysBlocked(d: Dag, ids: seq<string>, m: Dag, recs: seq<TaskRec>, x: string, c: string)
    requires SI.QueueSound(d.sched) && Blocks(d.sched, x, c) && OnlyReadyMoved(d, ids, m) && AreReady(d, ids, recs)
    requires forall y :: y in ids && d.Ready(y) ==> d.sched.cfg.Rank(d.Lookup(y).value.priority) < d.sched.queue[0].priority
    ensures Blocks(m.sched, x, c) && m.sched.queue == d.sched.queue && AllBelow(m.sched, recs)
  {
    SI.QueuedMayWait(d.sched);
    assert x in TicketIds(d.sched.queue) by { assert d.sched.queue[0].id == x; }
    assert m.Lookup(x) == d.Lookup(x);
    forall k | 0 <= k < |recs| ensures m.sched.cfg.Rank(recs[k].priority) < m.sched.queue[0].priority {
      assert recs[k].id in IdSet(recs) && d.Ready(recs[k].id);
    }
  }

  lemma SubDoneStaysBlocked(d: Dag, id: string, logs: seq<seq<Act>>, done: bool, d': Dag, x: string, c: string)
    requires Keyed(d) && SI.QueueSound(d.sched) && SubTaskCompleted(d, id, logs, done, d')
    requires Blocks(d.sched, x, c) && d.sched.queue != [] && DagYields(d, SubDone(id, logs, done), c)
    ensures Blocks(d'.sched, x, c) && DagSendsNothing(SubDone(id, logs, done))
  {
    hide SI.QueueSound, Blocks, Released, OnlyReadyMoved, AreReady, Unblock, Unblocked, AllDone;
    var p := d.Parent(id);
    StuckHead(d.sched, x, c);
    if p != "" && AllDone(d, p) == Some(false) {
      var ids := d.Subs(p);
      UnblockIsExact(d, ids);
      UnblockKeepsQueue(d, ids, Unblock(d, ids), Unblocked(d, ids));
      UnblockStaysBlocked(d, ids, Unblock(d, ids), Unblocked(d, ids), x, c);
      ReleasedStaysBlocked(Unblock(d, ids).sched, Unblocked(d, ids), logs, d'.sched, x, c);
    } else if p != "" && AllDone(d, p) == Some(true) && p in d.sched.tasks {
      WrittenStaysBlocked(d, d.sched.tasks[p].Moved(Aggregating), x, c);
    }
  }

  lemma CreateStaysBlocked(d: Dag, parent: TaskRec, plans: seq<Plan>, now: int, logs: seq<seq<Act>>, ok: bool, d': Dag, x: string, c: string)
    requires DagInv(d) && SI.QueueSound(d.sched) && DagClean(d, Create(parent, plans, now, logs, ok))
    requires SubTasksCreated(d, parent, plans, now, logs, ok, d') && Blocks(d.sched, x, c)
    requires d.sched.queue != [] && DagYields(d, Create(parent, plans, now, logs, ok), c)
    ensures Blocks(d'.sched, x, c) && forall log :: log in logs ==> DispatchTheorems.SentIds(log) == []
  {
    hide DagInv, SI.QueueSound, Blocks, NewSubs, SavedAll, Unblockeds, Released, Ids, Written;
    var n := Fitting(d.store, parent.id, 0, |plans|);
    var subs := NewSubs(parent, plans, now, n);
    var saved := SavedAll(d, parent.id, subs);
    CreationReleases(d, parent, plans, now, n);
    if plans != [] && n == |plans| {
      var w := Written(saved, parent.(subTasks := Ids(subs)));
      ParentIsLive(d, saved, parent);
      StuckHead(d.sched, x, c);
      WrittenKeepsQueue(saved, parent.(subTasks := Ids(subs)));
      WrittenStaysBlocked(saved, parent.(subTasks := Ids(subs)), x, c);
      NewWaitNot(w.sched, Unblockeds(subs));
      NewRankAlike(w.sched, parent, plans, now, n);
      ReleasedStaysBlocked(w.sched, Unblockeds(subs), logs, d'.sched, x, c);
    }
  }

  /** New sub-tasks have the priority of their parent. */
  lemma NewRankAlike(s: State, parent: TaskRec, plans: seq<Plan>, now: int, n: nat)
    requires n <= |plans| && s.queue != [] && s.cfg.Rank(parent.priority) < s.queue[0].priority
    ensures AllBelow(s, Unblockeds(NewSubs(parent, plans, now, n)))
  {
    var subs := NewSubs(parent, plans, now, n);
    NewSubsApart(parent, plans, now, n);
    UnblockedsAre(subs);
    var recs := Unblockeds(subs);
    forall k | 0 <= k < |recs| ensures s.cfg.Rank(recs[k].priority) < s.queue[0].priority {
      assert recs[k] in subs;
      var j :| 0 <= j < |subs| && subs[j] == recs[k];
      assert subs[j] == NewSub(parent, j + 1, plans[j], now);
    }
  }

  lemma DagStepStaysBlocked(d: Dag, l: DagLabel, d': Dag, x: string, c: string)
    requires DagInv(d) && SI.QueueSound(d.sched) && DagClean(d, l) && DagNext(d, l, d')
    requires (l.Sched? ==> FreshId(d.sched, l.l)) && Blocks(d.sched, x, c) && d.sched.queue != [] && DagYields(d, l, c)
    ensures Blocks(d'.sched, x, c) && DagSendsNothing(l)
  {
    hide SI.QueueSound, Blocks, Family, Safe, Keyed, Next, SubTasksCreated, SubTaskCompleted, FailAll, SendsNothing, Yields;
    match l
    case Sched(l) => StepStaysBlocked(d.sched, l, d'.sched, x, c);
    case Create(parent, plans, now, logs, ok) => CreateStaysBlocked(d, parent, plans, now, logs, ok, d', x, c);
    case SubFailed(id) => FailAllStaysBlocked(d, id, d.Subs(d.Parent(id)), x, c);
    case SubDone(id, logs, done) => SubDoneStaysBlocked(d, id, logs, done, d', x, c);
  }

  /** In runs of engine and scheduler too: while the head is stuck, alone in its rank, nothing of its rank enters and its client stays, nothing is dispatched. */
  lemma {:induction false} DagBlocksForGood(r: DagRun, i: nat, k: nat, x: string, c: string)
    requires FreshDagRun(r) && i <= k < |r.states| && Blocks(r.states[i].sched, x, c)
    requires forall m :: i <= m < k ==> r.states[m].sched.queue != [] ==> DagYields(r.states[m], r.labels[m], c)
    ensures Blocks(r.states[k].sched, x, c)
    ensures forall m :: i <= m < k ==> DagSendsNothing(r.labels[m])
  {
    hide SI.QueueSound, Blocks, DagInv, DagNext, DagClean, DagSendsNothing, DagYields, FreshId;
    if i < k {
      DagBlocksForGood(r, i, k - 1, x, c);
      DagRunKeepsQueue(r, k - 1);
      DagRunKeeps(r, k - 1);
      BlockedHead(r.states[k - 1].sched, x, c);
      DagStepStaysBlocked(r.states[k - 1], r.labels[k - 1], r.states[k], x, c);
    }
  }
}
