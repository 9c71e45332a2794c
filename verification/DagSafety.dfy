/**
 DAG safety in every run: a sub-task with dependencies reaches the scheduler only after
 all of them are Completed, and they stay Completed.
 */
module DagSafety {
  import opened Tasks
  import opened SchedulerSpec
  import opened SchedulerInvariant
  import opened DagSpec
  import Strings

  // ----- What scheduler steps keep -----

  /** The same task later: same dependencies, and Completed if it was. */
  predicate SameTask(t: TaskRec, t': TaskRec) {
    t'.id == t.id && t'.deps == t.deps && (t.status.Completed? ==> t'.status.Completed?)
  }

  /** Every task is the same later, and only tasks in `extra` are new. */
  ghost predicate Carries(s: State, s': State, extra: set<string>) {
    var holds :=
      && (forall id :: id in s.tasks ==> id in s'.tasks && SameTask(s.tasks[id], s'.tasks[id]))
      && (forall id :: id in s'.tasks ==> id in s.tasks || id in extra);
    holds
  }

  predicate Settled(status: Status) {
    status.Completed? || status.Aggregating?
  }

  /** Nothing becomes Completed or Aggregating. */
  ghost predicate SettlesNone(s: State, s': State) {
    var holds :=
      forall id :: id in s.tasks && id in s'.tasks && Settled(s'.tasks[id].status) ==> s.tasks[id].status == s'.tasks[id].status;
    holds
  }

  lemma CarriesOn(a: State, b: State, c: State, extra: set<string>, more: set<string>)
    requires Carries(a, b, extra) && Carries(b, c, more)
    ensures Carries(a, c, extra + more)
    ensures SettlesNone(a, b) && SettlesNone(b, c) ==> SettlesNone(a, c)
  {
  }

  lemma SettlesOn(a: State, b: State, c: State)
    requires SettlesNone(a, b) && SettlesNone(b, c) && a.tasks.Keys <= b.tasks.Keys
    ensures SettlesNone(a, c)
  {
  }

  lemma PerformCarries(d: Drain, a: Act)
    requires CanAct(d, a)
    ensures Carries(d.st, Perform(d, a).st, {}) && SettlesNone(d.st, Perform(d, a).st)
  {
    PerformTouchesOne(d, a);
    hide Carries, SettlesNone, Perform, Unmatched, Best;
    OneCarries(d.st, Perform(d, a).st, a.id);
  }

  /** One task changed, to the same task later. */
  lemma OneCarries(s: State, s': State, id: string)
    requires id in s.tasks && id in s'.tasks && s'.tasks == s.tasks[id := s'.tasks[id]] && SameTask(s.tasks[id], s'.tasks[id])
    ensures Carries(s, s', {})
    ensures (Settled(s'.tasks[id].status) ==> s.tasks[id].status == s'.tasks[id].status) ==> SettlesNone(s, s')
    ensures (s'.tasks[id].status.Aggregating? ==> s.tasks[id].status.Aggregating?) ==> AggregatesNone(s, s')
  {
  }

  /** Nothing becomes Aggregating. */
  ghost predicate AggregatesNone(s: State, s': State) {
    forall id :: id in s.tasks && id in s'.tasks && s'.tasks[id].status.Aggregating? ==> s.tasks[id].status.Aggregating?
  }

  lemma SettlesAggregatesNone(s: State, s': State)
    requires SettlesNone(s, s')
    ensures AggregatesNone(s, s')
  {
  }

  lemma SameTasksCarry(s: State, s': State)
    requires s'.tasks == s.tasks
    ensures Carries(s, s', {}) && SettlesNone(s, s') && AggregatesNone(s, s')
  {
  }

  lemma {:induction false} DrainedCarries(d: Drain, log: seq<Act>, e: Drain)
    requires Drained(d, log, e)
    ensures Carries(d.st, e.st, {}) && SettlesNone(d.st, e.st)
    decreases |log|
  {
    if log != [] {
      PerformCarries(d, log[0]);
      DrainedCarries(Perform(d, log[0]), log[1..], e);
      CarriesOn(d.st, Perform(d, log[0]).st, e.st, {}, {});
    }
  }

  lemma DispatchedCarries(s: State, log: seq<Act>, s': State)
    requires Dispatched(s, log, s')
    ensures Carries(s, s', {}) && SettlesNone(s, s')
  {
    var e: Drain :| && Drained(Drain(s, [], false), log, e)
                    && (e.stopped || e.st.queue == [])
                    && (forall id :: id in e.held ==> id in e.st.tasks)
                    && s' == PutBack(e.st, e.held);
    DrainedCarries(Drain(s, [], false), log, e);
    PutBackChangesNoTask(e.st, e.held);
  }

  /** A submission files the task, which waits or runs, and disturbs no other. */
  lemma SubmittedCarries(s: State, rec: TaskRec, log: seq<Act>, s': State)
    requires Submitted(s, rec, log, s')
    requires rec.id in s.tasks ==> SameTask(s.tasks[rec.id], rec)
    ensures Carries(s, s', {rec.id}) && rec.id in s'.tasks && SameTask(rec, s'.tasks[rec.id])
    ensures Settled(s'.tasks[rec.id].status) ==> s'.tasks[rec.id].status == rec.status
    ensures (rec.id in s.tasks && Settled(rec.status) ==> s.tasks[rec.id].status == rec.status) ==> SettlesNone(s, s')
  {
    hide Dispatched, Carries, SettlesNone, Requeued;
    var r := rec.Moved(Queued);
    var queued := s.(tasks := s.tasks[rec.id := r]);
    FiledCarries(s, rec, rec);
    FiledCarries(s, rec, r);
    if (rec.status.Queued? || rec.status.CanTransitionTo(Queued)) && |s.queue| < s.cfg.maxLen {
      RequeuedTasks(queued, rec.id);
      var call := Requeued(queued, rec.id);
      SameTasksCarry(queued, call);
      DispatchedCarries(call, log, s');
      CarriesThrough(s, queued, call, s', rec.id);
    }
  }

  lemma FiledCarries(s: State, rec: TaskRec, r: TaskRec)
    requires (rec.id in s.tasks ==> SameTask(s.tasks[rec.id], rec)) && (r == rec || r == rec.Moved(Queued))
    ensures var m := s.(tasks := s.tasks[rec.id := r]);
      && Carries(s, m, {rec.id}) && SameTask(rec, r) && (Settled(r.status) ==> r.status == rec.status)
      && ((rec.id in s.tasks && Settled(rec.status) ==> s.tasks[rec.id].status == rec.status) ==> SettlesNone(s, m))
  {
  }

  lemma CarriesThrough(s: State, queued: State, call: State, s': State, id: string)
    requires Carries(s, queued, {id}) && Carries(queued, call, {}) && Carries(call, s', {})
    requires SettlesNone(queued, call) && SettlesNone(call, s') && id in queued.tasks
    ensures Carries(s, s', {id}) && id in s'.tasks && SameTask(queued.tasks[id], s'.tasks[id])
    ensures Settled(s'.tasks[id].status) ==> s'.tasks[id].status == queued.tasks[id].status
    ensures SettlesNone(s, queued) ==> SettlesNone(s, s')
  {
  }

  function IdSet(recs: seq<TaskRec>): set<string> {
    set k | 0 <= k < |recs| :: recs[k].id
  }

  /** No two records share an ID. */
  predicate Apart(recs: seq<TaskRec>) {
    forall i, j :: 0 <= i < j < |recs| ==> recs[i].id != recs[j].id
  }

  /** The records fit the tasks already filed under their IDs, and nothing is Completed. */
  ghost predicate Fits(s: State, recs: seq<TaskRec>) {
    var holds :=
      && Apart(recs)
      && forall k :: 0 <= k < |recs| ==> !Settled(recs[k].status) && (recs[k].id in s.tasks ==> FitsOne(s.tasks[recs[k].id], recs[k]));
    holds
  }

  predicate FitsOne(t: TaskRec, rec: TaskRec) {
    rec.id == t.id && rec.deps == t.deps && !Settled(t.status)
  }

  lemma FitsLater(s: State, recs: seq<TaskRec>, m: State)
    requires recs != [] && Fits(s, recs) && Carries(s, m, {recs[0].id}) && SettlesNone(s, m)
    ensures Fits(m, recs[1..])
  {
    var rest := recs[1..];
    forall k | 0 <= k < |rest| ensures !Settled(rest[k].status) && (rest[k].id in m.tasks ==> FitsOne(m.tasks[rest[k].id], rest[k])) {
      assert rest[k] == recs[k + 1];
    }
  }

  /** Released tasks are all filed, none of them Completed, and no other task is disturbed. */
  lemma {:induction false} ReleasedCarries(s: State, recs: seq<TaskRec>, logs: seq<seq<Act>>, s': State)
    requires Released(s, recs, logs, s') && Fits(s, recs)
    ensures Carries(s, s', IdSet(recs)) && SettlesNone(s, s')
    ensures forall k :: 0 <= k < |recs| ==> FiledAs(s', recs[k])
    decreases |recs|
  {
    hide Submitted, Fits;
    if recs != [] {
      var first, rest := recs[0], recs[1..];
      var m :| Submitted(s, first, logs[0], m) && Released(m, rest, logs[1..], s');
      FirstFits(s, recs);
      SubmittedCarries(s, first, logs[0], m);
      FitsLater(s, recs, m);
      ReleasedCarries(m, rest, logs[1..], s');
      CarriesOn(s, m, s', {first.id}, IdSet(rest));
      forall k | 0 <= k < |rest| ensures rest[k].id in IdSet(recs) { assert rest[k] == recs[k + 1]; }
      assert first.id in IdSet(recs);
      forall k | 0 <= k < |recs| ensures FiledAs(s', recs[k]) {
        if k > 0 {
          assert recs[k] == rest[k - 1];
        }
      }
    }
  }

  predicate FiledAs(s: State, rec: TaskRec) {
    rec.id in s.tasks && s.tasks[rec.id].deps == rec.deps && s.tasks[rec.id].id == rec.id
  }

  lemma FirstFits(s: State, recs: seq<TaskRec>)
    requires recs != [] && Fits(s, recs)
    ensures !Settled(recs[0].status) && (recs[0].id in s.tasks ==> FitsOne(s.tasks[recs[0].id], recs[0]))
  {
  }

  /** A handler disturbs no other task, no handler leaves Completed, and none aggregates. */
  lemma NextCarries(s: State, l: Label, s': State)
    requires Next(s, l, s') && forall id :: id in s.tasks ==> s.tasks[id].id == id
    requires l.Submit? || l.Index? ==> l.rec.id in s.tasks ==> l.rec == s.tasks[l.rec.id]
    ensures Carries(s, s', if l.Submit? || l.Index? then {l.rec.id} else {}) && AggregatesNone(s, s')
    ensures l.Submit? || l.Index? ==> l.rec.id in s'.tasks && SameTask(l.rec, s'.tasks[l.rec.id])
  {
    hide Dispatched, Submitted, AfterFailure, Carries, SettlesNone, AggregatesNone;
    match l
    case Submit(rec, log) =>
      SubmittedCarries(s, rec, log, s');
      SettlesAggregatesNone(s, s');
    case Dispatch(log) =>
      DispatchedCarries(s, log, s');
      SettlesAggregatesNone(s, s');
    case Fail(id, error, history) =>
      FailCarries(s, id, error, history);
      SettlesAggregatesNone(s, s');
    case Index(rec) => IndexCarries(s, rec);
    case Complete(id, _) => if s' != s { OneCarries(s, s', id); } else { SameTasksCarry(s, s'); }
    case TimeOut(id, _) => if s' != s { OneCarries(s, s', id); } else { SameTasksCarry(s, s'); }
    case Pause(id, _) => if s' != s { OneCarries(s, s', id); } else { SameTasksCarry(s, s'); }
    case _ => SameTasksCarry(s, s');
  }

  lemma IndexCarries(s: State, rec: TaskRec)
    requires rec.id in s.tasks ==> rec == s.tasks[rec.id]
    ensures var s' := s.(tasks := s.tasks[rec.id := rec]); Carries(s, s', {rec.id}) && AggregatesNone(s, s')
  {
  }

  lemma FailCarries(s: State, id: string, error: Option<string>, history: seq<Attempt>)
    requires forall x :: x in s.tasks ==> s.tasks[x].id == x
    ensures Carries(s, AfterFailure(s, id, error, history), {}) && SettlesNone(s, AfterFailure(s, id, error, history))
  {
    hide Escalate, Requeued, Carries, SettlesNone;
    var s' := AfterFailure(s, id, error, history);
    if AcceptsFailure(s, id) {
      var s1 := FailureRecorded(s, id, error, history);
      VerdictTouchesOne(s1, id, Escalate(s1, s1.tasks[id]));
      assert s'.tasks == s.tasks[id := s'.tasks[id]];
      OneCarries(s, s', id);
    } else {
      SameTasksCarry(s, s');
    }
  }

  lemma VerdictTouchesOne(s: State, id: string, v: Verdict)
    requires id in s.tasks
    ensures var t, s' := s.tasks[id], VerdictApplied(s, id, v);
      && id in s'.tasks && s'.tasks == s.tasks[id := s'.tasks[id]] && s'.tasks[id].id == t.id && s'.tasks[id].deps == t.deps
      && (s'.tasks[id].status == t.status || s'.tasks[id].status.Queued? || s'.tasks[id].status.Escalated?)
  {
  }

  // ----- The engine -----

  ghost predicate Keyed(d: Dag) {
    var holds :=
      && (forall id :: id in d.sched.tasks ==> d.sched.tasks[id].id == id)
      && (forall id :: id in d.store ==> d.store[id].id == id);
    holds
  }

  predicate Distinct(ids: seq<string>) {
    forall i, j :: 0 <= i < j < |ids| ==> ids[i] != ids[j]
  }

  /** Lookups later find the same tasks, and what was filed is filed. */
  ghost predicate Follows(d: Dag, d': Dag) {
    var holds :=
      && (forall id :: id in d.sched.tasks ==> id in d'.sched.tasks)
      && forall id :: d.Lookup(id).Some? ==> d'.Lookup(id).Some? && SameTask(d.Lookup(id).value, d'.Lookup(id).value);
    holds
  }

  /** A sub-task the scheduler knows has all its dependencies Completed. */
  ghost predicate Safe(d: Dag) {
    forall id :: id in d.parentOf && id in d.sched.tasks ==> DepsDone(d, id)
  }

  ghost predicate DepsDone(d: Dag, id: string) {
    d.Lookup(id).Some? && forall dep :: dep in d.Lookup(id).value.deps ==> d.Done(dep)
  }

  lemma DepsStayDone(d: Dag, d': Dag, id: string)
    requires Follows(d, d') && DepsDone(d, id)
    ensures DepsDone(d', id)
  {
  }

  /** Only the ready tasks change, and they only become Queued. */
  ghost predicate OnlyReadyMoved(d: Dag, ids: seq<string>, m: Dag) {
    var holds :=
      && m.sched == d.sched.(tasks := m.sched.tasks) && m.sched.tasks.Keys == d.sched.tasks.Keys
      && m.store.Keys == d.store.Keys && m.children == d.children && m.parentOf == d.parentOf
      && forall x :: m.Lookup(x) == if x in ids && d.Ready(x) then Some(d.Lookup(x).value.Moved(Queued)) else d.Lookup(x);
    holds
  }

  /** The records are those of the ready tasks, now Queued. */
  ghost predicate AreReady(d: Dag, ids: seq<string>, recs: seq<TaskRec>) {
    var holds :=
      && Apart(recs)
      && (forall x :: x in IdSet(recs) <==> x in ids && d.Ready(x))
      && forall k :: 0 <= k < |recs| ==> d.Ready(recs[k].id) && recs[k] == d.Lookup(recs[k].id).value.Moved(Queued);
    holds
  }

  /** What was not moved is as ready as before: nothing becomes Completed. */
  lemma ReadyAlike(d: Dag, ids: seq<string>, m: Dag, x: string)
    requires OnlyReadyMoved(d, ids, m) && !(x in ids && d.Ready(x))
    ensures m.Ready(x) == d.Ready(x) && m.Lookup(x) == d.Lookup(x)
  {
    forall y ensures m.Done(y) == d.Done(y) {
    }
  }

  lemma OneMoreMoved(d: Dag, front: seq<string>, m: Dag, last: string)
    requires Keyed(m) && OnlyReadyMoved(d, front, m) && !(last in front && d.Ready(last))
    requires m.Ready(last) == d.Ready(last) && m.Lookup(last) == d.Lookup(last)
    ensures OnlyReadyMoved(d, front + [last], UnblockOne(m, last)) && Keyed(UnblockOne(m, last))
  {
    var n := UnblockOne(m, last);
    if d.Ready(last) {
      var rec := m.Lookup(last).value.Moved(Queued);
      assert rec.id == last;
      forall x ensures n.Lookup(x) == if x == last then Some(rec) else m.Lookup(x) {
      }
    }
  }

  lemma OneMoreReady(d: Dag, front: seq<string>, recs: seq<TaskRec>, last: string)
    requires Keyed(d) && AreReady(d, front, recs) && !(last in front && d.Ready(last))
    ensures AreReady(d, front + [last], recs + if d.Ready(last) then [d.Lookup(last).value.Moved(Queued)] else [])
  {
    if d.Ready(last) {
      var rec := d.Lookup(last).value.Moved(Queued);
      assert rec.id == last && last !in IdSet(recs);
      forall k | 0 <= k < |recs| ensures recs[k].id != last { assert recs[k].id in IdSet(recs); }
      IdsGrow(recs, rec);
    } else {
      assert recs + [] == recs;
    }
  }

  /** A task met again was released the first time. */
  lemma MetAgain(d: Dag, front: seq<string>, m: Dag, recs: seq<TaskRec>, last: string)
    requires OnlyReadyMoved(d, front, m) && AreReady(d, front, recs) && last in front && d.Ready(last)
    ensures !m.Ready(last) && OnlyReadyMoved(d, front + [last], m) && AreReady(d, front + [last], recs)
  {
    assert m.Lookup(last).value.status.Queued?;
  }

  lemma IdsGrow(recs: seq<TaskRec>, rec: TaskRec)
    ensures IdSet(recs + [rec]) == IdSet(recs) + {rec.id}
  {
    var all := recs + [rec];
    assert all[|recs|] == rec && forall k :: 0 <= k < |recs| ==> all[k] == recs[k];
  }

  /** checkUnblock releases exactly the sub-tasks that were ready when it began, each once. */
  lemma {:induction false} UnblockIsExact(d: Dag, ids: seq<string>)
    requires Keyed(d)
    ensures OnlyReadyMoved(d, ids, Unblock(d, ids)) && Keyed(Unblock(d, ids))
    ensures AreReady(d, ids, Unblocked(d, ids))
  {
    hide OnlyReadyMoved, AreReady, UnblockOne, Keyed;
    if ids == [] {
      NothingMoved(d);
    } else {
      var front, last := ids[..|ids| - 1], ids[|ids| - 1];
      var m := Unblock(d, front);
      UnblockIsExact(d, front);
      assert ids == front + [last];
      if last in front && d.Ready(last) {
        MetAgain(d, front, m, Unblocked(d, front), last);
        NotUnblocked(m, last);
        assert Unblocked(d, front) + [] == Unblocked(d, front);
      } else {
        ReadyAlike(d, front, m, last);
        OneMoreMoved(d, front, m, last);
        OneMoreReady(d, front, Unblocked(d, front), last);
      }
    }
  }

  lemma NotUnblocked(m: Dag, id: string)
    requires !m.Ready(id)
    ensures UnblockOne(m, id) == m
  {
  }

  lemma NothingMoved(d: Dag)
    ensures OnlyReadyMoved(d, [], d) && AreReady(d, [], [])
  {
  }

  /** Every sub-task has a record in the store, and the families are recorded both ways. */
  ghost predicate Family(d: Dag) {
    var holds :=
      && (forall id :: id in d.parentOf ==> id in d.store && id in d.Subs(d.parentOf[id]))
      && (forall p :: p in d.children ==> ChildrenOf(d, p));
    holds
  }

  lemma FamilyStays(d: Dag, d': Dag)
    requires Family(d) && d'.children == d.children && d'.parentOf == d.parentOf && d.store.Keys <= d'.store.Keys
    ensures Family(d')
  {
  }

  ghost predicate DagInv(d: Dag) {
    var holds :=
      Keyed(d) && Family(d) && Safe(d);
    holds
  }

  /** External tasks keep out of the sub-tasks' IDs, and the caller passes the parent it has filed. */
  ghost predicate DagClean(d: Dag, l: DagLabel) {
    match l
    case Sched(l) => l.Submit? || l.Index? ==> l.rec.id !in d.parentOf && IsCurrent(d, l.rec)
    case Create(parent, plans, _, _, _) =>
      IsCurrent(d, parent) && forall k :: 1 <= k <= |plans| && SubID(parent.id, k) in d.sched.tasks ==> SubID(parent.id, k) in d.store
    case _ => true
  }

  predicate IsCurrent(d: Dag, rec: TaskRec) {
    d.Lookup(rec.id).Some? ==> d.Lookup(rec.id).value == rec
  }

  /** The step added no sub-task and its tasks are the same later; a sub-task is new to the scheduler only if it was ready. */
  lemma SafeLater(d: Dag, d': Dag)
    requires DagInv(d) && Follows(d, d') && Keyed(d') && d'.parentOf == d.parentOf
    requires forall id :: id in d.parentOf && id in d'.sched.tasks ==> id in d.sched.tasks || DepsDone(d, id)
    ensures Safe(d')
  {
    hide DepsDone, Follows;
    forall id | id in d'.parentOf && id in d'.sched.tasks ensures DepsDone(d', id) {
      DepsStayDone(d, d', id);
    }
  }

  lemma WrittenFollows(d: Dag, rec: TaskRec)
    requires Keyed(d) && d.Lookup(rec.id).Some? && SameTask(d.Lookup(rec.id).value, rec)
    ensures Follows(d, Written(d, rec)) && Keyed(Written(d, rec)) && SameShape(d, Written(d, rec))
    ensures forall x :: Written(d, rec).Lookup(x) == if x == rec.id then Some(rec) else d.Lookup(x)
  {
  }

  /** The same tasks are filed and stored, in the same families. */
  ghost predicate SameShape(d: Dag, d': Dag) {
    var holds :=
      && d'.sched.tasks.Keys == d.sched.tasks.Keys && d'.store.Keys == d.store.Keys
      && d'.children == d.children && d'.parentOf == d.parentOf;
    holds
  }

  lemma FollowsOn(a: Dag, b: Dag, c: Dag)
    requires Follows(a, b) && Follows(b, c)
    ensures Follows(a, c)
  {
  }

  lemma {:induction false} FailAllFollows(d: Dag, failed: string, ids: seq<string>)
    requires Keyed(d)
    ensures Keyed(FailAll(d, failed, ids)) && Follows(d, FailAll(d, failed, ids)) && SameShape(d, FailAll(d, failed, ids))
  {
    hide Follows, Keyed;
    if ids == [] {
      FollowsItself(d);
    } else {
      var m, last := FailAll(d, failed, ids[..|ids| - 1]), ids[|ids| - 1];
      FailAllFollows(d, failed, ids[..|ids| - 1]);
      if FailOne(m, failed, last) != m {
        LookupIsKeyed(m, last);
        WrittenFollows(m, m.Lookup(last).value.(error := Some(DependencyError(failed))).Moved(Failed));
        FollowsOn(d, m, FailOne(m, failed, last));
      }
    }
  }

  lemma FollowsItself(d: Dag)
    ensures Follows(d, d)
  {
  }

  lemma LookupIsKeyed(d: Dag, id: string)
    requires Keyed(d) && d.Lookup(id).Some?
    ensures d.Lookup(id).value.id == id
  {
  }

  lemma SubFailedKeeps(d: Dag, id: string)
    requires DagInv(d)
    ensures DagInv(SubTaskFailed(d, id)) && Follows(d, SubTaskFailed(d, id))
  {
    hide Family, Safe, Keyed, Follows;
    var d' := SubTaskFailed(d, id);
    if d.Parent(id) == "" {
      FollowsItself(d);
    } else {
      FailAllFollows(d, id, d.Subs(d.Parent(id)));
      FamilyStays(d, d');
      SafeLater(d, d');
    }
  }

  /** The scheduler moved on; tasks new to it are as the store knew them. */
  lemma SchedFollows(d: Dag, d': Dag, extra: set<string>)
    requires Keyed(d) && d' == d.(sched := d'.sched) && Carries(d.sched, d'.sched, extra)
    requires forall id :: id in extra && id in d'.sched.tasks ==> d'.sched.tasks[id].id == id
    requires forall id :: id in extra && id in d'.sched.tasks && id !in d.sched.tasks && id in d.store ==> SameTask(d.store[id], d'.sched.tasks[id])
    ensures Follows(d, d') && Keyed(d')
  {
  }

  lemma SchedKeeps(d: Dag, l: Label, d': Dag)
    requires DagInv(d) && DagClean(d, Sched(l)) && DagNext(d, Sched(l), d')
    ensures DagInv(d') && Follows(d, d')
  {
    hide Next, Safe, Family;
    NextCarries(d.sched, l, d'.sched);
    var extra := if l.Submit? || l.Index? then {l.rec.id} else {};
    SchedFollows(d, d', extra);
    FamilyStays(d, d');
    SafeLater(d, d');
  }

  lemma AggregatedKeeps(d: Dag, parent: string)
    requires DagInv(d)
    ensures DagInv(Aggregated(d, parent)) && Follows(d, Aggregated(d, parent))
  {
    hide Safe, Follows, Family;
    if parent in d.sched.tasks {
      WrittenFollows(d, d.sched.tasks[parent].Moved(Aggregating));
      FamilyStays(d, Aggregated(d, parent));
      SafeLater(d, Aggregated(d, parent));
    } else {
      FollowsItself(d);
    }
  }

  lemma ReadyFollows(d: Dag, ids: seq<string>, m: Dag)
    requires Keyed(d) && OnlyReadyMoved(d, ids, m)
    ensures Follows(d, m)
  {
  }

  lemma ReadyFits(d: Dag, ids: seq<string>, m: Dag, recs: seq<TaskRec>)
    requires Keyed(d) && OnlyReadyMoved(d, ids, m) && AreReady(d, ids, recs)
    ensures Fits(m.sched, recs)
  {
    forall k | 0 <= k < |recs|
      ensures !Settled(recs[k].status) && (recs[k].id in m.sched.tasks ==> FitsOne(m.sched.tasks[recs[k].id], recs[k]))
    {
      assert recs[k].id in IdSet(recs);
      assert m.Lookup(recs[k].id) == Some(recs[k]);
    }
  }

  /** The released tasks in the scheduler are the records looked up. */
  lemma ReleasedFollows(d: Dag, ids: seq<string>, m: Dag, recs: seq<TaskRec>, logs: seq<seq<Act>>, d': Dag)
    requires Keyed(d) && Keyed(m) && OnlyReadyMoved(d, ids, m) && AreReady(d, ids, recs)
    requires d' == m.(sched := d'.sched) && Released(m.sched, recs, logs, d'.sched)
    ensures Follows(d, d') && Keyed(d') && SettlesNone(d.sched, d'.sched)
    ensures forall id :: id in d'.sched.tasks && id !in d.sched.tasks ==> id in ids && d.Ready(id) && DepsDone(d, id)
    ensures forall id :: id in ids && d.Ready(id) ==> id in d'.sched.tasks
  {
    hide Released;
    ReadyFollows(d, ids, m);
    ReadyFits(d, ids, m, recs);
    ReleasedCarries(m.sched, recs, logs, d'.sched);
    forall id | id in IdSet(recs)
      ensures id in d'.sched.tasks && d'.sched.tasks[id].id == id && d.Ready(id) && DepsDone(d, id) && d'.sched.tasks[id].deps == m.Lookup(id).value.deps
      ensures !m.Lookup(id).value.status.Completed?
    {
      var k :| 0 <= k < |recs| && recs[k].id == id;
      assert FiledAs(d'.sched, recs[k]) && d.Ready(recs[k].id);
      assert m.Lookup(id) == Some(recs[k]);
    }
    SchedFollows(m, d', IdSet(recs));
    FollowsOn(d, m, d');
  }

  lemma DistinctSubs(d: Dag, p: string)
    requires Family(d)
    ensures Distinct(d.Subs(p))
  {
  }

  lemma ReleaseKeeps(d: Dag, id: string, logs: seq<seq<Act>>, d': Dag)
    requires DagInv(d) && d.Parent(id) != "" && AllDone(d, d.Parent(id)) == Some(false)
    requires SubTaskCompleted(d, id, logs, false, d')
    ensures DagInv(d') && Follows(d, d')
  {
    hide Released, Safe, Follows, AreReady, Family;
    var ids := d.Subs(d.Parent(id));
    UnblockIsExact(d, ids);
    var m := Unblock(d, ids);
    ReleasedFollows(d, ids, m, Unblocked(d, ids), logs, d');
    FamilyStays(d, d');
    SafeLater(d, d');
  }

  lemma SubDoneKeeps(d: Dag, id: string, logs: seq<seq<Act>>, done: bool, d': Dag)
    requires DagInv(d) && SubTaskCompleted(d, id, logs, done, d')
    ensures DagInv(d') && Follows(d, d')
  {
    hide DagInv, Follows;
    if d.Parent(id) == "" || AllDone(d, d.Parent(id)).None? {
      FollowsItself(d);
    } else if AllDone(d, d.Parent(id)).value {
      AggregatedKeeps(d, d.Parent(id));
    } else {
      ReleaseKeeps(d, id, logs, d');
    }
  }

  // ----- Creation -----

  ghost predicate Stored(was: map<string, TaskRec>, subs: seq<TaskRec>, store: map<string, TaskRec>) {
    var holds :=
      && (forall x :: x in store <==> x in was || x in IdSet(subs))
      && (forall x :: x in was && x !in IdSet(subs) ==> store[x] == was[x])
      && (forall k :: 0 <= k < |subs| ==> subs[k].id in store && store[subs[k].id] == subs[k]);
    holds
  }

  /** The new sub-tasks are stored and belong to the parent; everything else is as before. */
  ghost predicate SavedWell(d: Dag, parent: string, subs: seq<TaskRec>, m: Dag) {
    var holds :=
      && m.sched == d.sched
      && Stored(d.store, subs, m.store)
      && (forall x :: x in m.parentOf <==> x in d.parentOf || x in IdSet(subs))
      && (forall x :: x in m.parentOf ==> m.parentOf[x] == if x in IdSet(subs) then parent else d.parentOf[x])
      && m.children == if subs == [] then d.children else d.children[parent := d.Subs(parent) + Ids(subs)];
    holds
  }

  lemma {:induction false} SavingIsExact(d: Dag, parent: string, subs: seq<TaskRec>)
    requires Apart(subs)
    ensures SavedWell(d, parent, subs, SavedAll(d, parent, subs))
  {
    hide SavedWell, Ids, IdSet, Apart, Saved;
    if subs == [] {
      SavedNone(d, parent);
    } else {
      var front, last := subs[..|subs| - 1], subs[|subs| - 1];
      ApartFront(subs);
      SavingIsExact(d, parent, front);
      IdsGrow(front, last);
      assert subs == front + [last];
      SavedOne(d, parent, front, SavedAll(d, parent, front), last);
    }
  }

  lemma SavedNone(d: Dag, parent: string)
    ensures SavedWell(d, parent, [], d)
  {
  }

  lemma ApartFront(subs: seq<TaskRec>)
    requires Apart(subs) && subs != []
    ensures var front, last := subs[..|subs| - 1], subs[|subs| - 1];
      Apart(front) && (forall k :: 0 <= k < |front| ==> front[k].id != last.id) && Ids(front + [last]) == Ids(front) + [last.id]
  {
  }

  lemma StoredOne(was: map<string, TaskRec>, front: seq<TaskRec>, store: map<string, TaskRec>, last: TaskRec)
    requires Stored(was, front, store) && IdSet(front + [last]) == IdSet(front) + {last.id}
    requires forall k :: 0 <= k < |front| ==> front[k].id != last.id
    ensures Stored(was, front + [last], store[last.id := last])
  {
    hide IdSet;
    var subs, store' := front + [last], store[last.id := last];
    forall k | 0 <= k < |subs| ensures subs[k].id in store' && store'[subs[k].id] == subs[k] {
    }
  }

  lemma SavedOne(d: Dag, parent: string, front: seq<TaskRec>, m: Dag, last: TaskRec)
    requires SavedWell(d, parent, front, m) && IdSet(front + [last]) == IdSet(front) + {last.id}
    requires Ids(front + [last]) == Ids(front) + [last.id] && forall k :: 0 <= k < |front| ==> front[k].id != last.id
    ensures SavedWell(d, parent, front + [last], Saved(m, parent, last))
  {
    hide Stored, IdSet, Ids;
    StoredOne(d.store, front, m.store, last);
    ChildrenOne(d, parent, front, m, last);
  }

  lemma ChildrenOne(d: Dag, parent: string, front: seq<TaskRec>, m: Dag, last: TaskRec)
    requires m.children == if front == [] then d.children else d.children[parent := d.Subs(parent) + Ids(front)]
    requires Ids(front + [last]) == Ids(front) + [last.id]
    ensures Saved(m, parent, last).children == d.children[parent := d.Subs(parent) + Ids(front + [last])]
  {
    assert m.Subs(parent) == d.Subs(parent) + Ids(front);
    assert d.Subs(parent) + (Ids(front) + [last.id]) == (d.Subs(parent) + Ids(front)) + [last.id];
  }

  lemma SubIdsDiffer(parent: string, j: nat, k: nat)
    requires SubID(parent, j) == SubID(parent, k)
    ensures j == k
  {
    var prefix := parent + "-sub-";
    assert SubID(parent, j)[|prefix|..] == Strings.Decimal(j);
    assert SubID(parent, k)[|prefix|..] == Strings.Decimal(k);
    Strings.DecimalIsInjective(j, k);
  }

  /** Sub-task IDs never collide with each other or with the parent. */
  lemma NewSubsApart(parent: TaskRec, plans: seq<Plan>, now: int, n: nat)
    requires n <= |plans|
    ensures Apart(NewSubs(parent, plans, now, n))
    ensures forall k :: 0 <= k < n ==> NewSubs(parent, plans, now, n)[k].id == SubID(parent.id, k + 1) != parent.id
  {
    var subs := NewSubs(parent, plans, now, n);
    forall i, j | 0 <= i < j < |subs| ensures subs[i].id != subs[j].id {
      if subs[i].id == subs[j].id {
        SubIdsDiffer(parent.id, i + 1, j + 1);
      }
    }
    forall k | 0 <= k < n ensures subs[k].id == SubID(parent.id, k + 1) != parent.id {
      assert |SubID(parent.id, k + 1)| > |parent.id|;
    }
  }

  lemma {:induction false} FittingAreFree(store: map<string, TaskRec>, parent: string, k: nat, n: nat)
    requires k <= n
    ensures forall j :: k < j <= Fitting(store, parent, k, n) ==> SubID(parent, j) !in store
    decreases n - k
  {
    if k < n && SubID(parent, k + 1) !in store {
      FittingAreFree(store, parent, k + 1, n);
    }
  }

  /** The records to be saved are new to the store and to the scheduler. */
  ghost predicate New(d: Dag, subs: seq<TaskRec>) {
    var holds :=
      forall k :: 0 <= k < |subs| ==> subs[k].id !in d.store && subs[k].id !in d.sched.tasks;
    holds
  }

  lemma FittingAreNew(d: Dag, parent: TaskRec, plans: seq<Plan>, now: int, n: nat)
    requires n == Fitting(d.store, parent.id, 0, |plans|)
    requires forall k :: 1 <= k <= |plans| && SubID(parent.id, k) in d.sched.tasks ==> SubID(parent.id, k) in d.store
    ensures New(d, NewSubs(parent, plans, now, n))
  {
    FittingAreFree(d.store, parent.id, 0, |plans|);
    var subs := NewSubs(parent, plans, now, n);
    forall k | 0 <= k < |subs| ensures subs[k].id !in d.store && subs[k].id !in d.sched.tasks {
      assert subs[k].id == SubID(parent.id, k + 1);
    }
  }

  lemma SavedFollows(d: Dag, parent: string, subs: seq<TaskRec>, m: Dag)
    requires Keyed(d) && SavedWell(d, parent, subs, m) && New(d, subs)
    ensures Follows(d, m) && Keyed(m) && forall x :: x !in IdSet(subs) ==> m.Lookup(x) == d.Lookup(x)
    ensures forall k :: 0 <= k < |subs| ==> m.Lookup(subs[k].id) == Some(subs[k])
  {
    forall x | x in IdSet(subs) ensures x !in d.store && x !in d.sched.tasks && m.store[x].id == x {
      var k :| 0 <= k < |subs| && subs[k].id == x;
    }
  }

  lemma SavedFamily(d: Dag, parent: string, subs: seq<TaskRec>, m: Dag)
    requires Family(d) && SavedWell(d, parent, subs, m) && New(d, subs) && Apart(subs)
    ensures Family(m)
  {
    hide Stored, ChildrenOf, IdSet, Ids;
    StoredIds(d.store, subs, m.store);
    if subs != [] {
      var ids := Ids(subs);
      IdsAndIdSet(subs);
      NewIsUnknown(d, subs);
      forall p | p in m.children ensures ChildrenOf(m, p) {
        if p == parent { JoinedFamily(d, p, ids, m); } else { OtherFamily(d, p, m); }
      }
      forall id | id in m.parentOf ensures id in m.Subs(m.parentOf[id]) {
        if id !in IdSet(subs) { assert id in d.Subs(d.parentOf[id]); }
      }
    } else {
      NoIds();
      FamilyStays(d, m);
    }
  }

  lemma NoIds()
    ensures IdSet([]) == {}
  {
  }

  /** The children of p are different tasks whose parent is p. */
  ghost predicate ChildrenOf(d: Dag, p: string) {
    var holds :=
      Distinct(d.Subs(p)) && forall id :: id in d.Subs(p) ==> id in d.parentOf && d.parentOf[id] == p;
    holds
  }

  lemma StoredIds(was: map<string, TaskRec>, subs: seq<TaskRec>, store: map<string, TaskRec>)
    requires Stored(was, subs, store)
    ensures forall x :: x in store <==> x in was || x in IdSet(subs)
  {
  }

  lemma IdsAndIdSet(subs: seq<TaskRec>)
    ensures forall x :: x in Ids(subs) <==> x in IdSet(subs)
    ensures Apart(subs) ==> Distinct(Ids(subs))
  {
    var ids := Ids(subs);
    forall x | x in IdSet(subs) ensures x in ids {
      var k :| 0 <= k < |subs| && subs[k].id == x;
      assert ids[k] == x;
    }
  }

  lemma NewIsUnknown(d: Dag, subs: seq<TaskRec>)
    requires New(d, subs) && Family(d)
    ensures forall x :: x in IdSet(subs) ==> x !in d.parentOf
  {
    forall x | x in IdSet(subs) ensures x !in d.store {
      var k :| 0 <= k < |subs| && subs[k].id == x;
    }
  }

  lemma OtherFamily(d: Dag, p: string, m: Dag)
    requires ChildrenOf(d, p) && m.Subs(p) == d.Subs(p)
    requires forall x :: x in d.parentOf ==> x in m.parentOf && m.parentOf[x] == d.parentOf[x]
    ensures ChildrenOf(m, p)
  {
  }

  lemma JoinedFamily(d: Dag, p: string, ids: seq<string>, m: Dag)
    requires Family(d) && Distinct(ids) && m.Subs(p) == d.Subs(p) + ids
    requires forall x :: x in ids ==> x !in d.parentOf && x in m.parentOf && m.parentOf[x] == p
    requires forall x :: x in d.parentOf ==> x in m.parentOf && m.parentOf[x] == d.parentOf[x]
    ensures ChildrenOf(m, p)
  {
    var was := d.Subs(p);
    assert ChildrenOf(d, p);
    forall x | x in was ensures x in d.parentOf && x !in ids {
    }
    var all := was + ids;
    forall i, j | 0 <= i < j < |all| ensures all[i] != all[j] {
      if i < |was| <= j {
        assert all[i] in was && all[j] in ids;
      }
    }
  }

  lemma {:induction false} UnblockedsAre(subs: seq<TaskRec>)
    requires Apart(subs)
    ensures Apart(Unblockeds(subs))
    ensures forall t :: t in Unblockeds(subs) <==> t in subs && !t.status.Blocked?
  {
    if subs != [] {
      var front, last := subs[..|subs| - 1], subs[|subs| - 1];
      assert subs == front + [last];
      UnblockedsAre(front);
      forall k | 0 <= k < |Unblockeds(front)| ensures Unblockeds(front)[k].id != last.id {
        assert Unblockeds(front)[k] in front;
        var j :| 0 <= j < |front| && front[j] == Unblockeds(front)[k];
        assert front[j] == subs[j];
      }
    }
  }

  /** Sub-tasks without dependencies go to the scheduler at once; the others stay in the store. */
  lemma ReleasedAtOnce(m: Dag, subs: seq<TaskRec>, logs: seq<seq<Act>>, d': Dag)
    requires Keyed(m) && Apart(subs)
    requires forall k :: 0 <= k < |subs| ==> subs[k].id !in m.sched.tasks && m.Lookup(subs[k].id) == Some(subs[k]) && !Settled(subs[k].status)
    requires d' == m.(sched := d'.sched) && Released(m.sched, Unblockeds(subs), logs, d'.sched)
    ensures Follows(m, d') && Keyed(d') && SettlesNone(m.sched, d'.sched)
    ensures forall id :: id in d'.sched.tasks && id !in m.sched.tasks ==> exists t :: t in subs && t.id == id && !t.status.Blocked?
    ensures forall t :: t in subs && !t.status.Blocked? ==> t.id in d'.sched.tasks
  {
    hide Released;
    var now := Unblockeds(subs);
    UnblockedsAre(subs);
    forall k | 0 <= k < |now| ensures now[k].id !in m.sched.tasks && m.Lookup(now[k].id) == Some(now[k]) && !Settled(now[k].status) {
      assert now[k] in subs;
    }
    ReleasedCarries(m.sched, now, logs, d'.sched);
    forall id | id in IdSet(now)
      ensures id in d'.sched.tasks && d'.sched.tasks[id].id == id && d'.sched.tasks[id].deps == m.Lookup(id).value.deps
      ensures !m.Lookup(id).value.status.Completed? && exists t :: t in subs && t.id == id && !t.status.Blocked?
    {
      var k :| 0 <= k < |now| && now[k].id == id;
      assert FiledAs(d'.sched, now[k]) && now[k] in subs;
    }
    SchedFollows(m, d', IdSet(now));
    forall t | t in subs && !t.status.Blocked? ensures t.id in d'.sched.tasks {
      var k :| 0 <= k < |now| && now[k] == t;
      assert FiledAs(d'.sched, now[k]);
    }
  }

  /** New sub-tasks the scheduler knows have no dependencies. */
  lemma SafeAfterCreate(d: Dag, subs: seq<TaskRec>, d': Dag)
    requires Safe(d) && Follows(d, d') && New(d, subs)
    requires forall id :: id in d'.parentOf ==> id in d.parentOf || id in IdSet(subs)
    requires forall k :: 0 <= k < |subs| ==> d'.Lookup(subs[k].id).Some? && d'.Lookup(subs[k].id).value.deps == subs[k].deps
    requires forall t :: t in subs && !t.status.Blocked? ==> t.deps == []
    requires forall id :: id in d'.sched.tasks && id !in d.sched.tasks ==> exists t :: t in subs && t.id == id && !t.status.Blocked?
    ensures Safe(d')
  {
    hide Follows;
    forall id | id in d'.parentOf && id in d'.sched.tasks ensures DepsDone(d', id) {
      if id in d.sched.tasks {
        assert id !in IdSet(subs);
        DepsStayDone(d, d', id);
      } else {
        var t :| t in subs && t.id == id && !t.status.Blocked?;
        var k :| 0 <= k < |subs| && subs[k] == t;
      }
    }
  }

  lemma SavedKeeps(d: Dag, parent: TaskRec, plans: seq<Plan>, now: int, n: nat)
    requires DagInv(d) && n == Fitting(d.store, parent.id, 0, |plans|)
    requires forall k :: 1 <= k <= |plans| && SubID(parent.id, k) in d.sched.tasks ==> SubID(parent.id, k) in d.store
    ensures var subs := NewSubs(parent, plans, now, n);
      var m := SavedAll(d, parent.id, subs);
      && New(d, subs) && SavedWell(d, parent.id, subs, m) && DagInv(m) && Follows(d, m)
      && (IsCurrent(d, parent) ==> IsCurrent(m, parent))
      && forall k :: 0 <= k < |subs| ==> m.Lookup(subs[k].id) == Some(subs[k])
  {
    hide Follows, Family, Safe, Keyed, New, SavedWell, IdSet, NewSubs, SavedAll;
    var subs := NewSubs(parent, plans, now, n);
    var m := SavedAll(d, parent.id, subs);
    NewSubsApart(parent, plans, now, n);
    FittingAreNew(d, parent, plans, now, n);
    SavingIsExact(d, parent.id, subs);
    SavedFollows(d, parent.id, subs, m);
    SavedFamily(d, parent.id, subs, m);
    SavedSafe(d, parent.id, subs, m);
    NotAmong(subs, parent.id);
  }

  /** Nothing was released yet. */
  lemma SavedSafe(d: Dag, parent: string, subs: seq<TaskRec>, m: Dag)
    requires Safe(d) && Follows(d, m) && SavedWell(d, parent, subs, m) && New(d, subs)
    ensures Safe(m)
  {
    hide Follows, DepsDone, Stored;
    forall id | id in m.parentOf && id in m.sched.tasks ensures DepsDone(m, id) {
      assert id !in IdSet(subs);
      DepsStayDone(d, m, id);
    }
  }

  lemma NotAmong(subs: seq<TaskRec>, id: string)
    requires forall k :: 0 <= k < |subs| ==> subs[k].id != id
    ensures id !in IdSet(subs)
  {
  }

  lemma ParentUpdated(m: Dag, parent: TaskRec, subs: seq<TaskRec>)
    requires DagInv(m) && IsCurrent(m, parent)
    requires forall k :: 0 <= k < |subs| ==> subs[k].id != parent.id && m.Lookup(subs[k].id) == Some(subs[k])
    ensures var w := Written(m, parent.(subTasks := Ids(subs)));
      && Follows(m, w) && Keyed(w) && SameShape(m, w) && SettlesNone(m.sched, w.sched)
      && forall k :: 0 <= k < |subs| ==> w.Lookup(subs[k].id) == Some(subs[k])
  {
    hide Follows, Keyed, Safe;
    if m.Lookup(parent.id).Some? {
      WrittenFollows(m, parent.(subTasks := Ids(subs)));
    } else {
      FollowsItself(m);
    }
  }

  /** All sub-tasks are saved: the parent is updated and the unblocked ones are released. */
  lemma SubmitsKeep(d: Dag, parent: TaskRec, subs: seq<TaskRec>, m: Dag, logs: seq<seq<Act>>, d': Dag)
    requires DagInv(d) && DagInv(m) && Follows(d, m) && New(d, subs) && Apart(subs) && SavedWell(d, parent.id, subs, m) && IsCurrent(m, parent)
    requires forall k :: 0 <= k < |subs| ==> subs[k].id != parent.id && m.Lookup(subs[k].id) == Some(subs[k]) && Fresh(subs[k])
    requires var w := Written(m, parent.(subTasks := Ids(subs)));
      d' == w.(sched := d'.sched) && Released(w.sched, Unblockeds(subs), logs, d'.sched)
    ensures DagInv(d') && Follows(d, d') && SettlesNone(d.sched, d'.sched)
    ensures forall t :: t in subs && !t.status.Blocked? ==> t.id in d'.sched.tasks
  {
    hide Follows, Released, Keyed, Safe, Family, SavedWell, IsCurrent, Written, SettlesNone;
    var w := Written(m, parent.(subTasks := Ids(subs)));
    OnlyTheseAdded(d, parent.id, subs, m);
    ParentUpdated(m, parent, subs);
    ReleasedAtOnce(w, subs, logs, d');
    FollowsOn(d, m, w);
    FollowsOn(d, w, d');
    SettlesOn(m.sched, w.sched, d'.sched);
    FollowedDeps(w, d', subs);
    FamilyStays(m, d');
    SafeAfterCreate(d, subs, d');
  }

  /** As NewTask made it and Transition(Blocked) left it. */
  predicate Fresh(t: TaskRec) {
    if t.deps == [] then t.status.Created? else t.status.Blocked?
  }

  lemma CreateKeeps(d: Dag, parent: TaskRec, plans: seq<Plan>, now: int, logs: seq<seq<Act>>, ok: bool, d': Dag)
    requires DagInv(d) && DagClean(d, Create(parent, plans, now, logs, ok))
    requires SubTasksCreated(d, parent, plans, now, logs, ok, d')
    ensures DagInv(d') && Follows(d, d') && SettlesNone(d.sched, d'.sched)
  {
    hide Follows, Released, DagInv, SavedWell, IsCurrent, New, Apart;
    var n := Fitting(d.store, parent.id, 0, |plans|);
    var subs := NewSubs(parent, plans, now, n);
    SavedKeeps(d, parent, plans, now, n);
    OnlyTheseAdded(d, parent.id, subs, SavedAll(d, parent.id, subs));
    if plans != [] && n == |plans| {
      NewSubsApart(parent, plans, now, n);
      SubmitsKeep(d, parent, subs, SavedAll(d, parent.id, subs), logs, d');
    }
  }

  /** The record of the sub-task made from the k-th plan. */
  predicate MadeFrom(t: TaskRec, parent: TaskRec, k: nat, plan: Plan, now: int) {
    t == TaskRec(parent.id + "-sub-" + Strings.Decimal(k), if plan.dependsOn == [] then Created else Blocked, plan.role, plan.skills,
                 parent.priority, parent.id, [], plan.dependsOn, "", [], now, 0, "", None, None)
  }

  /** The IDs of n sub-tasks, numbered from 1. */
  function Numbered(parent: string, n: nat): seq<string> {
    seq(n, k requires 0 <= k < n => parent + "-sub-" + Strings.Decimal(k + 1))
  }

  /** What creation leaves in the store and in the relations, plan by plan; it succeeds exactly if there are plans and all IDs are free. */
  ghost predicate CreationShows(d: Dag, parent: TaskRec, plans: seq<Plan>, now: int, ok: bool, d': Dag) {
    var holds :=
      var ids := Numbered(parent.id, |plans|);
      && (ok <==> plans != [] && forall id :: id in ids ==> id !in d.store)
      && (ok ==> forall k :: 0 <= k < |plans| ==>
            && ids[k] in d'.store && MadeFrom(d'.store[ids[k]], parent, k + 1, plans[k], now)
            && ids[k] in d'.parentOf && d'.parentOf[ids[k]] == parent.id)
      && (ok ==> parent.id in d'.children && d'.children[parent.id] == d.Subs(parent.id) + ids)
      && (!ok ==> d'.sched == d.sched);
    holds
  }

  lemma NewSubIs(parent: TaskRec, plans: seq<Plan>, now: int, n: nat)
    requires n <= |plans|
    ensures forall k :: 0 <= k < n ==> MadeFrom(NewSubs(parent, plans, now, n)[k], parent, k + 1, plans[k], now)
  {
  }

  lemma SubIdsAre(parent: TaskRec, plans: seq<Plan>, now: int, n: nat)
    requires n <= |plans|
    ensures Ids(NewSubs(parent, plans, now, n)) == Numbered(parent.id, n)
  {
  }

  lemma {:induction false} FittingAllIff(store: map<string, TaskRec>, parent: string, k: nat, n: nat)
    requires k <= n
    ensures Fitting(store, parent, k, n) == n <==> forall j :: k < j <= n ==> SubID(parent, j) !in store
    decreases n - k
  {
    hide SubID;
    if k < n {
      FittingAllIff(store, parent, k + 1, n);
    }
  }

  /** All IDs are free exactly if all sub-tasks fit. */
  lemma FreeIff(store: map<string, TaskRec>, parent: string, n: nat)
    ensures Fitting(store, parent, 0, n) == n <==>
      forall id :: id in Numbered(parent, n) ==> id !in store
  {
    FittingAllIff(store, parent, 0, n);
    var ids := Numbered(parent, n);
    forall j | 0 < j <= n ensures SubID(parent, j) in ids {
      assert ids[j - 1] == SubID(parent, j);
    }
    forall id | id in ids ensures exists j :: 0 < j <= n && id == SubID(parent, j) {
      var k :| 0 <= k < n && ids[k] == id;
      assert id == SubID(parent, k + 1);
    }
  }

  /** The sub-tasks as they are stored, and the parent that lists them. */
  lemma SavedShows(d: Dag, parent: TaskRec, subs: seq<TaskRec>)
    requires Apart(subs) && subs != [] && forall k :: 0 <= k < |subs| ==> subs[k].id != parent.id
    ensures var w := Written(SavedAll(d, parent.id, subs), parent.(subTasks := Ids(subs)));
      && parent.id in w.children && w.children[parent.id] == d.Subs(parent.id) + Ids(subs)
      && forall k :: 0 <= k < |subs| ==>
           && subs[k].id in w.store && w.store[subs[k].id] == subs[k]
           && subs[k].id in w.parentOf && w.parentOf[subs[k].id] == parent.id
  {
    hide SavedAll, Ids, Apart;
    SavingIsExact(d, parent.id, subs);
    forall k | 0 <= k < |subs| ensures subs[k].id in IdSet(subs) {
    }
  }

  lemma CreationIs(d: Dag, parent: TaskRec, plans: seq<Plan>, now: int, logs: seq<seq<Act>>, ok: bool, d': Dag)
    requires SubTasksCreated(d, parent, plans, now, logs, ok, d')
    ensures CreationShows(d, parent, plans, now, ok, d')
  {
    hide Released, NewSub, NewSubs, Fitting, SavedAll, Apart, SubID, MadeFrom, Ids, Written;
    var n := Fitting(d.store, parent.id, 0, |plans|);
    var subs := NewSubs(parent, plans, now, n);
    FreeIff(d.store, parent.id, |plans|);
    NewSubsApart(parent, plans, now, n);
    SavingIsExact(d, parent.id, subs);
    if plans != [] && n == |plans| {
      NewSubIs(parent, plans, now, n);
      SubIdsAre(parent, plans, now, n);
      SavedShows(d, parent, subs);
      IdsAt(subs);
    }
  }

  lemma IdsAt(subs: seq<TaskRec>)
    ensures forall k :: 0 <= k < |subs| ==> Ids(subs)[k] == subs[k].id
  {
  }

  lemma OnlyTheseAdded(d: Dag, parent: string, subs: seq<TaskRec>, m: Dag)
    requires SavedWell(d, parent, subs, m)
    ensures m.sched == d.sched && forall id :: id in m.parentOf ==> id in d.parentOf || id in IdSet(subs)
  {
  }

  lemma FollowedDeps(w: Dag, d': Dag, subs: seq<TaskRec>)
    requires Follows(w, d') && forall k :: 0 <= k < |subs| ==> w.Lookup(subs[k].id) == Some(subs[k])
    ensures forall k :: 0 <= k < |subs| ==> d'.Lookup(subs[k].id).Some? && d'.Lookup(subs[k].id).value.deps == subs[k].deps
  {
  }

  // ----- Runs -----

  lemma DagStepKeeps(d: Dag, l: DagLabel, d': Dag)
    requires DagInv(d) && DagClean(d, l) && DagNext(d, l, d')
    ensures DagInv(d') && Follows(d, d')
  {
    hide DagInv, Follows;
    match l
    case Sched(l) => SchedKeeps(d, l, d');
    case Create(parent, plans, now, logs, ok) => CreateKeeps(d, parent, plans, now, logs, ok, d');
    case SubDone(id, logs, done) => SubDoneKeeps(d, id, logs, done, d');
    case SubFailed(id) => SubFailedKeeps(d, id);
  }

  datatype DagRun = DagRun(states: seq<Dag>, labels: seq<DagLabel>)

  ghost predicate IsDagRun(r: DagRun) {
    && |r.states| == |r.labels| + 1 && DagInv(r.states[0])
    && forall i :: 0 <= i < |r.labels| ==> DagNext(r.states[i], r.labels[i], r.states[i + 1]) && DagClean(r.states[i], r.labels[i])
  }

  /** An engine over an empty store and an idle scheduler. */
  lemma FreshDagInv(sched: State)
    requires sched.tasks == map[]
    ensures DagInv(Dag(sched, map[], map[], map[]))
  {
  }

  lemma {:induction false} DagRunKeeps(r: DagRun, k: nat)
    requires IsDagRun(r) && k < |r.states|
    ensures DagInv(r.states[k])
  {
    hide DagInv, DagNext;
    if k > 0 {
      DagRunKeeps(r, k - 1);
      DagStepKeeps(r.states[k - 1], r.labels[k - 1], r.states[k]);
    }
  }

  /** In every state of a run, every sub-task the scheduler knows has all its dependencies Completed. */
  lemma DependenciesFirst(r: DagRun, k: nat, id: string, dep: string)
    requires IsDagRun(r) && k < |r.states|
    requires id in r.states[k].parentOf && id in r.states[k].sched.tasks && dep in r.states[k].sched.tasks[id].deps
    ensures r.states[k].Done(dep)
  {
    DagRunKeeps(r, k);
    assert DepsDone(r.states[k], id);
  }

  /** A task found Completed is found Completed in every later state, with the same dependencies. */
  lemma {:induction false} CompletedForGood(r: DagRun, i: nat, k: nat, id: string)
    requires IsDagRun(r) && i <= k < |r.states| && r.states[i].Done(id)
    ensures r.states[k].Done(id) && r.states[k].Lookup(id).value.deps == r.states[i].Lookup(id).value.deps
  {
    hide DagInv, DagNext;
    if i < k {
      CompletedForGood(r, i, k - 1, id);
      DagRunKeeps(r, k - 1);
      DagStepKeeps(r.states[k - 1], r.labels[k - 1], r.states[k]);
    }
  }
}
