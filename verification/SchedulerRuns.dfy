/**
 Whole runs of the scheduler.  The queue stays sound in every run that submits no task
 while it waits; the books stay right in clean runs, and the exact steps that break them
 are given.
 */
module SchedulerRuns {
  import opened Tasks
  import opened DequeueOrder
  import opened SchedulerSpec
  import opened SchedulerInvariant

  datatype Run = Run(states: seq<State>, labels: seq<Label>)

  ghost predicate IsRun(r: Run) {
    && |r.states| == |r.labels| + 1
    && forall i :: 0 <= i < |r.labels| ==> Next(r.states[i], r.labels[i], r.states[i + 1])
  }

  // ----- The queue -----

  /** The only thing asked for the queue's sake: what is filed or submitted does not wait in it already. */
  predicate FreshId(s: State, l: Label) {
    l.Submit? || l.Index? ==> l.rec.id !in TicketIds(s.queue)
  }

  ghost predicate IsFreshRun(r: Run) {
    var holds :=
      && IsRun(r) && QueueSound(r.states[0])
      && forall i :: 0 <= i < |r.labels| ==> FreshId(r.states[i], r.labels[i]);
    holds
  }

  /** The state in which a step calls TryDispatch, if it does. */
  function CallState(s: State, l: Label): Option<State> {
    match l
    case Dispatch(_) => Some(s)
    case Submit(rec, _) =>
      var queued := s.(tasks := s.tasks[rec.id := rec.Moved(Queued)]);
      if queued.tasks[rec.id].status.Queued? && |s.queue| < s.cfg.maxLen then Some(Requeued(queued, rec.id)) else None
    case _ => None
  }

  lemma SubmitEnters(s: State, rec: TaskRec, log: seq<Act>)
    requires QueueSound(s) && FreshId(s, Submit(rec, log))
    ensures QueueSound(s.(tasks := s.tasks[rec.id := rec])) && QueueSound(s.(tasks := s.tasks[rec.id := rec.Moved(Queued)]))
    ensures CallState(s, Submit(rec, log)).Some? ==> QueueSound(CallState(s, Submit(rec, log)).value)
  {
    hide QueueSound, Requeued;
    var r := rec.Moved(Queued);
    TasksOnly(s, rec.id, rec);
    TasksOnly(s, rec.id, r);
    if r.status.Queued? {
      RequeueKeepsQueue(s.(tasks := s.tasks[rec.id := r]), rec.id);
    }
  }

  lemma TasksOnly(s: State, id: string, rec: TaskRec)
    requires QueueSound(s)
    requires id in TicketIds(s.queue) && id in s.tasks ==> MayWait(rec.status) && rec.priority == s.tasks[id].priority
    ensures QueueSound(s.(tasks := s.tasks[id := rec]))
  {
    QueueAllows(s, id, rec, s.clients);
    assert s.(tasks := s.tasks[id := rec]) == s.(tasks := s.tasks[id := rec], clients := s.clients);
  }

  lemma ClientsOnly(s: State, clients: map<string, Client>)
    requires QueueSound(s)
    ensures QueueSound(s.(clients := clients))
  {
    var s' := s.(clients := clients);
    assert forall i :: 0 <= i < |s'.queue| ==> Queueable(s, s.queue[i]);
  }

  lemma SubmitKeepsQueue(s: State, rec: TaskRec, log: seq<Act>, s': State)
    requires QueueSound(s) && FreshId(s, Submit(rec, log)) && Submitted(s, rec, log, s')
    ensures QueueSound(s')
  {
    hide QueueSound, Requeued, Dispatched;
    SubmitEnters(s, rec, log);
    if CallState(s, Submit(rec, log)).Some? {
      DispatchedKeepsQueue(CallState(s, Submit(rec, log)).value, log, s');
    }
  }

  lemma CompleteKeepsQueue(s: State, id: string, result: Option<string>)
    requires QueueSound(s)
    ensures QueueSound(AfterCompletion(s, id, result))
  {
    hide QueueSound;
    var s' := AfterCompletion(s, id, result);
    QueuedMayWait(s);
    if s' != s {
      QueueAllows(s, id, s'.tasks[id], s'.clients);
    }
  }

  /** A failed task returns to the queue only if it is reassigned; it was running, so it did not wait. */
  lemma FailKeepsQueue(s: State, id: string, error: Option<string>, history: seq<Attempt>)
    requires QueueSound(s)
    ensures QueueSound(AfterFailure(s, id, error, history))
  {
    hide QueueSound, Requeued, Escalate, Decremented;
    QueuedMayWait(s);
    if AcceptsFailure(s, id) {
      var s1 := FailureRecorded(s, id, error, history);
      QueueAllows(s, id, s1.tasks[id], s1.clients);
      VerdictKeepsQueue(s1, id, Escalate(s1, s1.tasks[id]));
    }
  }

  lemma VerdictKeepsQueue(s: State, id: string, v: Verdict)
    requires QueueSound(s) && id in s.tasks && s.tasks[id].status.Failed? && id !in TicketIds(s.queue)
    ensures QueueSound(VerdictApplied(s, id, v))
  {
    hide QueueSound, Requeued;
    var f := s.tasks[id];
    match v
    case Reassign =>
      var r := f.(escalations := f.escalations + 1, client := "").Moved(Queued);
      TasksOnly(s, id, r);
      RequeueKeepsQueue(s.(tasks := s.tasks[id := r]), id);
    case Terminate =>
    case ToAdmin => TasksOnly(s, id, f.Moved(Status.Escalated));
  }

  /** Every handler keeps the queue sound, whatever the loads are. */
  lemma StepKeepsQueue(s: State, l: Label, s': State)
    requires QueueSound(s) && FreshId(s, l) && Next(s, l, s')
    ensures QueueSound(s')
  {
    hide QueueSound, Dispatched, Submitted, AfterFailure, AfterCompletion;
    QueuedMayWait(s);
    match l
    case Submit(rec, log) => SubmitKeepsQueue(s, rec, log, s');
    case Index(rec) => TasksOnly(s, rec.id, rec);
    case Dispatch(log) => DispatchedKeepsQueue(s, log, s');
    case Complete(id, result) => CompleteKeepsQueue(s, id, result);
    case Fail(id, error, history) => FailKeepsQueue(s, id, error, history);
    case TimeOut(id, error) => if s' != s { QueueAllows(s, id, s'.tasks[id], s'.clients); }
    case Pause(id, reason) => if s' != s { TasksOnly(s, id, s'.tasks[id]); }
    case Register(c) => ClientsOnly(s, s'.clients);
    case Unregister(c) => ClientsOnly(s, s'.clients);
    case Report(c, state) => ClientsOnly(s, s'.clients);
  }

  lemma {:induction false} RunKeepsQueue(r: Run, k: nat)
    requires IsFreshRun(r) && k < |r.states|
    ensures QueueSound(r.states[k])
  {
    hide QueueSound, Next;
    if k > 0 {
      RunKeepsQueue(r, k - 1);
      StepKeepsQueue(r.states[k - 1], r.labels[k - 1], r.states[k]);
    }
  }

  // ----- The books -----

  /** A completion that arrives after a failure report already released the slot. */
  predicate ReleasesTwice(s: State, id: string) {
    && id in s.tasks && s.tasks[id].status.Failed?
    && s.tasks[id].client in s.clients && s.clients[s.tasks[id].client].load > 0
  }

  /** The registered load is the load the client really has, and within its capacity. */
  ghost predicate RegistersTruly(s: State, c: Client) {
    var holds :=
      c.load == |Slots(s.tasks, c.id)| && 0 <= c.load <= c.capacity;
    holds
  }

  /** A task is filed or submitted while it occupies no slot. */
  predicate Slotless(s: State, rec: TaskRec) {
    var holds :=
      !rec.HoldsSlot() && (rec.id in s.tasks ==> !s.tasks[rec.id].HoldsSlot()) && rec.escalations <= s.cfg.maxEscalations;
    holds
  }

  /** What the environment owes for the books' sake: true registrations, and no completion of a task reported as failed. */
  ghost predicate Clean(s: State, l: Label) {
    && FreshId(s, l)
    && match l
       case Submit(rec, _) => Slotless(s, rec)
       case Index(rec) => Slotless(s, rec)
       case Complete(id, _) => !ReleasesTwice(s, id)
       case Register(c) => RegistersTruly(s, c)
       case _ => true
  }

  lemma FreesKeepsBooks(s: State, id: string, rec: TaskRec)
    requires Books(s) && id in s.tasks && s.tasks[id].HoldsSlot() && !rec.HoldsSlot()
    requires rec.id == id && rec.escalations <= s.cfg.maxEscalations
    ensures Books(s.(tasks := s.tasks[id := rec], clients := Decremented(s.clients, s.tasks[id].client)))
  {
    FreesSlot(s, id, rec);
  }

  lemma KeepsBooks(s: State, id: string, rec: TaskRec)
    requires Books(s)
    requires if id in s.tasks && s.tasks[id].HoldsSlot() then rec.HoldsSlot() && rec.client == s.tasks[id].client else !rec.HoldsSlot()
    requires rec.id == id && rec.escalations <= s.cfg.maxEscalations
    ensures Books(s.(tasks := s.tasks[id := rec]))
  {
    KeepsSlot(s, id, rec);
  }

  lemma SubmitKeepsBooks(s: State, rec: TaskRec, log: seq<Act>, s': State)
    requires Inv(s) && Clean(s, Submit(rec, log)) && Submitted(s, rec, log, s')
    ensures Books(s')
  {
    hide Books, QueueSound, Dispatched, Requeued;
    var r := rec.Moved(Queued);
    KeepsBooks(s, rec.id, rec);
    KeepsBooks(s, rec.id, r);
    if CallState(s, Submit(rec, log)).Some? {
      var queued := s.(tasks := s.tasks[rec.id := r]);
      var call := Requeued(queued, rec.id);
      SubmitEnters(s, rec, log);
      RequeuedAs(queued, rec.id);
      BooksIgnoreQueue(queued, call.queue);
      DispatchedKeepsInv(call, log, s');
    }
  }

  lemma CompleteKeepsBooks(s: State, id: string, result: Option<string>)
    requires Books(s) && !ReleasesTwice(s, id)
    ensures Books(AfterCompletion(s, id, result))
  {
    hide Books;
    if id in s.tasks {
      var t, s' := s.tasks[id], AfterCompletion(s, id, result);
      BooksKey(s, id);
      if t.HoldsSlot() {
        FreesKeepsBooks(s, id, s'.tasks[id]);
      } else if t.status.Failed? {
        KeepsBooks(s, id, s'.tasks[id]);
        assert s' == s.(tasks := s.tasks[id := s'.tasks[id]]);
      }
    }
  }

  lemma BooksKey(s: State, id: string)
    requires Books(s) && id in s.tasks
    ensures s.tasks[id].id == id && s.tasks[id].escalations <= s.cfg.maxEscalations
  {
  }

  /** The accounting survives a completion exactly when it does not release the same slot twice. */
  lemma CompletionAccounts(s: State, id: string, result: Option<string>)
    requires Books(s)
    ensures Accounted(AfterCompletion(s, id, result)) <==> !ReleasesTwice(s, id)
  {
    if ReleasesTwice(s, id) {
      var c, s' := s.tasks[id].client, AfterCompletion(s, id, result);
      SlotsAfter(s.tasks, id, s'.tasks[id], c);
      assert Slots(s'.tasks, c) == Slots(s.tasks, c);
      assert s'.clients[c].load == s.clients[c].load - 1;
    } else {
      CompleteKeepsBooks(s, id, result);
    }
  }

  /** The client whose load a handler lowers, if it lowers one. */
  function Lowered(s: State, l: Label): Option<string> {
    match l
    case Complete(id, _) =>
      if id in s.tasks && (s.tasks[id].HoldsSlot() || s.tasks[id].status.Failed?) then Some(s.tasks[id].client) else None
    case Fail(id, _, _) => if AcceptsFailure(s, id) then Some(s.tasks[id].client) else None
    case TimeOut(id, _) => if AcceptsFailure(s, id) then Some(s.tasks[id].client) else None
    case _ => None
  }

  /**
   A handler finds the load it lowers at zero, so that the clamp applies, exactly when a
   failed task is completed whose client has nothing to do.
   */
  lemma ClampFiresIff(s: State, l: Label)
    requires Books(s) && Lowered(s, l).Some? && Lowered(s, l).value in s.clients
    ensures s.clients[Lowered(s, l).value].load == 0 <==>
      l.Complete? && s.tasks[l.id].status.Failed? && Slots(s.tasks, Lowered(s, l).value) == {}
  {
    var c := Lowered(s, l).value;
    if s.tasks[l.id].HoldsSlot() {
      assert l.id in Slots(s.tasks, c);
    }
  }

  /** A registration keeps the accounting exactly when it states the load the client has. */
  lemma RegistrationAccounts(s: State, c: Client)
    requires Accounted(s)
    ensures Accounted(s.(clients := s.clients[c.id := c])) <==> c.load == |Slots(s.tasks, c.id)|
  {
    var s' := s.(clients := s.clients[c.id := c]);
    assert c.id in s'.clients && s'.clients[c.id] == c;
  }

  lemma FailKeepsBooks(s: State, id: string, error: Option<string>, history: seq<Attempt>)
    requires Books(s)
    ensures Books(AfterFailure(s, id, error, history))
  {
    hide Books;
    if AcceptsFailure(s, id) {
      var s1 := FailureRecorded(s, id, error, history);
      BooksKey(s, id);
      FreesKeepsBooks(s, id, s1.tasks[id]);
      VerdictKeepsBooks(s1, id, Escalate(s1, s1.tasks[id]));
    }
  }

  lemma VerdictKeepsBooks(s: State, id: string, v: Verdict)
    requires Books(s) && id in s.tasks && s.tasks[id].status.Failed?
    requires v.Reassign? ==> s.tasks[id].escalations < s.cfg.maxEscalations
    ensures Books(VerdictApplied(s, id, v))
  {
    hide Books, Requeued;
    BooksKey(s, id);
    var f := s.tasks[id];
    match v
    case Reassign =>
      var r := f.(escalations := f.escalations + 1, client := "").Moved(Queued);
      var back := s.(tasks := s.tasks[id := r]);
      KeepsBooks(s, id, r);
      RequeuedAs(back, id);
      BooksIgnoreQueue(back, Requeued(back, id).queue);
    case Terminate =>
    case ToAdmin => KeepsBooks(s, id, f.Moved(Status.Escalated));
  }

  lemma ClientChangesKeepBooks(s: State, l: Label, s': State)
    requires Books(s) && Clean(s, l) && Next(s, l, s') && (l.Register? || l.Unregister? || l.Report?)
    ensures Books(s')
  {
    match l
    case Register(c) => RegistrationAccounts(s, c);
    case Unregister(c) =>
    case Report(c, state) =>
  }

  lemma StepKeepsBooks(s: State, l: Label, s': State)
    requires Inv(s) && Clean(s, l) && Next(s, l, s')
    ensures Books(s')
  {
    hide Books, QueueSound, AfterFailure, AfterCompletion, Submitted;
    match l
    case Submit(rec, log) => SubmitKeepsBooks(s, rec, log, s');
    case Index(rec) => KeepsBooks(s, rec.id, rec);
    case Dispatch(log) => DispatchedKeepsInv(s, log, s');
    case Complete(id, result) => CompleteKeepsBooks(s, id, result);
    case Fail(id, error, history) => FailKeepsBooks(s, id, error, history);
    case TimeOut(id, error) => if s' != s { BooksKey(s, id); FreesKeepsBooks(s, id, s'.tasks[id]); }
    case Pause(id, reason) => if s' != s { BooksKey(s, id); KeepsBooks(s, id, s'.tasks[id]); }
    case _ => ClientChangesKeepBooks(s, l, s');
  }

  lemma StepKeepsInv(s: State, l: Label, s': State)
    requires Inv(s) && Clean(s, l) && Next(s, l, s')
    ensures Inv(s')
  {
    hide Books, QueueSound, Next;
    StepKeepsQueue(s, l, s');
    StepKeepsBooks(s, l, s');
  }

  ghost predicate IsCleanRun(r: Run) {
    var holds :=
      && IsRun(r) && Inv(r.states[0])
      && forall i :: 0 <= i < |r.labels| ==> Clean(r.states[i], r.labels[i]);
    holds
  }

  /** A fresh scheduler. */
  lemma FreshInv(cfg: Config)
    requires cfg.maxLen > 0 && cfg.maxEscalations >= 0
    ensures Inv(State(cfg, map[], [], map[]))
  {
  }

  /** In every state of a clean run each client's load is the number of tasks running or paused on it, within capacity. */
  lemma {:induction false} RunKeepsInv(r: Run, k: nat)
    requires IsCleanRun(r) && k < |r.states|
    ensures Inv(r.states[k])
  {
    hide Inv, Next, Clean;
    if k > 0 {
      RunKeepsInv(r, k - 1);
      StepKeepsInv(r.states[k - 1], r.labels[k - 1], r.states[k]);
    }
  }

  /** A failed task is put back in the queue exactly when it may be escalated, another client can take it, and the queue has room. */
  lemma ReassignedUnlessFull(s: State, id: string, error: Option<string>, history: seq<Attempt>)
    requires QueueSound(s) && AcceptsFailure(s, id)
    ensures var s1, s' := FailureRecorded(s, id, error, history), AfterFailure(s, id, error, history);
      && (id in TicketIds(s'.queue) <==> Escalate(s1, s1.tasks[id]).Reassign? && |s.queue| < s.cfg.maxLen)
      && (s'.tasks[id].status.Queued? <==> Escalate(s1, s1.tasks[id]).Reassign?)
  {
    hide QueueSound, Requeued, Decremented;
    QueuedMayWait(s);
    var s1 := FailureRecorded(s, id, error, history);
    QueueAllows(s, id, s1.tasks[id], s1.clients);
    if Escalate(s1, s1.tasks[id]).Reassign? {
      var r := s1.tasks[id].(escalations := s1.tasks[id].escalations + 1, client := "").Moved(Queued);
      var back := s1.(tasks := s1.tasks[id := r]);
      TasksOnly(s1, id, r);
      RequeueKeepsQueue(back, id);
      RequeuedFull(back, id);
    }
  }

  lemma RequeuedFull(s: State, id: string)
    requires id in s.tasks
    ensures Requeued(s, id).tasks == s.tasks
    ensures |s.queue| >= s.cfg.maxLen ==> Requeued(s, id) == s
  {
  }
}
