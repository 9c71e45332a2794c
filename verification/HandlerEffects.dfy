/**
 The scheduler's handlers in terms of the fields they set (pkg/reef/server/scheduler.go):
 what SchedulerSpec composes from moves of the status table and from the registry's
 counters, written out entry by entry.
 */
module HandlerEffects {
  import opened Tasks
  import opened DequeueOrder
  import opened SchedulerSpec

  /** A connected client with a free slot that plays the role and has every skill. */
  ghost predicate Serves(clients: map<string, Client>, c: string, role: string, skills: seq<string>) {
    && c in clients && clients[c].state == Connected && clients[c].load < clients[c].capacity
    && clients[c].role == role && forall skill :: skill in skills ==> skill in clients[c].skills
  }

  lemma EligibleServes(clients: map<string, Client>, task: TaskRec, exclude: string)
    ensures forall c :: Eligible(clients, task, exclude, c) <==> c != exclude && Serves(clients, c, task.role, task.skills)
  {
  }

  /** One slot of c less in use, never below zero. */
  ghost predicate SlotFreed(clients: map<string, Client>, clients': map<string, Client>, c: string) {
    var holds :=
      && clients'.Keys == clients.Keys
      && forall x :: x in clients ==>
           clients'[x] == clients[x].(load := if x == c && clients[x].load > 0 then clients[x].load - 1 else clients[x].load);
    holds
  }

  /** One slot of c more in use. */
  ghost predicate SlotTaken(clients: map<string, Client>, clients': map<string, Client>, c: string) {
    var holds :=
      && clients'.Keys == clients.Keys
      && forall x :: x in clients ==> clients'[x] == clients[x].(load := if x == c then clients[x].load + 1 else clients[x].load);
    holds
  }

  /** A dispatch: only a created or queued task can be assigned; a hook that fails gives the slot back. */
  lemma DispatchIs(s: State, id: string, c: string)
    requires id in s.tasks
    ensures s.tasks[id].status.CanTransitionTo(Assigned) <==> s.tasks[id].status in {Created, Queued}
    ensures s.tasks[id].status in {Created, Queued} ==>
      var s1 := Sent(s, id, c);
      && s1.tasks == s.tasks[id := s.tasks[id].(status := Running, client := c)] && SlotTaken(s.clients, s1.clients, c) && s1.queue == s.queue
    ensures s.tasks[id].status in {Created, Queued} ==>
      var s2 := Unsent(Sent(s, id, c), id, c);
      && s2.tasks == s.tasks[id := s.tasks[id].(status := Queued, client := "")] && s2.queue == s.queue
      && (c in s.clients && s.clients[c].load >= 0 ==> s2.clients == s.clients)
  {
  }

  lemma CompletionIs(s: State, id: string, result: Option<string>)
    ensures var s' := AfterCompletion(s, id, result);
      if id in s.tasks && s.tasks[id].status in {Running, Failed, Paused} then
        var t := s.tasks[id];
        && s'.tasks == s.tasks[id := t.(status := Completed, result := result, client := "", error := if t.status == Running then t.error else None)]
        && SlotFreed(s.clients, s'.clients, t.client) && s'.queue == s.queue
      else s' == s
  {
  }

  lemma TimeoutIs(s: State, id: string, error: Option<string>)
    ensures var s' := AfterTimeout(s, id, error);
      if id in s.tasks && s.tasks[id].status == Running then
        var t := s.tasks[id];
        && s'.tasks == s.tasks[id := t.(status := Failed, error := error, client := "")]
        && SlotFreed(s.clients, s'.clients, t.client) && s'.queue == s.queue
      else s' == s
  {
  }

  lemma PauseIs(s: State, id: string, reason: string)
    ensures AfterPause(s, id, reason) ==
      if id in s.tasks && s.tasks[id].status == Running
      then s.(tasks := s.tasks[id := s.tasks[id].(status := Paused, pauseReason := reason)]) else s
  {
  }

  /** The attempts after a report: the old ones, then the reported ones, each with the client it names or else the one the task ran on. */
  ghost predicate Reports(before: seq<Attempt>, history: seq<Attempt>, client: string, after: seq<Attempt>) {
    var holds :=
      && before <= after
      && (history == [] ==> after == before + [Attempt("failed", client)])
      && (history != [] ==> |after| == |before| + |history|)
      && (history != [] ==> forall i :: 0 <= i < |history| ==>
            after[|before| + i] == Attempt(history[i].status, if history[i].client == "" then client else history[i].client));
    holds
  }

  lemma ReportedIs(before: seq<Attempt>, history: seq<Attempt>, client: string)
    ensures Reports(before, history, client, before + Reported(history, client))
  {
  }

  lemma RecordIs(s: State, id: string, error: Option<string>, history: seq<Attempt>)
    requires AcceptsFailure(s, id)
    ensures var t, s1 := s.tasks[id], FailureRecorded(s, id, error, history);
      && Reports(t.attempts, history, t.client, s1.tasks[id].attempts)
      && s1.tasks == s.tasks[id := t.(status := Failed, error := error, attempts := s1.tasks[id].attempts)]
      && SlotFreed(s.clients, s1.clients, t.client) && s1.queue == s.queue && s1.cfg == s.cfg
  {
    ReportedIs(s.tasks[id].attempts, history, s.tasks[id].client);
  }

  /** Another client than the one that failed can take the task. */
  ghost predicate OtherServes(clients: map<string, Client>, t: TaskRec) {
    exists c :: c != t.client && Serves(clients, c, t.role, t.skills)
  }

  /** The slot the failed client got back does not matter to the verdict. */
  lemma EscalateIs(s: State, t: TaskRec, clients: map<string, Client>)
    requires SlotFreed(clients, s.clients, t.client)
    ensures Escalate(s, t) ==
      if t.escalations >= s.cfg.maxEscalations then ToAdmin else if OtherServes(clients, t) then Verdict.Reassign else Terminate
  {
    EligibleServes(s.clients, t, t.client);
    forall c | c != t.client ensures Serves(s.clients, c, t.role, t.skills) <==> Serves(clients, c, t.role, t.skills) {
    }
    if c :| c != t.client && Serves(clients, c, t.role, t.skills) {
      assert c in s.clients && Eligible(s.clients, t, t.client, c);
    }
    if c :| c in s.clients && Eligible(s.clients, t, t.client, c) {
      assert Serves(clients, c, t.role, t.skills);
    }
  }

  /** What is left of a failed task: escalated at the limit, queued again if another client serves it, failed otherwise. */
  lemma VerdictIs(s: State, id: string, v: Verdict)
    requires id in s.tasks && s.tasks[id].status == Failed
    ensures var t, s' := s.tasks[id], VerdictApplied(s, id, v);
      && s'.clients == s.clients && s'.cfg == s.cfg
      && s'.tasks == s.tasks[id :=
           match v
           case Reassign => t.(status := Queued, client := "", escalations := t.escalations + 1)
           case Terminate => t
           case ToAdmin => t.(status := Status.Escalated)]
      && s'.queue ==
           if v.Reassign? && |s.queue| < s.cfg.maxLen
           then Insert(s.queue, Ticket(if !s.cfg.ranked then 0 else if t.priority < 1 then 5 else t.priority, id)) else s.queue
  {
    hide Insert;
  }

  /** What an accepted failure report does. */
  ghost predicate FailureShows(s: State, id: string, error: Option<string>, history: seq<Attempt>, s': State)
    requires id in s.tasks
  {
    var holds :=
      && id in s'.tasks
      && var t := s.tasks[id];
      var f := t.(error := error, attempts := s'.tasks[id].attempts);
      var rank := if !s.cfg.ranked then 0 else if t.priority < 1 then 5 else t.priority;
      && Reports(t.attempts, history, t.client, f.attempts)
      && SlotFreed(s.clients, s'.clients, t.client)
      && if t.escalations >= s.cfg.maxEscalations then s'.tasks == s.tasks[id := f.(status := Status.Escalated)] && s'.queue == s.queue
         else if OtherServes(s.clients, t) then
           && s'.tasks == s.tasks[id := f.(status := Queued, client := "", escalations := t.escalations + 1)]
           && s'.queue == if |s.queue| < s.cfg.maxLen then Insert(s.queue, Ticket(rank, id)) else s.queue
         else s'.tasks == s.tasks[id := f.(status := Failed)] && s'.queue == s.queue;
    holds
  }

  lemma FailureIs(s: State, id: string, error: Option<string>, history: seq<Attempt>)
    ensures var s' := AfterFailure(s, id, error, history);
      if id in s.tasks && s.tasks[id].status == Running then FailureShows(s, id, error, history, s') else s' == s
  {
    hide FailureRecorded, Escalate, VerdictApplied, SlotFreed, Reports, OtherServes, Insert;
    if AcceptsFailure(s, id) {
      var s1 := FailureRecorded(s, id, error, history);
      RecordIs(s, id, error, history);
      EscalateIs(s1, s1.tasks[id], s.clients);
      VerdictIs(s1, id, Escalate(s1, s1.tasks[id]));
      OthersAre(s.clients, s.tasks[id], s1.tasks[id]);
    }
  }

  lemma OthersAre(clients: map<string, Client>, t: TaskRec, u: TaskRec)
    requires t.client == u.client && t.role == u.role && t.skills == u.skills
    ensures OtherServes(clients, t) <==> OtherServes(clients, u)
  {
  }

  // ----- What a submission leaves -----

  lemma TurnStatuses(d: Drain, a: Act, id: string)
    requires CanAct(d, a) && id in d.st.tasks
    ensures id in Perform(d, a).st.tasks && Perform(d, a).st.tasks[id].status in {d.st.tasks[id].status, Running, Queued}
  {
    hide Best, Unmatched, Insert;
  }

  lemma {:induction false} DrainStatuses(d: Drain, log: seq<Act>, e: Drain, id: string)
    requires Drained(d, log, e) && id in d.st.tasks
    ensures id in e.st.tasks && e.st.tasks[id].status in {d.st.tasks[id].status, Running, Queued}
    decreases |log|
  {
    hide Best, Unmatched, Perform;
    if log != [] {
      TurnStatuses(d, log[0], id);
      DrainStatuses(Perform(d, log[0]), log[1..], e, id);
    }
  }

  lemma {:induction false} ReturnsKeepTasks(s: State, held: seq<string>)
    requires forall id :: id in held ==> id in s.tasks
    ensures PutBack(s, held).tasks == s.tasks
    decreases |held|
  {
    if held != [] {
      ReturnsKeepTasks(Requeued(s, held[0]), held[1..]);
    }
  }

  lemma DispatchStatuses(s: State, log: seq<Act>, s': State, id: string)
    requires Dispatched(s, log, s') && id in s.tasks
    ensures id in s'.tasks && s'.tasks[id].status in {s.tasks[id].status, Running, Queued}
  {
    hide Drained;
    var e: Drain :| && Drained(Drain(s, [], false), log, e)
                    && (e.stopped || e.st.queue == [])
                    && (forall x :: x in e.held ==> x in e.st.tasks)
                    && s' == PutBack(e.st, e.held);
    DrainStatuses(Drain(s, [], false), log, e, id);
    ReturnsKeepTasks(e.st, e.held);
  }

  /** A task that can be queued is Queued or dispatched after Submit; any other keeps its status, and the queue does not change. */
  lemma SubmissionIs(s: State, rec: TaskRec, log: seq<Act>, s': State)
    requires Submitted(s, rec, log, s')
    ensures rec.id in s'.tasks
    ensures var can := rec.status in {Queued, Created, Assigned, Running, Blocked, Recovering, Failed, Status.Escalated};
      && (can ==> s'.tasks[rec.id].status in {Queued, Running})
      && (can && |s.queue| >= s.cfg.maxLen ==> s' == s.(tasks := s.tasks[rec.id := rec.(status := Queued)]))
      && (!can ==> s' == s.(tasks := s.tasks[rec.id := rec]))
  {
    hide Dispatched, Insert;
    ReachedFrom(rec.status, Queued);
    var queued := s.(tasks := s.tasks[rec.id := if rec.status.Queued? then rec else rec.Moved(Queued)]);
    if (rec.status.Queued? || rec.status.CanTransitionTo(Queued)) && |s.queue| < s.cfg.maxLen {
      DispatchStatuses(Requeued(queued, rec.id), log, s', rec.id);
    }
  }

  // ----- Whom a dispatch call chooses -----

  /** The client chosen in a turn plays the task's role and has each of its skills. */
  ghost predicate Suited(s: State, a: Act)
    requires !a.Hold?
  {
    var holds :=
      && a.id in s.tasks && a.client in s.clients && s.clients[a.client].role == s.tasks[a.id].role
      && forall skill :: skill in s.tasks[a.id].skills ==> skill in s.clients[a.client].skills;
    holds
  }

  lemma TurnIsSuited(d: Drain, a: Act)
    requires CanAct(d, a) && !a.Hold?
    ensures Suited(d.st, a)
  {
  }

  /** The same tasks with the same requirements, and the same clients with the same offers. */
  ghost predicate SameTraits(s: State, s': State) {
    var holds :=
      && s'.tasks.Keys == s.tasks.Keys && s'.clients.Keys == s.clients.Keys
      && (forall id :: id in s.tasks ==> s'.tasks[id].role == s.tasks[id].role && s'.tasks[id].skills == s.tasks[id].skills)
      && (forall c :: c in s.clients ==> s'.clients[c].role == s.clients[c].role && s'.clients[c].skills == s.clients[c].skills);
    holds
  }

  lemma SendKeepsTraits(s: State, id: string, c: string)
    requires id in s.tasks
    ensures SameTraits(s, Sent(s, id, c)) && SameTraits(s, Unsent(Sent(s, id, c), id, c))
  {
  }

  lemma RequeueKeepsTraits(s: State, id: string, start: State)
    requires id in s.tasks && SameTraits(start, s)
    ensures SameTraits(start, Requeued(s, id))
  {
    hide Insert;
  }

  lemma QueueHasNoTraits(s: State, queue: seq<Ticket>)
    ensures forall s' :: SameTraits(s.(queue := queue), s') <==> SameTraits(s, s')
    ensures SameTraits(s, s.(queue := queue))
  {
  }

  lemma PerformKeepsTraits(d: Drain, a: Act)
    requires CanAct(d, a)
    ensures SameTraits(d.st, Perform(d, a).st)
  {
    hide Best, Unmatched, Sent, Unsent, Requeued, SameTraits;
    var popped := d.st.(queue := d.st.queue[1..]);
    QueueHasNoTraits(d.st, popped.queue);
    QueueHasNoTraits(popped, popped.queue);
    assert popped.(queue := popped.queue) == popped;
    match a
    case Hold(id) =>
    case Send(id, c) => SendKeepsTraits(popped, id, c);
    case Refuse(id, c) =>
      SendKeepsTraits(popped, id, c);
      RequeueKeepsTraits(Unsent(Sent(popped, id, c), id, c), id, popped);
    case Stick(id, c) => RequeueKeepsTraits(popped, id, popped);
  }

  lemma {:induction false} ChosenSuit(d: Drain, log: seq<Act>, e: Drain, a: Act)
    requires Drained(d, log, e) && a in log && !a.Hold?
    ensures Suited(d.st, a)
    decreases |log|
  {
    hide Best, Unmatched, Perform;
    if a == log[0] {
      TurnIsSuited(d, a);
    } else {
      PerformKeepsTraits(d, log[0]);
      ChosenSuit(Perform(d, log[0]), log[1..], e, a);
    }
  }
}
