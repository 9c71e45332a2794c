/**
 Queued tasks that no dispatch can take because their status has moved on, as that of a
 parent does which is aggregated while it waits: how far a call gets past one, and when
 one blocks the queue for good.
 */
module StuckTasks {
  import opened Tasks
  import opened DequeueOrder
  import opened SchedulerSpec
  import opened SchedulerInvariant
  import opened SchedulerRuns
  import opened DispatchTheorems

  predicate Stuck(s: State, id: string) {
    id in s.tasks && !s.tasks[id].status.CanTransitionTo(Assigned)
  }

  // ----- The scheduler alone makes none -----

  ghost predicate NoneStuck(s: State) {
    var holds :=
      forall id :: id in TicketIds(s.queue) ==> !Stuck(s, id);
    holds
  }

  ghost predicate NoneStuckIn(d: Drain) {
    forall id :: id in Waiting(d) ==> !Stuck(d.st, id)
  }

  lemma PerformSticksNone(d: Drain, a: Act)
    requires DrainSound(d) && CanAct(d, a) && NoneStuckIn(d)
    ensures NoneStuckIn(Perform(d, a))
  {
    hide Best, Unmatched, Requeued;
    var d' := Perform(d, a);
    PopKeepsQueue(d.st);
    PoppedIds(d.st.queue);
    PerformSpares(d, a);
    PerformTouchesOne(d, a);
    assert a.id in Waiting(d) && !Stuck(d.st, a.id);
    forall id | id in Waiting(d') ensures !Stuck(d'.st, id) {
      if id != a.id {
        assert id in Waiting(d) && !Stuck(d.st, id);
      }
    }
  }

  lemma {:induction false} DrainSticksNone(d: Drain, log: seq<Act>, e: Drain)
    requires DrainSound(d) && Drained(d, log, e) && NoneStuckIn(d)
    ensures NoneStuckIn(e)
    decreases |log|
  {
    hide DrainSound, NoneStuckIn;
    if log != [] {
      PerformSticksNone(d, log[0]);
      PerformKeepsQueue(d, log[0]);
      DrainSticksNone(Perform(d, log[0]), log[1..], e);
    }
  }

  lemma DispatchSticksNone(s: State, log: seq<Act>, s': State)
    requires QueueSound(s) && Dispatched(s, log, s') && NoneStuck(s)
    ensures NoneStuck(s')
  {
    hide QueueSound, DrainSound, Drained, PutBack;
    var start := Drain(s, [], false);
    var e := LoopEnd(s, log, s');
    StartSound(s);
    assert forall id :: id in Waiting(start) ==> id in TicketIds(s.queue);
    DrainSticksNone(start, log, e);
    PutBackChangesNoTask(e.st, e.held);
    PutBackIds(e.st, e.held);
    forall id | id in TicketIds(s'.queue) ensures !Stuck(s', id) {
      assert id in Waiting(e) && !Stuck(e.st, id);
    }
  }

  /** One task changed, and it does not wait or can still be dispatched. */
  lemma ChangeSticksNone(s: State, s': State, id: string)
    requires NoneStuck(s) && TicketIds(s'.queue) <= TicketIds(s.queue) + {id}
    requires forall x :: x in TicketIds(s.queue) && x != id && x in s'.tasks ==> x in s.tasks && s'.tasks[x] == s.tasks[x]
    requires id in TicketIds(s'.queue) ==> !Stuck(s', id)
    ensures NoneStuck(s')
  {
  }

  lemma SubmitSticksNone(s: State, rec: TaskRec, log: seq<Act>, s': State)
    requires QueueSound(s) && NoneStuck(s) && FreshId(s, Submit(rec, log)) && Submitted(s, rec, log, s')
    ensures NoneStuck(s')
  {
    hide QueueSound, Requeued, Dispatched, NoneStuck, Stuck;
    SubmitEnters(s, rec, log);
    QueuedMayWait(s);
    var r := rec.Moved(Queued);
    var queued := s.(tasks := s.tasks[rec.id := r]);
    if CallState(s, Submit(rec, log)).Some? {
      var call := Requeued(queued, rec.id);
      RequeuedIds(queued, rec.id);
      RequeuedTasks(queued, rec.id);
      CanBeAssigned(call, rec.id);
      ChangeSticksNone(s, call, rec.id);
      DispatchSticksNone(call, log, s');
    } else {
      ChangeSticksNone(s, s', rec.id);
    }
  }

  lemma CanBeAssigned(s: State, id: string)
    requires id in s.tasks && s.tasks[id].status.Queued?
    ensures !Stuck(s, id)
  {
  }

  lemma FailSticksNone(s: State, id: string, error: Option<string>, history: seq<Attempt>)
    requires QueueSound(s) && NoneStuck(s)
    ensures NoneStuck(AfterFailure(s, id, error, history))
  {
    hide QueueSound, Requeued, Escalate, NoneStuck, Stuck, Decremented;
    if AcceptsFailure(s, id) {
      var s1 := FailureRecorded(s, id, error, history);
      var v := Escalate(s1, s1.tasks[id]);
      QueuedMayWait(s);
      var s' := VerdictApplied(s1, id, v);
      if v.Reassign? {
        var r := s1.tasks[id].(escalations := s1.tasks[id].escalations + 1, client := "").Moved(Queued);
        var back := s1.(tasks := s1.tasks[id := r]);
        RequeuedIds(back, id);
        RequeuedTasks(back, id);
        CanBeAssigned(s', id);
      }
      ChangeSticksNone(s, s', id);
    }
  }

  lemma StepSticksNone(s: State, l: Label, s': State)
    requires QueueSound(s) && NoneStuck(s) && FreshId(s, l) && Next(s, l, s')
    ensures NoneStuck(s')
  {
    hide QueueSound, Dispatched, Submitted, AfterFailure, NoneStuck;
    QueuedMayWait(s);
    match l
    case Submit(rec, log) => SubmitSticksNone(s, rec, log, s');
    case Dispatch(log) => DispatchSticksNone(s, log, s');
    case Fail(id, error, history) => FailSticksNone(s, id, error, history);
    case Index(rec) => ChangeSticksNone(s, s', rec.id);
    case Complete(id, result) => CompleteSticksNone(s, id, result);
    case TimeOut(id, error) => if s' != s { ChangeSticksNone(s, s', id); }
    case Pause(id, reason) => if s' != s { ChangeSticksNone(s, s', id); }
    case _ => SameTasksStuck(s, s');
  }

  lemma SameTasksStuck(s: State, s': State)
    requires NoneStuck(s) && s'.tasks == s.tasks && s'.queue == s.queue
    ensures NoneStuck(s')
  {
  }

  lemma CompleteSticksNone(s: State, id: string, result: Option<string>)
    requires NoneStuck(s)
    ensures NoneStuck(AfterCompletion(s, id, result))
  {
    if id in TicketIds(s.queue) {
      assert !Stuck(s, id);
    }
  }

  /** No handler of the scheduler makes a queued task undispatchable. */
  lemma {:induction false} NothingSticks(r: Run, k: nat)
    requires IsFreshRun(r) && k < |r.states| && NoneStuck(r.states[0])
    ensures NoneStuck(r.states[k])
  {
    hide QueueSound, NoneStuck, Next;
    if k > 0 {
      NothingSticks(r, k - 1);
      RunKeepsQueue(r, k - 1);
      StepSticksNone(r.states[k - 1], r.labels[k - 1], r.states[k]);
    }
  }

  // ----- How far a call gets -----

  /**
   A call that comes to a stuck task ends there exactly if some client could take the task;
   so it reaches the tasks ranked before it, or equal and ahead of it, and no others,
   unless no client fits the stuck one.
   */
  lemma StuckEntryEnds(s: State, log: seq<Act>, s': State, j: nat)
    requires QueueSound(s) && Dispatched(s, log, s') && j < |s.queue| && Stuck(s, s.queue[j].id)
    ensures j < |log| ==> ((|log| == j + 1 && CallFails(log)) <==> !NoneFits(s, s.tasks[s.queue[j].id], log, j))
    ensures j < |log| && !NoneFits(s, s.tasks[s.queue[j].id], log, j) ==>
      forall i :: 0 <= i < |log| ==> s.queue[i].priority >= s.queue[j].priority && (log[i].Send? ==> i < j)
    ensures j >= |log| ==> CallFails(log)
  {
    hide NoneFits, FitsBest, Dispatched;
    CallEnds(s, log, s');
    if j < |log| {
      DispatchIsSound(s, log, s', j);
      if log[j].Stick? {
        var e := LoopEnd(s, log, s');
        FailingEnds(Drain(s, [], false), log, e, j);
      }
    }
  }

  lemma FailingEnds(d: Drain, log: seq<Act>, e: Drain, j: nat)
    requires Drained(d, log, e) && j < |log| && Failing(log[j])
    ensures |log| == j + 1
  {
    var m := LastTurn(d, log, e);
    assert forall i :: 0 <= i < |log| - 1 ==> log[i] == log[..|log| - 1][i];
  }

  // ----- At the head -----

  lemma FitsAtStart(s: State, t: TaskRec, log: seq<Act>)
    ensures NoneFits(s, t, log, 0) <==> Unmatched(s.clients, t, LastFailedClient(t.attempts))
  {
    assert log[..0] == [];
    forall c | c in s.clients
      ensures Eligible(s.clients, t, LastFailedClient(t.attempts), c) <==> Fits(s, t, c, LoadAt(s, log, 0, c))
    {
    }
  }

  /** A stuck head that has a client ends the call at once and moves behind its equals; nothing else changes. */
  lemma StuckHeadRotates(s: State, log: seq<Act>, s': State) returns (equals: seq<Ticket>, lower: seq<Ticket>)
    requires QueueSound(s) && Dispatched(s, log, s') && s.queue != [] && Stuck(s, s.queue[0].id) && !Hopeless(s, s.queue[0].id)
    ensures |log| == 1 && log[0].Stick?
    ensures s.queue == [s.queue[0]] + equals + lower && s' == s.(queue := equals + [s.queue[0]] + lower)
    ensures (forall t :: t in equals ==> t.priority == s.queue[0].priority) && forall t :: t in lower ==> t.priority < s.queue[0].priority
  {
    hide QueueSound, Dispatched, NoneFits, FitsBest, Unmatched, Traded, DistinctTickets;
    CallEnds(s, log, s');
    FitsAtStart(s, s.tasks[s.queue[0].id], log);
    StuckEntryEnds(s, log, s', 0);
    DispatchIsSound(s, log, s', 0);
    var x, a, b;
    x, a, b, equals, lower := FailedCall(s, log, s');
    OneStick(s, log, s');
    LeftAll(s.queue);
    OrderOfSound(s);
    NoSends(log);
    HeadOfParts(s.queue, s'.queue, x, a, b, equals, lower);
  }

  lemma NoSends(log: seq<Act>)
    requires |log| == 1 && log[0].Stick?
    ensures SentIds(log) == []
  {
    assert log[1..] == [];
  }

  lemma OneStick(s: State, log: seq<Act>, s': State)
    requires Dispatched(s, log, s') && |log| == 1 && log[0].Stick?
    ensures s' == s.(queue := s'.queue)
  {
    hide Best;
    var start := Drain(s, [], false);
    var e: Drain :| && Drained(start, log, e)
                    && (e.stopped || e.st.queue == [])
                    && (forall id :: id in e.held ==> id in e.st.tasks)
                    && s' == PutBack(e.st, e.held);
    assert log[1..] == [] && Drained(Perform(start, log[0]), log[1..], e);
  }

  lemma HeadOfParts(q: seq<Ticket>, after: seq<Ticket>, x: Ticket, a: seq<Ticket>, b: seq<Ticket>, c: seq<Ticket>, d: seq<Ticket>)
    requires Traded(q, after, x, a, b, c, d) && q != [] && q[0].id == x.id && DistinctTickets(q)
    ensures q == [q[0]] + c + d && after == c + [q[0]] + d
    ensures (forall t :: t in c ==> t.priority == q[0].priority) && forall t :: t in d ==> t.priority < q[0].priority
  {
    assert q[|a| + |b|] == x;
    assert a == [] && b == [];
    assert a + b + [x] + c + d == [x] + c + d;
    assert a + c + [x] + b + d == c + [x] + d;
    forall t | t in c ensures t.priority == q[0].priority { assert t in b + c; }
  }

  // ----- For good -----

  /** x heads the queue alone in its rank, is stuck, and client c could take it. */
  ghost predicate Blocks(s: State, x: string, c: string) {
    var holds :=
      && s.queue != [] && s.queue[0].id == x && (|s.queue| > 1 ==> s.queue[1].priority < s.queue[0].priority)
      && Stuck(s, x) && Eligible(s.clients, s.tasks[x], LastFailedClient(s.tasks[x].attempts), c);
    holds
  }

  /** A call changes nothing exactly when the stuck head has no equal; otherwise the next call begins with another task. */
  lemma CallIsVainIff(s: State, log: seq<Act>, s': State)
    requires QueueSound(s) && Dispatched(s, log, s') && s.queue != [] && Stuck(s, s.queue[0].id) && !Hopeless(s, s.queue[0].id)
    ensures SentIds(log) == []
    ensures s' == s <==> (|s.queue| > 1 ==> s.queue[1].priority < s.queue[0].priority)
    ensures s' != s ==> |s.queue| > 1 && s'.queue != [] && s'.queue[0] == s.queue[1]
  {
    hide QueueSound, Dispatched, Stuck, Hopeless;
    var equals, lower := StuckHeadRotates(s, log, s');
    NoSends(log);
    OrderOfSound(s);
    Rotation(s.queue, equals, lower);
  }

  lemma Rotation(q: seq<Ticket>, equals: seq<Ticket>, lower: seq<Ticket>)
    requires q != [] && DistinctTickets(q) && q == [q[0]] + equals + lower
    requires (forall t :: t in equals ==> t.priority == q[0].priority) && forall t :: t in lower ==> t.priority < q[0].priority
    ensures equals + [q[0]] + lower == q <==> (|q| > 1 ==> q[1].priority < q[0].priority)
    ensures equals + [q[0]] + lower != q ==> |q| > 1 && (equals + [q[0]] + lower)[0] == q[1]
  {
    if equals == [] {
      assert equals + [q[0]] + lower == [q[0]] + lower == q;
    } else {
      assert q[1] == equals[0] && (equals + [q[0]] + lower)[0] == equals[0];
    }
  }

  /** The step brings nothing of the head's rank or above, and leaves client c registered as it is. */
  predicate Yields(s: State, l: Label, c: string)
    requires s.queue != []
  {
    match l
    case Submit(rec, _) => s.cfg.Rank(rec.priority) < s.queue[0].priority
    case Fail(id, _, _) => AcceptsFailure(s, id) ==> s.cfg.Rank(s.tasks[id].priority) < s.queue[0].priority
    case Register(client) => client.id != c
    case Unregister(id) => id != c
    case Report(id, _) => id != c
    case _ => true
  }

  /** Nothing dispatched in this step. */
  predicate SendsNothing(l: Label) {
    l.Submit? || l.Dispatch? ==> SentIds(l.log) == []
  }

  lemma InsertBehindHead(q: seq<Ticket>, t: Ticket)
    requires q != [] && t.priority < q[0].priority
    ensures Insert(q, t)[0] == q[0] && (|q| > 1 ==> Insert(q, t)[1] == t || Insert(q, t)[1] == q[1]) && (|q| == 1 ==> Insert(q, t)[1] == t)
  {
    var rest := Insert(q[1..], t);
    assert Insert(q, t) == [q[0]] + rest;
  }

  lemma BlockedCall(s: State, log: seq<Act>, s': State, x: string, c: string)
    requires QueueSound(s) && Dispatched(s, log, s') && Blocks(s, x, c)
    ensures s' == s && SentIds(log) == []
  {
    hide QueueSound, Dispatched;
    CallIsVainIff(s, log, s');
  }

  lemma RequeuedBehind(s: State, id: string, x: string, c: string)
    requires Blocks(s, x, c) && id in s.tasks && s.cfg.Rank(s.tasks[id].priority) < s.queue[0].priority
    ensures Blocks(Requeued(s, id), x, c) && Requeued(s, id).queue != [] && Requeued(s, id).queue[0] == s.queue[0]
  {
    InsertBehindHead(s.queue, Ticket(s.cfg.Rank(s.tasks[id].priority), id));
  }

  /** A task other than x changes, and c's load does not grow. */
  lemma OthersBlocked(s: State, s': State, x: string, c: string)
    requires Blocks(s, x, c) && s'.queue == s.queue && x in s'.tasks && s'.tasks[x] == s.tasks[x]
    requires c in s'.clients && s'.clients[c] == s.clients[c].(load := s'.clients[c].load) && s'.clients[c].load <= s.clients[c].load
    ensures Blocks(s', x, c)
  {
  }

  lemma SubmitStaysBlocked(s: State, rec: TaskRec, log: seq<Act>, s': State, x: string, c: string)
    requires QueueSound(s) && FreshId(s, Submit(rec, log)) && Submitted(s, rec, log, s') && Blocks(s, x, c) && Yields(s, Submit(rec, log), c)
    ensures Blocks(s', x, c) && SentIds(log) == [] && s'.queue != [] && s'.queue[0] == s.queue[0]
  {
    hide QueueSound, Requeued, Dispatched, Blocks;
    SubmitEnters(s, rec, log);
    BlockedHead(s, x, c);
    var r := rec.Moved(Queued);
    var known, queued := s.(tasks := s.tasks[rec.id := rec]), s.(tasks := s.tasks[rec.id := r]);
    OthersBlocked(s, known, x, c);
    OthersBlocked(s, queued, x, c);
    if CallState(s, Submit(rec, log)).Some? {
      RequeuedBehind(queued, rec.id, x, c);
      BlockedCall(Requeued(queued, rec.id), log, s', x, c);
    }
  }

  lemma BlockedHead(s: State, x: string, c: string)
    requires Blocks(s, x, c)
    ensures s.queue != [] && x in TicketIds(s.queue) && x in s.tasks && c in s.clients
  {
    assert s.queue[0].id == x;
  }

  lemma FailStaysBlocked(s: State, id: string, error: Option<string>, history: seq<Attempt>, x: string, c: string)
    requires QueueSound(s) && Blocks(s, x, c) && Yields(s, Fail(id, error, history), c)
    ensures Blocks(AfterFailure(s, id, error, history), x, c)
  {
    hide QueueSound, Requeued, Escalate, Blocks;
    BlockedHead(s, x, c);
    QueuedMayWait(s);
    if AcceptsFailure(s, id) {
      var s1 := FailureRecorded(s, id, error, history);
      OthersBlocked(s, s1, x, c);
      var v := Escalate(s1, s1.tasks[id]);
      match v {
        case Reassign =>
          var r := s1.tasks[id].(escalations := s1.tasks[id].escalations + 1, client := "").Moved(Queued);
          var back := s1.(tasks := s1.tasks[id := r]);
          OthersBlocked(s1, back, x, c);
          RequeuedBehind(back, id, x, c);
        case Terminate =>
        case ToAdmin => OthersBlocked(s1, VerdictApplied(s1, id, v), x, c);
      }
    }
  }

  lemma CompleteStaysBlocked(s: State, id: string, result: Option<string>, x: string, c: string)
    requires Blocks(s, x, c)
    ensures Blocks(AfterCompletion(s, id, result), x, c)
  {
  }

  lemma StepStaysBlocked(s: State, l: Label, s': State, x: string, c: string)
    requires QueueSound(s) && FreshId(s, l) && Next(s, l, s') && Blocks(s, x, c) && Yields(s, l, c)
    ensures Blocks(s', x, c) && SendsNothing(l)
  {
    hide QueueSound, Dispatched, Submitted, AfterFailure, AfterCompletion, Blocks;
    QueuedMayWait(s);
    BlockedHead(s, x, c);
    match l
    case Submit(rec, log) => SubmitStaysBlocked(s, rec, log, s', x, c);
    case Dispatch(log) => BlockedCall(s, log, s', x, c);
    case Fail(id, error, history) => FailStaysBlocked(s, id, error, history, x, c);
    case Complete(id, result) => CompleteStaysBlocked(s, id, result, x, c);
    case _ => OthersBlocked(s, s', x, c);
  }

  /**
   A stuck task that heads the queue alone in its rank blocks it for good: nothing is
   dispatched as long as no task of its rank or above enters and its client stays.
   */
  lemma {:induction false} BlocksForGood(r: Run, i: nat, k: nat, x: string, c: string)
    requires IsFreshRun(r) && i <= k < |r.states| && Blocks(r.states[i], x, c)
    requires forall m :: i <= m < k ==> r.states[m].queue != [] ==> Yields(r.states[m], r.labels[m], c)
    ensures Blocks(r.states[k], x, c)
    ensures forall m :: i <= m < k ==> SendsNothing(r.labels[m])
  {
    hide QueueSound, Next, Blocks, SendsNothing, FreshId;
    if i < k {
      BlocksForGood(r, i, k - 1, x, c);
      RunKeepsQueue(r, k - 1);
      BlockedHead(r.states[k - 1], x, c);
      StepStaysBlocked(r.states[k - 1], r.labels[k - 1], r.states[k], x, c);
    }
  }
}
