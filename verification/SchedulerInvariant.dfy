/**
 What every scheduler step keeps, in two layers.  The queue is sound: it holds known tasks
 in rank order, each once, none of them running or blocked.  And the books are right: every
 client's load is the number of tasks running or paused on it and stays within its
 capacity, and no task is escalated more often than allowed.  The first layer does not
 depend on the second.
 */
module SchedulerInvariant {
  import opened Tasks
  import opened DequeueOrder
  import opened SchedulerSpec

  // ----- The queue -----

  /** What no queued task does; it may have left Queued otherwise, as a parent does that is aggregated while it waits. */
  predicate MayWait(status: Status) {
    !status.Running? && !status.Blocked?
  }

  ghost predicate Queueable(s: State, t: Ticket) {
    t.id in s.tasks && MayWait(s.tasks[t.id].status) && t.priority == s.cfg.Rank(s.tasks[t.id].priority)
  }

  ghost predicate QueueSound(s: State) {
    var holds :=
      && DistinctTickets(s.queue) && Descending(s.queue) && |s.queue| <= s.cfg.maxLen
      && forall i :: 0 <= i < |s.queue| ==> Queueable(s, s.queue[i]);
    holds
  }

  /** The same with tasks held aside: they may wait too, and fit back into the queue. */
  ghost predicate DrainSound(d: Drain) {
    var holds :=
      && QueueSound(d.st) && |d.st.queue| + |d.held| <= d.st.cfg.maxLen
      && (forall i :: 0 <= i < |d.held| ==> d.held[i] in d.st.tasks && MayWait(d.st.tasks[d.held[i]].status))
      && (forall i, j :: 0 <= i < j < |d.held| ==> d.held[i] != d.held[j])
      && (forall i, j :: 0 <= i < |d.held| && 0 <= j < |d.st.queue| ==> d.held[i] != d.st.queue[j].id);
    holds
  }

  lemma InsertedAre(q: seq<Ticket>, t: Ticket)
    ensures forall i :: 0 <= i < |Insert(q, t)| ==> Insert(q, t)[i] == t || Insert(q, t)[i] in q
    ensures TicketIds(Insert(q, t)) == TicketIds(q) + {t.id}
  {
    var r := Insert(q, t);
    forall i | 0 <= i < |r| ensures r[i] == t || r[i] in q {
      assert r[i] in multiset(r);
    }
    forall x | x in q || x == t ensures x in r {
      assert x in multiset(r);
    }
    forall id ensures id in TicketIds(r) <==> id in TicketIds(q) + {t.id} {
      if id in TicketIds(r) {
        var i :| 0 <= i < |r| && r[i].id == id;
        assert r[i] == t || r[i] in q;
      }
      if id in TicketIds(q) {
        var i :| 0 <= i < |q| && q[i].id == id;
        assert q[i] in q;
        var j :| 0 <= j < |r| && r[j] == q[i];
        assert r[j].id == id;
      }
      if id == t.id {
        assert t in r;
        var j :| 0 <= j < |r| && r[j] == t;
        assert r[j].id == id;
      }
    }
  }

  lemma {:induction false} InsertKeepsDistinct(q: seq<Ticket>, t: Ticket)
    requires DistinctTickets(q) && t.id !in TicketIds(q)
    ensures DistinctTickets(Insert(q, t))
  {
    if q == [] || q[0].priority < t.priority {
      forall j | 0 <= j < |q| ensures q[j].id != t.id { assert q[j].id in TicketIds(q); }
    } else {
      assert t.id != q[0].id by { assert q[0].id in TicketIds(q); }
      forall j | 0 <= j < |q[1..]| ensures q[1..][j].id in TicketIds(q) && q[1..][j].id != q[0].id { assert q[1..][j] == q[j + 1]; }
      assert t.id !in TicketIds(q[1..]);
      InsertKeepsDistinct(q[1..], t);
      InsertedAre(q[1..], t);
      var r := Insert(q[1..], t);
      forall j | 0 <= j < |r| ensures r[j].id != q[0].id {
        if r[j] in q[1..] {
          var k :| 0 <= k < |q[1..]| && q[1..][k] == r[j];
        }
      }
    }
  }

  /** Queueing a task that may wait, at its rank. */
  lemma RequeueKeepsQueue(s: State, id: string)
    requires QueueSound(s) && id in s.tasks && MayWait(s.tasks[id].status) && id !in TicketIds(s.queue)
    ensures QueueSound(Requeued(s, id))
    ensures |s.queue| < s.cfg.maxLen ==>
      |Requeued(s, id).queue| == |s.queue| + 1 && TicketIds(Requeued(s, id).queue) == TicketIds(s.queue) + {id}
  {
    var t := Ticket(s.cfg.Rank(s.tasks[id].priority), id);
    var r := Insert(s.queue, t);
    InsertKeepsDescending(s.queue, t);
    InsertKeepsDistinct(s.queue, t);
    InsertedAre(s.queue, t);
    forall i | 0 <= i < |r| ensures Queueable(s, r[i]) {
      if r[i] in s.queue {
        var k :| 0 <= k < |s.queue| && s.queue[k] == r[i];
      }
    }
  }

  /** A queued task may change its status, but not its priority; any other may change freely. */
  lemma QueueAllows(s: State, id: string, rec: TaskRec, clients: map<string, Client>)
    requires QueueSound(s)
    requires id in TicketIds(s.queue) && id in s.tasks ==> MayWait(rec.status) && rec.priority == s.tasks[id].priority
    ensures QueueSound(s.(tasks := s.tasks[id := rec], clients := clients))
  {
    var s' := s.(tasks := s.tasks[id := rec], clients := clients);
    forall i | 0 <= i < |s'.queue| ensures Queueable(s', s'.queue[i]) {
      assert Queueable(s, s.queue[i]) && s.queue[i].id in TicketIds(s.queue);
    }
  }

  lemma PopKeepsQueue(s: State)
    requires QueueSound(s) && s.queue != []
    ensures QueueSound(s.(queue := s.queue[1..])) && s.queue[0].id !in TicketIds(s.queue[1..])
    ensures s.queue[0].id in s.tasks && MayWait(s.tasks[s.queue[0].id].status)
  {
    var s' := s.(queue := s.queue[1..]);
    forall i | 0 <= i < |s'.queue| ensures Queueable(s', s'.queue[i]) {
      assert s'.queue[i] == s.queue[i + 1] && Queueable(s, s.queue[i + 1]);
    }
    assert Queueable(s, s.queue[0]);
  }

  lemma QueuedMayWait(s: State)
    requires QueueSound(s)
    ensures forall id :: id in TicketIds(s.queue) ==> id in s.tasks && MayWait(s.tasks[id].status)
  {
    forall id | id in TicketIds(s.queue) ensures id in s.tasks && MayWait(s.tasks[id].status) {
      var i :| 0 <= i < |s.queue| && s.queue[i].id == id;
      assert Queueable(s, s.queue[i]);
    }
  }

  // ----- TryDispatch keeps the queue sound -----

  lemma HeldApart(d: Drain, id: string)
    requires DrainSound(d)
    ensures id in d.held ==> id !in TicketIds(d.st.queue)
  {
  }

  lemma PerformKeepsQueue(d: Drain, a: Act)
    requires DrainSound(d) && CanAct(d, a)
    ensures DrainSound(Perform(d, a))
  {
    hide Best, Unmatched, Requeued;
    PopKeepsQueue(d.st);
    var popped := d.st.(queue := d.st.queue[1..]);
    assert a.id !in d.held;
    match a
    case Hold(id) =>
      assert forall j :: 0 <= j < |popped.queue| ==> popped.queue[j].id in TicketIds(popped.queue);
    case Send(id, c) =>
      var t := popped.tasks[id].Moved(Assigned).Moved(Running).(client := c);
      QueueAllows(popped, id, t, Incremented(popped.clients, c));
    case Refuse(id, c) =>
      var back := Unsent(Sent(popped, id, c), id, c);
      QueueAllows(popped, id, back.tasks[id], back.clients);
      assert back == popped.(tasks := popped.tasks[id := back.tasks[id]], clients := back.clients);
      ReturnKeepsQueue(d, back, id);
    case Stick(id, c) =>
      ReturnKeepsQueue(d, popped, id);
  }

  /** A task whose dispatch failed returns to the queue, apart from the tasks held aside. */
  lemma ReturnKeepsQueue(d: Drain, back: State, id: string)
    requires DrainSound(d) && d.st.queue != [] && d.st.queue[0].id == id
    requires QueueSound(back) && back.queue == d.st.queue[1..] && back.cfg == d.st.cfg
    requires id in back.tasks && MayWait(back.tasks[id].status) && id !in TicketIds(back.queue)
    requires forall x :: x in d.held ==> x in back.tasks && MayWait(back.tasks[x].status)
    ensures DrainSound(Drain(Requeued(back, id), d.held, true))
  {
    RequeueKeepsQueue(back, id);
    var e := Drain(Requeued(back, id), d.held, true);
    forall i, j | 0 <= i < |e.held| && 0 <= j < |e.st.queue| ensures e.held[i] != e.st.queue[j].id {
      assert e.st.queue[j].id in TicketIds(e.st.queue);
      if e.st.queue[j].id in TicketIds(back.queue) {
        var k :| 0 <= k < |back.queue| && back.queue[k].id == e.st.queue[j].id;
        assert back.queue[k] == d.st.queue[k + 1];
      }
    }
  }

  lemma {:induction false} DrainedKeepsQueue(d: Drain, log: seq<Act>, e: Drain)
    requires DrainSound(d) && Drained(d, log, e)
    ensures DrainSound(e)
    decreases |log|
  {
    if log != [] {
      PerformKeepsQueue(d, log[0]);
      DrainedKeepsQueue(Perform(d, log[0]), log[1..], e);
    }
  }

  lemma {:induction false} PutBackKeepsQueue(d: Drain)
    requires DrainSound(d)
    ensures forall id :: id in d.held ==> id in d.st.tasks
    ensures QueueSound(PutBack(d.st, d.held))
    decreases |d.held|
  {
    if d.held != [] {
      var id, rest := d.held[0], d.held[1..];
      assert id in d.held;
      HeldApart(d, id);
      RequeueKeepsQueue(d.st, id);
      var e := Drain(Requeued(d.st, id), rest, d.stopped);
      forall i, j | 0 <= i < |e.held| && 0 <= j < |e.st.queue| ensures e.held[i] != e.st.queue[j].id {
        assert e.held[i] == d.held[i + 1];
        assert e.st.queue[j].id in TicketIds(e.st.queue);
        if e.st.queue[j].id in TicketIds(d.st.queue) {
          var k :| 0 <= k < |d.st.queue| && d.st.queue[k].id == e.st.queue[j].id;
        }
      }
      PutBackKeepsQueue(e);
    }
  }

  lemma {:induction false} PutBackChangesNoTask(s: State, held: seq<string>)
    requires forall id :: id in held ==> id in s.tasks
    ensures PutBack(s, held).tasks == s.tasks && PutBack(s, held).clients == s.clients && PutBack(s, held).cfg == s.cfg
    decreases |held|
  {
    if held != [] {
      PutBackChangesNoTask(Requeued(s, held[0]), held[1..]);
    }
  }

  /** The end of the loop behind a dispatch step. */
  lemma LoopEnd(s: State, log: seq<Act>, s': State) returns (e: Drain)
    requires QueueSound(s) && Dispatched(s, log, s')
    ensures Drained(Drain(s, [], false), log, e) && DrainSound(e) && (e.stopped || e.st.queue == [])
    ensures (forall id :: id in e.held ==> id in e.st.tasks) && s' == PutBack(e.st, e.held)
  {
    e :| && Drained(Drain(s, [], false), log, e)
         && (e.stopped || e.st.queue == [])
         && (forall id :: id in e.held ==> id in e.st.tasks)
         && s' == PutBack(e.st, e.held);
    DrainedKeepsQueue(Drain(s, [], false), log, e);
  }

  /** Whatever the loads are: a dispatch keeps the queue sound. */
  lemma DispatchedKeepsQueue(s: State, log: seq<Act>, s': State)
    requires QueueSound(s) && Dispatched(s, log, s')
    ensures QueueSound(s')
  {
    var e := LoopEnd(s, log, s');
    PutBackKeepsQueue(e);
  }

  // ----- What dispatching leaves alone -----

  /** Tasks that were not waiting are as before, and nothing else waits now, except the tasks in `extra`. */
  ghost predicate Spares(s: State, s': State, extra: set<string>) {
    var holds :=
      && s'.cfg == s.cfg && s'.tasks.Keys == s.tasks.Keys + extra
      && (forall id :: id in TicketIds(s'.queue) ==> id in TicketIds(s.queue) || id in extra)
      && (forall id :: id in s.tasks && id !in TicketIds(s.queue) && id !in extra ==> id in s'.tasks && s'.tasks[id] == s.tasks[id]);
    holds
  }

  function Waiting(d: Drain): set<string> {
    TicketIds(d.st.queue) + set id | id in d.held
  }

  lemma RequeuedIds(s: State, id: string)
    requires id in s.tasks
    ensures TicketIds(Requeued(s, id).queue) <= TicketIds(s.queue) + {id}
  {
    InsertedAre(s.queue, Ticket(s.cfg.Rank(s.tasks[id].priority), id));
  }

  lemma PoppedIds(q: seq<Ticket>)
    requires q != []
    ensures q[0].id in TicketIds(q) && TicketIds(q[1..]) <= TicketIds(q)
  {
    forall id | id in TicketIds(q[1..]) ensures id in TicketIds(q) {
      var i :| 0 <= i < |q[1..]| && q[1..][i].id == id;
      assert q[i + 1].id == id;
    }
  }

  lemma PerformSpares(d: Drain, a: Act)
    requires CanAct(d, a)
    ensures Waiting(Perform(d, a)) <= Waiting(d)
    ensures Perform(d, a).st.cfg == d.st.cfg && Perform(d, a).st.tasks.Keys == d.st.tasks.Keys
    ensures forall id :: id in d.st.tasks && id !in Waiting(d) ==> id in Perform(d, a).st.tasks && Perform(d, a).st.tasks[id] == d.st.tasks[id]
  {
    hide Best, Unmatched, Requeued;
    PoppedIds(d.st.queue);
    var popped := d.st.(queue := d.st.queue[1..]);
    match a
    case Hold(id) =>
    case Send(id, c) =>
    case Refuse(id, c) => RequeuedIds(Unsent(Sent(popped, id, c), id, c), id); RequeuedTasks(Unsent(Sent(popped, id, c), id, c), id);
    case Stick(id, c) => RequeuedIds(popped, id); RequeuedTasks(popped, id);
  }

  lemma RequeuedTasks(s: State, id: string)
    requires id in s.tasks
    ensures Requeued(s, id).tasks == s.tasks && Requeued(s, id).cfg == s.cfg
  {
  }

  /** A turn changes no task but the one it takes. */
  lemma PerformTouchesOne(d: Drain, a: Act)
    requires CanAct(d, a)
    ensures a.id in Perform(d, a).st.tasks && Perform(d, a).st.tasks == d.st.tasks[a.id := Perform(d, a).st.tasks[a.id]]
    ensures var t, t' := d.st.tasks[a.id], Perform(d, a).st.tasks[a.id];
      && t' == (match a
                case Send(_, c) => t.(status := Running, client := c)
                case Refuse(_, _) => t.(status := Queued, client := "")
                case _ => t)
  {
    hide Best, Unmatched, Requeued;
    var popped := d.st.(queue := d.st.queue[1..]);
    match a
    case Hold(id) =>
    case Send(id, c) =>
    case Refuse(id, c) => RequeuedTasks(Unsent(Sent(popped, id, c), id, c), id);
    case Stick(id, c) => RequeuedTasks(popped, id);
  }

  lemma {:induction false} DrainSpares(d: Drain, log: seq<Act>, e: Drain)
    requires Drained(d, log, e)
    ensures Waiting(e) <= Waiting(d) && e.st.cfg == d.st.cfg && e.st.tasks.Keys == d.st.tasks.Keys
    ensures forall id :: id in d.st.tasks && id !in Waiting(d) ==> id in e.st.tasks && e.st.tasks[id] == d.st.tasks[id]
    decreases |log|
  {
    if log != [] {
      PerformSpares(d, log[0]);
      DrainSpares(Perform(d, log[0]), log[1..], e);
    }
  }

  lemma {:induction false} PutBackIds(s: State, held: seq<string>)
    requires forall id :: id in held ==> id in s.tasks
    ensures TicketIds(PutBack(s, held).queue) <= TicketIds(s.queue) + set id | id in held
    decreases |held|
  {
    if held != [] {
      assert held[0] in held && forall id :: id in held[1..] ==> id in held;
      RequeuedIds(s, held[0]);
      PutBackIds(Requeued(s, held[0]), held[1..]);
    }
  }

  lemma DispatchSpares(s: State, log: seq<Act>, s': State)
    requires Dispatched(s, log, s')
    ensures Spares(s, s', {})
  {
    var e: Drain :| && Drained(Drain(s, [], false), log, e)
                    && (e.stopped || e.st.queue == [])
                    && (forall id :: id in e.held ==> id in e.st.tasks)
                    && s' == PutBack(e.st, e.held);
    DrainSpares(Drain(s, [], false), log, e);
    PutBackChangesNoTask(e.st, e.held);
    PutBackIds(e.st, e.held);
  }

  lemma SubmitSpares(s: State, rec: TaskRec, log: seq<Act>, s': State)
    requires Submitted(s, rec, log, s')
    ensures Spares(s, s', {rec.id})
  {
    hide Dispatched, Requeued;
    var queued := s.(tasks := s.tasks[rec.id := if rec.status.Queued? then rec else rec.Moved(Queued)]);
    if (rec.status.Queued? || rec.status.CanTransitionTo(Queued)) && |s.queue| < s.cfg.maxLen {
      RequeuedIds(queued, rec.id);
      RequeuedTasks(queued, rec.id);
      DispatchSpares(Requeued(queued, rec.id), log, s');
    }
  }

  // ----- Slot accounting -----

  /** The tasks that occupy a slot of client c. */
  ghost function Slots(tasks: map<string, TaskRec>, c: string): set<string> {
    set id | id in tasks && tasks[id].HoldsSlot() && tasks[id].client == c
  }

  ghost predicate Accounted(s: State) {
    var holds :=
      forall c :: c in s.clients ==> s.clients[c].load == |Slots(s.tasks, c)|;
    holds
  }

  ghost predicate Bounded(s: State) {
    var holds :=
      forall c :: c in s.clients ==> 0 <= s.clients[c].load <= s.clients[c].capacity;
    holds
  }

  lemma SlotsAfter(tasks: map<string, TaskRec>, id: string, rec: TaskRec, c: string)
    ensures Slots(tasks[id := rec], c) ==
      if rec.HoldsSlot() && rec.client == c then Slots(tasks, c) + {id} else Slots(tasks, c) - {id}
  {
  }

  lemma NoSlot(tasks: map<string, TaskRec>, id: string, c: string)
    requires id in tasks ==> !tasks[id].HoldsSlot()
    ensures id !in Slots(tasks, c)
  {
  }

  lemma TakesSlot(s: State, id: string, rec: TaskRec)
    requires Accounted(s) && (id in s.tasks ==> !s.tasks[id].HoldsSlot()) && rec.HoldsSlot()
    ensures Accounted(s.(tasks := s.tasks[id := rec], clients := Incremented(s.clients, rec.client)))
  {
    hide Slots;
    var clients' := Incremented(s.clients, rec.client);
    forall c | c in clients' ensures clients'[c].load == |Slots(s.tasks[id := rec], c)| {
      SlotsAfter(s.tasks, id, rec, c);
      NoSlot(s.tasks, id, c);
      assert Slots(s.tasks, c) - {id} == Slots(s.tasks, c);
    }
  }

  lemma FreesSlot(s: State, id: string, rec: TaskRec)
    requires Accounted(s) && id in s.tasks && s.tasks[id].HoldsSlot() && !rec.HoldsSlot()
    ensures Accounted(s.(tasks := s.tasks[id := rec], clients := Decremented(s.clients, s.tasks[id].client)))
  {
    var holder := s.tasks[id].client;
    var clients' := Decremented(s.clients, holder);
    forall c | c in clients' ensures clients'[c].load == |Slots(s.tasks[id := rec], c)| {
      SlotsAfter(s.tasks, id, rec, c);
      if c == holder {
        assert id in Slots(s.tasks, c);
      } else {
        assert Slots(s.tasks, c) - {id} == Slots(s.tasks, c);
      }
    }
  }

  lemma KeepsSlot(s: State, id: string, rec: TaskRec)
    requires Accounted(s)
    requires if id in s.tasks && s.tasks[id].HoldsSlot() then rec.HoldsSlot() && rec.client == s.tasks[id].client else !rec.HoldsSlot()
    ensures Accounted(s.(tasks := s.tasks[id := rec]))
  {
    forall c ensures Slots(s.tasks[id := rec], c) == Slots(s.tasks, c) { SlotsAfter(s.tasks, id, rec, c); }
  }

  // ----- The books -----

  ghost predicate Escalated(s: State) {
    var holds :=
      forall id :: id in s.tasks ==> s.tasks[id].escalations <= s.cfg.maxEscalations;
    holds
  }

  ghost predicate Keyed(s: State) {
    forall id :: id in s.tasks ==> s.tasks[id].id == id
  }

  ghost predicate Books(s: State) {
    var holds :=
      Accounted(s) && Bounded(s) && Escalated(s) && Keyed(s);
    holds
  }

  ghost predicate Inv(s: State) {
    var holds :=
      QueueSound(s) && Books(s);
    holds
  }

  lemma BooksIgnoreQueue(s: State, queue: seq<Ticket>)
    requires Books(s)
    ensures Books(s.(queue := queue))
  {
  }

  lemma SendKeepsBooks(s: State, id: string, c: string)
    requires Books(s) && id in s.tasks && s.tasks[id].status.CanTransitionTo(Assigned)
    requires c in s.clients && s.clients[c].IsAvailable()
    ensures Books(Sent(s, id, c))
  {
    TakesSlot(s, id, s.tasks[id].Moved(Assigned).Moved(Running).(client := c));
  }

  /** A failed hook leaves the loads as they were, and the task Queued. */
  lemma UnsendRestores(s: State, id: string, c: string)
    requires id in s.tasks && s.tasks[id].status.CanTransitionTo(Assigned) && c in s.clients && s.clients[c].load >= 0
    ensures Sent(s, id, c).clients[c].load > 0
    ensures Unsent(Sent(s, id, c), id, c) == s.(tasks := s.tasks[id := s.tasks[id].(client := "", status := Queued)])
  {
    var u := Unsent(Sent(s, id, c), id, c);
    assert u.clients == s.clients;
    assert u.tasks == s.tasks[id := s.tasks[id].(client := "", status := Queued)];
  }

  lemma UnsendKeepsBooks(s: State, id: string, c: string)
    requires Books(s) && id in s.tasks && s.tasks[id].status.CanTransitionTo(Assigned) && c in s.clients
    ensures Books(Unsent(Sent(s, id, c), id, c))
  {
    UnsendRestores(s, id, c);
    KeepsSlot(s, id, s.tasks[id].(client := "", status := Queued));
  }

  lemma PerformKeepsBooks(d: Drain, a: Act)
    requires Books(d.st) && CanAct(d, a)
    ensures Books(Perform(d, a).st)
  {
    hide Accounted, Bounded, Requeued;
    var popped := d.st.(queue := d.st.queue[1..]);
    BooksIgnoreQueue(d.st, d.st.queue[1..]);
    match a
    case Hold(id) =>
    case Send(id, c) => SendKeepsBooks(popped, id, c);
    case Refuse(id, c) =>
      var back := Unsent(Sent(popped, id, c), id, c);
      UnsendKeepsBooks(popped, id, c);
      RequeuedAs(back, id);
      BooksIgnoreQueue(back, Requeued(back, id).queue);
    case Stick(id, c) =>
      RequeuedAs(popped, id);
      BooksIgnoreQueue(popped, Requeued(popped, id).queue);
  }

  lemma RequeuedAs(s: State, id: string)
    requires id in s.tasks
    ensures Requeued(s, id) == s.(queue := Requeued(s, id).queue)
  {
  }

  lemma {:induction false} DrainedKeepsBooks(d: Drain, log: seq<Act>, e: Drain)
    requires Books(d.st) && Drained(d, log, e)
    ensures Books(e.st)
    decreases |log|
  {
    hide Books;
    if log != [] {
      PerformKeepsBooks(d, log[0]);
      DrainedKeepsBooks(Perform(d, log[0]), log[1..], e);
    }
  }

  /** Whatever the hook answers: a dispatch keeps the invariant. */
  lemma DispatchedKeepsInv(s: State, log: seq<Act>, s': State)
    requires Inv(s) && Dispatched(s, log, s')
    ensures Inv(s')
  {
    hide Books, QueueSound;
    DispatchedKeepsQueue(s, log, s');
    var e := LoopEnd(s, log, s');
    DrainedKeepsBooks(Drain(s, [], false), log, e);
    PutBackChangesNoTask(e.st, e.held);
    BooksIgnoreQueue(e.st, s'.queue);
    assert s' == e.st.(queue := s'.queue);
  }
}
