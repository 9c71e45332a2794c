/**
 What one TryDispatch does to the queue: no task is lost or duplicated, exactly when what
 stays keeps its order, that each turn is the right one, and that what stays could not
 have been dispatched.  None of it depends on the loads being accounted correctly.
 */
module DispatchTheorems {
  import opened Tasks
  import opened DequeueOrder
  import opened SchedulerSpec
  import opened SchedulerInvariant
  import opened SchedulerRuns

  /** The IDs `log` dispatched with an accepting hook, in order. */
  function SentIds(log: seq<Act>): seq<string> {
    if log == [] then [] else (if log[0].Send? then [log[0].id] else []) + SentIds(log[1..])
  }

  function IdsOf(q: seq<Ticket>): seq<string> {
    seq(|q|, i requires 0 <= i < |q| => q[i].id)
  }

  // ----- Conservation -----

  lemma IdsOfCons(t: Ticket, q: seq<Ticket>)
    ensures IdsOf([t] + q) == [t.id] + IdsOf(q)
    ensures multiset(IdsOf([t] + q)) == multiset{t.id} + multiset(IdsOf(q))
  {
    assert IdsOf([t] + q) == [t.id] + IdsOf(q);
  }

  lemma {:induction false} InsertAdds(q: seq<Ticket>, t: Ticket)
    ensures multiset(IdsOf(Insert(q, t))) == multiset(IdsOf(q)) + multiset{t.id}
  {
    if q == [] || q[0].priority < t.priority {
      IdsOfCons(t, q);
    } else {
      InsertAdds(q[1..], t);
      IdsOfCons(q[0], q[1..]);
      IdsOfCons(q[0], Insert(q[1..], t));
      assert q == [q[0]] + q[1..];
    }
  }

  /** What one turn dispatches for good. */
  function SentBy(a: Act): multiset<string> {
    if a.Send? then multiset{a.id} else multiset{}
  }

  function Pool(d: Drain): multiset<string> {
    multiset(IdsOf(d.st.queue)) + multiset(d.held)
  }

  lemma RequeueConserves(s: State, id: string)
    requires id in s.tasks && |s.queue| < s.cfg.maxLen
    ensures multiset(IdsOf(Requeued(s, id).queue)) == multiset(IdsOf(s.queue)) + multiset{id}
  {
    InsertAdds(s.queue, Ticket(s.cfg.Rank(s.tasks[id].priority), id));
  }

  lemma PerformConserves(d: Drain, a: Act)
    requires DrainSound(d) && CanAct(d, a)
    ensures Pool(d) == SentBy(a) + Pool(Perform(d, a))
  {
    HasRoom(d);
    CanPerform(d, a);
    hide CanAct, DrainSound, Requeued, Sent, Unsent;
    var popped := d.st.(queue := d.st.queue[1..]);
    assert d.st.queue == [d.st.queue[0]] + d.st.queue[1..];
    IdsOfCons(d.st.queue[0], d.st.queue[1..]);
    match a
    case Hold(id) =>
    case Send(id, c) => SentKeepsQueue(popped, id, c);
    case Refuse(id, c) =>
      SentKeepsQueue(popped, id, c);
      RequeueConserves(Unsent(Sent(popped, id, c), id, c), id);
    case Stick(id, c) => RequeueConserves(popped, id);
  }

  lemma HasRoom(d: Drain)
    requires DrainSound(d) && d.st.queue != []
    ensures |d.st.queue[1..]| < d.st.cfg.maxLen
  {
  }

  lemma SentKeepsQueue(s: State, id: string, c: string)
    requires id in s.tasks
    ensures Sent(s, id, c).queue == s.queue && id in Sent(s, id, c).tasks
    ensures var u := Unsent(Sent(s, id, c), id, c); u.queue == s.queue && u.cfg == s.cfg && id in u.tasks
  {
  }

  lemma CanPerform(d: Drain, a: Act)
    requires CanAct(d, a)
    ensures !d.stopped && d.st.queue != [] && d.st.queue[0].id == a.id && a.id in d.st.tasks
  {
  }

  lemma {:induction false} DrainConserves(d: Drain, log: seq<Act>, e: Drain)
    requires DrainSound(d) && Drained(d, log, e)
    ensures Pool(d) == multiset(SentIds(log)) + Pool(e)
    decreases |log|
  {
    hide DrainSound, Pool, Best, Unmatched, Requeued, Sent, Unsent;
    if log != [] {
      PerformKeepsQueue(d, log[0]);
      PerformConserves(d, log[0]);
      DrainConserves(Perform(d, log[0]), log[1..], e);
      assert multiset(SentIds(log)) == SentBy(log[0]) + multiset(SentIds(log[1..]));
    }
  }

  lemma {:induction false} PutBackConserves(s: State, held: seq<string>)
    requires forall id :: id in held ==> id in s.tasks
    requires |s.queue| + |held| <= s.cfg.maxLen
    ensures multiset(IdsOf(PutBack(s, held).queue)) == multiset(IdsOf(s.queue)) + multiset(held)
    decreases |held|
  {
    if held != [] {
      RequeueConserves(s, held[0]);
      PutBackConserves(Requeued(s, held[0]), held[1..]);
      assert held == [held[0]] + held[1..];
    }
  }

  /** Queued before = dispatched + left, even when the hook fails; so no re-enqueue met a full queue. */
  lemma NoTaskIsLost(s: State, log: seq<Act>, s': State)
    requires QueueSound(s) && Dispatched(s, log, s')
    ensures multiset(IdsOf(s.queue)) == multiset(SentIds(log)) + multiset(IdsOf(s'.queue))
  {
    var e := LoopEnd(s, log, s');
    DrainConserves(Drain(s, [], false), log, e);
    PutBackConserves(e.st, e.held);
  }

  // ----- Order -----

  /** The dispatch failed: the hook refused the task, or it cannot leave its status. */
  predicate Failing(a: Act) {
    a.Refuse? || a.Stick?
  }

  /** Only the last turn can fail. */
  predicate CallFails(log: seq<Act>) {
    log != [] && Failing(log[|log| - 1])
  }

  ghost predicate NoFailure(log: seq<Act>) {
    forall i :: 0 <= i < |log| ==> !Failing(log[i])
  }

  /** The last turn and what was before it. */
  lemma {:induction false} LastTurn(d: Drain, log: seq<Act>, e: Drain) returns (m: Drain)
    requires Drained(d, log, e) && log != []
    ensures Drained(d, log[..|log| - 1], m) && CanAct(m, log[|log| - 1]) && e == Perform(m, log[|log| - 1])
    ensures NoFailure(log[..|log| - 1]) && (!d.stopped ==> !m.stopped)
    ensures e.stopped == Failing(log[|log| - 1])
    decreases |log|
  {
    hide Best, Unmatched, Requeued, Sent, Unsent;
    if |log| == 1 {
      m := d;
      assert log[..0] == [] && log[1..] == [];
    } else {
      var d', rest := Perform(d, log[0]), log[1..];
      assert CanAct(d', rest[0]);
      m := LastTurn(d', rest, e);
      var front, front' := log[..|log| - 1], rest[..|rest| - 1];
      assert front == [log[0]] + front' && front[1..] == front';
      assert Drained(d, front, m);
    }
  }

  lemma FailsIff(s: State, log: seq<Act>, e: Drain)
    requires Drained(Drain(s, [], false), log, e)
    ensures e.stopped <==> CallFails(log)
    ensures CallFails(log) <==> !NoFailure(log)
  {
    if log != [] {
      var m := LastTurn(Drain(s, [], false), log, e);
      assert forall i :: 0 <= i < |log| - 1 ==> log[i] == log[..|log| - 1][i];
    }
  }

  /** The tickets whose task was not dispatched, in the same order. */
  function Left(q: seq<Ticket>, sent: seq<string>): (r: seq<Ticket>)
    ensures forall t :: t in r <==> t in q && t.id !in sent
  {
    if q == [] then [] else (if q[0].id in sent then [] else [q[0]]) + Left(q[1..], sent)
  }

  function TicketsOf(s: State, held: seq<string>): seq<Ticket>
    requires forall id :: id in held ==> id in s.tasks
  {
    seq(|held|, i requires 0 <= i < |held| => Ticket(s.cfg.Rank(s.tasks[held[i]].priority), held[i]))
  }

  lemma {:induction false} SentWereQueued(d: Drain, log: seq<Act>, e: Drain)
    requires Drained(d, log, e) && NoFailure(log)
    ensures forall id :: id in SentIds(log) ==> id in TicketIds(d.st.queue)
    decreases |log|
  {
    if log != [] {
      SentWereQueued(Perform(d, log[0]), log[1..], e);
      assert d.st.queue[0].id in TicketIds(d.st.queue);
      TailIds(d.st.queue);
    }
  }

  lemma TailIds(q: seq<Ticket>)
    requires q != []
    ensures forall id :: id in TicketIds(q[1..]) ==> id in TicketIds(q)
  {
    forall id | id in TicketIds(q[1..]) ensures id in TicketIds(q) {
      var i :| 0 <= i < |q[1..]| && q[1..][i].id == id;
      assert q[i + 1].id == id;
    }
  }

  lemma {:induction false} LeftIgnores(q: seq<Ticket>, sent: seq<string>, id: string)
    requires id !in TicketIds(q)
    ensures Left(q, [id] + sent) == Left(q, sent)
  {
    if q != [] {
      assert q[0].id in TicketIds(q);
      TailIds(q);
      LeftIgnores(q[1..], sent, id);
    }
  }

  lemma {:induction false} LeftAll(q: seq<Ticket>)
    ensures Left(q, []) == q
  {
    if q != [] {
      LeftAll(q[1..]);
      assert q == [q[0]] + q[1..];
    }
  }

  /** One turn without failure moves the head of the queue to the held tasks or to a client, and changes no rank. */
  lemma PerformKeepsOrder(d: Drain, a: Act)
    requires DrainSound(d) && CanAct(d, a) && !Failing(a)
    ensures forall id :: id in d.held ==> id in d.st.tasks
    ensures forall id :: id in Perform(d, a).held ==> id in Perform(d, a).st.tasks
    ensures Perform(d, a).st.queue == d.st.queue[1..]
    ensures TicketsOf(Perform(d, a).st, Perform(d, a).held)
         == TicketsOf(d.st, d.held) + if a.Send? then [] else [d.st.queue[0]]
  {
    hide Best, Unmatched;
    assert Queueable(d.st, d.st.queue[0]);
  }

  /** Turns without failure keep the order of the held tasks and the queue behind them. */
  lemma {:induction false} DrainKeepsOrder(d: Drain, log: seq<Act>, e: Drain)
    requires DrainSound(d) && Drained(d, log, e) && NoFailure(log)
    ensures forall id :: id in e.held ==> id in e.st.tasks
    ensures forall id :: id in d.held ==> id in d.st.tasks
    ensures TicketsOf(e.st, e.held) + e.st.queue == TicketsOf(d.st, d.held) + Left(d.st.queue, SentIds(log))
    decreases |log|
  {
    hide QueueSound, Best, Unmatched, Requeued, Sent, Unsent;
    if log == [] {
      LeftAll(d.st.queue);
    } else {
      var a, d', rest := log[0], Perform(d, log[0]), log[1..];
      PerformKeepsQueue(d, a);
      PerformKeepsOrder(d, a);
      PopKeepsQueue(d.st);
      DrainKeepsOrder(d', rest, e);
      SentWereQueued(d', rest, e);
      LeftAfter(d.st.queue, log);
      Associate(TicketsOf(d.st, d.held), if a.Send? then [] else [d.st.queue[0]], Left(d'.st.queue, SentIds(rest)));
    }
  }

  lemma Associate<T>(a: seq<T>, b: seq<T>, c: seq<T>)
    ensures (a + b) + c == a + (b + c)
  {
  }

  lemma {:induction false} LeftAfter(q: seq<Ticket>, log: seq<Act>)
    requires q != [] && log != [] && q[0].id == log[0].id && q[0].id !in TicketIds(q[1..])
    requires forall id :: id in SentIds(log[1..]) ==> id in TicketIds(q[1..])
    ensures Left(q, SentIds(log)) == (if log[0].Send? then [] else [q[0]]) + Left(q[1..], SentIds(log[1..]))
  {
    if log[0].Send? {
      assert SentIds(log) == [q[0].id] + SentIds(log[1..]);
      LeftIgnores(q[1..], SentIds(log[1..]), q[0].id);
    } else {
      assert SentIds(log) == SentIds(log[1..]);
    }
  }

  lemma {:induction false} InsertBetween(p: seq<Ticket>, q: seq<Ticket>, t: Ticket)
    requires forall i :: 0 <= i < |p| ==> p[i].priority >= t.priority
    requires q != [] ==> q[0].priority < t.priority
    ensures Insert(p + q, t) == p + [t] + q
  {
    if p == [] {
      assert p + q == q;
    } else {
      InsertBetween(p[1..], q, t);
      assert (p + q)[1..] == p[1..] + q;
      assert p + [t] + q == [p[0]] + (p[1..] + [t] + q);
    }
  }

  /** Held tasks that rank behind p and before q return between them. */
  lemma {:induction false} PutBackBetween(s: State, p: seq<Ticket>, q: seq<Ticket>, held: seq<string>)
    requires forall id :: id in held ==> id in s.tasks
    requires |s.queue| + |held| <= s.cfg.maxLen && s.queue == p + q && Descending(p + TicketsOf(s, held))
    requires q != [] ==> forall t :: t in TicketsOf(s, held) ==> q[0].priority < t.priority
    ensures PutBack(s, held).queue == p + TicketsOf(s, held) + q
    decreases |held|
  {
    var ts := TicketsOf(s, held);
    if held == [] {
      assert p + ts == p;
    } else {
      var s1 := Requeued(s, held[0]);
      assert ts[0] in ts;
      forall i | 0 <= i < |p| ensures p[i].priority >= ts[0].priority {
        assert (p + ts)[i] == p[i] && (p + ts)[|p|] == ts[0];
      }
      InsertBetween(p, q, ts[0]);
      TicketsFirst(s, s1, held);
      Associate(p, [ts[0]], TicketsOf(s1, held[1..]));
      PutBackBetween(s1, p + [ts[0]], q, held[1..]);
    }
  }

  lemma TicketsFirst(s: State, s1: State, held: seq<string>)
    requires held != [] && (forall id :: id in held ==> id in s.tasks) && s1.tasks == s.tasks && s1.cfg == s.cfg
    ensures forall id :: id in held[1..] ==> id in s1.tasks
    ensures TicketsOf(s, held) == [TicketsOf(s, held)[0]] + TicketsOf(s1, held[1..])
    ensures forall t :: t in TicketsOf(s1, held[1..]) ==> t in TicketsOf(s, held)
  {
    assert forall id :: id in held[1..] ==> id in held;
    var ts, rest := TicketsOf(s, held), TicketsOf(s1, held[1..]);
    assert ts == [ts[0]] + rest;
  }

  lemma {:induction false} LeftDescends(q: seq<Ticket>, sent: seq<string>)
    requires Descending(q)
    ensures Descending(Left(q, sent))
  {
    if q != [] {
      LeftDescends(q[1..], sent);
      var r := Left(q[1..], sent);
      forall j | 0 <= j < |r| ensures r[j].priority <= q[0].priority {
        assert r[j] in q[1..];
      }
    }
  }

  /** Without a failure, what stays queued is what was not dispatched, in its old order and at its old rank. */
  lemma OrderIsKept(s: State, log: seq<Act>, s': State)
    requires QueueSound(s) && Dispatched(s, log, s') && NoFailure(log)
    ensures s'.queue == Left(s.queue, SentIds(log))
  {
    hide QueueSound, DrainSound, Drained, Requeued, PutBack, Descending;
    var d := Drain(s, [], false);
    var e := LoopEnd(s, log, s');
    StartSound(s);
    FailsIff(s, log, e);
    DrainKeepsOrder(d, log, e);
    LeftDescends(s.queue, SentIds(log));
    NothingHeld(s);
    var ts := TicketsOf(e.st, e.held);
    assert ts + [] == ts;
    PutBackBetween(e.st, [], [], e.held);
  }

  /** A sequence in rank order falls apart at a rank. */
  lemma {:induction false} SplitAt(q: seq<Ticket>, rank: int) returns (i: nat)
    requires Descending(q)
    ensures i <= |q| && (forall k :: 0 <= k < i ==> q[k].priority > rank) && (forall k :: i <= k < |q| ==> q[k].priority <= rank)
  {
    i := 0;
    while i < |q| && q[i].priority > rank
      invariant i <= |q| && forall k :: 0 <= k < i ==> q[k].priority > rank
    {
      i := i + 1;
    }
  }

  lemma {:induction false} PutBackInTwo(s: State, held: seq<string>, i: nat)
    requires (forall id :: id in held ==> id in s.tasks) && i <= |held|
    ensures (forall id :: id in held[..i] ==> id in s.tasks) && PutBack(s, held[..i]).tasks == s.tasks && forall id :: id in held[i..] ==> id in s.tasks
    ensures PutBack(s, held) == PutBack(PutBack(s, held[..i]), held[i..])
    decreases i
  {
    assert (forall id :: id in held[..i] ==> id in held) && forall id :: id in held[i..] ==> id in held;
    if i > 0 {
      assert held[..i][1..] == held[1..][..i - 1] && held[1..][i - 1..] == held[i..];
      PutBackInTwo(Requeued(s, held[0]), held[1..], i - 1);
    }
  }

  lemma SentIdsBefore(log: seq<Act>)
    requires log != [] && Failing(log[|log| - 1])
    ensures SentIds(log) == SentIds(log[..|log| - 1])
    decreases |log|
  {
    if |log| > 1 {
      SentIdsBefore(log[1..]);
      assert log[1..][..|log| - 2] == log[..|log| - 1][1..];
    }
  }

  /** The queue of a call that fails at x, before and after: the held tasks of its rank and the queued ones trade places around it. */
  ghost predicate Traded(left: seq<Ticket>, after: seq<Ticket>, x: Ticket, a: seq<Ticket>, b: seq<Ticket>, c: seq<Ticket>, d: seq<Ticket>) {
    var holds :=
      && left == a + b + [x] + c + d && after == a + c + [x] + b + d
      && (forall t :: t in a ==> t.priority > x.priority)
      && (forall t :: t in b + c ==> t.priority == x.priority)
      && (forall t :: t in d ==> t.priority < x.priority);
    holds
  }

  /** A call that fails at x: what it leaves, in parts. */
  lemma FailedCall(s: State, log: seq<Act>, s': State)
    returns (x: Ticket, a: seq<Ticket>, b: seq<Ticket>, c: seq<Ticket>, d: seq<Ticket>)
    requires QueueSound(s) && Dispatched(s, log, s') && CallFails(log)
    ensures x.id == log[|log| - 1].id && Traded(Left(s.queue, SentIds(log)), s'.queue, x, a, b, c, d)
  {
    hide QueueSound, DrainSound, Drained, CanAct, Perform, Requeued, PutBack, Descending, Insert;
    var e := LoopEnd(s, log, s');
    var start := Drain(s, [], false);
    var m := LastTurn(start, log, e);
    StartSound(s);
    DrainedKeepsQueue(start, log[..|log| - 1], m);
    DrainKeepsOrder(start, log[..|log| - 1], m);
    SentIdsBefore(log);
    NothingHeld(s);
    FailedTurn(m, log[|log| - 1]);
    LeftDescends(s.queue, SentIds(log));
    x, a, b, c, d := TradedParts(TicketsOf(m.st, m.held), m.st.queue);
    ReturnAround(e.st, m.held, |a|, x, c, d);
  }

  /** The held tickets, the failing one, and the rest, cut at its rank. */
  lemma TradedParts(held: seq<Ticket>, q: seq<Ticket>)
    returns (x: Ticket, a: seq<Ticket>, b: seq<Ticket>, c: seq<Ticket>, d: seq<Ticket>)
    requires q != [] && Descending(held + q)
    ensures x == q[0] && Descending(held) && |a| <= |held| && a == held[..|a|] && b == held[|a|..]
    ensures Insert(q[1..], x) == c + [x] + d && Traded(held + q, a + c + [x] + b + d, x, a, b, c, d)
  {
    x := q[0];
    AroundDescends(held, q);
    var i := SplitAt(held, x.priority);
    var j := SplitAt(q[1..], x.priority - 1);
    a, b, c, d := held[..i], held[i..], q[1..][..j], q[1..][j..];
    CutRanks(held, q[1..], x.priority, i, j);
    Parts(held, q, i, j);
    InsertBetween(c, d, x);
  }

  lemma CutRanks(held: seq<Ticket>, rest: seq<Ticket>, r: int, i: nat, j: nat)
    requires i <= |held| && j <= |rest|
    requires (forall k :: 0 <= k < i ==> held[k].priority > r) && (forall k :: i <= k < |held| ==> held[k].priority == r)
    requires (forall k :: 0 <= k < j ==> rest[k].priority == r) && (forall k :: j <= k < |rest| ==> rest[k].priority < r)
    ensures (forall t :: t in held[..i] ==> t.priority > r) && (forall t :: t in held[i..] + rest[..j] ==> t.priority == r)
    ensures forall t :: t in rest[j..] ==> t.priority < r
  {
  }

  lemma Parts<T>(a: seq<T>, q: seq<T>, i: nat, j: nat)
    requires i <= |a| && j < |q|
    ensures q[1..] == q[1..][..j] + q[1..][j..]
    ensures a + q == a[..i] + a[i..] + [q[0]] + q[1..][..j] + q[1..][j..]
  {
  }

  lemma StartSound(s: State)
    requires QueueSound(s)
    ensures DrainSound(Drain(s, [], false)) && Descending(s.queue)
  {
  }

  lemma NothingHeld(s: State)
    ensures TicketsOf(s, []) == [] && forall q: seq<Ticket> :: [] + q == q
  {
  }

  lemma AroundDescends(held: seq<Ticket>, q: seq<Ticket>)
    requires Descending(held + q) && q != []
    ensures Descending(held) && Descending(q[1..])
    ensures forall k :: 0 <= k < |held| ==> held[k].priority >= q[0].priority
    ensures forall k :: 0 <= k < |q[1..]| ==> q[1..][k].priority <= q[0].priority
  {
    var all := held + q;
    assert all[|held|] == q[0];
    assert forall k :: 0 <= k < |held| ==> all[k] == held[k];
    assert forall k :: 0 <= k < |q[1..]| ==> all[|held| + 1 + k] == q[1..][k];
  }

  /** A turn that fails puts its task back into the rest of the queue, and changes no rank. */
  lemma FailedTurn(m: Drain, a: Act)
    requires DrainSound(m) && CanAct(m, a) && Failing(a)
    ensures m.st.queue != [] && m.st.queue[0].id == a.id && (forall id :: id in m.held ==> id in m.st.tasks)
    ensures var e := Perform(m, a);
      && e.held == m.held && (forall id :: id in e.held ==> id in e.st.tasks) && TicketsOf(e.st, e.held) == TicketsOf(m.st, m.held)
      && e.st.queue == Insert(m.st.queue[1..], m.st.queue[0]) && |e.st.queue| + |e.held| <= e.st.cfg.maxLen
  {
    hide Best, Unmatched;
    assert Queueable(m.st, m.st.queue[0]);
  }

  /** Ranks above r, then ranks equal to r. */
  lemma RanksDescend(a: seq<Ticket>, level: seq<Ticket>, r: int)
    requires Descending(a) && (forall t :: t in a ==> t.priority > r) && (forall t :: t in level ==> t.priority == r)
    ensures Descending(a + level)
  {
  }

  lemma TicketsInTwo(s: State, s1: State, held: seq<string>, i: nat)
    requires i <= |held| && (forall id :: id in held ==> id in s.tasks) && s1.tasks == s.tasks && s1.cfg == s.cfg
    ensures (forall id :: id in held[..i] ==> id in s.tasks) && (forall id :: id in held[i..] ==> id in s1.tasks)
    ensures TicketsOf(s, held[..i]) == TicketsOf(s, held)[..i] && TicketsOf(s1, held[i..]) == TicketsOf(s, held)[i..]
  {
    assert forall id :: id in held[..i] ==> id in held;
    assert forall id :: id in held[i..] ==> id in held;
  }

  /** The held tasks return: those of a higher rank to the front, those of x's rank behind x. */
  lemma ReturnAround(s: State, held: seq<string>, i: nat, x: Ticket, c: seq<Ticket>, d: seq<Ticket>)
    requires (forall id :: id in held ==> id in s.tasks) && |s.queue| + |held| <= s.cfg.maxLen
    requires i <= |held| && s.queue == c + [x] + d
    requires var ts := TicketsOf(s, held);
      Descending(ts) && (forall t :: t in ts[..i] ==> t.priority > x.priority) && (forall t :: t in ts[i..] ==> t.priority == x.priority)
    requires (forall t :: t in c ==> t.priority == x.priority) && (forall t :: t in d ==> t.priority < x.priority)
    ensures var ts := TicketsOf(s, held);
      PutBack(s, held).queue == ts[..i] + c + [x] + ts[i..] + d
  {
    hide Descending;
    var ts := TicketsOf(s, held);
    var s1 := PutBack(s, held[..i]);
    PutBackChangesNoTask(s, held[..i]);
    TicketsInTwo(s, s1, held, i);
    FrontDescends(ts, i);
    Regroup(ts[..i], c, [x], d);
    ReturnHigher(s, held[..i], x, c, d);
    PutBackInTwo(s, held, i);
    PutBackLength(s, held[..i]);
    ReturnEqual(s1, held[i..], x, ts[..i], c, d);
  }

  lemma {:induction false} PutBackLength(s: State, held: seq<string>)
    requires forall id :: id in held ==> id in s.tasks
    ensures |PutBack(s, held).queue| <= |s.queue| + |held|
    decreases |held|
  {
    if held != [] {
      PutBackLength(Requeued(s, held[0]), held[1..]);
    }
  }

  lemma Regroup<T>(a: seq<T>, b: seq<T>, c: seq<T>, d: seq<T>)
    ensures a + (b + c + d) == a + b + c + d
  {
  }

  lemma FrontDescends(q: seq<Ticket>, i: nat)
    requires Descending(q) && i <= |q|
    ensures Descending(q[..i])
  {
  }

  lemma ReturnHigher(s: State, held: seq<string>, x: Ticket, c: seq<Ticket>, d: seq<Ticket>)
    requires (forall id :: id in held ==> id in s.tasks) && |s.queue| + |held| <= s.cfg.maxLen && s.queue == c + [x] + d
    requires Descending(TicketsOf(s, held)) && forall t :: t in TicketsOf(s, held) ==> t.priority > x.priority
    requires forall t :: t in c ==> t.priority == x.priority
    ensures PutBack(s, held).queue == TicketsOf(s, held) + c + [x] + d
  {
    var ts := TicketsOf(s, held);
    var low := c + [x] + d;
    assert low[0] == if c == [] then x else c[0];
    assert [] + low == low && [] + ts == ts;
    PutBackBetween(s, [], low, held);
    Regroup(ts, c, [x], d);
  }

  lemma ReturnEqual(s: State, held: seq<string>, x: Ticket, a: seq<Ticket>, c: seq<Ticket>, d: seq<Ticket>)
    requires (forall id :: id in held ==> id in s.tasks) && |s.queue| + |held| <= s.cfg.maxLen && s.queue == a + c + [x] + d
    requires Descending(a) && (forall t :: t in a ==> t.priority > x.priority)
    requires forall t :: t in TicketsOf(s, held) ==> t.priority == x.priority
    requires (forall t :: t in c ==> t.priority == x.priority) && (forall t :: t in d ==> t.priority < x.priority)
    ensures PutBack(s, held).queue == a + c + [x] + TicketsOf(s, held) + d
  {
    hide Descending;
    var ts := TicketsOf(s, held);
    RanksDescend(a, c + [x] + ts, x.priority);
    Regroup(a, c, [x], ts);
    PutBackBetween(s, a + c + [x], d, held);
  }

  /** No other ticket of q has the rank of the task's. */
  predicate AloneInRank(q: seq<Ticket>, id: string) {
    forall t, u :: t in q && u in q && t.id == id && t.priority == u.priority ==> u == t
  }

  /** Whatever the hook answers: the order is kept exactly when no dispatch failed, or no other undispatched task has the rank of the one that failed. */
  lemma OrderIsKeptIff(s: State, log: seq<Act>, s': State)
    requires QueueSound(s) && Dispatched(s, log, s')
    ensures s'.queue == Left(s.queue, SentIds(log)) <==>
      (CallFails(log) ==> AloneInRank(Left(s.queue, SentIds(log)), log[|log| - 1].id))
  {
    hide QueueSound, Dispatched;
    if CallFails(log) {
      var x, a, b, c, d := FailedCall(s, log, s');
      DispatchedKeepsQueue(s, log, s');
      OrderOfSound(s');
      TradedAlone(Left(s.queue, SentIds(log)), s'.queue, x, a, b, c, d);
    } else {
      var e := LoopEnd(s, log, s');
      FailsIff(s, log, e);
      OrderIsKept(s, log, s');
    }
  }

  lemma OrderOfSound(s: State)
    requires QueueSound(s)
    ensures DistinctTickets(s.queue)
  {
  }

  lemma TradedAlone(left: seq<Ticket>, after: seq<Ticket>, x: Ticket, a: seq<Ticket>, b: seq<Ticket>, c: seq<Ticket>, d: seq<Ticket>)
    requires Traded(left, after, x, a, b, c, d) && DistinctTickets(after)
    ensures after == left <==> AloneInRank(left, x.id)
  {
    assert left[|a| + |b|] == x && after[|a| + |c|] == x;
    if b == [] && c == [] {
      assert after == left == a + [x] + d;
      TradedRanks(a, x, d);
    } else {
      var u := if b != [] then b[0] else c[0];
      var i, k := if b != [] then |a| else |a| + |b| + 1, if b != [] then |a| + |c| + 1 else |a|;
      assert left[i] == u && after[k] == u;
      assert u.id != x.id;
      assert u in left && x in left && !AloneInRank(left, x.id);
      if b != [] {
        assert after[|a|] == if c == [] then x else c[0];
        assert left[|a|] != after[|a|];
      } else {
        assert left[|a|] == x && after[|a|] == c[0];
      }
    }
  }

  lemma TradedRanks(a: seq<Ticket>, x: Ticket, d: seq<Ticket>)
    requires (forall k :: 0 <= k < |a| ==> a[k].priority > x.priority) && (forall k :: 0 <= k < |d| ==> d[k].priority < x.priority)
    requires DistinctTickets(a + [x] + d)
    ensures AloneInRank(a + [x] + d, x.id)
  {
    var all := a + [x] + d;
    assert all[|a|] == x && (forall k :: 0 <= k < |a| ==> all[k] == a[k]) && forall k :: 0 <= k < |d| ==> all[|a| + 1 + k] == d[k];
    forall t, u | t in all && u in all && t.id == x.id && t.priority == u.priority ensures u == t {
      var i :| 0 <= i < |all| && all[i] == t;
      var k :| 0 <= k < |all| && all[k] == u;
      assert i == |a|;
      assert forall j :: |a| < j < |all| ==> all[j] == d[j - |a| - 1];
    }
  }

  /** A FIFO queue of two tasks: no client suits the first, one suits the second. */
  function TwoWaiting(): State {
    var a := TaskRec("a", Queued, "tester", [], 5, "", [], [], "", [], 0, 0, "", None, None);
    State(Config(false, 10, 2), map["a" := a, "b" := a.(id := "b", role := "coder")], [Ticket(0, "a"), Ticket(0, "b")],
          map["c" := Client("c", "coder", [], 1, 0, Connected)])
  }

  lemma TwoWaitingInv()
    ensures Inv(TwoWaiting())
  {
    var s := TwoWaiting();
    assert Slots(s.tasks, "c") == {};
  }

  /** The first is held aside, the hook fails for the second, and the loop stops. */
  lemma TwoWaitingDrain()
    ensures var s, tb := TwoWaiting(), Ticket(0, "b");
      Drained(Drain(s, [], false), [Hold("a"), Refuse("b", "c")], Drain(s.(queue := [tb]), ["a"], true))
  {
    var s, tb := TwoWaiting(), Ticket(0, "b");
    var log := [Hold("a"), Refuse("b", "c")];
    var d0, d1, d2 := Drain(s, [], false), Drain(s.(queue := [tb]), ["a"], false), Drain(s.(queue := [tb]), ["a"], true);
    assert s.queue[1..] == [tb] && [] + ["a"] == ["a"];
    assert CanAct(d0, log[0]) && Perform(d0, log[0]) == d1;
    RefusedAlone(s, d1, s.tasks["b"], s.clients["c"], tb);
    assert log[1..] == [Refuse("b", "c")] && log[1..][1..] == [];
    assert Drained(d1, log[1..], d2) by { assert Drained(d2, [], d2); }
  }

  /** With a failing hook the order can change: a task held aside returns behind a later one whose dispatch failed. */
  lemma FailureCanReorder()
    ensures exists s, log, s' :: Inv(s) && Dispatched(s, log, s') && IdsOf(s.queue) == ["a", "b"] && IdsOf(s'.queue) == ["b", "a"]
  {
    hide Inv, Drained;
    var s, log := TwoWaiting(), [Hold("a"), Refuse("b", "c")];
    TwoWaitingInv();
    TwoWaitingDrain();
    var ta, tb := Ticket(0, "a"), Ticket(0, "b");
    var e := Drain(s.(queue := [tb]), ["a"], true);
    var s' := s.(queue := [tb, ta]);
    InsertLast([tb], ta);
    assert ["a"][1..] == [];
    assert PutBack(e.st, e.held) == s';
    assert Dispatched(s, log, s');
    assert IdsOf(s.queue) == ["a", "b"] && IdsOf(s'.queue) == ["b", "a"];
  }

  lemma RefusedAlone(s: State, d: Drain, b: TaskRec, c: Client, tb: Ticket)
    requires b.status.Queued? && b.id == "b" && b.client == "" && c.id == "c" && c.load == 0 && c.capacity == 1 && c.state.Connected?
    requires b.role == c.role && b.skills == [] && b.attempts == [] && tb == Ticket(0, "b") && !s.cfg.ranked && s.cfg.maxLen == 10
    requires "b" in s.tasks && s.tasks["b"] == b && s.clients == map["c" := c] && d.st == s.(queue := [tb]) && !d.stopped
    ensures CanAct(d, Refuse("b", "c")) && Perform(d, Refuse("b", "c")) == d.(stopped := true)
  {
    var popped := d.st.(queue := []);
    assert d.st.queue[1..] == [];
    var u := Unsent(Sent(popped, "b", "c"), "b", "c");
    assert u.clients == s.clients;
    assert u.tasks == s.tasks;
    assert Insert([], tb) == [tb];
  }

  // ----- Work conservation -----

  /** Availability only shrinks while the loop runs. */
  ghost predicate Shrinks(a: map<string, Client>, b: map<string, Client>) {
    && a.Keys == b.Keys
    && forall c :: c in a ==> b[c] == a[c].(load := b[c].load) && a[c].load <= b[c].load
  }

  ghost predicate Hopeless(s: State, id: string) {
    id in s.tasks && Unmatched(s.clients, s.tasks[id], LastFailedClient(s.tasks[id].attempts))
  }

  lemma {:induction false} HeldStayHopeless(d: Drain, log: seq<Act>, e: Drain)
    requires DrainSound(d) && Drained(d, log, e) && NoFailure(log)
    requires forall id :: id in d.held ==> Hopeless(d.st, id)
    ensures forall id :: id in e.held ==> Hopeless(e.st, id)
    decreases |log|
  {
    hide Requeued;
    if log != [] {
      var d' := Perform(d, log[0]);
      PopKeepsQueue(d.st);
      PerformKeepsQueue(d, log[0]);
      forall id | id in d'.held ensures Hopeless(d'.st, id) {
        assert Shrinks(d.st.clients, d'.st.clients);
        if log[0].Send? {
          assert id in d.held && id != log[0].id;
        }
      }
      HeldStayHopeless(d', log[1..], e);
    }
  }

  /** When no dispatch failed, nothing left in the queue has a client that is available, matching and not excluded. */
  lemma WorkConserving(s: State, log: seq<Act>, s': State)
    requires QueueSound(s) && Dispatched(s, log, s') && NoFailure(log)
    ensures forall t :: t in s'.queue ==> Hopeless(s', t.id)
  {
    hide QueueSound, DrainSound, Drained, PutBack;
    var d := Drain(s, [], false);
    var e := LoopEnd(s, log, s');
    StartSound(s);
    FailsIff(s, log, e);
    HeldStayHopeless(d, log, e);
    PutBackChangesNoTask(e.st, e.held);
    PutBackIds(e.st, e.held);
    forall t | t in s'.queue ensures Hopeless(s', t.id) {
      var i :| 0 <= i < |s'.queue| && s'.queue[i] == t;
      assert t.id in TicketIds(s'.queue);
      assert Hopeless(e.st, t.id);
    }
  }

  // ----- Soundness of each turn -----

  /** How many tasks `log` dispatched to client c. */
  function SendsTo(log: seq<Act>, c: string): nat {
    if log == [] then 0 else (if log[0].Send? && log[0].client == c then 1 else 0) + SendsTo(log[1..], c)
  }

  /** The load of client c when the i-th turn comes. */
  function LoadAt(s: State, log: seq<Act>, i: nat, c: string): int
    requires i <= |log| && c in s.clients
  {
    s.clients[c].load + SendsTo(log[..i], c)
  }

  /** Client c could take the task if it had the given load. */
  predicate Fits(s: State, t: TaskRec, c: string, load: int) {
    && c in s.clients && s.clients[c].state.Connected? && load < s.clients[c].capacity
    && s.clients[c].Suits(t.role, t.skills) && c != LastFailedClient(t.attempts)
  }

  ghost predicate NoneFits(s: State, t: TaskRec, log: seq<Act>, i: nat)
    requires i <= |log|
  {
    forall x :: x in s.clients ==> !Fits(s, t, x, LoadAt(s, log, i, x))
  }

  /** The i-th turn chose a client that could take the task, and one of least load, counting the earlier turns. */
  ghost predicate FitsBest(s: State, t: TaskRec, log: seq<Act>, i: nat, c: string)
    requires i <= |log|
  {
    var holds :=
      && c in s.clients && Fits(s, t, c, LoadAt(s, log, i, c))
      && forall x :: x in s.clients && Fits(s, t, x, LoadAt(s, log, i, x)) ==> LoadAt(s, log, i, c) <= LoadAt(s, log, i, x);
    holds
  }

  /** The i-th turn takes the i-th task: aside exactly if no client could take it, and otherwise to a best one, unless its status forbids. */
  ghost predicate RightTurn(s: State, log: seq<Act>, i: nat)
    requires i < |log| && i < |s.queue|
  {
    var holds :=
      && log[i].id == s.queue[i].id && log[i].id in s.tasks
      && var t := s.tasks[log[i].id];
      && (log[i].Hold? <==> NoneFits(s, t, log, i))
      && (!log[i].Hold? ==> FitsBest(s, t, log, i, log[i].client))
      && (!log[i].Hold? ==> (log[i].Stick? <==> !t.status.CanTransitionTo(Assigned)));
    holds
  }

  lemma PerformLoads(d: Drain, a: Act)
    requires CanAct(d, a) && !Failing(a)
    ensures Perform(d, a).st.clients.Keys == d.st.clients.Keys
    ensures forall x :: x in d.st.clients ==>
      Perform(d, a).st.clients[x] == d.st.clients[x].(load := d.st.clients[x].load + SendsTo([a], x))
  {
  }

  lemma SendsToCons(log: seq<Act>, c: string)
    requires log != []
    ensures SendsTo(log, c) == SendsTo([log[0]], c) + SendsTo(log[1..], c)
  {
  }

  lemma LoadsLater(d: Drain, log: seq<Act>, i: nat, x: string)
    requires 0 < i <= |log| && CanAct(d, log[0]) && !Failing(log[0]) && x in d.st.clients
    ensures var s' := Perform(d, log[0]).st;
      && x in s'.clients && LoadAt(s', log[1..], i - 1, x) == LoadAt(d.st, log, i, x)
      && s'.clients[x] == d.st.clients[x].(load := s'.clients[x].load)
  {
    PerformLoads(d, log[0]);
    assert log[1..][..i - 1] == log[..i][1..];
    SendsToCons(log[..i], x);
  }

  /** A client fits after the first turn exactly if it fits with that turn counted. */
  lemma FitsLater(d: Drain, log: seq<Act>, i: nat, t: TaskRec)
    requires 0 < i <= |log| && CanAct(d, log[0]) && !Failing(log[0])
    ensures var s' := Perform(d, log[0]).st;
      && s'.clients.Keys == d.st.clients.Keys
      && (NoneFits(s', t, log[1..], i - 1) <==> NoneFits(d.st, t, log, i))
      && forall c :: FitsBest(s', t, log[1..], i - 1, c) ==> FitsBest(d.st, t, log, i, c)
  {
    CanPerform(d, log[0]);
    hide CanAct, Perform;
    PerformLoads(d, log[0]);
    var s' := Perform(d, log[0]).st;
    forall x | x in d.st.clients
      ensures LoadAt(s', log[1..], i - 1, x) == LoadAt(d.st, log, i, x)
      ensures Fits(s', t, x, LoadAt(s', log[1..], i - 1, x)) <==> Fits(d.st, t, x, LoadAt(d.st, log, i, x))
    {
      LoadsLater(d, log, i, x);
    }
  }

  /** Turn by turn, a call takes the queue's tasks in order. */
  lemma {:induction false} TurnsInOrder(d: Drain, log: seq<Act>, e: Drain, i: nat)
    requires Drained(d, log, e) && i < |log|
    ensures i < |d.st.queue| && log[i].id == d.st.queue[i].id && (i > 0 ==> !Failing(log[0]))
    decreases i
  {
    hide Best, Unmatched;
    if i > 0 {
      var d', rest := Perform(d, log[0]), log[1..];
      assert CanAct(d', rest[0]);
      TurnsInOrder(d', rest, e, i - 1);
      assert rest[i - 1] == log[i];
    }
  }

  /** The first turn leaves every later task of the queue alone. */
  lemma LaterUntouched(d: Drain, a: Act, i: nat)
    requires DrainSound(d) && CanAct(d, a) && 0 < i < |d.st.queue|
    ensures var id := d.st.queue[i].id; id in d.st.tasks && id in Perform(d, a).st.tasks && Perform(d, a).st.tasks[id] == d.st.tasks[id]
  {
    hide Best, Unmatched;
    assert Queueable(d.st, d.st.queue[i]);
    assert d.st.queue[i].id != d.st.queue[0].id;
  }

  lemma FirstTurn(d: Drain, log: seq<Act>)
    requires log != [] && CanAct(d, log[0])
    ensures RightTurn(d.st, log, 0)
  {
    assert log[..0] == [];
    var t := d.st.tasks[log[0].id];
    forall c | c in d.st.clients
      ensures Eligible(d.st.clients, t, LastFailedClient(t.attempts), c) <==> Fits(d.st, t, c, LoadAt(d.st, log, 0, c))
    {
    }
  }

  lemma {:induction false} TurnIsRight(d: Drain, log: seq<Act>, e: Drain, i: nat)
    requires DrainSound(d) && Drained(d, log, e) && i < |log|
    ensures i < |d.st.queue| && RightTurn(d.st, log, i)
    decreases i
  {
    hide NoneFits, FitsBest, DrainSound, CanAct, Perform;
    if i == 0 {
      TurnsInOrder(d, log, e, 0);
      FirstTurn(d, log);
    } else {
      CanPerform(d, log[0]);
      var d', rest := Perform(d, log[0]), log[1..];
      TurnsInOrder(d, log, e, i);
      PerformKeepsQueue(d, log[0]);
      TurnIsRight(d', rest, e, i - 1);
      assert rest[i - 1] == log[i];
      LaterUntouched(d, log[0], i);
      FitsLater(d, log, i, d.st.tasks[log[i].id]);
    }
  }

  /** Every turn of a call is the right one: aside, or to a connected, suitable, not excluded client with a free slot, of least load. */
  lemma DispatchIsSound(s: State, log: seq<Act>, s': State, i: nat)
    requires QueueSound(s) && Dispatched(s, log, s') && i < |log|
    ensures i < |s.queue| && RightTurn(s, log, i)
  {
    var e := LoopEnd(s, log, s');
    TurnIsRight(Drain(s, [], false), log, e, i);
  }

  lemma {:induction false} TurnsAreCounted(d: Drain, log: seq<Act>, e: Drain)
    requires Drained(d, log, e) && NoFailure(log)
    ensures |e.st.queue| + |log| == |d.st.queue|
    decreases |log|
  {
    hide Best, Unmatched;
    if log != [] {
      TurnsAreCounted(Perform(d, log[0]), log[1..], e);
    }
  }

  /** A call goes through the whole queue unless a dispatch fails. */
  lemma CallEnds(s: State, log: seq<Act>, s': State)
    requires QueueSound(s) && Dispatched(s, log, s')
    ensures |log| <= |s.queue| && (|log| < |s.queue| ==> CallFails(log))
  {
    var e := LoopEnd(s, log, s');
    FailsIff(s, log, e);
    if CallFails(log) {
      TurnsInOrder(Drain(s, [], false), log, e, |log| - 1);
    } else {
      TurnsAreCounted(Drain(s, [], false), log, e);
    }
  }

  // ----- Every dispatch call of every run -----

  /** In every run every dispatch call loses no task, takes the right turns and orders what it leaves; without a failure it leaves no dispatchable task. */
  lemma DispatchInRuns(r: Run, k: nat)
    requires IsFreshRun(r) && k < |r.labels| && CallState(r.states[k], r.labels[k]).Some?
    ensures var s, log, s' := CallState(r.states[k], r.labels[k]).value, r.labels[k].log, r.states[k + 1];
      && multiset(IdsOf(s.queue)) == multiset(SentIds(log)) + multiset(IdsOf(s'.queue))
      && (forall i :: 0 <= i < |log| ==> i < |s.queue| && RightTurn(s, log, i))
      && (s'.queue == Left(s.queue, SentIds(log)) <==>
          (CallFails(log) ==> AloneInRank(Left(s.queue, SentIds(log)), log[|log| - 1].id)))
      && (!CallFails(log) ==> |log| == |s.queue| && forall t :: t in s'.queue ==> Hopeless(s', t.id))
  {
    hide RightTurn, QueueSound, Dispatched, AloneInRank;
    RunKeepsQueue(r, k);
    var s, log, s' := CallState(r.states[k], r.labels[k]).value, r.labels[k].log, r.states[k + 1];
    CallIsDispatch(r.states[k], r.labels[k], s');
    NoTaskIsLost(s, log, s');
    forall i | 0 <= i < |log| ensures i < |s.queue| && RightTurn(s, log, i) {
      DispatchIsSound(s, log, s', i);
    }
    OrderIsKeptIff(s, log, s');
    CallEnds(s, log, s');
    if !CallFails(log) {
      var e := LoopEnd(s, log, s');
      FailsIff(s, log, e);
      WorkConserving(s, log, s');
    }
  }

  lemma CallIsDispatch(s: State, l: Label, s': State)
    requires QueueSound(s) && FreshId(s, l) && Next(s, l, s') && CallState(s, l).Some?
    ensures QueueSound(CallState(s, l).value) && Dispatched(CallState(s, l).value, l.log, s')
  {
    hide Dispatched, QueueSound;
    if l.Submit? {
      SubmitEnters(s, l.rec, l.log);
    }
  }
}
