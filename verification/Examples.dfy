/**
 Runs from a fresh scheduler, or a fresh engine over one, that reach the states in which
 the promises fail: a slot released twice, a stuck parent that blocks the queue, and a plan
 stranded by one failure.
 */
module Examples {
  import opened Tasks
  import opened DequeueOrder
  import opened SchedulerSpec
  import SI = SchedulerInvariant
  import opened SchedulerRuns
  import opened DispatchTheorems
  import opened StuckTasks
  import opened DagSpec
  import DS = DagSafety
  import DR = DagRuns
  import opened DagFailure
  import Strings

  // ----- Single submissions -----

  function NewTask(id: string, role: string, priority: int): TaskRec {
    TaskRec(id, Created, role, [], priority, "", [], [], "", [], 0, 0, "", None, None)
  }

  function Idle(id: string, role: string, capacity: int): Client {
    Client(id, role, [], capacity, 0, Connected)
  }

  /** A task entering an empty queue runs at once on the client that suits it best. */
  lemma SubmitAlone(s: State, rec: TaskRec, c: string)
    requires s.queue == [] && s.cfg.maxLen > 0 && rec.status.Created? && rec.attempts == [] && Best(s.clients, rec, "", c)
    ensures var run := rec.(status := Running, client := c);
      Submitted(s, rec, [Send(rec.id, c)], s.(tasks := s.tasks[rec.id := run], clients := Incremented(s.clients, c)))
  {
    var r, t := rec.(status := Queued), Ticket(s.cfg.Rank(rec.priority), rec.id);
    var call := s.(tasks := s.tasks[rec.id := r], queue := [t]);
    var log := [Send(rec.id, c)];
    var d, e := Drain(call, [], false), Perform(Drain(call, [], false), log[0]);
    assert Best(s.clients, r, "", c) by { assert forall x :: Eligible(s.clients, r, "", x) == Eligible(s.clients, rec, "", x); }
    assert CanAct(d, log[0]);
    assert log[1..] == [] && Drained(e, log[1..], e);
    assert e.st.queue == [] && e.held == [];
    assert Dispatched(call, log, e.st);
    assert Requeued(s.(tasks := s.tasks[rec.id := r]), rec.id) == call;
  }

  /** A task entering an empty queue waits when no client suits it. */
  lemma SubmitWaits(s: State, rec: TaskRec)
    requires s.queue == [] && s.cfg.maxLen > 0 && rec.status.Created? && rec.attempts == [] && Unmatched(s.clients, rec, "")
    ensures Submitted(s, rec, [Hold(rec.id)],
                      s.(tasks := s.tasks[rec.id := rec.(status := Queued)], queue := [Ticket(s.cfg.Rank(rec.priority), rec.id)]))
  {
    var r, t := rec.(status := Queued), Ticket(s.cfg.Rank(rec.priority), rec.id);
    var call := s.(tasks := s.tasks[rec.id := r], queue := [t]);
    var log := [Hold(rec.id)];
    var d, e := Drain(call, [], false), Drain(call.(queue := []), [rec.id], false);
    assert Unmatched(s.clients, r, "") by { assert forall x :: Eligible(s.clients, r, "", x) == Eligible(s.clients, rec, "", x); }
    assert CanAct(d, log[0]) && Perform(d, log[0]) == e;
    assert log[1..] == [] && Drained(e, log[1..], e);
    assert e.held[1..] == [] && PutBack(e.st, e.held) == call;
    assert Dispatched(call, log, call);
    assert Requeued(s.(tasks := s.tasks[rec.id := r]), rec.id) == call;
  }

  // ----- A slot released twice -----

  function Clients2(load: int): map<string, Client> {
    map["c" := Idle("c", "coder", 2).(load := load)]
  }

  function On(rec: TaskRec, c: string): TaskRec {
    rec.(status := Running, client := c)
  }

  function Failure(rec: TaskRec, c: string): TaskRec {
    rec.(status := Failed, client := c, attempts := [Attempt("failed", c)])
  }

  /** Two tasks run on one client; one fails, is terminated, and then is reported as completed after all. */
  function LateRun(): Run {
    var a, b := NewTask("a", "coder", 5), NewTask("b", "coder", 5);
    var s0 := State(Config(true, 10, 2), map[], [], map[]);
    var s1 := s0.(clients := Clients2(0));
    var s2 := s1.(tasks := map["a" := On(a, "c")], clients := Clients2(1));
    var s3 := s2.(tasks := map["a" := On(a, "c"), "b" := On(b, "c")], clients := Clients2(2));
    var s4 := s3.(tasks := map["a" := Failure(a, "c"), "b" := On(b, "c")], clients := Clients2(1));
    var s5 := s4.(tasks := map["a" := Failure(a, "c").(status := Completed, client := ""), "b" := On(b, "c")], clients := Clients2(0));
    Run([s0, s1, s2, s3, s4, s5],
        [Register(Idle("c", "coder", 2)), Submit(a, [Send("a", "c")]), Submit(b, [Send("b", "c")]), Fail("a", None, []), Complete("a", None)])
  }

  lemma LateRunBegins()
    ensures var r := LateRun(); Next(r.states[0], r.labels[0], r.states[1])
  {
    var r := LateRun();
    assert r.states[0].clients["c" := Idle("c", "coder", 2)] == Clients2(0);
  }

  lemma LateRunSubmitsA()
    ensures var r := LateRun(); Next(r.states[1], r.labels[1], r.states[2])
  {
    var r := LateRun();
    var s1 := r.states[1];
    SubmitAlone(s1, NewTask("a", "coder", 5), "c");
    hide Submitted, Best;
    assert Incremented(s1.clients, "c") == Clients2(1);
    assert s1.tasks["a" := On(NewTask("a", "coder", 5), "c")] == r.states[2].tasks;
  }

  lemma LateRunSubmitsB()
    ensures var r := LateRun(); Next(r.states[2], r.labels[2], r.states[3])
  {
    var r := LateRun();
    var s2 := r.states[2];
    SubmitAlone(s2, NewTask("b", "coder", 5), "c");
    hide Submitted, Best;
    assert Incremented(s2.clients, "c") == Clients2(2);
    assert s2.tasks["b" := On(NewTask("b", "coder", 5), "c")] == r.states[3].tasks;
  }

  lemma LateRunEnds()
    ensures var r := LateRun(); Next(r.states[3], r.labels[3], r.states[4]) && Next(r.states[4], r.labels[4], r.states[5])
  {
    var r := LateRun();
    var s3, s4 := r.states[3], r.states[4];
    var s := FailureRecorded(s3, "a", None, []);
    assert s.tasks["a"] == Failure(NewTask("a", "coder", 5), "c");
    assert s == s4;
    assert Unmatched(s.clients, s.tasks["a"], "c");
    assert Escalate(s, s.tasks["a"]) == Terminate;
    assert AfterCompletion(s4, "a", None) == r.states[5];
  }

  /** From a fresh scheduler, through clean steps up to the last. */
  ghost predicate CleanButLast(r: Run) {
    var clean :=
      && IsRun(r) && r.labels != [] && SI.Inv(r.states[0]) && r.states[0].tasks == map[] && r.states[0].clients == map[]
      && forall i :: 0 <= i < |r.labels| - 1 ==> Clean(r.states[i], r.labels[i]);
    clean
  }

  /**
   A completion can arrive after the client reported a failure that ended the task; the
   slot is then released twice and the client looks idle while it still runs another task.
   */
  lemma LateCompletionMiscounts()
    ensures exists r: Run ::
      && CleanButLast(r) && |r.labels| >= 2 && r.labels[|r.labels| - 2].Fail? && r.labels[|r.labels| - 1].Complete?
      && r.labels[|r.labels| - 2].id == r.labels[|r.labels| - 1].id
      && !SI.Accounted(r.states[|r.labels|])
  {
    hide Next, SI.Accounted;
    var r := LateRun();
    LateRunBegins();
    LateRunSubmitsA();
    LateRunSubmitsB();
    LateRunEnds();
    LateRunIsClean();
    LateRunMiscounts();
    assert IsRun(r);
  }

  lemma LateRunIsClean()
    ensures var r := LateRun(); SI.Inv(r.states[0]) && forall i :: 0 <= i < 4 ==> Clean(r.states[i], r.labels[i])
  {
    var r := LateRun();
    FreshInv(Config(true, 10, 2));
    assert SI.Slots(r.states[0].tasks, "c") == {};
    forall i | 0 <= i < 4 ensures Clean(r.states[i], r.labels[i]) {
    }
  }

  lemma LateRunMiscounts()
    ensures !SI.Accounted(LateRun().states[5])
  {
    var s := LateRun().states[5];
    assert "b" in SI.Slots(s.tasks, "c");
    assert "c" in s.clients && s.clients["c"].load == 0;
  }

  // ----- A parent that blocks the queue -----

  function Fresh(): Dag {
    Dag(State(Config(true, 10, 2), map[], [], map[]), map[], map[], map[])
  }

  const PARENT := NewTask("p", "lead", 9)
  const CODER := Plan("coder", [], [])

  /** The first sub-task of the parent. */
  function Sub1(): TaskRec {
    NewSub(PARENT, 1, CODER, 0)
  }

  function Sub1Done(): TaskRec {
    Sub1().(status := Completed)
  }

  function WithWorker(load: int): map<string, Client> {
    map["w" := Idle("w", "coder", 1).(load := load)]
  }

  /** The states of a run: a worker registers, the parent is given a sub-task, which runs; the parent is submitted and waits. */
  function StuckRunStart(): seq<Dag> {
    var d0, sub, id := Fresh(), Sub1(), SubID("p", 1);
    var d1 := d0.(sched := d0.sched.(clients := WithWorker(0)));
    var d2 := Dag(d1.sched.(tasks := map[id := On(sub, "w")], clients := WithWorker(1)),
                  map[id := sub], map["p" := [id]], map[id := "p"]);
    var d3 := d2.(sched := d2.sched.(tasks := map[id := On(sub, "w"), "p" := PARENT.(status := Queued)], queue := [Ticket(9, "p")]));
    [d0, d1, d2, d3]
  }

  /** The sub-task completes, its report aggregates the parent, a client for the parent registers, and another task is submitted. */
  function StuckRunEnd(d3: Dag): seq<Dag> {
    var id := SubID("p", 1);
    var d4 := d3.(sched := d3.sched.(tasks := map[id := Sub1Done(), "p" := PARENT.(status := Queued)], clients := WithWorker(0)));
    var d5 := d4.(sched := d4.sched.(tasks := map[id := Sub1Done(), "p" := PARENT.(status := Aggregating)]));
    var d6 := d5.(sched := d5.sched.(clients := WithWorker(0)["l" := Idle("l", "lead", 1)]));
    var d7 := d6.(sched := d6.sched.(tasks := d6.sched.tasks["x" := NewTask("x", "coder", 1).(status := Queued)], queue := [Ticket(9, "p"), Ticket(1, "x")]));
    [d4, d5, d6, d7]
  }

  function StuckRun(): DS.DagRun {
    var id := SubID("p", 1);
    DS.DagRun(StuckRunStart() + StuckRunEnd(StuckRunStart()[3]),
              [Sched(Register(Idle("w", "coder", 1))),
               Create(PARENT, [CODER], 0, [[Send(id, "w")]], true),
               Sched(Submit(PARENT, [Hold("p")])),
               Sched(Complete(id, None)),
               SubDone(id, [], true),
               Sched(Register(Idle("l", "lead", 1))),
               Sched(Submit(NewTask("x", "coder", 1), [Stick("p", "l")]))])
  }

  lemma IdsDiffer()
    ensures SubID("p", 1) != "p" && SubID("p", 1) != "x"
  {
    assert |SubID("p", 1)| > 1;
  }

  /** A legal step of a run, with fresh IDs. */
  ghost predicate GoodStep(d: Dag, l: DagLabel, d': Dag) {
    var good := DagNext(d, l, d') && DS.DagClean(d, l) && (l.Sched? ==> FreshId(d.sched, l.l));
    good
  }

  ghost predicate GoodSteps(states: seq<Dag>, labels: seq<DagLabel>) {
    var good := |states| == |labels| + 1 && forall i :: 0 <= i < |labels| ==> GoodStep(states[i], labels[i], states[i + 1]);
    good
  }

  lemma WorkerSuits(rec: TaskRec)
    requires rec.role == "coder" && rec.skills == []
    ensures Best(WithWorker(0), rec, "", "w") && Incremented(WithWorker(0), "w") == WithWorker(1)
  {
  }

  lemma OneReleased(s: State, rec: TaskRec, log: seq<Act>, s': State)
    requires Submitted(s, rec, log, s')
    ensures Released(s, [rec], [log], s')
  {
    hide Submitted;
    assert [rec][1..] == [] && [log][1..] == [] && Released(s', [], [], s');
  }

  /** A sub-task without dependencies is released into an empty queue and runs. */
  lemma ReleasedAlone(s: State, rec: TaskRec)
    requires s.queue == [] && s.cfg.maxLen > 0 && s.tasks == map[] && s.clients == WithWorker(0)
    requires rec.status.Created? && rec.attempts == [] && rec.role == "coder" && rec.skills == []
    ensures Released(s, [rec], [[Send(rec.id, "w")]], s.(tasks := map[rec.id := On(rec, "w")], clients := WithWorker(1)))
  {
    hide Submitted, Released, Best, WithWorker, Incremented;
    WorkerSuits(rec);
    SubmitAlone(s, rec, "w");
    assert s.tasks[rec.id := On(rec, "w")] == map[rec.id := On(rec, "w")];
    OneReleased(s, rec, [Send(rec.id, "w")], s.(tasks := map[rec.id := On(rec, "w")], clients := WithWorker(1)));
  }

  lemma OneSaved(d: Dag, sub: TaskRec)
    requires d.store == map[] && d.children == map[] && d.parentOf == map[]
    ensures SavedAll(d, "p", [sub]) == Dag(d.sched, map[sub.id := sub], map["p" := [sub.id]], map[sub.id := "p"])
    ensures !sub.status.Blocked? ==> Unblockeds([sub]) == [sub]
  {
    OneMore(d, [], sub);
    NothingSaved(d);
    SaveFirst(d, sub);
    assert [] + [sub] == [sub] && Unblockeds([]) == [];
  }

  /** A parent that is neither filed nor stored is not written. */
  lemma NotWritten(d: Dag, rec: TaskRec)
    requires rec.id !in d.sched.tasks && rec.id !in d.store
    ensures Written(d, rec) == d
  {
  }

  lemma CreateOne()
    ensures var ds := StuckRunStart(); GoodStep(ds[1], Create(PARENT, [CODER], 0, [[Send(SubID("p", 1), "w")]], true), ds[2])
  {
    var d1, d2, sub := StuckRunStart()[1], StuckRunStart()[2], Sub1();
    assert NewSubs(PARENT, [CODER], 0, 1) == [sub] && sub.id == SubID("p", 1) && PARENT.id == "p";
    IdsDiffer();
    hide Released, SubID, Sub1, SavedAll, Unblockeds, NewSubs, Written, Fitting;
    ReleasedAlone(d1.sched, sub);
    AllFit(d1.store, 0, 1);
    OneSaved(d1, sub);
    NotWritten(SavedAll(d1, "p", [sub]), PARENT.(subTasks := Ids([sub])));
  }

  lemma ParentWaits()
    ensures var ds := StuckRunStart(); GoodStep(ds[2], Sched(Submit(PARENT, [Hold("p")])), ds[3])
  {
    IdsDiffer();
    var ds := StuckRunStart();
    SubmitWaits(ds[2].sched, PARENT);
    hide Submitted, Unmatched;
    assert ds[2].sched.tasks["p" := PARENT.(status := Queued)] == ds[3].sched.tasks;
  }

  lemma SubCompletes()
    ensures var d3 := StuckRunStart()[3]; GoodStep(d3, Sched(Complete(SubID("p", 1), None)), StuckRunEnd(d3)[0])
  {
    IdsDiffer();
    var id, d3 := SubID("p", 1), StuckRunStart()[3];
    var d4 := StuckRunEnd(d3)[0];
    assert d3.sched.tasks[id := Sub1Done()] == d4.sched.tasks;
    assert Decremented(d3.sched.clients, "w") == d4.sched.clients;
  }

  lemma ParentAggregates()
    ensures var ds := StuckRunEnd(StuckRunStart()[3]); GoodStep(ds[0], SubDone(SubID("p", 1), [], true), ds[1])
  {
    IdsDiffer();
    var id, ds := SubID("p", 1), StuckRunEnd(StuckRunStart()[3]);
    var d4, d5 := ds[0], ds[1];
    assert d4.Subs("p") == [id] && d4.Lookup(id) == Some(Sub1Done());
    assert [id][1..] == [] && AllTerminal(d4, [id]) == Some(true);
    assert d4.sched.tasks["p" := PARENT.(status := Aggregating)] == d5.sched.tasks;
  }

  lemma TwoInRank(t: Ticket, u: Ticket)
    requires u.priority < t.priority
    ensures Insert([t], u) == [t, u] && Insert([u], t) == [t, u] && [t, u][1..] == [u]
  {
    assert [t][1..] == [] && Insert([], u) == [u] && Insert([t], u) == [t] + [u] && Insert([u], t) == [t] + [u];
  }

  /** Behind a stuck head a task of lower rank enters the queue, and nothing is dispatched. */
  lemma SubmitBehind(s: State, rec: TaskRec, t: Ticket, c: string)
    requires s.queue == [t] && t.id in s.tasks && t.priority == s.cfg.Rank(s.tasks[t.id].priority) && s.cfg.maxLen > 1
    requires !s.tasks[t.id].status.CanTransitionTo(Assigned) && Best(s.clients, s.tasks[t.id], LastFailedClient(s.tasks[t.id].attempts), c)
    requires rec.status.Created? && rec.id != t.id && s.cfg.Rank(rec.priority) < t.priority
    ensures Submitted(s, rec, [Stick(t.id, c)],
                      s.(tasks := s.tasks[rec.id := rec.(status := Queued)], queue := [t, Ticket(s.cfg.Rank(rec.priority), rec.id)]))
  {
    hide Best;
    var r, u := rec.(status := Queued), Ticket(s.cfg.Rank(rec.priority), rec.id);
    var call := s.(tasks := s.tasks[rec.id := r], queue := [t, u]);
    var log := [Stick(t.id, c)];
    TwoInRank(t, u);
    assert Requeued(s.(tasks := s.tasks[rec.id := r]), rec.id) == call;
    assert CanAct(Drain(call, [], false), log[0]) && Perform(Drain(call, [], false), log[0]) == Drain(call, [], true);
    hide Requeued, CanAct;
    assert log[1..] == [] && Drained(Drain(call, [], true), log[1..], Drain(call, [], true));
    assert Dispatched(call, log, call);
  }

  lemma LeadRegisters()
    ensures var ds := StuckRunEnd(StuckRunStart()[3]); GoodStep(ds[1], Sched(Register(Idle("l", "lead", 1))), ds[2])
  {
  }

  lemma OtherWaits()
    ensures var ds := StuckRunEnd(StuckRunStart()[3]); GoodStep(ds[2], Sched(Submit(NewTask("x", "coder", 1), [Stick("p", "l")])), ds[3])
  {
    IdsDiffer();
    var ds, rec := StuckRunEnd(StuckRunStart()[3]), NewTask("x", "coder", 1);
    var s := ds[2].sched;
    assert s.tasks["p"] == PARENT.(status := Aggregating);
    LeadSuits(s);
    hide Best, SubID, Submitted, GoodStep;
    SubmitBehind(s, rec, Ticket(9, "p"), "l");
    SubmitIsGood(ds[2], rec, [Stick("p", "l")], ds[3]);
  }

  lemma SubmitIsGood(d: Dag, rec: TaskRec, log: seq<Act>, d': Dag)
    requires Submitted(d.sched, rec, log, d'.sched) && d' == d.(sched := d'.sched) && rec.id !in d.parentOf
    requires rec.id !in TicketIds(d.sched.queue) && DS.IsCurrent(d, rec)
    ensures GoodStep(d, Sched(Submit(rec, log)), d')
  {
    hide Submitted;
  }

  lemma LeadSuits(s: State)
    requires s.clients == WithWorker(0)["l" := Idle("l", "lead", 1)]
    ensures Best(s.clients, PARENT.(status := Aggregating), "", "l")
  {
  }

  /** From a fresh engine to a state in which the task at the head of the queue is stuck, blocks it, and one that could be dispatched waits behind it. */
  ghost predicate EndsBlocked(r: DS.DagRun) {
    var blocked :=
      && DR.FreshDagRun(r) && r.states[0] == Fresh()
      && var s := r.states[|r.labels|].sched;
      && Blocks(s, "p", "l") && |s.queue| == 2 && !Stuck(s, s.queue[1].id) && !Hopeless(s, s.queue[1].id);
    blocked
  }

  lemma StuckRunEndsBlocked()
    ensures var s := StuckRun().states[7].sched;
      Blocks(s, "p", "l") && |s.queue| == 2 && !Stuck(s, s.queue[1].id) && !Hopeless(s, s.queue[1].id)
  {
    IdsDiffer();
    var s := StuckRun().states[7].sched;
    assert Eligible(s.clients, s.tasks["x"], "", "w");
  }

  lemma WorkerRegisters()
    ensures GoodStep(StuckRunStart()[0], Sched(Register(Idle("w", "coder", 1))), StuckRunStart()[1])
  {
  }

  lemma StuckRunSteps()
    ensures GoodSteps(StuckRun().states, StuckRun().labels)
  {
    WorkerRegisters();
    CreateOne();
    ParentWaits();
    SubCompletes();
    ParentAggregates();
    LeadRegisters();
    OtherWaits();
    hide GoodStep, SubID, Idle, NewTask;
    var r, a := StuckRun(), StuckRunStart();
    var b := StuckRunEnd(a[3]);
    assert r.states == [a[0], a[1], a[2], a[3], b[0], b[1], b[2], b[3]];
    hide StuckRunStart, StuckRunEnd;
  }

  lemma GoodRunIsFresh(r: DS.DagRun)
    requires GoodSteps(r.states, r.labels) && r.states[0] == Fresh()
    ensures DR.FreshDagRun(r)
  {
    hide DagNext, DS.DagClean;
    DS.FreshDagInv(Fresh().sched);
    forall i | 0 <= i < |r.labels|
      ensures DagNext(r.states[i], r.labels[i], r.states[i + 1]) && DS.DagClean(r.states[i], r.labels[i])
      ensures r.labels[i].Sched? ==> FreshId(r.states[i].sched, r.labels[i].l)
    {
      assert GoodStep(r.states[i], r.labels[i], r.states[i + 1]);
    }
  }

  /** The queue can be blocked for good by a parent that was aggregated while it waited. */
  lemma QueueCanBeBlocked()
    ensures exists r: DS.DagRun :: EndsBlocked(r)
  {
    hide GoodSteps, Blocks, Stuck, Hopeless, StuckRunStart, StuckRunEnd, DR.FreshDagRun;
    var r := StuckRun();
    StuckRunSteps();
    StuckRunEndsBlocked();
    StuckRunShape();
    GoodRunIsFresh(r);
    assert EndsBlocked(r);
  }

  lemma StuckRunShape()
    ensures |StuckRun().states| == 8 && |StuckRun().labels| == 7 && StuckRun().states[0] == Fresh()
  {
  }

  // ----- A plan stranded by one failure -----

  function Chain(): seq<Plan> {
    [CODER, Plan("coder", [], [SubID("p", 1)]), Plan("coder", [], [SubID("p", 2)])]
  }

  function ChainSub(k: nat): TaskRec
    requires 1 <= k <= 3
  {
    NewSub(PARENT, k, Chain()[k - 1], 0)
  }

  /** A worker waits. */
  function ChainStart(): Dag {
    Fresh().(sched := Fresh().sched.(clients := WithWorker(0)))
  }

  /** Three sub-tasks, each depending on the one before; the first runs. */
  function ChainRuns(): Dag {
    var i1, i2, i3 := SubID("p", 1), SubID("p", 2), SubID("p", 3);
    Dag(Fresh().sched.(tasks := map[i1 := On(ChainSub(1), "w")], clients := WithWorker(1)),
        map[i1 := ChainSub(1), i2 := ChainSub(2), i3 := ChainSub(3)], map["p" := [i1, i2, i3]], map[i1 := "p", i2 := "p", i3 := "p"])
  }

  /** The first has failed, and there is no other client to try. */
  function ChainFailed(): Dag {
    ChainRuns().(sched := Fresh().sched.(tasks := map[SubID("p", 1) := Failure(ChainSub(1), "w")], clients := WithWorker(0)))
  }

  function StrandedRun(): DS.DagRun {
    var i1 := SubID("p", 1);
    DS.DagRun([Fresh(), ChainStart(), ChainRuns(), ChainFailed(), SubTaskFailed(ChainFailed(), i1)],
              [Sched(Register(Idle("w", "coder", 1))), Create(PARENT, Chain(), 0, [[Send(i1, "w")]], true), Sched(Fail(i1, None, [])), SubFailed(i1)])
  }

  lemma ChainIds()
    ensures SubID("p", 1) != SubID("p", 2) && SubID("p", 2) != SubID("p", 3) && SubID("p", 1) != SubID("p", 3)
    ensures SubID("p", 1) != "p" && SubID("p", 2) != "p" && SubID("p", 3) != "p"
  {
    if SubID("p", 1) == SubID("p", 2) { DS.SubIdsDiffer("p", 1, 2); }
    if SubID("p", 2) == SubID("p", 3) { DS.SubIdsDiffer("p", 2, 3); }
    if SubID("p", 1) == SubID("p", 3) { DS.SubIdsDiffer("p", 1, 3); }
    assert |SubID("p", 1)| > 1 && |SubID("p", 2)| > 1 && |SubID("p", 3)| > 1;
  }

  lemma OneMore(d: Dag, front: seq<TaskRec>, sub: TaskRec)
    ensures SavedAll(d, "p", front + [sub]) == Saved(SavedAll(d, "p", front), "p", sub)
    ensures Unblockeds(front + [sub]) == Unblockeds(front) + if sub.status.Blocked? then [] else [sub]
  {
    assert (front + [sub])[..|front|] == front;
  }

  lemma {:induction false} AllFit(store: map<string, TaskRec>, k: nat, n: nat)
    requires store == map[] && k <= n
    ensures Fitting(store, "p", k, n) == n
    decreases n - k
  {
    if k < n {
      AllFit(store, k + 1, n);
    }
  }

  lemma OneOfThree(a: TaskRec, b: TaskRec, c: TaskRec)
    requires !a.status.Blocked? && b.status.Blocked? && c.status.Blocked?
    ensures Unblockeds([a, b, c]) == [a]
  {
    hide Unblockeds, SavedAll;
    OneSaved(Fresh(), a);
    OneMore(Fresh(), [a], b);
    OneMore(Fresh(), [a, b], c);
    assert [a] + [b] == [a, b] && [a, b] + [c] == [a, b, c] && [a] + [] == [a];
  }

  lemma ChainSubs()
    ensures NewSubs(PARENT, Chain(), 0, 3) == [ChainSub(1), ChainSub(2), ChainSub(3)]
    ensures Unblockeds([ChainSub(1), ChainSub(2), ChainSub(3)]) == [ChainSub(1)]
  {
    hide Unblockeds;
    OneOfThree(ChainSub(1), ChainSub(2), ChainSub(3));
  }

  lemma SaveThree(d: Dag, a: TaskRec, b: TaskRec, c: TaskRec)
    requires d.store == map[] && d.children == map[] && d.parentOf == map[]
    ensures SavedAll(d, "p", [a, b, c]) == Dag(d.sched, map[a.id := a, b.id := b, c.id := c], map["p" := [a.id, b.id, c.id]],
                                               map[a.id := "p", b.id := "p", c.id := "p"])
  {
    hide SavedAll, Unblockeds;
    OneMore(d, [], a);
    OneMore(d, [a], b);
    OneMore(d, [a, b], c);
    assert [] + [a] == [a] && [a] + [b] == [a, b] && [a, b] + [c] == [a, b, c];
    NothingSaved(d);
    SaveFirst(d, a);
    var m1 := Saved(d, "p", a);
    var m2 := Saved(m1, "p", b);
    assert m1.Subs("p") == [a.id] && [a.id] + [b.id] == [a.id, b.id];
    assert m2.Subs("p") == [a.id, b.id] && [a.id, b.id] + [c.id] == [a.id, b.id, c.id];
  }

  lemma SaveFirst(d: Dag, a: TaskRec)
    requires d.store == map[] && d.children == map[] && d.parentOf == map[]
    ensures Saved(d, "p", a) == Dag(d.sched, map[a.id := a], map["p" := [a.id]], map[a.id := "p"])
  {
    assert d.Subs("p") == [] && [] + [a.id] == [a.id];
  }

  lemma ChainSaved()
    ensures SavedAll(ChainStart(), "p", [ChainSub(1), ChainSub(2), ChainSub(3)]) == ChainRuns().(sched := ChainStart().sched)
  {
    SaveThree(ChainStart(), ChainSub(1), ChainSub(2), ChainSub(3));
    hide SubID, SavedAll;
    assert ChainSub(1).id == SubID("p", 1) && ChainSub(2).id == SubID("p", 2) && ChainSub(3).id == SubID("p", 3);
    hide ChainSub;
  }

  lemma NothingSaved(d: Dag)
    ensures SavedAll(d, "p", []) == d
  {
  }

  lemma FirstRuns()
    ensures Released(ChainStart().sched, [ChainSub(1)], [[Send(SubID("p", 1), "w")]], ChainRuns().sched)
  {
    ReleasedAlone(ChainStart().sched, ChainSub(1));
  }

  lemma ChainCreated()
    ensures GoodStep(ChainStart(), Create(PARENT, Chain(), 0, [[Send(SubID("p", 1), "w")]], true), ChainRuns())
  {
    hide ChainSub, SavedAll, NewSubs, Unblockeds, Fitting, Released, Ids;
    ChainIds();
    ChainSubs();
    ChainSaved();
    AllFit(ChainStart().store, 0, 3);
    FirstRuns();
  }

  lemma ChainFails()
    ensures GoodStep(ChainRuns(), Sched(Fail(SubID("p", 1), None, [])), ChainFailed())
  {
    var i1, s2, s3 := SubID("p", 1), ChainRuns().sched, ChainFailed().sched;
    var s := FailureRecorded(s2, i1, None, []);
    assert s.tasks[i1] == Failure(ChainSub(1), "w");
    assert s.tasks == s3.tasks && s.clients == s3.clients;
    assert Unmatched(s.clients, s.tasks[i1], "w");
    hide SubID, ChainSub, NewSub;
    assert Escalate(s, s.tasks[i1]) == Terminate;
  }

  lemma StrandedRunIsFresh()
    ensures DR.FreshDagRun(StrandedRun())
  {
    hide ChainRuns, ChainFailed, SubTaskFailed, DR.FreshDagRun, SubTasksCreated;
    var r := StrandedRun();
    ChainCreated();
    ChainFails();
    assert GoodStep(r.states[0], r.labels[0], r.states[1]);
    assert GoodStep(r.states[3], r.labels[3], r.states[4]);
    hide GoodStep;
    assert GoodSteps(r.states, r.labels);
    GoodRunIsFresh(r);
  }

  /** From a fresh engine to a state in which a sub-task is blocked under a stranded one. */
  ghost predicate EndsStranded(r: DS.DagRun) {
    var stranded := DR.FreshDagRun(r) && r.states[0] == Fresh() && HasStranded(r.states[|r.labels|], "p");
    stranded
  }

  lemma ChainStrands()
    requires DS.DagInv(ChainFailed())
    ensures HasStranded(SubTaskFailed(ChainFailed(), SubID("p", 1)), "p")
  {
    hide DS.DagInv, SubTaskFailed, Stranded, FailedChain, ChainFailed, AllWait, SiblingDeps, Shelved;
    var d, i1, i3 := ChainFailed(), SubID("p", 1), SubID("p", 3);
    ChainLooks();
    ChainWaits(d, i1, SubID("p", 2), i3);
    IdsOfChain();
    assert Under(d, i1, i3, 1);
    FailureStrandsIff(d, i1, i3);
    assert Stranded(SubTaskFailed(d, i1), i3);
    FailureKeepsSubs(d, i1);
    assert i3 in SubTaskFailed(d, i1).Subs("p");
  }

  lemma IdsOfChain()
    ensures SubID("p", 1) != SubID("p", 3)
  {
    ChainIds();
  }

  /** What the failed chain looks like: the first ran and failed, the others wait for the one before. */
  ghost predicate FailedChain(d: Dag, i1: string, i2: string, i3: string) {
    var looks :=
      && d.sched.tasks.Keys == {i1} && d.sched.tasks[i1].deps == [] && d.sched.tasks[i1].status.Failed?
      && d.Parent(i1) == "p" && d.Subs("p") == [i1, i2, i3]
      && Shelved(d, i2, Blocked) && d.store[i2].deps == [i1] && Shelved(d, i3, Blocked) && d.store[i3].deps == [i2]
      && i1 != i2 && i1 != i3;
    looks
  }

  lemma ChainLooks()
    ensures FailedChain(ChainFailed(), SubID("p", 1), SubID("p", 2), SubID("p", 3))
  {
    ChainIds();
    hide SubID;
  }

  ghost predicate ChainReady(d: Dag, i1: string, i3: string) {
    var ready :=
      && Under(d, i1, i3, 1) && i1 !in d.store[i3].deps && d.Parent(i1) == "p" && i1 in d.sched.tasks
      && i3 in d.Subs("p") && AllWait(d, "p") && SiblingDeps(d, "p") && forall x :: x in d.Subs("p") ==> !Shelved(d, x, Failed);
    ready
  }

  lemma ChainWaits(d: Dag, i1: string, i2: string, i3: string)
    requires FailedChain(d, i1, i2, i3)
    ensures ChainReady(d, i1, i3)
  {
    assert Under(d, i1, i2, 0);
    assert i2 in d.store[i3].deps && Under(d, i1, i3, 1);
  }

  lemma FailureKeepsSubs(d: Dag, failed: string)
    requires DS.DagInv(d)
    ensures SubTaskFailed(d, failed).children == d.children
  {
    hide DS.Follows, DS.Family, DS.Safe;
    DS.FailAllFollows(d, failed, d.Subs(d.Parent(failed)));
  }

  /** One failure can strand a plan: the sub-task two steps down stays blocked, and by the theorems above for good. */
  lemma PlanCanBeStranded()
    ensures exists r: DS.DagRun :: EndsStranded(r)
  {
    hide DR.FreshDagRun, DS.IsDagRun, DS.DagInv, HasStranded, SubTaskFailed, ChainRuns, ChainFailed;
    var r := StrandedRun();
    StrandedRunIsFresh();
    FreshIsRun(r);
    DS.DagRunKeeps(r, 3);
    ChainStrands();
    assert EndsStranded(r);
  }

  lemma FreshIsRun(r: DS.DagRun)
    requires DR.FreshDagRun(r)
    ensures DS.IsDagRun(r)
  {
  }
}
