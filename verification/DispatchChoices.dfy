/**
 Whom TryDispatch chooses and what it changes, in terms of roles, skills, slots and
 attempts: for every call of every run, and across the failure report before it.
 */
module DispatchChoices {
  import opened Tasks
  import opened DequeueOrder
  import opened SchedulerSpec
  import opened SchedulerInvariant
  import opened SchedulerRuns
  import opened DispatchTheorems
  import opened HandlerEffects

  // ----- Whom a turn chooses -----

  /** Client x could take the task at the i-th turn, as far as its connection, its slots and the last failure go. */
  ghost predicate Open(s: State, log: seq<Act>, i: nat, t: TaskRec, x: string)
    requires i <= |log|
  {
    var holds :=
      x in s.clients && s.clients[x].state == Connected && LoadAt(s, log, i, x) < s.clients[x].capacity && !FailedLast(t.attempts, x);
    holds
  }

  lemma FitsIs(s: State, log: seq<Act>, i: nat, t: TaskRec, x: string)
    requires i <= |log|
    ensures x in s.clients && Fits(s, t, x, LoadAt(s, log, i, x)) <==>
      Open(s, log, i, t, x) && s.clients[x].role == t.role && forall skill :: skill in t.skills ==> skill in s.clients[x].skills
  {
    LastFailedIs(t.attempts, x);
  }

  /**
   In every run, at every turn of every call: a task is held aside only if each open client
   plays another role or lacks a skill, and otherwise goes to an open client that plays the
   role and has every skill, of least load among those.
   */
  lemma ChoicesInRuns(r: Run, k: nat, i: nat)
    requires IsFreshRun(r) && k < |r.labels| && CallState(r.states[k], r.labels[k]).Some? && i < |r.labels[k].log|
    ensures var s, log := CallState(r.states[k], r.labels[k]).value, r.labels[k].log;
      && i < |s.queue| && log[i].id == s.queue[i].id && log[i].id in s.tasks
      && var t := s.tasks[log[i].id];
      && (log[i].Hold? ==> forall x :: Open(s, log, i, t, x) ==>
            s.clients[x].role != t.role || exists skill :: skill in t.skills && skill !in s.clients[x].skills)
      && (!log[i].Hold? ==>
            var c := log[i].client;
            && Open(s, log, i, t, c) && s.clients[c].role == t.role && (forall skill :: skill in t.skills ==> skill in s.clients[c].skills)
            && forall x :: Open(s, log, i, t, x) && s.clients[x].role == t.role && (forall skill :: skill in t.skills ==> skill in s.clients[x].skills) ==>
                 LoadAt(s, log, i, c) <= LoadAt(s, log, i, x))
  {
    hide QueueSound, Dispatched, LoadAt, Fits, FailedLast;
    RunKeepsQueue(r, k);
    var s, log, s' := CallState(r.states[k], r.labels[k]).value, r.labels[k].log, r.states[k + 1];
    CallIsDispatch(r.states[k], r.labels[k], s');
    DispatchIsSound(s, log, s', i);
    var t := s.tasks[log[i].id];
    forall x ensures x in s.clients && Fits(s, t, x, LoadAt(s, log, i, x)) <==>
      Open(s, log, i, t, x) && s.clients[x].role == t.role && forall skill :: skill in t.skills ==> skill in s.clients[x].skills
    {
      FitsIs(s, log, i, t, x);
    }
  }

  // ----- What a call changes -----

  /** What a turn makes of its task. */
  function Turned(t: TaskRec, a: Act): TaskRec {
    match a
    case Hold(_) => t
    case Send(_, c) => t.(status := Running, client := c)
    case Refuse(_, _) => t.(status := Queued, client := "")
    case Stick(_, _) => t
  }

  lemma TurnChanges(d: Drain, a: Act)
    requires CanAct(d, a)
    ensures a.id in d.st.tasks && Perform(d, a).st.tasks == d.st.tasks[a.id := Turned(d.st.tasks[a.id], a)]
  {
    hide Best, Unmatched;
    PerformTouchesOne(d, a);
  }

  /** Turns leave every other task alone. */
  lemma {:induction false} DrainLeaves(d: Drain, log: seq<Act>, e: Drain, id: string)
    requires Drained(d, log, e) && id in d.st.tasks && forall a :: a in log ==> a.id != id
    ensures id in e.st.tasks && e.st.tasks[id] == d.st.tasks[id]
    decreases |log|
  {
    hide CanAct, Perform;
    if log != [] {
      CanPerform(d, log[0]) by { assert CanAct(d, log[0]); }
      assert log[0] in log && forall a :: a in log[1..] ==> a in log;
      TurnChanges(d, log[0]);
      DrainLeaves(Perform(d, log[0]), log[1..], e, id);
    }
  }

  lemma {:induction false} DrainTurns(d: Drain, log: seq<Act>, e: Drain, i: nat)
    requires DrainSound(d) && Drained(d, log, e) && i < |log|
    ensures log[i].id in d.st.tasks && log[i].id in e.st.tasks && e.st.tasks[log[i].id] == Turned(d.st.tasks[log[i].id], log[i])
    decreases i
  {
    hide DrainSound, CanAct, Perform, Turned;
    var a, rest := log[0], log[1..];
    CanPerform(d, a);
    var d' := Perform(d, a);
    TurnChanges(d, a);
    if i == 0 {
      forall b | b in rest ensures b.id != a.id {
        var j :| 0 <= j < |rest| && rest[j] == b;
        TurnsAreApart(d, log, e, 0, j + 1);
      }
      DrainLeaves(d', rest, e, a.id);
    } else {
      PerformKeepsQueue(d, a);
      TurnsAreApart(d, log, e, 0, i);
      DrainTurns(d', rest, e, i - 1);
    }
  }

  /** No task gets two turns in one call. */
  lemma TurnsAreApart(d: Drain, log: seq<Act>, e: Drain, i: nat, j: nat)
    requires DrainSound(d) && Drained(d, log, e) && i < j < |log|
    ensures log[i].id != log[j].id
  {
    TurnsInOrder(d, log, e, i);
    TurnsInOrder(d, log, e, j);
  }

  lemma {:induction false} DrainLoads(d: Drain, log: seq<Act>, e: Drain)
    requires Drained(d, log, e) && NoFailure(log)
    ensures e.st.clients.Keys == d.st.clients.Keys
    ensures forall x :: x in d.st.clients ==> e.st.clients[x] == d.st.clients[x].(load := d.st.clients[x].load + SendsTo(log, x))
    decreases |log|
  {
    hide CanAct, Perform;
    if log != [] {
      CanPerform(d, log[0]);
      PerformLoads(d, log[0]);
      DrainLoads(Perform(d, log[0]), log[1..], e);
      forall x | x in d.st.clients ensures e.st.clients[x] == d.st.clients[x].(load := d.st.clients[x].load + SendsTo(log, x)) {
        SendsToCons(log, x);
      }
    }
  }

  /** The load a failed hook leaves behind: the slot is taken and given back, which a negative load does not survive. */
  function Residue(s: State, log: seq<Act>, x: string): int
    requires x in s.clients
  {
    if log != [] && log[|log| - 1] == Refuse(log[|log| - 1].id, x) && LoadAt(s, log, |log| - 1, x) < 0 then 1 else 0
  }

  lemma FailedLoads(m: Drain, a: Act)
    requires CanAct(m, a) && Failing(a)
    ensures var e := Perform(m, a);
      && e.st.clients.Keys == m.st.clients.Keys
      && forall x :: x in m.st.clients ==>
           e.st.clients[x] == m.st.clients[x].(load := m.st.clients[x].load + if a == Refuse(a.id, x) && m.st.clients[x].load < 0 then 1 else 0)
  {
    hide Insert;
  }

  lemma {:induction false} SendsToSnoc(log: seq<Act>, a: Act, x: string)
    ensures SendsTo(log + [a], x) == SendsTo(log, x) + if a.Send? && a.client == x then 1 else 0
  {
    if log == [] {
      assert log + [a] == [a];
    } else {
      SendsToSnoc(log[1..], a, x);
      assert (log + [a])[1..] == log[1..] + [a];
    }
  }

  lemma CallLoads(s: State, log: seq<Act>, s': State)
    requires QueueSound(s) && Dispatched(s, log, s')
    ensures s'.clients.Keys == s.clients.Keys
    ensures forall x :: x in s.clients ==> s'.clients[x] == s.clients[x].(load := LoadAt(s, log, |log|, x) + Residue(s, log, x))
  {
    hide QueueSound, DrainSound, Drained, CanAct, Perform;
    var start := Drain(s, [], false);
    var e := LoopEnd(s, log, s');
    PutBackChangesNoTask(e.st, e.held);
    FailsIff(s, log, e);
    assert log[..|log|] == log;
    if CallFails(log) {
      var front, last := log[..|log| - 1], log[|log| - 1];
      var m := LastTurn(start, log, e);
      assert front + [last] == log;
      DrainLoads(start, front, m);
      FailedLoads(m, last);
      forall x | x in s.clients ensures s'.clients[x] == s.clients[x].(load := LoadAt(s, log, |log|, x) + Residue(s, log, x)) {
        SendsToSnoc(front, last, x);
      }
    } else {
      DrainLoads(start, log, e);
    }
  }

  /**
   In every run every call changes exactly this: a task dispatched runs on its client, one
   whose hook failed is Queued without a client, all others are as before, and each client's
   load grows by the tasks dispatched to it.
   */
  lemma ChangesInRuns(r: Run, k: nat)
    requires IsFreshRun(r) && k < |r.labels| && CallState(r.states[k], r.labels[k]).Some?
    ensures var s, log, s' := CallState(r.states[k], r.labels[k]).value, r.labels[k].log, r.states[k + 1];
      && s'.tasks.Keys == s.tasks.Keys && s'.clients.Keys == s.clients.Keys
      && (forall i :: 0 <= i < |log| ==> log[i].id in s.tasks && s'.tasks[log[i].id] == Turned(s.tasks[log[i].id], log[i]))
      && (forall id :: id in s.tasks && (forall i :: 0 <= i < |log| ==> log[i].id != id) ==> s'.tasks[id] == s.tasks[id])
      && (forall x :: x in s.clients ==> s'.clients[x] == s.clients[x].(load := LoadAt(s, log, |log|, x) + Residue(s, log, x)))
  {
    hide QueueSound, DrainSound, Drained, Turned, Residue, LoadAt;
    RunKeepsQueue(r, k);
    var s, log, s' := CallState(r.states[k], r.labels[k]).value, r.labels[k].log, r.states[k + 1];
    CallIsDispatch(r.states[k], r.labels[k], s');
    CallLoads(s, log, s');
    var e := LoopEnd(s, log, s');
    PutBackChangesNoTask(e.st, e.held);
    StartSound(s);
    DrainSpares(Drain(s, [], false), log, e);
    forall i | 0 <= i < |log| ensures log[i].id in s.tasks && s'.tasks[log[i].id] == Turned(s.tasks[log[i].id], log[i]) {
      DrainTurns(Drain(s, [], false), log, e, i);
    }
    forall id | id in s.tasks && (forall i :: 0 <= i < |log| ==> log[i].id != id) ensures s'.tasks[id] == s.tasks[id] {
      DrainLeaves(Drain(s, [], false), log, e, id);
    }
  }

  // ----- Across a failure report -----

  /** A step that neither reports on the task nor files it anew. */
  predicate LeavesAttempts(l: Label, id: string) {
    !(l.Fail? && l.id == id) && !((l.Submit? || l.Index?) && l.rec.id == id)
  }

  lemma {:induction false} DrainKeepsAttempts(d: Drain, log: seq<Act>, e: Drain, id: string)
    requires Drained(d, log, e) && id in d.st.tasks
    ensures id in e.st.tasks && e.st.tasks[id].attempts == d.st.tasks[id].attempts
    decreases |log|
  {
    hide CanAct, Perform;
    if log != [] {
      CanPerform(d, log[0]);
      TurnChanges(d, log[0]);
      DrainKeepsAttempts(Perform(d, log[0]), log[1..], e, id);
    }
  }

  lemma CallKeepsAttempts(s: State, log: seq<Act>, s': State, id: string)
    requires QueueSound(s) && Dispatched(s, log, s') && id in s.tasks
    ensures id in s'.tasks && s'.tasks[id].attempts == s.tasks[id].attempts
  {
    hide QueueSound, DrainSound;
    var e := LoopEnd(s, log, s');
    DrainKeepsAttempts(Drain(s, [], false), log, e, id);
    PutBackChangesNoTask(e.st, e.held);
  }

  lemma CallStateKeeps(s: State, l: Label, id: string)
    requires CallState(s, l).Some? && LeavesAttempts(l, id) && id in s.tasks
    ensures id in CallState(s, l).value.tasks && CallState(s, l).value.tasks[id] == s.tasks[id]
  {
    hide Insert;
  }

  lemma StepKeepsAttempts(s: State, l: Label, s': State, id: string)
    requires QueueSound(s) && FreshId(s, l) && Next(s, l, s') && LeavesAttempts(l, id) && id in s.tasks
    ensures id in s'.tasks && s'.tasks[id].attempts == s.tasks[id].attempts
  {
    hide QueueSound, Dispatched, AfterFailure, SlotFreed, FailureShows;
    match l
    case Submit(rec, log) =>
      if CallState(s, l).Some? {
        CallIsDispatch(s, l, s');
        CallStateKeeps(s, l, id);
        CallKeepsAttempts(CallState(s, l).value, log, s', id);
      }
    case Dispatch(log) => CallKeepsAttempts(s, log, s', id);
    case Fail(x, error, history) => FailureLeaves(s, x, error, history, id);
    case _ =>
  }

  lemma FailureLeaves(s: State, x: string, error: Option<string>, history: seq<Attempt>, id: string)
    requires id in s.tasks && x != id
    ensures var s' := AfterFailure(s, x, error, history); id in s'.tasks && s'.tasks[id] == s.tasks[id]
  {
    hide AfterFailure, Reports, SlotFreed, OtherServes, Insert;
    FailureIs(s, x, error, history);
  }

  /** The client a failure report leaves as the one to avoid. */
  lemma ReportNames(s: State, id: string, error: Option<string>, history: seq<Attempt>, c: string)
    requires AcceptsFailure(s, id) && c != ""
    requires history != [] ==> history[|history| - 1].status == "failed"
    requires c == if history != [] && history[|history| - 1].client != "" then history[|history| - 1].client else s.tasks[id].client
    ensures var s' := AfterFailure(s, id, error, history); id in s'.tasks && FailedLast(s'.tasks[id].attempts, c)
  {
    hide AfterFailure, SlotFreed, OtherServes, Insert;
    FailureIs(s, id, error, history);
    var after := AfterFailure(s, id, error, history).tasks[id].attempts;
    assert after[|after| - 1] == Attempt("failed", c);
  }

  lemma {:induction false} AttemptsStay(r: Run, k: nat, j: nat, id: string)
    requires IsFreshRun(r) && k <= j < |r.states| && id in r.states[k].tasks
    requires forall m :: k <= m < j ==> LeavesAttempts(r.labels[m], id)
    ensures id in r.states[j].tasks && r.states[j].tasks[id].attempts == r.states[k].tasks[id].attempts
    decreases j
  {
    hide QueueSound, Next;
    if k < j {
      AttemptsStay(r, k, j - 1, id);
      RunKeepsQueue(r, j - 1);
      StepKeepsAttempts(r.states[j - 1], r.labels[j - 1], r.states[j], id);
    }
  }

  /**
   After an accepted report whose last attempt failed, no call dispatches the task to the
   client that attempt names, or to the one the task ran on if it names none, until the
   task is reported on or filed again.
   */
  lemma FailedClientIsAvoided(r: Run, k: nat, j: nat, i: nat, c: string)
    requires IsFreshRun(r) && k < j < |r.labels| && r.labels[k].Fail? && AcceptsFailure(r.states[k], r.labels[k].id)
    requires forall m :: k < m <= j ==> LeavesAttempts(r.labels[m], r.labels[k].id)
    requires CallState(r.states[j], r.labels[j]).Some? && i < |r.labels[j].log| && r.labels[j].log[i].id == r.labels[k].id
    requires var history := r.labels[k].history;
      && c != "" && (history != [] ==> history[|history| - 1].status == "failed")
      && c == if history != [] && history[|history| - 1].client != "" then history[|history| - 1].client else r.states[k].tasks[r.labels[k].id].client
    ensures r.labels[j].log[i].Hold? || r.labels[j].log[i].client != c
  {
    hide QueueSound, AfterFailure, FailedLast, CallState;
    var id := r.labels[k].id;
    ReportNames(r.states[k], id, r.labels[k].error, r.labels[k].history, c);
    AttemptsStay(r, k + 1, j, id);
    CallStateKeeps(r.states[j], r.labels[j], id);
    ChoicesInRuns(r, j, i);
  }
}
