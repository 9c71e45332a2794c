/**
 How often one task can be dispatched and reported as failed in a whole run.
 */
module EscalationBound {
  import opened Tasks
  import opened SchedulerSpec
  import opened SchedulerInvariant
  import opened SchedulerRuns

  function SendsOf(a: Act, id: string): nat {
    if a.Send? && a.id == id then 1 else 0
  }

  /** How often `log` dispatches the task with an accepting hook. */
  function SendsIn(log: seq<Act>, id: string): nat {
    if log == [] then 0 else SendsOf(log[0], id) + SendsIn(log[1..], id)
  }

  function SendsBy(l: Label, id: string): nat {
    match l
    case Submit(_, log) => SendsIn(log, id)
    case Dispatch(log) => SendsIn(log, id)
    case _ => 0
  }

  /** Successful dispatches of the task in the first k steps. */
  ghost function Sends(r: Run, k: nat, id: string): nat
    requires k <= |r.labels|
  {
    if k == 0 then 0 else Sends(r, k - 1, id) + SendsBy(r.labels[k - 1], id)
  }

  ghost predicate FailsBy(s: State, l: Label, id: string) {
    l.Fail? && l.id == id && AcceptsFailure(s, id)
  }

  /** Accepted failure reports of the task in the first k steps. */
  ghost function Fails(r: Run, k: nat, id: string): nat
    requires IsRun(r) && k <= |r.labels|
  {
    if k == 0 then 0 else Fails(r, k - 1, id) + if FailsBy(r.states[k - 1], r.labels[k - 1], id) then 1 else 0
  }

  predicate IsWaiting(status: Status) {
    status.Created? || status.Queued? || status.Assigned? || status.Blocked? || status.Recovering?
  }

  /** A task is submitted once, or again only while it still waits, and starts within the limit. */
  ghost predicate SubmitsOnce(s: State, l: Label) {
    l.Submit? || l.Index? ==>
      && 0 <= l.rec.escalations <= s.cfg.maxEscalations
      && (l.rec.id in s.tasks ==> l.rec == s.tasks[l.rec.id] && IsWaiting(l.rec.status))
  }

  /** Every dispatch beyond the first and every report but the last was paid for with an escalation. */
  ghost predicate Paid(s: State, id: string, sends: nat, fails: nat) {
    var holds :=
      if id !in s.tasks then sends == 0 && fails == 0
      else
        var t := s.tasks[id];
        && t.escalations <= s.cfg.maxEscalations
        && if IsWaiting(t.status) then sends <= t.escalations && fails <= t.escalations
           else if t.HoldsSlot() then sends <= t.escalations + 1 && fails <= t.escalations
           else sends <= t.escalations + 1 && fails <= t.escalations + 1;
    holds
  }

  lemma PerformPays(d: Drain, a: Act, id: string, sends: nat, fails: nat)
    requires CanAct(d, a) && Paid(d.st, id, sends, fails)
    ensures Paid(Perform(d, a).st, id, sends + SendsOf(a, id), fails)
  {
    hide Best, Unmatched;
  }

  lemma {:induction false} DrainedPays(d: Drain, log: seq<Act>, e: Drain, id: string, sends: nat, fails: nat)
    requires Drained(d, log, e) && Paid(d.st, id, sends, fails)
    ensures Paid(e.st, id, sends + SendsIn(log, id), fails)
    decreases |log|
  {
    hide Paid;
    if log != [] {
      PerformPays(d, log[0], id, sends, fails);
      DrainedPays(Perform(d, log[0]), log[1..], e, id, sends + SendsOf(log[0], id), fails);
    }
  }

  lemma DispatchedPays(s: State, log: seq<Act>, s': State, id: string, sends: nat, fails: nat)
    requires Dispatched(s, log, s') && Paid(s, id, sends, fails)
    ensures Paid(s', id, sends + SendsIn(log, id), fails)
  {
    hide Drained;
    var e: Drain :| && Drained(Drain(s, [], false), log, e)
                    && (e.stopped || e.st.queue == [])
                    && (forall id :: id in e.held ==> id in e.st.tasks)
                    && s' == PutBack(e.st, e.held);
    DrainedPays(Drain(s, [], false), log, e, id, sends, fails);
    PutBackChangesNoTask(e.st, e.held);
  }

  lemma SubmittedPays(s: State, rec: TaskRec, log: seq<Act>, s': State, id: string, sends: nat, fails: nat)
    requires SubmitsOnce(s, Submit(rec, log)) && Submitted(s, rec, log, s') && Paid(s, id, sends, fails)
    ensures Paid(s', id, sends + SendsIn(log, id), fails)
  {
    hide Dispatched;
    var call := CallState(s, Submit(rec, log));
    if call.Some? {
      DispatchedPays(call.value, log, s', id, sends, fails);
    }
  }

  ghost predicate IsOnceRun(r: Run) {
    && IsRun(r)
    && (forall i :: 0 <= i < |r.labels| ==> SubmitsOnce(r.states[i], r.labels[i]))
    && forall x :: x in r.states[0].tasks ==> 0 <= r.states[0].tasks[x].escalations <= r.states[0].cfg.maxEscalations
  }

  lemma StepPays(s: State, l: Label, s': State, id: string, sends: nat, fails: nat)
    requires Next(s, l, s') && SubmitsOnce(s, l) && Paid(s, id, sends, fails)
    ensures Paid(s', id, sends + SendsBy(l, id), fails + if FailsBy(s, l, id) then 1 else 0)
  {
    hide Dispatched, Submitted, AfterFailure;
    match l
    case Submit(rec, log) => SubmittedPays(s, rec, log, s', id, sends, fails);
    case Dispatch(log) => DispatchedPays(s, log, s', id, sends, fails);
    case Fail(x, error, history) => FailPays(s, x, error, history, id, sends, fails);
    case _ =>
  }

  lemma FailPays(s: State, x: string, error: Option<string>, history: seq<Attempt>, id: string, sends: nat, fails: nat)
    requires Paid(s, id, sends, fails)
    ensures Paid(AfterFailure(s, x, error, history), id, sends, fails + if x == id && AcceptsFailure(s, x) then 1 else 0)
  {
    hide Unmatched;
    if AcceptsFailure(s, x) {
      var s1 := FailureRecorded(s, x, error, history);
      var v := Escalate(s1, s1.tasks[x]);
      assert x != id ==> Paid(VerdictApplied(s1, x, v), id, sends, fails);
    }
  }

  /**
   In every run in which a task is submitted once, it is dispatched, and reported as
   failed, at most maxEscalations + 1 times.
   */
  lemma EscalationsBoundAttempts(r: Run, k: nat, id: string)
    requires IsOnceRun(r) && k < |r.states|
    ensures id in r.states[k].tasks ==> r.states[k].tasks[id].escalations <= r.states[k].cfg.maxEscalations
    ensures r.states[k].cfg.maxEscalations >= 0 ==>
      && Sends(r, k, id) <= r.states[k].cfg.maxEscalations + 1
      && Fails(r, k, id) <= r.states[k].cfg.maxEscalations + 1
  {
    RunPays(r, k, id);
  }

  lemma {:induction false} RunPays(r: Run, k: nat, id: string)
    requires IsOnceRun(r) && k < |r.states|
    ensures Paid(r.states[k], id, Sends(r, k, id), Fails(r, k, id))
  {
    hide Next, SubmitsOnce;
    if k > 0 {
      RunPays(r, k - 1, id);
      StepPays(r.states[k - 1], r.labels[k - 1], r.states[k], id, Sends(r, k - 1, id), Fails(r, k - 1, id));
    }
  }
}
