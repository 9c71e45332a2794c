/**
 What the scheduler does, on values (pkg/reef/server/scheduler.go, registry.go,
 client_info.go).

 Each handler is one step on a `State`.  Two things are left to the environment and
 recorded in the labels: which of several least-loaded clients the registry's map
 iteration offers first, and whether the dispatch hook accepts.
 */
module SchedulerSpec {
  import opened Tasks
  import opened DequeueOrder

  datatype ClientState = Connected | Disconnected | Stale

  datatype Client = Client(id: string, role: string, skills: seq<string>, capacity: int, load: int, state: ClientState)
  {
    predicate IsAvailable() {
      state.Connected? && load < capacity
    }

    predicate Suits(requiredRole: string, requiredSkills: seq<string>) {
      role == requiredRole && forall s :: s in requiredSkills ==> s in skills
    }
  }

  /** `ranked` tells the priority queue from the FIFO queue. */
  datatype Config = Config(ranked: bool, maxLen: int, maxEscalations: int)
  {
    function Rank(priority: int): int {
      if ranked then ResolvePriority(priority) else 0
    }
  }

  datatype State = State(cfg: Config, tasks: map<string, TaskRec>, queue: seq<Ticket>, clients: map<string, Client>)

  // ----- Registry -----

  function Incremented(clients: map<string, Client>, c: string): map<string, Client> {
    if c in clients then clients[c := clients[c].(load := clients[c].load + 1)] else clients
  }

  /** Clamped at zero. */
  function Decremented(clients: map<string, Client>, c: string): map<string, Client> {
    if c in clients && clients[c].load > 0 then clients[c := clients[c].(load := clients[c].load - 1)] else clients
  }

  /** MarkStale, MarkDisconnected and UpdateHeartbeat: the state the server last saw. */
  function Observed(clients: map<string, Client>, id: string, state: ClientState): map<string, Client> {
    if id in clients then clients[id := clients[id].(state := state)] else clients
  }

  // ----- Matching -----

  /** The client of the latest failed attempt that names one. */
  function LastFailedClient(attempts: seq<Attempt>): string {
    if attempts == [] then ""
    else
      var last := attempts[|attempts| - 1];
      if last.status == "failed" && last.client != "" then last.client
      else LastFailedClient(attempts[..|attempts| - 1])
  }

  /** Written out: c is named by the latest failed attempt that names a client, or c is "" and no failed attempt does. */
  ghost predicate FailedLast(attempts: seq<Attempt>, c: string) {
    if c == "" then forall i :: 0 <= i < |attempts| && attempts[i].status == "failed" ==> attempts[i].client == ""
    else exists i :: 0 <= i < |attempts| && attempts[i] == Attempt("failed", c)
           && forall j :: i < j < |attempts| && attempts[j].status == "failed" ==> attempts[j].client == ""
  }

  lemma {:induction false} FailedLastHolds(attempts: seq<Attempt>)
    ensures FailedLast(attempts, LastFailedClient(attempts))
  {
    var c := LastFailedClient(attempts);
    if attempts != [] {
      var front, last := attempts[..|attempts| - 1], attempts[|attempts| - 1];
      if last.status == "failed" && last.client != "" {
        assert attempts[|attempts| - 1] == Attempt("failed", c);
      } else {
        FailedLastHolds(front);
        if c != "" {
          var i :| 0 <= i < |front| && front[i] == Attempt("failed", c)
            && forall j :: i < j < |front| && front[j].status == "failed" ==> front[j].client == "";
          assert attempts[i] == Attempt("failed", c);
        }
      }
    }
  }

  /** The excluded client is determined by the attempts as FailedLast says. */
  lemma LastFailedIs(attempts: seq<Attempt>, c: string)
    ensures LastFailedClient(attempts) == c <==> FailedLast(attempts, c)
  {
    hide LastFailedClient;
    FailedLastHolds(attempts);
  }

  predicate Eligible(clients: map<string, Client>, task: TaskRec, exclude: string, c: string) {
    c in clients && c != exclude && clients[c].IsAvailable() && clients[c].Suits(task.role, task.skills)
  }

  ghost predicate Unmatched(clients: map<string, Client>, task: TaskRec, exclude: string) {
    forall c :: c in clients ==> !Eligible(clients, task, exclude, c)
  }

  /** An eligible client of least load. */
  ghost predicate Best(clients: map<string, Client>, task: TaskRec, exclude: string, c: string) {
    var holds :=
      && Eligible(clients, task, exclude, c)
      && forall d :: d in clients && Eligible(clients, task, exclude, d) ==> clients[c].load <= clients[d].load;
    holds
  }

  // ----- Queueing -----

  /** Enqueue a known task; a full queue refuses it. */
  function Requeued(s: State, id: string): State
    requires id in s.tasks
  {
    if |s.queue| >= s.cfg.maxLen then s
    else s.(queue := Insert(s.queue, Ticket(s.cfg.Rank(s.tasks[id].priority), id)))
  }

  // ----- TryDispatch -----

  datatype Act =
    | Hold(id: string)                    // no client: held aside
    | Send(id: string, client: string)    // dispatched, the hook accepted
    | Refuse(id: string, client: string)  // dispatched, the hook failed
    | Stick(id: string, client: string)   // the task cannot leave its status

  /** The loop of TryDispatch: the state, the tasks held aside, and whether a dispatch failed. */
  datatype Drain = Drain(st: State, held: seq<string>, stopped: bool)

  function Sent(s: State, id: string, c: string): State
    requires id in s.tasks
  {
    var t := s.tasks[id].Moved(Assigned).Moved(Running).(client := c);
    s.(tasks := s.tasks[id := t], clients := Incremented(s.clients, c))
  }

  function Unsent(s: State, id: string, c: string): State
    requires id in s.tasks
  {
    var t := s.tasks[id].(client := "").Moved(Queued);
    s.(tasks := s.tasks[id := t], clients := Decremented(s.clients, c))
  }

  ghost predicate CanAct(d: Drain, a: Act) {
    && !d.stopped && d.st.queue != [] && d.st.queue[0].id == a.id && a.id in d.st.tasks
    && var t := d.st.tasks[a.id];
    var exclude := LastFailedClient(t.attempts);
    match a
    case Hold(_) => Unmatched(d.st.clients, t, exclude)
    case Send(_, c) => Best(d.st.clients, t, exclude, c) && t.status.CanTransitionTo(Assigned)
    case Refuse(_, c) => Best(d.st.clients, t, exclude, c) && t.status.CanTransitionTo(Assigned)
    case Stick(_, c) => Best(d.st.clients, t, exclude, c) && !t.status.CanTransitionTo(Assigned)
  }

  function Perform(d: Drain, a: Act): Drain
    requires d.st.queue != [] && a.id in d.st.tasks
  {
    var popped := d.st.(queue := d.st.queue[1..]);
    match a
    case Hold(id) => Drain(popped, d.held + [id], false)
    case Send(id, c) => Drain(Sent(popped, id, c), d.held, false)
    case Refuse(id, c) => Drain(Requeued(Unsent(Sent(popped, id, c), id, c), id), d.held, true)
    case Stick(id, c) => Drain(Requeued(popped, id), d.held, true)
  }

  /** The loop went from d through `log` to e. */
  ghost predicate Drained(d: Drain, log: seq<Act>, e: Drain)
    decreases |log|
  {
    if log == [] then d == e
    else CanAct(d, log[0]) && Drained(Perform(d, log[0]), log[1..], e)
  }

  lemma {:induction false} DrainedSnoc(d: Drain, log: seq<Act>, e: Drain, a: Act)
    requires Drained(d, log, e) && CanAct(e, a)
    ensures Drained(d, log + [a], Perform(e, a))
    decreases |log|
  {
    if log == [] {
      assert (log + [a])[1..] == [];
    } else {
      DrainedSnoc(Perform(d, log[0]), log[1..], e, a);
      assert (log + [a])[1..] == log[1..] + [a];
    }
  }

  function PutBack(s: State, held: seq<string>): State
    requires forall id :: id in held ==> id in s.tasks
    decreases |held|
  {
    if held == [] then s else PutBack(Requeued(s, held[0]), held[1..])
  }

  ghost predicate Dispatched(s: State, log: seq<Act>, s': State) {
    var holds :=
      exists e: Drain ::
        && Drained(Drain(s, [], false), log, e)
        && (e.stopped || e.st.queue == [])
        && (forall id :: id in e.held ==> id in e.st.tasks)
        && s' == PutBack(e.st, e.held);
    holds
  }

  // ----- Handlers -----

  ghost predicate Submitted(s: State, rec: TaskRec, log: seq<Act>, s': State) {
    var known := s.(tasks := s.tasks[rec.id := rec]);
    var queued := s.(tasks := s.tasks[rec.id := if rec.status.Queued? then rec else rec.Moved(Queued)]);
    if !rec.status.Queued? && !rec.status.CanTransitionTo(Queued) then log == [] && s' == known
    else if |s.queue| >= s.cfg.maxLen then log == [] && s' == queued
    else Dispatched(Requeued(queued, rec.id), log, s')
  }

  function AfterCompletion(s: State, id: string, result: Option<string>): State {
    if id !in s.tasks then s
    else
      var t := s.tasks[id];
      if t.status.Running? then
        s.(tasks := s.tasks[id := t.(result := result, client := "").Moved(Completed)],
           clients := Decremented(s.clients, t.client))
      else if t.status.Failed? || t.status.Paused? then
        s.(tasks := s.tasks[id := t.(result := result, error := None, client := "", status := Completed)],
           clients := Decremented(s.clients, t.client))
      else s
  }

  /** The attempts a failure report adds. */
  function Reported(history: seq<Attempt>, client: string): (r: seq<Attempt>)
    ensures |history| > 0 ==> |r| == |history|
  {
    if history == [] then [Attempt("failed", client)]
    else seq(|history|, i requires 0 <= i < |history| => if history[i].client == "" then history[i].(client := client) else history[i])
  }

  datatype Verdict = Reassign | Terminate | ToAdmin

  ghost function Escalate(s: State, t: TaskRec): Verdict {
    if t.escalations >= s.cfg.maxEscalations then ToAdmin
    else if !Unmatched(s.clients, t, t.client) then Reassign
    else Terminate
  }

  predicate AcceptsFailure(s: State, id: string) {
    id in s.tasks && s.tasks[id].status.Running?
  }

  /** The report is recorded and the slot released. */
  function FailureRecorded(s: State, id: string, error: Option<string>, history: seq<Attempt>): State
    requires AcceptsFailure(s, id)
  {
    var t := s.tasks[id];
    var f := t.(error := error, attempts := t.attempts + Reported(history, t.client)).Moved(Failed);
    s.(tasks := s.tasks[id := f], clients := Decremented(s.clients, t.client))
  }

  /** The verdict is carried out; a full queue swallows a reassigned task. */
  function VerdictApplied(s: State, id: string, v: Verdict): State
    requires id in s.tasks
  {
    var f := s.tasks[id];
    match v
    case Reassign =>
      var r := f.(escalations := f.escalations + 1, client := "").Moved(Queued);
      Requeued(s.(tasks := s.tasks[id := r]), id)
    case Terminate => s
    case ToAdmin => s.(tasks := s.tasks[id := f.Moved(Escalated)])
  }

  ghost function AfterFailure(s: State, id: string, error: Option<string>, history: seq<Attempt>): State {
    if !AcceptsFailure(s, id) then s
    else
      var s1 := FailureRecorded(s, id, error, history);
      VerdictApplied(s1, id, Escalate(s1, s1.tasks[id]))
  }

  function AfterTimeout(s: State, id: string, error: Option<string>): State {
    if id in s.tasks && s.tasks[id].status.Running? then
      var t := s.tasks[id];
      s.(tasks := s.tasks[id := t.(error := error, client := "").Moved(Failed)],
         clients := Decremented(s.clients, t.client))
    else s
  }

  function AfterPause(s: State, id: string, reason: string): State {
    if id in s.tasks && s.tasks[id].status.Running? then
      s.(tasks := s.tasks[id := s.tasks[id].Moved(Paused).(pauseReason := reason)])
    else s
  }

  // ----- Runs -----

  datatype Label =
    | Submit(rec: TaskRec, log: seq<Act>)
    | Index(rec: TaskRec)
    | Dispatch(log: seq<Act>)
    | Complete(id: string, result: Option<string>)
    | Fail(id: string, error: Option<string>, history: seq<Attempt>)
    | TimeOut(id: string, error: Option<string>)
    | Pause(id: string, reason: string)
    | Register(client: Client)
    | Unregister(client_id: string)
    | Report(client_id: string, state: ClientState)

  ghost predicate Next(s: State, l: Label, s': State) {
    match l
    case Submit(rec, log) => Submitted(s, rec, log, s')
    case Index(rec) => s' == s.(tasks := s.tasks[rec.id := rec])
    case Dispatch(log) => Dispatched(s, log, s')
    case Complete(id, result) => s' == AfterCompletion(s, id, result)
    case Fail(id, error, history) => s' == AfterFailure(s, id, error, history)
    case TimeOut(id, error) => s' == AfterTimeout(s, id, error)
    case Pause(id, reason) => s' == AfterPause(s, id, reason)
    case Register(c) => s' == s.(clients := s.clients[c.id := c])
    case Unregister(c) => s' == s.(clients := s.clients - {c})
    case Report(c, state) => s' == s.(clients := Observed(s.clients, c, state))
  }
}
