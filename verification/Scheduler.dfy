/**
 The scheduler object (pkg/reef/server/scheduler.go).

 Its queue, its task index and its callers share task objects by pointer.  `View()` is
 the value of everything it can see; each method takes it from one value to another by
 a step of SchedulerSpec.
 */
module Schedulers {
  import opened Tasks
  import opened DequeueOrder
  import opened Queues
  import opened Registries
  import opened SchedulerSpec
  import opened HandlerEffects
  import SI = SchedulerInvariant
  import PriorityHeaps
  import PriorityQueues

  ghost function TaskViews(tasks: map<string, Task>): map<string, TaskRec>
    reads tasks.Values
  {
    map id | id in tasks :: tasks[id].Rec()
  }

  predicate Filed(tasks: map<string, Task>) {
    forall id :: id in tasks ==> tasks[id].id == id
  }

  lemma OneTaskChanged(tasks: map<string, Task>, t: Task, was: map<string, TaskRec>)
    requires Filed(tasks) && t.id in tasks && tasks[t.id] == t
    requires was.Keys == tasks.Keys && forall id :: id in tasks && id != t.id ==> tasks[id].Rec() == was[id]
    ensures TaskViews(tasks) == was[t.id := t.Rec()]
  {
  }

  class Scheduler {
    const registry: Registry
    const queue: Queue
    const strategy: Strategy
    const maxEscalations: int
    var tasks: map<string, Task>

    ghost predicate Valid()
      reads this, registry, queue.Fifos(), queue.Prios(), queue.Heaps(), queue.Items()
      reads if queue.Prio? then queue.prio.heap.items else []
    {
      var sound :=
        && registry.Valid() && queue.Valid() && Filed(tasks)
        && forall t :: t in queue.Objects() ==> t.id in tasks && tasks[t.id] == t;
      sound
    }

    ghost function View(): State
      reads this, registry, queue.Fifos(), queue.Prios(), tasks.Values
    {
      State(Config(queue.Prio?, queue.MaxLen(), maxEscalations), TaskViews(tasks), queue.Order(), registry.clients)
    }

    lemma ViewShows(task: Task)
      requires task.id in tasks && tasks[task.id] == task
      ensures task.id in View().tasks && View().tasks[task.id] == task.Rec()
    {
    }

    lemma ViewTraits()
      ensures View().clients == registry.clients && View().tasks.Keys == tasks.Keys && View().cfg.maxLen == queue.MaxLen()
      ensures forall id :: id in tasks ==> View().tasks[id].role == tasks[id].role && View().tasks[id].skills == tasks[id].skills
    {
    }

    /** All the scheduler knows of its queue. */
    ghost function Waiting(): (bool, seq<Ticket>, set<Task>)
      reads queue.Fifos(), queue.Prios(), queue.Heaps(), queue.Items()
      reads if queue.Prio? then queue.prio.heap.items else []
    {
      (queue.Valid(), queue.Order(), queue.Objects())
    }

    constructor (registry: Registry, queue: Queue, strategy: Strategy, maxEscalations: int)
      requires registry.Valid() && queue.Valid() && queue.Objects() == {}
      ensures this.registry == registry && this.queue == queue && tasks == map[]
      ensures this.maxEscalations == if maxEscalations >= 0 then maxEscalations else 2
      ensures Valid()
    {
      hide PriorityQueues.PriorityQueue.Valid;
      this.registry, this.queue, this.strategy := registry, queue, strategy;
      this.maxEscalations := if maxEscalations < 0 then 2 else maxEscalations;
      tasks := map[];
    }

    // ----- Single steps -----

    /** Transition on a filed task. */
    method MoveTask(task: Task, to: Status) returns (ok: bool)
      requires Valid() && task.id in tasks && tasks[task.id] == task
      modifies task`status
      ensures Valid() && ok == old(task.status).CanTransitionTo(to) && queue.Objects() == old(queue.Objects())
      ensures task.Rec() == old(task.Rec()).Moved(to)
      ensures View() == Known(old(View()), old(View()).tasks[task.id].Moved(to))
    {
      hide PriorityQueues.PriorityQueue.Valid;
      ok := task.Transition(to);
      assert Waiting() == old(Waiting());
      OneTaskChanged(tasks, task, old(TaskViews(tasks)));
    }

    method FreeSlot(client: string)
      requires Valid()
      modifies registry
      ensures Valid() && View() == old(View()).(clients := Decremented(old(View()).clients, client))
      ensures queue.Objects() == old(queue.Objects())
    {
      hide PriorityQueues.PriorityQueue.Valid;
      var found := registry.DecrementLoad(client);
      assert Waiting() == old(Waiting());
      assert TaskViews(tasks) == old(TaskViews(tasks));
    }

    method TakeSlot(client: string)
      requires Valid()
      modifies registry
      ensures Valid() && View() == old(View()).(clients := Incremented(old(View()).clients, client))
      ensures queue.Objects() == old(queue.Objects())
    {
      hide PriorityQueues.PriorityQueue.Valid;
      var found := registry.IncrementLoad(client);
      assert Waiting() == old(Waiting());
      assert TaskViews(tasks) == old(TaskViews(tasks));
    }

    method SetClient(task: Task, client: string)
      requires Valid() && task.id in tasks && tasks[task.id] == task
      modifies task`client
      ensures Valid() && View() == Known(old(View()), old(View()).tasks[task.id].(client := client))
      ensures queue.Objects() == old(queue.Objects())
    {
      hide PriorityQueues.PriorityQueue.Valid;
      task.client := client;
      assert Waiting() == old(Waiting());
      OneTaskChanged(tasks, task, old(TaskViews(tasks)));
    }

    /** A result or an error is noted on a task. */
    method Note(task: Task, result: Option<string>, error: Option<string>)
      requires Valid() && task.id in tasks && tasks[task.id] == task
      modifies task`result, task`error
      ensures Valid() && View() == Known(old(View()), old(View()).tasks[task.id].(result := result, error := error))
    {
      hide PriorityQueues.PriorityQueue.Valid;
      task.result, task.error := result, error;
      assert Waiting() == old(Waiting());
      OneTaskChanged(tasks, task, old(TaskViews(tasks)));
    }

    method NoteAttempts(task: Task, error: Option<string>, attempts: seq<Attempt>)
      requires Valid() && task.id in tasks && tasks[task.id] == task
      modifies task`attempts, task`error
      ensures Valid() && View() == Known(old(View()), old(View()).tasks[task.id].(error := error, attempts := attempts))
      ensures queue.Objects() == old(queue.Objects())
    {
      hide PriorityQueues.PriorityQueue.Valid;
      task.error, task.attempts := error, attempts;
      assert Waiting() == old(Waiting());
      OneTaskChanged(tasks, task, old(TaskViews(tasks)));
    }

    method SetStatus(task: Task, status: Status)
      requires Valid() && task.id in tasks && tasks[task.id] == task
      modifies task`status
      ensures Valid() && View() == Known(old(View()), old(View()).tasks[task.id].(status := status))
      ensures task.Rec() == old(task.Rec()).(status := status)
    {
      hide PriorityQueues.PriorityQueue.Valid;
      task.status := status;
      assert Waiting() == old(Waiting());
      OneTaskChanged(tasks, task, old(TaskViews(tasks)));
    }

    /** A detour over Queued, from where the table does not lead to Completed either. */
    method ForceCompleted(task: Task)
      requires Valid() && task.id in tasks && tasks[task.id] == task
      modifies task`status
      ensures Valid() && View() == Known(old(View()), old(View()).tasks[task.id].(status := Completed))
    {
      hide PriorityQueues.PriorityQueue.Valid, Queue.Valid, Queue.Objects, Valid, View;
      ViewShows(task);
      ghost var s, t := View(), task.Rec();
      SetStatus(task, Queued);
      var ok := MoveTask(task, Completed);
      if !ok {
        SetStatus(task, Completed);
      }
      ForcedAs(s, t);
    }

    /** matchClient: an eligible client of least load, if there is one. */
    method MatchClient(task: Task, excludeID: string) returns (client: Option<string>)
      requires Valid()
      ensures client.None? <==> Unmatched(registry.clients, task.Rec(), excludeID)
      ensures client.Some? ==> Best(registry.clients, task.Rec(), excludeID, client.value)
      ensures client.None? ==> forall c :: c in registry.clients && c != excludeID ==>
        var other := registry.clients[c];
        other.state != Connected || other.load >= other.capacity || other.role != task.role || exists skill :: skill in task.skills && skill !in other.skills
      ensures client.Some? ==>
        && client.value in registry.clients && client.value != excludeID
        && var chosen := registry.clients[client.value];
        && chosen.state == Connected && chosen.load < chosen.capacity && chosen.role == task.role
        && forall skill :: skill in task.skills ==> skill in chosen.skills
      ensures client.Some? ==> forall c :: c != excludeID && Serves(registry.clients, c, task.role, task.skills) ==>
        registry.clients[client.value].load <= registry.clients[c].load
    {
      hide PriorityQueues.PriorityQueue.Valid;
      var candidates := registry.List();
      var eligible: seq<Client> := [];
      for i := 0 to |candidates|
        invariant forall c :: c in eligible ==> c in candidates && Eligible(registry.clients, task.Rec(), excludeID, c.id)
        invariant forall k :: 0 <= k < i && Eligible(registry.clients, task.Rec(), excludeID, candidates[k].id) ==> candidates[k] in eligible
      {
        var c := candidates[i];
        if c.id == excludeID || !c.IsAvailable() {
          continue;
        }
        var fits := Matches(c, task.role, task.skills);
        if fits {
          eligible := eligible + [c];
        }
      }
      assert forall id :: id in registry.clients ==> registry.clients[id] in candidates;
      EligibleServes(registry.clients, task.Rec(), excludeID);
      if |eligible| == 0 {
        return None;
      }
      var selected;
      if strategy.LeastLoad? {
        selected := SelectLeastLoad(eligible);
      } else {
        selected := SelectRoundRobin(eligible);
      }
      return Some(selected.value.id);
    }
  
    /** Queue operations touch no task object. */
    method EnqueueOnly(task: Task) returns (ok: bool)
      requires queue.Valid() && forall t :: t in queue.Objects() ==> t.id != task.id
      modifies queue.Fifos(), queue.Prios(), queue.Heaps(), queue.Items()`index
      ensures queue.Valid() && (forall x :: x in queue.Items() ==> x in old(queue.Items()) || fresh(x))
      ensures ok == (|old(queue.Order())| < queue.MaxLen())
      ensures queue.Order() == if ok then Insert(old(queue.Order()), Ticket(queue.Rank(task.priority), task.id)) else old(queue.Order())
      ensures queue.Objects() == if ok then old(queue.Objects()) + {task} else old(queue.Objects())
      ensures TaskViews(tasks) == old(TaskViews(tasks))
    {
      hide PriorityQueues.PriorityQueue.Valid;
      ok := queue.Enqueue(task);
      assert unchanged(tasks.Values);
    }

    /** Enqueue as the scheduler uses it: the answer is ignored, a full queue changes nothing. */
    method Requeue(task: Task) returns (ok: bool)
      requires Valid() && task.id in tasks && tasks[task.id] == task && task !in queue.Objects()
      modifies queue.Fifos(), queue.Prios(), queue.Heaps(), queue.Items()`index
      ensures Valid() && (forall x :: x in queue.Items() ==> x in old(queue.Items()) || fresh(x))
      ensures ok == (|old(queue.Order())| < queue.MaxLen())
      ensures View() == Requeued(old(View()), task.id)
      ensures queue.Objects() == if ok then old(queue.Objects()) + {task} else old(queue.Objects())
    {
      hide PriorityQueues.PriorityQueue.Valid;
      ok := EnqueueOnly(task);
      assert queue.Valid();
    }

    /** The first half of dispatch: the task runs on the client and takes one of its slots. */
    method Assign(task: Task, client: string)
      requires Valid() && task.id in tasks && tasks[task.id] == task && task.status.CanTransitionTo(Assigned)
      modifies registry, task`status, task`client
      ensures Valid() && View() == Sent(old(View()), task.id, client)
      ensures queue.Objects() == old(queue.Objects())
    {
      hide PriorityQueues.PriorityQueue.Valid;
      ghost var s := View();
      var ok := MoveTask(task, Assigned);
      ok := MoveTask(task, Running);
      SetClient(task, client);
      TakeSlot(client);
      SentAs(s, task.id, client);
    }

    /** dispatch undone after the hook failed. */
    method Unassign(task: Task, client: string)
      requires Valid() && task.id in tasks && tasks[task.id] == task
      modifies registry, task`status, task`client
      ensures Valid() && View() == Unsent(old(View()), task.id, client)
      ensures queue.Objects() == old(queue.Objects())
    {
      hide PriorityQueues.PriorityQueue.Valid;
      ghost var s := View();
      FreeSlot(client);
      SetClient(task, "");
      var ok := MoveTask(task, Queued);
      UnsentAs(s, task.id, client);
    }

    /** dispatch: assigns the task, then lets the hook decide; a failed hook undoes it. */
    method DispatchTo(task: Task, client: string, hookAccepts: bool) returns (ok: bool, ghost act: Act)
      requires Valid() && task.id in tasks && tasks[task.id] == task
      modifies registry, task`status, task`client
      ensures Valid()
      ensures ok == act.Send?
      ensures act == if !old(task.status).CanTransitionTo(Assigned) then Stick(task.id, client)
                     else if hookAccepts then Send(task.id, client) else Refuse(task.id, client)
      ensures act.Send? ==> View() == Sent(old(View()), task.id, client)
      ensures act.Refuse? ==> View() == Unsent(Sent(old(View()), task.id, client), task.id, client)
      ensures act.Stick? ==> View() == old(View())
      ensures queue.Objects() == old(queue.Objects())
      ensures act.Stick? <==> old(task.status) !in {Created, Queued}
      ensures act.Send? ==>
        && View().tasks == old(View()).tasks[task.id := old(task.Rec()).(status := Running, client := client)]
        && SlotTaken(old(registry.clients), registry.clients, client)
      ensures act.Refuse? ==>
        && View().tasks == old(View()).tasks[task.id := old(task.Rec()).(status := Queued, client := "")]
        && (client in registry.clients && old(registry.clients)[client].load >= 0 ==> registry.clients == old(registry.clients))
    {
      hide PriorityQueues.PriorityQueue.Valid;
      ViewShows(task);
      DispatchIs(View(), task.id, client);
      ok := task.status.CanTransitionTo(Assigned);
      if !ok {
        act := Stick(task.id, client);
      } else {
        Assign(task, client);
        if hookAccepts {
          act := Send(task.id, client);
        } else {
          Unassign(task, client);
          act := Refuse(task.id, client);
          ok := false;
        }
      }
    }
  
    /** A task held aside: filed, but in no queue. */
    ghost predicate Aside(task: Task)
      reads this, queue.Fifos(), queue.Prios(), queue.Heaps()
    {
      task.id in tasks && tasks[task.id] == task && task !in queue.Objects()
    }

    /** The excludeID loop: scans the attempts backwards. */
    method LastFailure(task: Task) returns (excludeID: string)
      ensures excludeID == LastFailedClient(task.attempts)
      ensures excludeID == "" ==> forall i :: 0 <= i < |task.attempts| && task.attempts[i].status == "failed" ==> task.attempts[i].client == ""
      ensures excludeID != "" ==> 
        exists i :: 0 <= i < |task.attempts| && task.attempts[i] == Attempt("failed", excludeID) &&
          forall j :: i < j < |task.attempts| && task.attempts[j].status == "failed" ==> task.attempts[j].client == ""
    {
      hide PriorityQueues.PriorityQueue.Valid;
      LastFailedIs(task.attempts, LastFailedClient(task.attempts));
      excludeID := "";
      var i := |task.attempts|;
      assert task.attempts[..i] == task.attempts;
      while i > 0
        invariant 0 <= i <= |task.attempts|
        invariant excludeID == "" && LastFailedClient(task.attempts) == LastFailedClient(task.attempts[..i])
      {
        i := i - 1;
        assert task.attempts[..i + 1][..i] == task.attempts[..i];
        if task.attempts[i].status == "failed" && task.attempts[i].client != "" {
          excludeID := task.attempts[i].client;
          return;
        }
      }
    }

    /** The head of the queue leaves it. */
    method TakeHead() returns (task: Option<Task>)
      requires Valid()
      modifies queue.Fifos(), queue.Prios(), queue.Heaps(), queue.Items()`index
      ensures Valid() && queue.Items() <= old(queue.Items())
      ensures task.None? <==> old(View()).queue == []
      ensures task.None? ==> View() == old(View()) && queue.Objects() == old(queue.Objects())
      ensures task.Some? ==> task.value.id == old(View()).queue[0].id && Aside(task.value)
      ensures task.Some? ==> View() == old(View()).(queue := old(View()).queue[1..])
      ensures task.Some? ==> queue.Objects() == old(queue.Objects()) - {task.value}
    {
      hide PriorityQueues.PriorityQueue.Valid;
      task := queue.Dequeue();
      assert queue.Valid();
      assert unchanged(tasks.Values);
      assert TaskViews(tasks) == old(TaskViews(tasks));
    }
  
    ghost predicate HeldAside(held: seq<Task>)
      reads this, queue.Fifos(), queue.Prios(), queue.Heaps()
    {
      var aside :=
        && (forall i :: 0 <= i < |held| ==> Aside(held[i]))
        && (forall i, j :: 0 <= i < j < |held| ==> held[i] != held[j]);
      aside
    }

    /** Peek and match: the head of the queue and the client matchClient finds for it. */
    method Head() returns (task: Option<Task>, client: Option<string>)
      requires Valid()
      ensures task.None? ==> View().queue == []
      ensures task.Some? ==> forall held :: HeldAside(held) ==> Shown(task.value, client, held)
    {
      hide PriorityQueues.PriorityQueue.Valid;
      client := None;
      task := queue.Peek();
      if task.Some? {
        var excludeID := LastFailure(task.value);
        client := MatchClient(task.value, excludeID);
        assert View().tasks[task.value.id] == task.value.Rec();
      }
    }

    /** Dequeue takes the task Peek has shown. */
    method TakeShown(task: Task, ghost held: seq<Task>)
      requires Valid() && HeldAside(held) && View().queue != [] && task.id == View().queue[0].id && task in queue.Objects()
      modifies queue.Fifos(), queue.Prios(), queue.Heaps(), queue.Items()`index
      ensures Valid() && queue.Items() <= old(queue.Items()) && HeldAside(held + [task])
      ensures View() == old(View()).(queue := old(View()).queue[1..])
    {
      hide PriorityQueues.PriorityQueue.Valid;
      queue.OrderIsObjects();
      var taken := TakeHead();
      assert taken.value == task;
    }

    /** What a dispatch does after the task left the queue: a task whose dispatch failed goes back. */
    method DispatchOrReturn(task: Task, client: string, hookAccepts: bool) returns (ok: bool, ghost act: Act)
      requires Valid() && Aside(task)
      modifies registry, task`status, task`client
      modifies queue.Fifos(), queue.Prios(), queue.Heaps(), queue.Items()`index
      ensures Valid() && (forall x :: x in queue.Items() ==> x in old(queue.Items()) || fresh(x))
      ensures act == if !old(task.status).CanTransitionTo(Assigned) then Stick(task.id, client)
                     else if hookAccepts then Send(task.id, client) else Refuse(task.id, client)
      ensures ok == act.Send?
      ensures View() == match act
                        case Send(id, c) => Sent(old(View()), id, c)
                        case Refuse(id, c) => Requeued(Unsent(Sent(old(View()), id, c), id, c), id)
                        case Stick(id, c) => Requeued(old(View()), id)
                        case Hold(_) => old(View())
      ensures queue.Objects() <= old(queue.Objects()) + {task}
    {
      hide PriorityQueues.PriorityQueue.Valid;
      ok, act := DispatchTo(task, client, hookAccepts);
      if !ok {
        var requeued := Requeue(task);
      }
    }

    /** The head was shown by Peek, and matchClient gave `client` for it. */
    ghost predicate Shown(task: Task, client: Option<string>, held: seq<Task>)
      reads this, registry, queue.Fifos(), queue.Prios(), queue.Heaps(), tasks.Values
    {
      && View().queue != [] && task.id == View().queue[0].id && task in queue.Objects()
      && HeldAside(held) && Matched(View(), task.id, client)
    }

    /** The turn for a task without a client: it is held aside. */
    method HoldTurn(task: Task, held: seq<Task>) returns (held': seq<Task>, ghost act: Act)
      requires Valid() && Shown(task, None, held)
      modifies queue.Fifos(), queue.Prios(), queue.Heaps(), queue.Items()`index
      ensures Valid() && HeldAside(held') && (forall x :: x in queue.Items() ==> x in old(queue.Items()) || fresh(x))
      ensures TurnTaken(Drain(old(View()), HeldIds(held), false), act, Drain(View(), HeldIds(held'), false))
    {
      hide PriorityQueues.PriorityQueue.Valid;
      TakeShown(task, held);
      HeldIdsGrow(held, task);
      held', act := held + [task], Hold(task.id);
    }

    /** The rest of the turn for a task that has a client, after the task left the queue. */
    method FinishTurn(task: Task, client: string, ghost held: seq<Task>, ghost d: Drain) returns (again: bool, ghost act: Act)
      requires Valid() && Aside(task) && HeldAside(held) && task !in held
      requires !d.stopped && d.st.queue != [] && d.st.queue[0].id == task.id && Matched(d.st, task.id, Some(client))
      requires View() == d.st.(queue := d.st.queue[1..]) && d.held == HeldIds(held)
      modifies registry, task`status, task`client
      modifies queue.Fifos(), queue.Prios(), queue.Heaps(), queue.Items()`index
      ensures Valid() && HeldAside(held) && (forall x :: x in queue.Items() ==> x in old(queue.Items()) || fresh(x))
      ensures TurnTaken(d, act, Drain(View(), HeldIds(held), !again))
    {
      hide PriorityQueues.PriorityQueue.Valid, Queue.Valid, Queue.Objects, Valid, View, Sent, Unsent, Requeued, Best;
      var hookAccepts: bool := *;
      ViewShows(task);
      again, act := DispatchOrReturn(task, client, hookAccepts);
    }

    /** The turn for a task that has a client. */
    method DispatchTurn(task: Task, client: string, held: seq<Task>) returns (again: bool, ghost act: Act)
      requires Valid() && Shown(task, Some(client), held)
      modifies registry, tasks.Values`status, tasks.Values`client
      modifies queue.Fifos(), queue.Prios(), queue.Heaps(), queue.Items()`index
      ensures Valid() && HeldAside(held) && (forall x :: x in queue.Items() ==> x in old(queue.Items()) || fresh(x))
      ensures TurnTaken(Drain(old(View()), HeldIds(held), false), act, Drain(View(), HeldIds(held), !again))
    {
      hide PriorityQueues.PriorityQueue.Valid;
      ghost var d := Drain(View(), HeldIds(held), false);
      TakeShown(task, held);
      HeldButLast(held, task);
      again, act := FinishTurn(task, client, held, d);
    }

    /** One turn of the loop of TryDispatch; no turn on an empty queue. */
    method Turn(held: seq<Task>) returns (held': seq<Task>, again: bool, ghost acts: seq<Act>)
      requires Valid() && HeldAside(held)
      modifies registry, tasks.Values`status, tasks.Values`client
      modifies queue.Fifos(), queue.Prios(), queue.Heaps(), queue.Items()`index
      ensures Valid() && HeldAside(held') && (forall x :: x in queue.Items() ==> x in old(queue.Items()) || fresh(x))
      ensures acts == [] ==> View().queue == [] && View() == old(View()) && held' == held && !again
      ensures |acts| <= 1
      ensures acts != [] ==>
        TurnTaken(Drain(old(View()), HeldIds(held), false), acts[0], Drain(View(), HeldIds(held'), !again))
    {
      hide PriorityQueues.PriorityQueue.Valid;
      var task, client := Head();
      held', again, acts := held, false, [];
      if task.Some? {
        ghost var act;
        if client.None? {
          again := true;
          held', act := HoldTurn(task.value, held);
        } else {
          again, act := DispatchTurn(task.value, client.value, held);
        }
        acts := [act];
      }
    }

    /** One pass through the loop, extending the log of the whole drain. */
    method Pass(held: seq<Task>, ghost d: Drain, ghost log: seq<Act>) returns (held': seq<Task>, again: bool, ghost log': seq<Act>, ghost stopped: bool)
      requires Valid() && HeldAside(held) && Reached(d, log, Drain(View(), HeldIds(held), false))
      modifies registry, tasks.Values`status, tasks.Values`client
      modifies queue.Fifos(), queue.Prios(), queue.Heaps(), queue.Items()`index
      ensures Valid() && HeldAside(held') && (forall x :: x in queue.Items() ==> x in old(queue.Items()) || fresh(x))
      ensures Reached(d, log', Drain(View(), HeldIds(held'), stopped))
      ensures (again ==> !stopped) && (!again ==> stopped || View().queue == [])
      ensures again ==> |View().queue| < |old(View()).queue|
    {
      hide PriorityQueues.PriorityQueue.Valid;
      ghost var e, acts := Drain(View(), HeldIds(held), false), [];
      held', again, acts := Turn(held);
      log', stopped := log, false;
      if acts != [] {
        ReachedSnoc(d, log, e, acts[0], Drain(View(), HeldIds(held'), !again));
        log', stopped := log + [acts[0]], !again;
      }
    }

    /** The loop of TryDispatch: drains the queue until it is empty or a dispatch fails. */
    method DrainQueue() returns (unmatchable: seq<Task>, ghost log: seq<Act>, ghost stopped: bool)
      requires Valid()
      modifies registry, tasks.Values`status, tasks.Values`client
      modifies queue.Fifos(), queue.Prios(), queue.Heaps(), queue.Items()`index
      ensures Valid() && HeldAside(unmatchable)
      ensures forall x :: x in queue.Items() ==> x in old(queue.Items()) || fresh(x)
      ensures Reached(Drain(old(View()), [], false), log, Drain(View(), HeldIds(unmatchable), stopped))
      ensures stopped || View().queue == []
    {
      hide PriorityQueues.PriorityQueue.Valid;
      ghost var d := Drain(View(), [], false);
      unmatchable, log, stopped := [], [], false;
      assert HeldIds(unmatchable) == [];
      var again := true;
      while again
        invariant Valid() && HeldAside(unmatchable)
        invariant forall x :: x in queue.Items() ==> x in old(queue.Items()) || fresh(x)
        invariant Reached(d, log, Drain(View(), HeldIds(unmatchable), stopped))
        invariant again ==> !stopped
        invariant !again ==> stopped || View().queue == []
        decreases again, |View().queue|
      {
        unmatchable, again, log, stopped := Pass(unmatchable, d, log);
      }
    }

    /** The first of the tasks held aside returns. */
    method ReturnFirst(held: seq<Task>, ghost back: State)
      requires Valid() && held != [] && HeldAside(held) && PutsBack(View(), held, back)
      modifies queue.Fifos(), queue.Prios(), queue.Heaps(), queue.Items()`index
      ensures Valid() && (forall x :: x in queue.Items() ==> x in old(queue.Items()) || fresh(x))
      ensures HeldAside(held[1..]) && View().tasks == old(View()).tasks
      ensures PutsBack(View(), held[1..], back)
    {
      hide PriorityQueues.PriorityQueue.Valid, Queue.Valid, Queue.Objects, Valid, View, PutsBack;
      RequeueKeepsTasks(View(), held[0].id);
      PutsBackFirst(View(), held, back);
      var ok := Requeue(held[0]);
    }

    /** The tasks held aside return to the queue, in order. */
    method ReturnHeld(held: seq<Task>)
      requires Valid() && HeldAside(held)
      modifies queue.Fifos(), queue.Prios(), queue.Heaps(), queue.Items()`index
      ensures Valid() && (forall x :: x in queue.Items() ==> x in old(queue.Items()) || fresh(x))
      ensures (forall id :: id in HeldIds(held) ==> id in old(View()).tasks) && View() == PutBack(old(View()), HeldIds(held))
    {
      hide PriorityQueues.PriorityQueue.Valid;
      ghost var s := View();
      ghost var back := PutBack(s, HeldIds(held));
      assert held[0..] == held;
      for i := 0 to |held|
        invariant Valid() && (forall x :: x in queue.Items() ==> x in old(queue.Items()) || fresh(x))
        invariant HeldAside(held[i..]) && View().tasks == s.tasks
        invariant PutsBack(View(), held[i..], back)
      {
        assert held[i..][1..] == held[i + 1..];
        ReturnFirst(held[i..], back);
      }
    }

    /** TryDispatch. */
    method TryDispatch() returns (ghost log: seq<Act>)
      requires Valid()
      modifies registry, tasks.Values`status, tasks.Values`client
      modifies queue.Fifos(), queue.Prios(), queue.Heaps(), queue.Items()`index
      ensures Valid() && (forall x :: x in queue.Items() ==> x in old(queue.Items()) || fresh(x))
      ensures tasks == old(tasks)
      ensures Dispatched(old(View()), log, View())
      ensures forall a :: a in log && !a.Hold? ==>
        && a.id in tasks && a.client in old(registry.clients) && old(registry.clients)[a.client].role == tasks[a.id].role
        && forall skill :: skill in tasks[a.id].skills ==> skill in old(registry.clients)[a.client].skills
    {
      hide Valid, View, PutsBack, Reached, Dispatched, PutBack;
      ViewTraits();
      var unmatchable;
      ghost var stopped;
      unmatchable, log, stopped := DrainQueue();
      ghost var e := Drain(View(), HeldIds(unmatchable), stopped);
      ReturnHeld(unmatchable);
      DispatchEnds(old(View()), log, e, View());
      forall a | a in log && !a.Hold? ensures Suited(old(View()), a) {
        ReachedSuits(Drain(old(View()), [], false), log, e, a);
      }
    }

    /** RegisterTask: files a task without queueing it. */
    method RegisterTask(task: Task)
      requires Valid() && forall t :: t in queue.Objects() ==> t.id != task.id
      modifies this
      ensures Valid() && tasks == old(tasks)[task.id := task] && queue.Objects() == old(queue.Objects())
      ensures View() == old(View()).(tasks := old(View()).tasks[task.id := task.Rec()])
    {
      hide PriorityQueues.PriorityQueue.Valid;
      tasks := tasks[task.id := task];
      assert queue.Valid();
      assert TaskViews(tasks) == old(TaskViews(tasks))[task.id := task.Rec()];
    }

    /** GetTask: the live object. */
    method GetTask(id: string) returns (task: Option<Task>)
      ensures task == if id in tasks then Some(tasks[id]) else None
    {
      task := if id in tasks then Some(tasks[id]) else None;
    }

    /** Files a task and moves it to Queued, if it can. */
    method FileQueued(task: Task) returns (ok: bool)
      requires Valid() && forall t :: t in queue.Objects() ==> t.id != task.id
      modifies this, task`status
      ensures Valid() && tasks == old(tasks)[task.id := task] && task !in queue.Objects()
      ensures ok == task.status.Queued? && task.priority == old(task.priority)
      ensures ok == (old(task.status).Queued? || old(task.status).CanTransitionTo(Queued))
      ensures View() == Known(old(View()), old(task.Rec()).Moved(Queued))
    {
      hide PriorityQueues.PriorityQueue.Valid, Queue.Valid, Queue.Objects, Valid, View, Known;
      ghost var s, rec := View(), task.Rec();
      RegisterTask(task);
      FiledAs(s, rec);
      ok := task.status.Queued?;
      if !ok {
        ok := MoveTask(task, Queued);
      }
    }

    /** The part of Submit before its TryDispatch. */
    method Enter(task: Task) returns (ok: bool)
      requires Valid() && forall t :: t in queue.Objects() ==> t.id != task.id
      modifies this, task`status
      modifies queue.Fifos(), queue.Prios(), queue.Heaps(), queue.Items()`index
      ensures Valid() && tasks == old(tasks)[task.id := task]
      ensures forall x :: x in queue.Items() ==> x in old(queue.Items()) || fresh(x)
      ensures Entered(old(View()), old(task.Rec()), ok, View())
    {
      hide PriorityQueues.PriorityQueue.Valid;
      ok := FileQueued(task);
      if ok {
        ok := Requeue(task);
      }
    }

    /** Submit: files the task, moves it to Queued, enqueues it and dispatches. */
    method Submit(task: Task) returns (ok: bool, ghost log: seq<Act>)
      requires Valid() && forall t :: t in queue.Objects() ==> t.id != task.id
      modifies this, registry, tasks.Values`status, tasks.Values`client, task`status, task`client
      modifies queue.Fifos(), queue.Prios(), queue.Heaps(), queue.Items()`index
      ensures Valid() && tasks == old(tasks)[task.id := task]
      ensures forall x :: x in queue.Items() ==> x in old(queue.Items()) || fresh(x)
      ensures Submitted(old(View()), old(task.Rec()), log, View())
      ensures ok <==> (old(task.status).Queued? || old(task.status).CanTransitionTo(Queued)) && |old(View()).queue| < queue.MaxLen()
      ensures var s, can := old(View()), old(task.status) in {Queued, Created, Assigned, Running, Blocked, Recovering, Failed, Status.Escalated};
        && (ok <==> can && |s.queue| < queue.MaxLen())
        && (can ==> task.status in {Queued, Running})
        && (!ok ==> View() == s.(tasks := s.tasks[task.id := old(task.Rec()).(status := if can then Queued else old(task.status))]))
    {
      hide PriorityQueues.PriorityQueue.Valid, Queue.Valid, Queue.Objects, Valid, View, Submitted, Dispatched;
      ViewTraits();
      log := [];
      ghost var s, rec := View(), task.Rec();
      ok := Enter(task);
      ghost var m := View();
      assert forall t :: t in tasks.Values ==> t == task || t in old(tasks.Values);
      if ok {
        log := TryDispatch();
      }
      SubmitEnds(s, rec, ok, m, log, View());
      SubmissionIs(s, rec, log, View());
      ReachedFrom(rec.status, Queued);
      ViewShows(task);
    }

    /** The slot of a task that left its client is freed. */
    method Release(task: Task)
      requires Valid() && task.id in tasks && tasks[task.id] == task
      modifies registry, task`client
      ensures Valid() && View() == SlotReleased(old(View()), task.id)
    {
      hide PriorityQueues.PriorityQueue.Valid;
      assert View().tasks[task.id] == task.Rec();
      FreeSlot(task.client);
      SetClient(task, "");
    }

    /** HandleTaskCompleted; a task that timed out or was paused meanwhile is recovered. */
    method HandleTaskCompleted(id: string, result: Option<string>) returns (ok: bool)
      requires Valid()
      modifies registry, tasks.Values`status, tasks.Values`client, tasks.Values`result, tasks.Values`error
      ensures Valid() && View() == AfterCompletion(old(View()), id, result)
      ensures ok == (id in tasks && old(tasks[id].status) in {Running, Paused, Completed, Failed, Cancelled})
      ensures var s, s' := old(View()), View();
        if id in s.tasks && s.tasks[id].status in {Running, Failed, Paused} then
          var t := s.tasks[id];
          && s'.tasks == s.tasks[id := t.(status := Completed, result := result, client := "", error := if t.status == Running then t.error else None)]
          && SlotFreed(s.clients, s'.clients, t.client) && s'.queue == s.queue
        else s' == s
    {
      hide PriorityQueues.PriorityQueue.Valid;
      CompletionIs(View(), id, result);
      if id !in tasks {
        return false;
      }
      var task := tasks[id];
      if task.status.Running? {
        Finish(task, result);
        return true;
      }
      if task.status.Failed? || task.status.Paused? {
        Recover(task, result);
        return true;
      }
      ok := task.status.IsTerminal();
    }

    method Finish(task: Task, result: Option<string>)
      requires Valid() && task.id in tasks && tasks[task.id] == task && task.status.Running?
      modifies registry, task`status, task`client, task`result, task`error
      ensures Valid() && View() == AfterCompletion(old(View()), task.id, result)
    {
      hide PriorityQueues.PriorityQueue.Valid;
      ghost var s := View();
      assert s.tasks[task.id] == task.Rec();
      Note(task, result, task.error);
      var ok := MoveTask(task, Completed);
      Release(task);
      MovedAs(s, task.id, s.tasks[task.id].(result := result), Completed);
    }

    /** The late completion: no edge of the table leads to Completed, so the status is forced. */
    method Recover(task: Task, result: Option<string>)
      requires Valid() && task.id in tasks && tasks[task.id] == task && (task.status.Failed? || task.status.Paused?)
      modifies registry, task`status, task`client, task`result, task`error
      ensures Valid() && View() == AfterCompletion(old(View()), task.id, result)
    {
      hide Queue.Valid, PriorityQueues.PriorityQueue.Valid, Decremented;
      ghost var s := View();
      Note(task, result, None);
      ForceCompleted(task);
      Release(task);
      SettledAs(s, task.id, s.tasks[task.id].(result := result, error := None), Completed);
    }

    method TimeOut(task: Task, error: Option<string>)
      requires Valid() && task.id in tasks && tasks[task.id] == task && task.status.Running?
      modifies registry, task`status, task`client, task`result, task`error
      ensures Valid() && View() == AfterTimeout(old(View()), task.id, error)
    {
      hide PriorityQueues.PriorityQueue.Valid;
      ghost var s := View();
      assert s.tasks[task.id] == task.Rec();
      Note(task, task.result, error);
      var ok := MoveTask(task, Failed);
      Release(task);
      MovedAs(s, task.id, s.tasks[task.id].(error := error), Failed);
    }

    /** HandleTaskTimedOut. */
    method HandleTaskTimedOut(id: string, error: Option<string>) returns (ok: bool)
      requires Valid()
      modifies registry, tasks.Values`status, tasks.Values`client, tasks.Values`result, tasks.Values`error
      ensures Valid() && View() == AfterTimeout(old(View()), id, error)
      ensures ok == (id in tasks && old(tasks[id].status) in {Running, Completed, Failed, Cancelled})
      ensures var s, s' := old(View()), View();
        if id in s.tasks && s.tasks[id].status == Running then
          var t := s.tasks[id];
          && s'.tasks == s.tasks[id := t.(status := Failed, error := error, client := "")]
          && SlotFreed(s.clients, s'.clients, t.client) && s'.queue == s.queue
        else s' == s
    {
      hide PriorityQueues.PriorityQueue.Valid;
      TimeoutIs(View(), id, error);
      if id !in tasks {
        return false;
      }
      var task := tasks[id];
      if !task.status.Running? {
        return task.status.IsTerminal();
      }
      TimeOut(task, error);
      ok := true;
    }

    method SetReason(task: Task, reason: string)
      requires Valid() && task.id in tasks && tasks[task.id] == task
      modifies task`pauseReason
      ensures Valid() && View() == Known(old(View()), old(View()).tasks[task.id].(pauseReason := reason))
    {
      hide PriorityQueues.PriorityQueue.Valid;
      task.pauseReason := reason;
      assert Waiting() == old(Waiting());
      OneTaskChanged(tasks, task, old(TaskViews(tasks)));
    }

    /** HandleTaskPaused. */
    method HandleTaskPaused(id: string, reason: string) returns (ok: bool)
      requires Valid()
      modifies tasks.Values`status, tasks.Values`pauseReason
      ensures Valid() && View() == AfterPause(old(View()), id, reason)
      ensures ok == (id in tasks && old(tasks[id].status) in {Running, Completed, Failed, Cancelled})
      ensures var s := old(View());
        View() == if id in s.tasks && s.tasks[id].status == Running
                  then s.(tasks := s.tasks[id := s.tasks[id].(status := Paused, pauseReason := reason)]) else s
    {
      hide PriorityQueues.PriorityQueue.Valid, Queue.Valid;
      PauseIs(View(), id, reason);
      if id !in tasks {
        return false;
      }
      var task := tasks[id];
      if !task.status.Running? {
        return task.status.IsTerminal();
      }
      ok := Pause(task, reason);
    }

    method Pause(task: Task, reason: string) returns (ok: bool)
      requires Valid() && task.id in tasks && tasks[task.id] == task && task.status.Running?
      modifies task`status, task`pauseReason
      ensures Valid() && View() == AfterPause(old(View()), task.id, reason) && ok
    {
      hide PriorityQueues.PriorityQueue.Valid, Queue.Valid, Queue.Objects, Valid, View;
      ViewShows(task);
      ok := MoveTask(task, Paused);
      SetReason(task, reason);
    }

    /** What HandleTaskFailed notes about the attempt before it looks for another client. */
    method RecordFailure(task: Task, error: Option<string>, history: seq<Attempt>)
      requires Valid() && task.id in tasks && tasks[task.id] == task && task.status.Running?
      modifies registry, task`status, task`attempts, task`error
      ensures Valid() && View() == FailureRecorded(old(View()), task.id, error, history)
      ensures queue.Objects() == old(queue.Objects())
    {
      hide PriorityQueues.PriorityQueue.Valid;
      ghost var s := View();
      assert s.tasks[task.id] == task.Rec();
      var attempts := FillIn(history, task.client);
      NoteAttempts(task, error, task.attempts + attempts);
      FreeSlot(task.client);
      var ok := MoveTask(task, Failed);
      RecordedAs(s, task.id, error, history);
    }

    /** escalate. */
    method Decide(task: Task) returns (v: Verdict)
      requires Valid() && task.id in tasks && tasks[task.id] == task
      ensures v == Escalate(View(), View().tasks[task.id])
      ensures v == ToAdmin <==> task.escalations >= maxEscalations
      ensures v == Verdict.Reassign <==>
        task.escalations < maxEscalations && exists c :: c != task.client && Serves(registry.clients, c, task.role, task.skills)
    {
      hide PriorityQueues.PriorityQueue.Valid;
      assert View().tasks[task.id] == task.Rec();
      if task.escalations >= maxEscalations {
        return ToAdmin;
      }
      EligibleServes(registry.clients, task.Rec(), task.client);
      var client := MatchClient(task, task.client);
      v := if client.Some? then Verdict.Reassign else Terminate;
    }

    method SetEscalations(task: Task, count: int)
      requires Valid() && task.id in tasks && tasks[task.id] == task
      modifies task`escalations
      ensures Valid() && View() == Known(old(View()), old(View()).tasks[task.id].(escalations := count))
      ensures queue.Objects() == old(queue.Objects())
    {
      hide PriorityQueues.PriorityQueue.Valid;
      task.escalations := count;
      assert Waiting() == old(Waiting());
      OneTaskChanged(tasks, task, old(TaskViews(tasks)));
    }

    method CountEscalation(task: Task)
      requires Valid() && task.id in tasks && tasks[task.id] == task
      modifies task`escalations, task`client
      ensures Valid() && View() == Known(old(View()), Counted(old(View()).tasks[task.id]))
      ensures queue.Objects() == old(queue.Objects())
    {
      hide PriorityQueues.PriorityQueue.Valid, Queue.Valid, Queue.Objects, Valid, View;
      ViewShows(task);
      SetEscalations(task, task.escalations + 1);
      SetClient(task, "");
    }

    method Reassign(task: Task)
      requires Valid() && task.id in tasks && tasks[task.id] == task && task !in queue.Objects()
      modifies task`status, task`escalations, task`client
      modifies queue.Fifos(), queue.Prios(), queue.Heaps(), queue.Items()`index
      ensures Valid() && (forall x :: x in queue.Items() ==> x in old(queue.Items()) || fresh(x))
      ensures View() == VerdictApplied(old(View()), task.id, Verdict.Reassign)
    {
      hide PriorityQueues.PriorityQueue.Valid, Queue.Valid, Queue.Objects, Valid, View, VerdictApplied, Requeued;
      ViewShows(task);
      ghost var s := View();
      CountEscalation(task);
      ViewShows(task);
      var ok := MoveTask(task, Queued);
      ok := Requeue(task);
      ReassignedAs(s, task.id);
    }

    method Carry(task: Task, v: Verdict)
      requires Valid() && task.id in tasks && tasks[task.id] == task && task !in queue.Objects()
      modifies task`status, task`escalations, task`client
      modifies queue.Fifos(), queue.Prios(), queue.Heaps(), queue.Items()`index
      ensures Valid() && (forall x :: x in queue.Items() ==> x in old(queue.Items()) || fresh(x))
      ensures View() == VerdictApplied(old(View()), task.id, v)
    {
      hide PriorityQueues.PriorityQueue.Valid;
      match v
      case Reassign => Reassign(task);
      case Terminate =>
      case ToAdmin =>
        ghost var s := View();
        var ok := MoveTask(task, Escalated);
        assert View() == VerdictApplied(s, task.id, ToAdmin);
    }

    /** The verdict on a failed task, carried out. */
    method Judge(task: Task)
      requires Valid() && task.id in tasks && tasks[task.id] == task && task !in queue.Objects()
      modifies task`status, task`escalations, task`client
      modifies queue.Fifos(), queue.Prios(), queue.Heaps(), queue.Items()`index
      ensures Valid() && (forall x :: x in queue.Items() ==> x in old(queue.Items()) || fresh(x))
      ensures View() == Judged(old(View()), task.id)
    {
      hide PriorityQueues.PriorityQueue.Valid;
      var v := Decide(task);
      Carry(task, v);
    }

    method Fail(task: Task, error: Option<string>, history: seq<Attempt>)
      requires Valid() && task.id in tasks && tasks[task.id] == task && task !in queue.Objects() && task.status.Running?
      modifies registry, task`status, task`client, task`error, task`attempts, task`escalations
      modifies queue.Fifos(), queue.Prios(), queue.Heaps(), queue.Items()`index
      ensures Valid() && (forall x :: x in queue.Items() ==> x in old(queue.Items()) || fresh(x))
      ensures View() == AfterFailure(old(View()), task.id, error, history)
    {
      hide PriorityQueues.PriorityQueue.Valid;
      ghost var s := View();
      assert s.tasks[task.id] == task.Rec();
      RecordFailure(task, error, history);
      assert queue.Items() == old(queue.Items());
      Judge(task);
    }

    /** HandleTaskFailed; it counts on running tasks not being queued. */
    method HandleTaskFailed(id: string, error: Option<string>, history: seq<Attempt>) returns (ok: bool)
      requires Valid() && forall t :: t in queue.Objects() ==> !t.status.Running?
      modifies registry, tasks.Values`status, tasks.Values`client, tasks.Values`error, tasks.Values`attempts, tasks.Values`escalations
      modifies queue.Fifos(), queue.Prios(), queue.Heaps(), queue.Items()`index
      ensures Valid() && (forall x :: x in queue.Items() ==> x in old(queue.Items()) || fresh(x))
      ensures View() == AfterFailure(old(View()), id, error, history)
      ensures ok == (id in tasks && old(tasks[id].status) in {Running, Completed, Failed, Cancelled})
      ensures var s := old(View());
        if id in s.tasks && s.tasks[id].status == Running then FailureShows(s, id, error, history, View()) else View() == s
      ensures id in tasks && old(tasks[id].status) == Running ==>
        var before, after, client := old(tasks[id].attempts), tasks[id].attempts, old(tasks[id].client);
        && before <= after
        && (history == [] ==> after == before + [Attempt("failed", client)])
        && (history != [] ==> |after| == |before| + |history|)
        && (history != [] ==> forall i :: 0 <= i < |history| ==>
              after[|before| + i] == Attempt(history[i].status, if history[i].client == "" then client else history[i].client))
    {
      hide PriorityQueues.PriorityQueue.Valid;
      FailureIs(View(), id, error, history);
      if id !in tasks {
        return false;
      }
      var task := tasks[id];
      if !task.status.Running? {
        return task.status.IsTerminal();
      }
      Fail(task, error, history);
      ok := true;
    }

    /** A sound queue gives HandleTaskFailed what it counts on, and the DAG engine too. */
    lemma QueuedMayWait()
      requires Valid() && SI.QueueSound(View())
      ensures forall t :: t in queue.Objects() ==> !t.status.Running? && !t.status.Blocked?
    {
      hide PriorityQueues.PriorityQueue.Valid, Queue.Valid, SI.QueueSound;
      queue.OrderIsObjects();
      SI.QueuedMayWait(View());
      forall t | t in queue.Objects() ensures !t.status.Running? && !t.status.Blocked? {
        assert t.id in TicketIds(View().queue) && View().tasks[t.id] == t.Rec();
      }
    }

    lemma HeldButLast(held: seq<Task>, task: Task)
      requires HeldAside(held + [task])
      ensures HeldAside(held) && Aside(task) && task !in held
    {
      var all := held + [task];
      assert all[|held|] == task && forall i :: 0 <= i < |held| ==> all[i] == held[i];
    }
  }

  function HeldIds(held: seq<Task>): (r: seq<string>)
    ensures |r| == |held|
  {
    seq(|held|, i requires 0 <= i < |held| => held[i].id)
  }

  lemma HeldIdsGrow(held: seq<Task>, task: Task)
    ensures HeldIds(held + [task]) == HeldIds(held) + [task.id]
  {
  }

  /** The value-level reading of matchClient's answer. */
  ghost predicate Matched(s: State, id: string, client: Option<string>) {
    && id in s.tasks
    && var t := s.tasks[id];
    match client
    case None => Unmatched(s.clients, t, LastFailedClient(t.attempts))
    case Some(c) => Best(s.clients, t, LastFailedClient(t.attempts), c)
  }

  /** One legal act led from d to e. */
  ghost predicate TurnTaken(d: Drain, act: Act, e: Drain) {
    var taken := CanAct(d, act) && e == Perform(d, act);
    taken
  }

  /** The loop led from d through `log` to e. */
  ghost predicate Reached(d: Drain, log: seq<Act>, e: Drain) {
    var reached := Drained(d, log, e);
    reached
  }

  lemma ReachedSnoc(d: Drain, log: seq<Act>, e: Drain, a: Act, e': Drain)
    requires Reached(d, log, e) && TurnTaken(e, a, e')
    ensures Reached(d, log + [a], e') && (!e'.stopped ==> |e'.st.queue| < |e.st.queue|)
  {
    DrainedSnoc(d, log, e, a);
  }

  lemma ReachedSuits(d: Drain, log: seq<Act>, e: Drain, a: Act)
    requires Reached(d, log, e) && a in log && !a.Hold?
    ensures Suited(d.st, a)
  {
    ChosenSuit(d, log, e, a);
  }

  lemma DispatchEnds(s: State, log: seq<Act>, e: Drain, s': State)
    requires Reached(Drain(s, [], false), log, e) && (e.stopped || e.st.queue == [])
    requires (forall id :: id in e.held ==> id in e.st.tasks) && s' == PutBack(e.st, e.held)
    ensures Dispatched(s, log, s')
  {
  }

  /** Returning the held tasks leads from s to back. */
  ghost predicate PutsBack(s: State, held: seq<Task>, back: State) {
    var known := forall id :: id in HeldIds(held) ==> id in s.tasks;
    known && PutBack(s, HeldIds(held)) == back
  }

  lemma RequeueKeepsTasks(s: State, id: string)
    ensures id in s.tasks ==> Requeued(s, id).tasks == s.tasks
  {
  }

  lemma PutsBackFirst(s: State, held: seq<Task>, back: State)
    requires held != [] && PutsBack(s, held, back)
    ensures held[0].id in s.tasks && PutsBack(Requeued(s, held[0].id), held[1..], back)
  {
    assert HeldIds(held)[0] in HeldIds(held);
    assert HeldIds(held)[1..] == HeldIds(held[1..]);
  }

  function Known(s: State, rec: TaskRec): State {
    s.(tasks := s.tasks[rec.id := rec])
  }

  function SlotReleased(s: State, id: string): State
    requires id in s.tasks
  {
    s.(tasks := s.tasks[id := s.tasks[id].(client := "")], clients := Decremented(s.clients, s.tasks[id].client))
  }

  /** A record noted, given its final status and released, in one update. */
  lemma SettledAs(s: State, id: string, noted: TaskRec, to: Status)
    requires id in s.tasks && noted.id == id && noted.client == s.tasks[id].client
    ensures SlotReleased(Known(Known(s, noted), noted.(status := to)), id)
         == s.(tasks := s.tasks[id := noted.(status := to, client := "")], clients := Decremented(s.clients, s.tasks[id].client))
  {
  }

  lemma MovedAs(s: State, id: string, noted: TaskRec, to: Status)
    requires id in s.tasks && noted.id == id && noted.client == s.tasks[id].client
    ensures SlotReleased(Known(Known(s, noted), noted.Moved(to)), id)
         == s.(tasks := s.tasks[id := noted.(client := "").Moved(to)], clients := Decremented(s.clients, s.tasks[id].client))
  {
    SettledAs(s, id, noted, noted.Moved(to).status);
  }

  function Counted(t: TaskRec): TaskRec {
    t.(escalations := t.escalations + 1, client := "")
  }

  lemma RecordedAs(s: State, id: string, error: Option<string>, history: seq<Attempt>)
    requires AcceptsFailure(s, id) && s.tasks[id].id == id
    ensures var t := s.tasks[id];
      var noted := Known(s, t.(error := error, attempts := t.attempts + Reported(history, t.client)));
      var freed := noted.(clients := Decremented(noted.clients, t.client));
      FailureRecorded(s, id, error, history) == Known(freed, freed.tasks[id].Moved(Failed))
  {
  }

  ghost function Judged(s: State, id: string): State
    requires id in s.tasks
  {
    VerdictApplied(s, id, Escalate(s, s.tasks[id]))
  }

  lemma SentAs(s: State, id: string, c: string)
    requires id in s.tasks && s.tasks[id].id == id
    ensures var run := s.tasks[id].Moved(Assigned).Moved(Running);
      var known := Known(Known(Known(s, s.tasks[id].Moved(Assigned)), run), run.(client := c));
      Sent(s, id, c) == known.(clients := Incremented(s.clients, c))
  {
  }

  lemma UnsentAs(s: State, id: string, c: string)
    requires id in s.tasks && s.tasks[id].id == id
    ensures var t := s.tasks[id].(client := "");
      Unsent(s, id, c) == Known(Known(s.(clients := Decremented(s.clients, c)), t), t.Moved(Queued))
  {
  }

  lemma ForcedAs(s: State, t: TaskRec)
    ensures var q := t.(status := Queued);
      q.Moved(Completed) == q && Known(Known(Known(s, q), q), t.(status := Completed)) == Known(s, t.(status := Completed))
  {
  }

  lemma FiledAs(s: State, rec: TaskRec)
    ensures s.(tasks := s.tasks[rec.id := rec]) == Known(s, rec) && Known(s, rec).tasks[rec.id] == rec
    ensures Known(Known(s, rec), rec.Moved(Queued)) == Known(s, rec.Moved(Queued))
    ensures rec.status.Queued? ==> rec.Moved(Queued) == rec
  {
  }

  lemma ReassignedAs(s: State, id: string)
    requires id in s.tasks && s.tasks[id].id == id
    ensures VerdictApplied(s, id, Verdict.Reassign) == Requeued(Known(Known(s, Counted(s.tasks[id])), Counted(s.tasks[id]).Moved(Queued)), id)
  {
  }

  /** The attempts of a failure report, each with a client. */
  method FillIn(history: seq<Attempt>, client: string) returns (r: seq<Attempt>)
    ensures r == Reported(history, client)
    ensures history == [] ==> r == [Attempt("failed", client)]
    ensures history != [] ==> |r| == |history| && forall i :: 0 <= i < |history| ==>
      r[i] == Attempt(history[i].status, if history[i].client == "" then client else history[i].client)
  {
    if |history| == 0 {
      return [Attempt("failed", client)];
    }
    r := history;
    for i := 0 to |history|
      invariant |r| == |history|
      invariant forall k :: 0 <= k < i ==> r[k] == Reported(history, client)[k]
      invariant forall k :: i <= k < |r| ==> r[k] == history[k]
    {
      if r[i].client == "" {
        r := r[i := r[i].(client := client)];
      }
    }
  }

  /** The task is filed, and is in the queue exactly when `ok`. */
  ghost predicate Entered(s: State, rec: TaskRec, ok: bool, s': State) {
    var queued := Known(s, rec.Moved(Queued));
    var can := rec.status.Queued? || rec.status.CanTransitionTo(Queued);
    var entered :=
      && ok == (can && |s.queue| < s.cfg.maxLen)
      && s' == if ok then Requeued(queued, rec.id) else queued;
    entered
  }

  lemma SubmitEnds(s: State, rec: TaskRec, ok: bool, m: State, log: seq<Act>, s': State)
    requires Entered(s, rec, ok, m)
    requires if ok then Dispatched(m, log, s') else log == [] && s' == m
    ensures Submitted(s, rec, log, s')
  {
  }
}
