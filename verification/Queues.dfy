/**
 The FIFO queue (pkg/reef/server/queue.go) and the Queue interface the scheduler works
 over (pkg/reef/server/queue_iface.go), with its two in-memory implementations.
 */
module Queues {
  import opened Tasks
  import opened PriorityHeaps
  import opened DequeueOrder
  import opened PriorityQueues

  class TaskQueue {
    var tasks: seq<Task>
    const maxLen: int
    const maxAge: int

    constructor (len: int, age: int)
      ensures tasks == []
      ensures maxLen == if len <= 0 then 1000 else len
      ensures maxAge == if age <= 0 then 600_000 else age
    {
      tasks := [];
      maxLen := if len <= 0 then DEFAULT_MAX_LEN else len;
      maxAge := if age <= 0 then DEFAULT_MAX_AGE else age;
    }

    method Enqueue(task: Task) returns (ok: bool)
      modifies this
      ensures ok == (|old(tasks)| < maxLen)
      ensures tasks == if ok then old(tasks) + [task] else old(tasks)
    {
      if |tasks| >= maxLen {
        return false;
      }
      tasks := tasks + [task];
      return true;
    }

    method Dequeue() returns (task: Option<Task>)
      modifies this
      ensures task == if old(tasks) == [] then None else Some(old(tasks)[0])
      ensures tasks == if old(tasks) == [] then [] else old(tasks)[1..]
    {
      if |tasks| == 0 {
        return None;
      }
      task := Some(tasks[0]);
      tasks := tasks[1..];
    }

    method Peek() returns (task: Option<Task>)
      ensures task == if tasks == [] then None else Some(tasks[0])
    {
      task := if |tasks| == 0 then None else Some(tasks[0]);
    }

    /** Splits the queue by age; both halves keep the queue's order and nothing is lost. */
    method Expire(now: int) returns (expired: seq<Task>)
      modifies this
      ensures expired == ByAge(old(tasks), now, maxAge, true)
      ensures tasks == ByAge(old(tasks), now, maxAge, false)
    {
      expired := [];
      var kept := [];
      for i := 0 to |tasks|
        invariant expired == ByAge(tasks[..i], now, maxAge, true)
        invariant kept == ByAge(tasks[..i], now, maxAge, false)
      {
        assert tasks[..i + 1][..i] == tasks[..i];
        var t := tasks[i];
        if now - t.createdAt > maxAge {
          expired := expired + [t];
        } else {
          kept := kept + [t];
        }
      }
      assert tasks[..|tasks|] == tasks;
      tasks := kept;
    }
  }

  /** The tasks that are (or are not) over age, in order. */
  function ByAge(ts: seq<Task>, now: int, maxAge: int, over: bool): seq<Task> {
    if ts == [] then []
    else
      var last := ts[|ts| - 1];
      ByAge(ts[..|ts| - 1], now, maxAge, over) + if (now - last.createdAt > maxAge) == over then [last] else []
  }

  lemma {:induction false} ExpireSplits(ts: seq<Task>, now: int, maxAge: int)
    ensures multiset(ByAge(ts, now, maxAge, true)) + multiset(ByAge(ts, now, maxAge, false)) == multiset(ts)
  {
    if ts != [] {
      ExpireSplits(ts[..|ts| - 1], now, maxAge);
      assert ts == ts[..|ts| - 1] + [ts[|ts| - 1]];
    }
  }

  lemma {:induction false} ExpireSplitsByAge(ts: seq<Task>, now: int, maxAge: int, over: bool)
    ensures forall t :: t in ByAge(ts, now, maxAge, over) ==> (now - t.createdAt > maxAge) == over
  {
    if ts != [] {
      ExpireSplitsByAge(ts[..|ts| - 1], now, maxAge, over);
    }
  }

  /** Splitting a queue and splitting its two parts is the same, down to the single task: both halves keep the queue's order. */
  lemma {:induction false} ExpireKeepsOrder(front: seq<Task>, back: seq<Task>, t: Task, now: int, maxAge: int, over: bool)
    ensures ByAge(front + back, now, maxAge, over) == ByAge(front, now, maxAge, over) + ByAge(back, now, maxAge, over)
    ensures ByAge([t], now, maxAge, true) == if now - t.createdAt > maxAge then [t] else []
    ensures ByAge([t], now, maxAge, false) == if now - t.createdAt > maxAge then [] else [t]
    decreases |back|
  {
    assert [t][..0] == [];
    if back == [] {
      assert front + back == front;
    } else {
      var all := front + back;
      assert all[..|all| - 1] == front + back[..|back| - 1];
      ExpireKeepsOrder(front, back[..|back| - 1], t, now, maxAge, over);
    }
  }

  /** A FIFO queue ranks everything alike. */
  function Line(ts: seq<Task>): (r: seq<Ticket>)
    ensures |r| == |ts|
  {
    seq(|ts|, i requires 0 <= i < |ts| => Ticket(0, ts[i].id))
  }

  predicate DistinctTasks(ts: seq<Task>) {
    forall i, j :: 0 <= i < j < |ts| ==> ts[i].id != ts[j].id
  }

  lemma TailOf(ts: seq<Task>)
    requires DistinctTasks(ts)
    ensures ts != [] ==> DistinctTasks(ts[1..]) && (set t | t in ts[1..]) == (set t | t in ts) - {ts[0]} && Line(ts[1..]) == Line(ts)[1..] && Line(ts)[0].id == ts[0].id
  {
    if ts != [] {
      assert ts == [ts[0]] + ts[1..];
    }
  }

  lemma LineLists(ts: seq<Task>)
    requires DistinctTasks(ts)
    ensures DistinctTickets(Line(ts)) && TicketIds(Line(ts)) == set t | t in ts :: t.id
    ensures forall t, u :: t in ts && u in ts && t.id == u.id ==> t == u
  {
    forall t | t in ts ensures t.id in TicketIds(Line(ts)) {
      var i :| 0 <= i < |ts| && ts[i] == t;
      assert Line(ts)[i].id == t.id;
    }
  }

  datatype Queue = Fifo(fifo: TaskQueue) | Prio(prio: PriorityQueue)
  {
    function MaxLen(): int {
      if Fifo? then fifo.maxLen else prio.maxLen
    }

    /** The priority the queue caches for a task. */
    function Rank(priority: int): int {
      if Fifo? then 0 else ResolvePriority(priority)
    }

    ghost function Fifos(): set<TaskQueue> { if Fifo? then {fifo} else {} }
    ghost function Prios(): set<PriorityQueue> { if Prio? then {prio} else {} }
    ghost function Heaps(): set<PriorityHeap> { if Prio? then {prio.heap} else {} }
    ghost function Items(): set<Item>
      reads Heaps()
    {
      if Prio? then prio.heap.members else {}
    }

    /** Under fresh task IDs no ID is queued twice. */
    ghost predicate Valid()
      reads Fifos(), Prios(), Heaps(), Items(), if Prio? then prio.heap.items else []
    {
      var sound := match this
                   case Fifo(f) => DistinctTasks(f.tasks)
                   case Prio(p) => p.Valid();
      sound
    }

    ghost function Order(): seq<Ticket>
      reads Fifos(), Prios()
    {
      match this
      case Fifo(f) => Line(f.tasks)
      case Prio(p) => Tickets(p.order)
    }

    ghost function Objects(): set<Task>
      reads Fifos(), Prios(), Heaps()
    {
      match this
      case Fifo(f) => set t | t in f.tasks
      case Prio(p) => p.Objects()
    }

    /** The order lists exactly the queued task objects, each once. */
    lemma OrderIsObjects()
      requires Valid()
      ensures DistinctTickets(Order())
      ensures TicketIds(Order()) == set t | t in Objects() :: t.id
      ensures forall t, u :: t in Objects() && u in Objects() && t.id == u.id ==> t == u
    {
      match this
      case Fifo(f) => LineLists(f.tasks);
      case Prio(p) => PrioLists();
    }

    lemma TicketsAreIndexed()
      requires Prio? && Valid()
      ensures DistinctTickets(Order()) && TicketIds(Order()) == prio.byID.Keys
    {
      hide PriorityQueues.PriorityQueue.Valid, Objects;
      prio.OrderIsIndex();
      forall id ensures id in TicketIds(Order()) <==> id in prio.byID {
        if id in TicketIds(Order()) {
          var i :| 0 <= i < |prio.order| && Order()[i].id == id;
          assert prio.order[i] in prio.order;
        }
        if id in prio.byID {
          assert prio.byID[id].Key() in prio.order;
          var i :| 0 <= i < |prio.order| && prio.order[i] == prio.byID[id].Key();
          assert Order()[i].id == id;
        }
      }
    }

    lemma PrioLists()
      requires Prio? && Valid()
      ensures DistinctTickets(Order())
      ensures TicketIds(Order()) == set t | t in Objects() :: t.id
      ensures forall t, u :: t in Objects() && u in Objects() && t.id == u.id ==> t == u
    {
      TicketsAreIndexed();
      IndexIsQueued();
    }

    method Enqueue(task: Task) returns (ok: bool)
      requires Valid() && forall t :: t in Objects() ==> t.id != task.id
      modifies Fifos(), Prios(), Heaps(), Items()`index
      ensures Valid() && fresh(Items() - old(Items()))
      ensures ok == (|old(Order())| < MaxLen())
      ensures Order() == if ok then Insert(old(Order()), Ticket(Rank(task.priority), task.id)) else old(Order())
      ensures Rank(task.priority) == if Fifo? then 0 else if task.priority < 1 then 5 else task.priority
      ensures Objects() == if ok then old(Objects()) + {task} else old(Objects())
    {
      match this
      case Fifo(f) =>
        ok := f.Enqueue(task);
        if ok {
          InsertLast(old(Order()), Ticket(0, task.id));
        }
      case Prio(p) =>
        IndexIsQueued();
        ok := p.Enqueue(task);
        if ok {
          NewestGoesLast(old(p.order), Entry(ResolvePriority(task.priority), p.counter, task.id, task.createdAt));
        }
    }

    lemma IndexIsQueued()
      requires Valid() && Prio?
      ensures forall id :: id in prio.byID ==> exists t :: t in Objects() && t.id == id
    {
      forall id | id in prio.byID ensures exists t :: t in Objects() && t.id == id {
        assert prio.byID[id].task in Objects();
      }
    }

    method Dequeue() returns (task: Option<Task>)
      requires Valid()
      modifies Fifos(), Prios(), Heaps(), Items()`index
      ensures Valid() && Items() <= old(Items())
      ensures task.None? <==> old(Order()) == []
      ensures task.None? ==> Order() == [] && Objects() == old(Objects())
      ensures task.Some? ==> task.value.id == old(Order())[0].id && Order() == old(Order())[1..]
      ensures task.Some? ==> task.value in old(Objects()) && Objects() == old(Objects()) - {task.value}
    {
      hide PriorityQueues.PriorityQueue.Valid, PriorityQueues.PriorityQueue.Objects, Line, DistinctTasks;
      match this
      case Fifo(f) =>
        TailOf(f.tasks);
        task := f.Dequeue();
      case Prio(p) => task := p.Dequeue();
    }

    method Peek() returns (task: Option<Task>)
      requires Valid()
      ensures task.None? <==> Order() == []
      ensures task.Some? ==> task.value.id == Order()[0].id && task.value in Objects()
    {
      match this
      case Fifo(f) => task := f.Peek();
      case Prio(p) => task := p.Peek();
    }
  }
}
