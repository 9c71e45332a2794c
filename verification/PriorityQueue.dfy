/**
 The in-memory priority queue (pkg/reef/server/priority_queue.go).

 Three structures are kept in step: the heap array, the position each item stores,
 and the index by task ID.  The ghost field `order` is what a caller sees: the queued
 tasks in the order Dequeue will return them.
 */
module PriorityQueues {
  import opened Tasks
  import opened PriorityHeaps
  import opened DequeueOrder

  const DEFAULT_MAX_LEN := 1000
  const DEFAULT_MAX_AGE := 600_000

  /** The index is a bijection between task IDs and heap items. */
  ghost predicate Indexed(items: set<Item>, byID: map<string, Item>) {
    && (forall x :: x in items ==> x.task.id in byID && byID[x.task.id] == x)
    && (forall id :: id in byID ==> byID[id] in items && byID[id].task.id == id)
  }

  lemma IndexedInsert(items: set<Item>, byID: map<string, Item>, x: Item)
    requires Indexed(items, byID) && x.task.id !in byID
    ensures Indexed(items + {x}, byID[x.task.id := x])
  {
  }

  lemma IndexedRemove(items: set<Item>, byID: map<string, Item>, x: Item)
    requires Indexed(items, byID) && x in items
    ensures Indexed(items - {x}, byID - {x.task.id})
  {
  }

  /** The IDs of the tasks that waited longer than maxAge. */
  function Overdue(q: seq<Entry>, now: int, maxAge: int): set<string> {
    set e | e in q && now - e.createdAt > maxAge :: e.id
  }

  /** No two items share a sequence number. */
  ghost predicate Numbered(items: set<Item>, counter: int) {
    && (forall x :: x in items ==> x.seqNo <= counter)
    && (forall x, y :: x in items && y in items && x.seqNo == y.seqNo ==> x == y)
  }

  class PriorityQueue {
    const heap: PriorityHeap
    var counter: int
    const maxLen: int
    const maxAge: int
    var byID: map<string, Item>
    ghost var order: seq<Entry>

    ghost predicate Valid()
      reads this, heap, heap.items, heap.members
    {
      && heap.Valid()
      && Indexed(heap.members, byID)
      && multiset(order) == multiset(heap.keys)
      && Ranked(order, counter)
    }

    /** The queued task objects. */
    ghost function Objects(): set<Task>
      reads this, heap
    {
      set x | x in heap.members :: x.task
    }

    constructor (len: int, age: int)
      ensures Valid() && order == [] && fresh(heap) && heap.members == {}
      ensures maxLen == if len <= 0 then 1000 else len
      ensures maxAge == if age <= 0 then 600_000 else age
    {
      maxLen := if len <= 0 then DEFAULT_MAX_LEN else len;
      maxAge := if age <= 0 then DEFAULT_MAX_AGE else age;
      heap := new PriorityHeap();
      counter, byID, order := 0, map[], [];
    }

    /** A task is in the dequeue order exactly when it is in the index, with the key its item stores. */
    lemma OrderIsIndex()
      requires Valid()
      ensures |order| == |heap.items|
      ensures forall e :: e in order <==> e.id in byID && byID[e.id].Key() == e
      ensures DistinctIds(order) && forall id :: id in byID ==> byID[id].Key().id == id
    {
      assert |multiset(order)| == |multiset(heap.keys)|;
      forall e ensures e in order <==> e.id in byID && byID[e.id].Key() == e {
        assert e in order <==> e in multiset(heap.keys);
        if e in order {
          var k :| 0 <= k < |heap.keys| && heap.keys[k] == e;
          assert heap.items[k] in heap.members;
        }
        if e.id in byID && byID[e.id].Key() == e {
          assert heap.keys[byID[e.id].index] == e;
        }
      }
      forall i, j | 0 <= i < j < |order| ensures order[i].id != order[j].id {
        assert order[i] in order && order[j] in order && Before(order[i], order[j]);
      }
    }

    method Enqueue(task: Task) returns (ok: bool)
      requires Valid() && task.id !in byID
      modifies this, heap, heap.members`index
      ensures Valid()
      ensures ok == (|old(order)| < maxLen)
      ensures ok ==> order == InsertEntry(old(order), Entry(if task.priority < 1 then 5 else task.priority, counter, task.id, task.createdAt))
      ensures ok ==> counter == old(counter) + 1 && Objects() == old(Objects()) + {task}
      ensures ok ==> fresh(heap.members - old(heap.members))
      ensures !ok ==> order == old(order) && Objects() == old(Objects()) && heap.members == old(heap.members)
    {
      hide PriorityHeap.Valid, Indexed, Ranked;
      OrderIsIndex();
      if |heap.items| >= maxLen {
        return false;
      }
      var p := task.priority;
      if p < 1 {
        p := DEFAULT_PRIORITY;
      }
      var item := new Item(task, p, counter + 1);
      Admit(item);
      return true;
    }

    /** heap.Push with the sequence number and the index entry. */
    method Admit(item: Item)
      requires Valid() && item.task.id !in byID && item !in heap.members && item.seqNo == counter + 1
      modifies this, heap, heap.members`index, item`index
      ensures Valid()
      ensures order == InsertEntry(old(order), item.Key()) && counter == item.seqNo
      ensures heap.members == old(heap.members) + {item}
    {
      hide PriorityHeap.Valid, Indexed, Ranked;
      InsertNewest(order, counter, item.Key());
      IndexedInsert(heap.members, byID, item);
      counter := counter + 1;
      byID := byID[item.task.id := item];
      order := InsertEntry(order, item.Key());
      heap.Push(item);
    }

    /** The root of the heap is the head of the dequeue order. */
    lemma RootIsHead()
      requires Valid() && heap.items != []
      ensures order != [] && heap.items[0].Key() == order[0]
    {
      OrderIsIndex();
      var root := heap.items[0].Key();
      assert heap.keys[0] == root && root in multiset(heap.keys);
      assert order[0] in order;
      heap.RootComesFirst(byID[order[0].id]);
      var k :| 0 <= k < |order| && order[k] == root;
    }

    method Peek() returns (task: Option<Task>)
      requires Valid()
      ensures task.None? <==> order == []
      ensures task.Some? ==> task.value.id == order[0].id && task.value in Objects()
    {
      OrderIsIndex();
      if |heap.items| == 0 {
        return None;
      }
      RootIsHead();
      return Some(heap.items[0].task);
    }

    lemma ObjectsWithout(x: Item)
      requires Valid() && x in heap.members
      ensures (set y | y in heap.members - {x} :: y.task) == Objects() - {x.task}
    {
      forall y | y in heap.members - {x} ensures y.task != x.task {
        assert byID[y.task.id] == y && byID[x.task.id] == x;
      }
    }

    method Dequeue() returns (task: Option<Task>)
      requires Valid()
      modifies this, heap, heap.members`index
      ensures Valid()
      ensures old(order) == [] <==> task.None?
      ensures task.None? ==> order == [] && Objects() == old(Objects())
      ensures task.Some? ==> task.value.id == old(order)[0].id && order == old(order)[1..]
      ensures task.Some? ==> task.value in old(Objects()) && Objects() == old(Objects()) - {task.value}
      ensures heap.members <= old(heap.members)
    {
      OrderIsIndex();
      if |heap.items| == 0 {
        return None;
      }
      ObjectsWithout(heap.items[0]);
      var item := PopRoot();
      return Some(item.task);
    }

    /** heap.Pop with the index entry. */
    method PopRoot() returns (item: Item)
      requires Valid() && heap.items != []
      modifies this, heap, heap.members`index
      ensures Valid()
      ensures old(order) != [] && order == old(order)[1..] && item.task.id == old(order)[0].id
      ensures item == old(heap.items[0]) && heap.members == old(heap.members) - {item}
    {
      hide PriorityHeap.Valid, Indexed, Ranked;
      var root := heap.items[0];
      RootIsHead();
      heap.AtPlace(0);
      TailRanked(order, counter);
      IndexedRemove(heap.members, byID, root);
      order := order[1..];
      byID := byID - {root.task.id};
      item := heap.Pop();
    }

    lemma OrderWithout(x: Item)
      requires Valid() && x in heap.members
      ensures var id := x.task.id;
        && x.Key() in order && Ranked(Keep(order, {id}), counter)
        && multiset(Keep(order, {id})) == multiset(order) - multiset{x.Key()}
    {
      OrderIsIndex();
      KeepRanked(order, counter, {x.task.id});
      KeepDropsOne(order, x.Key());
    }

    /** heap.Remove with the index entry. */
    method RemoveItem(item: Item)
      requires Valid() && item in heap.members
      modifies this, heap, heap.members`index
      ensures Valid()
      ensures order == Keep(old(order), {item.task.id})
      ensures heap.members == old(heap.members) - {item}
    {
      hide PriorityHeap.Valid, Indexed, Ranked;
      OrderWithout(item);
      heap.PlaceOf(item);
      IndexedRemove(heap.members, byID, item);
      order := Keep(order, {item.task.id});
      byID := byID - {item.task.id};
      var removed := heap.Remove(item.index);
    }

    /** removeByID, and Remove, which only adds the lock. */
    method Remove(taskID: string) returns (found: bool)
      requires Valid()
      modifies this, heap, heap.members`index
      ensures Valid()
      ensures found <==> exists e :: e in old(order) && e.id == taskID
      ensures order == Keep(old(order), {taskID})
      ensures heap.members == set x | x in old(heap.members) && x.task.id != taskID
    {
      OrderIsIndex();
      if taskID !in byID {
        KeepAll(order, {taskID});
        return false;
      }
      var item := byID[taskID];
      assert item.Key() in order;
      RemoveItem(item);
      return true;
    }

    /** The first loop of Expire: the over-age tasks, in heap array order. */
    method CollectOverdue(now: int) returns (expired: seq<Task>)
      ensures expired == StaleTasks(heap.items, now, maxAge)
    {
      expired := [];
      for i := 0 to |heap.items|
        invariant expired == StaleTasks(heap.items[..i], now, maxAge)
      {
        assert heap.items[..i + 1][..i] == heap.items[..i];
        var task := heap.items[i].task;
        if now - task.createdAt > maxAge {
          expired := expired + [task];
        }
      }
      assert heap.items[..|heap.items|] == heap.items;
    }

    /** Exactly the over-age tasks leave and are returned, once each; the rest keep their order. */
    method Expire(now: int) returns (expired: seq<Task>)
      requires Valid()
      modifies this, heap, heap.members`index
      ensures Valid()
      ensures expired == StaleTasks(old(heap.items), now, maxAge)
      ensures order == Keep(old(order), Overdue(old(order), now, maxAge))
      ensures heap.members == set x | x in old(heap.members) && now - x.task.createdAt <= maxAge
    {
      expired := CollectOverdue(now);
      StaleIsOverdue(now);
      KeepAll(order, {});
      RemoveAll(expired);
    }

    /** The second loop of Expire. */
    method RemoveAll(expired: seq<Task>)
      requires Valid()
      modifies this, heap, heap.members`index
      ensures Valid()
      ensures order == Keep(old(order), Ids(expired))
      ensures heap.members == set x | x in old(heap.members) && x.task.id !in Ids(expired)
    {
      KeepAll(order, {});
      ghost var gone: set<string> := {};
      for i := 0 to |expired|
        invariant Valid() && gone == Ids(expired[..i])
        invariant heap.members == set x | x in old(heap.members) && x.task.id !in gone
        invariant order == Keep(old(order), gone)
      {
        KeepTwice(old(order), gone, {expired[i].id});
        IdsGrow(expired, i);
        gone := gone + {expired[i].id};
        var found := Remove(expired[i].id);
      }
      assert expired[..|expired|] == expired;
    }

    lemma StaleIsOverdue(now: int)
      requires Valid()
      ensures var stale := StaleTasks(heap.items, now, maxAge);
        && Ids(stale) == Overdue(order, now, maxAge)
        && forall x :: x in heap.members ==> (x.task.id in Ids(stale) <==> now - x.task.createdAt > maxAge)
    {
      OrderIsIndex();
      StaleTasksAre(heap.items, now, maxAge);
      var stale := StaleTasks(heap.items, now, maxAge);
      forall x | x in heap.members ensures x.task.id in Ids(stale) <==> now - x.task.createdAt > maxAge {
        assert heap.items[x.index] == x;
        if x.task.id in Ids(stale) {
          var t :| t in stale && t.id == x.task.id;
          var y :| y in heap.items && y.task == t;
          assert byID[t.id] == y && byID[t.id] == x;
        }
      }
      forall id ensures id in Ids(stale) <==> id in Overdue(order, now, maxAge) {
        if id in Ids(stale) {
          var t :| t in stale && t.id == id;
          var x :| x in heap.items && x.task == t;
          assert x.Key() in order;
        }
        if id in Overdue(order, now, maxAge) {
          var e :| e in order && e.id == id && now - e.createdAt > maxAge;
          assert byID[id] in heap.members && byID[id].Key() == e;
        }
      }
    }

    /** One turn of the sweep: raises the item at i and fixes the heap around it. */
    method BoostAt(i: nat, sweep: Sweep) returns (changed: bool)
      requires heap.Valid() && i < |heap.items|
      modifies heap`items, heap`keys, heap.members`index, {heap.items[i]}`priority, {heap.items[i].task}`priority
      ensures heap.Valid() && |heap.items| == |old(heap.items)|
      ensures multiset(heap.keys) == old(multiset(heap.keys[i := sweep.Boosted(heap.keys[i])]))
      ensures changed == (sweep.Boosted(old(heap.keys[i])) != old(heap.keys[i]))
      ensures old(heap.items[i]).Key() == sweep.Boosted(old(heap.keys[i]))
      ensures old(heap.items[i].task).priority == if changed then old(heap.items[i]).priority else old(heap.items[i].task.priority)
      ensures sweep.boost >= 0 && old(heap.keys[i]).priority <= sweep.maxPriority ==> SameFrom(i + 1, old(heap.items), heap.items)
    {
      hide Before, IsHeap;
      heap.AtPlace(i);
      sweep.NeverLater(heap.keys[i]);
      var item := heap.items[i];
      changed := false;
      if sweep.now - item.task.createdAt > sweep.threshold {
        var newPriority := item.priority + sweep.boost;
        if newPriority > sweep.maxPriority {
          newPriority := sweep.maxPriority;
        }
        if newPriority != item.priority {
          item.priority := newPriority;
          item.task.priority := newPriority;
          assert heap.items[i].Key() == sweep.Boosted(heap.keys[i]);
          heap.Fix(item.index);
          changed := true;
        }
      }
      assert old(heap.keys) == old(heap.keys[i := heap.keys[i]]);
    }

    lemma OrderIsNumbered()
      requires Valid()
      ensures Numbered(heap.members, counter) && DistinctNumbers(order) && multiset(order) == multiset(heap.keys)
    {
      OrderIsIndex();
      forall x | x in heap.members ensures x.Key() in order {
        assert byID[x.task.id] == x;
      }
      forall x, y | x in heap.members && y in heap.members && x.seqNo == y.seqNo ensures x == y {
        var i :| 0 <= i < |order| && order[i] == x.Key();
        var j :| 0 <= j < |order| && order[j] == y.Key();
        assert i == j;
        assert byID[x.task.id] == x && byID[y.task.id] == y;
      }
    }

    lemma SortedKeysAreRanked()
      requires heap.Valid() && Numbered(heap.members, counter)
      ensures Ranked(SortEntries(heap.keys), counter) && DistinctNumbers(heap.keys)
    {
      assert DistinctNumbers(heap.keys);
      SortEntriesSorted(heap.keys);
      forall e | e in SortEntries(heap.keys) ensures e.seqNo <= counter {
        assert e in multiset(heap.keys);
        var k :| 0 <= k < |heap.keys| && heap.keys[k] == e;
        assert heap.items[k] in heap.members;
      }
    }

    /** The state of the sweep before turn i, over the items `start` that had the keys `was` and the task priorities `shown`. */
    ghost predicate SweepAt(sweep: Sweep, start: seq<Item>, was: seq<Entry>, shown: seq<int>, i: nat, boosted: nat)
      reads this, heap, heap.items, heap.members, start, TasksOf(start)
    {
      && i <= |start| == |was| == |shown| == |heap.items| && heap.Valid()
      && SameFrom(i, start, heap.items)
      && multiset(heap.keys) == multiset(sweep.Prefix(was, i))
      && boosted == sweep.Count(was[..i])
      && (forall k :: 0 <= k < |was| ==> was[k].priority <= sweep.maxPriority)
      && (forall k :: 0 <= k < |start| ==> Swept(sweep, start[k], was[k], shown[k], k < i))
    }

    method SweepStep(sweep: Sweep, ghost start: seq<Item>, ghost was: seq<Entry>, ghost shown: seq<int>, i: nat, boosted: nat)
      returns (boosted': nat)
      requires heap.Valid() && i < |heap.items|
      requires Apart(start)
      modifies heap`items, heap`keys, heap.members`index, {heap.items[i]}`priority, {heap.items[i].task}`priority
      ensures heap.Valid() && |heap.items| == |old(heap.items)|
      ensures sweep.boost >= 0 && old(SweepAt(sweep, start, was, shown, i, boosted)) ==> SweepAt(sweep, start, was, shown, i + 1, boosted')
    {
      if sweep.boost >= 0 && SweepAt(sweep, start, was, shown, i, boosted) {
        sweep.PrefixStep(was, i);
        assert Swept(sweep, start[i], was[i], shown[i], false);
        assert heap.items[i] == start[i] && heap.keys[i] == was[i];
      }
      var changed := BoostAt(i, sweep);
      boosted' := if changed then boosted + 1 else boosted;
      if sweep.boost >= 0 && old(SweepAt(sweep, start, was, shown, i, boosted)) {
        forall k | 0 <= k < |start| ensures Swept(sweep, start[k], was[k], shown[k], k < i + 1) {
          assert old(Swept(sweep, start[k], was[k], shown[k], k < i));
          assert k != i ==> start[k] != start[i] && start[k].task != start[i].task;
        }
      }
    }

    /** The loop of BoostStarvation, which ranges over the heap array while it calls Fix. */
    method SweepHeap(sweep: Sweep) returns (boosted: nat)
      requires heap.Valid() && Apart(heap.items)
      modifies heap`items, heap`keys, heap.members`index, heap.members`priority, TasksOf(heap.items)`priority
      ensures heap.Valid()
      ensures sweep.Raises(old(heap.keys)) ==>
        && multiset(heap.keys) == multiset(sweep.All(old(heap.keys)))
        && boosted == sweep.Count(old(heap.keys))
        && AllSwept(sweep, old(heap.items), old(heap.keys), old(ShownPriorities(heap.items)))
      ensures sweep.Raises(old(heap.keys)) ==> forall x :: x in heap.members ==> ItemSwept(sweep, x, old(x.priority), old(x.task.priority))
    {
      ghost var start, was := heap.items, heap.keys;
      ghost var shown := ShownPriorities(start);
      ghost var raises := sweep.Raises(was);
      assert sweep.Prefix(was, 0) == was;
      boosted := 0;
      for i := 0 to |heap.items|
        invariant heap.Valid() && |heap.items| == |start|
        invariant raises ==> SweepAt(sweep, start, was, shown, i, boosted)
      {
        boosted := SweepStep(sweep, start, was, shown, i, boosted);
      }
      assert was[..|was|] == was;
      if raises {
        forall k | 0 <= k < |start| ensures Swept(sweep, start[k], was[k], shown[k], true) {
          assert Swept(sweep, start[k], was[k], shown[k], k < |start|);
        }
        forall x | x in heap.members ensures ItemSwept(sweep, x, old(x.priority), old(x.task.priority)) {
          var k :| 0 <= k < |start| && start[k] == x;
          assert Swept(sweep, start[k], was[k], shown[k], true);
          SweptIs(sweep, x, was[k], shown[k]);
        }
      }
    }

    lemma MembersAreApart()
      requires Valid()
      ensures Apart(heap.items) && TasksOf(heap.items) <= Objects()
      ensures forall sweep: Sweep :: sweep.Raises(order) ==> sweep.Raises(heap.keys)
    {
      forall j, k | 0 <= j < k < |heap.items| ensures heap.items[j].task != heap.items[k].task {
        assert byID[heap.items[j].task.id] == heap.items[j] && byID[heap.items[k].task.id] == heap.items[k];
      }
      forall e | e in heap.keys ensures e in order {
        assert e in multiset(order);
      }
    }

    /**
     When the sweep only raises priorities, Fix moves nothing behind the position being
     visited, so every item is visited once and the new order is the old one, raised and
     sorted again.
     */
    method BoostStarvation(sweep: Sweep) returns (boosted: nat)
      requires Valid()
      modifies this`order, heap`items, heap`keys, heap.members`index, heap.members`priority, Objects()`priority
      ensures Valid()
      ensures sweep.Raises(old(order)) ==> order == SortEntries(sweep.All(old(order))) && boosted == sweep.Count(old(order))
      ensures sweep.boost >= 0 && (forall e :: e in old(order) ==> e.priority <= sweep.maxPriority) ==>
        && |order| == |old(order)|
        && (forall e :: e in old(order) && sweep.now - e.createdAt <= sweep.threshold ==> e in order)
        && (forall e :: e in old(order) && sweep.now - e.createdAt > sweep.threshold ==>
              e.(priority := if e.priority + sweep.boost <= sweep.maxPriority then e.priority + sweep.boost else sweep.maxPriority) in order)
        && boosted == |set e | e in old(order) && sweep.now - e.createdAt > sweep.threshold && sweep.boost > 0 && e.priority < sweep.maxPriority|
      ensures sweep.boost >= 0 && (forall e :: e in old(order) ==> e.priority <= sweep.maxPriority) ==>
        && (forall x :: x in heap.members && sweep.now - x.task.createdAt > sweep.threshold ==>
              x.priority == if old(x.priority) + sweep.boost <= sweep.maxPriority then old(x.priority) + sweep.boost else sweep.maxPriority)
        && (forall x :: x in heap.members && sweep.now - x.task.createdAt <= sweep.threshold ==> x.priority == old(x.priority))
        && (forall x :: x in heap.members ==>
              x.task.priority == if x.priority != old(x.priority) then x.priority else old(x.task.priority))
    {
      hide Swept, AllSwept, PriorityHeap.Valid, Indexed, Ranked, Numbered, DistinctNumbers, SortEntries, Apart;
      OrderIsNumbered();
      MembersAreApart();
      OrderIsIndex();
      boosted := SweepHeap(sweep);
      SortedKeysAreRanked();
      if sweep.Raises(order) {
        SweepEnds(sweep, old(heap.keys), order, heap.keys);
        sweep.RaisedTo(order);
        sweep.RaisedAre(order);
      }
      order := SortEntries(heap.keys);
    }
  }

  ghost function ShownPriorities(items: seq<Item>): seq<int>
    reads TasksOf(items)
  {
    seq(|items|, k requires 0 <= k < |items| reads TasksOf(items) => items[k].task.priority)
  }

  lemma SweepEnds(sweep: Sweep, was: seq<Entry>, order: seq<Entry>, keys: seq<Entry>)
    requires multiset(was) == multiset(order) && DistinctNumbers(order)
    requires multiset(keys) == multiset(sweep.All(was)) && DistinctNumbers(keys)
    ensures SortEntries(keys) == SortEntries(sweep.All(order))
    ensures sweep.Count(was) == sweep.Count(order)
  {
    sweep.OrderIrrelevant(was, order);
    sweep.AllNumbers(order);
    SortEntriesSorted(keys);
    SortEntriesSorted(sweep.All(order));
    SortedIsUnique(SortEntries(keys), SortEntries(sweep.All(order)));
  }

  ghost function TasksOf(items: seq<Item>): set<Task> {
    set x | x in items :: x.task
  }

  /** The item has been visited and raised, or not visited and untouched. */
  ghost predicate Swept(sweep: Sweep, x: Item, was: Entry, shown: int, visited: bool)
    reads x, x.task
  {
    && x.Key() == (if visited then sweep.Boosted(was) else was)
    && x.task.priority == if x.Key() != was then x.priority else shown
  }

  /** The item's own priority and the one its task shows, in numbers. */
  ghost predicate ItemSwept(sweep: Sweep, x: Item, was: int, shown: int)
    reads x, x.task
  {
    var holds :=
      && x.priority == (if sweep.now - x.task.createdAt <= sweep.threshold then was
                        else if was + sweep.boost <= sweep.maxPriority then was + sweep.boost else sweep.maxPriority)
      && x.task.priority == if x.priority != was then x.priority else shown;
    holds
  }

  lemma SweptIs(sweep: Sweep, x: Item, was: Entry, shown: int)
    requires Swept(sweep, x, was, shown, true)
    ensures ItemSwept(sweep, x, was.priority, shown)
  {
  }

  ghost predicate AllSwept(sweep: Sweep, items: seq<Item>, was: seq<Entry>, shown: seq<int>)
    requires |items| == |was| == |shown|
    reads items, TasksOf(items)
  {
    forall k :: 0 <= k < |items| ==> Swept(sweep, items[k], was[k], shown[k], true)
  }

  predicate Apart(items: seq<Item>) {
    forall j, k :: 0 <= j < k < |items| ==> items[j] != items[k] && items[j].task != items[k].task
  }

  function Ids(ts: seq<Task>): set<string> {
    set t | t in ts :: t.id
  }

  lemma IdsGrow(ts: seq<Task>, i: nat)
    requires i < |ts|
    ensures Ids(ts[..i + 1]) == Ids(ts[..i]) + {ts[i].id}
  {
    assert ts[..i + 1] == ts[..i] + [ts[i]];
  }

  function StaleTasks(items: seq<Item>, now: int, maxAge: int): seq<Task> {
    if items == [] then []
    else
      var last := items[|items| - 1].task;
      StaleTasks(items[..|items| - 1], now, maxAge) + if now - last.createdAt > maxAge then [last] else []
  }

  lemma {:induction false} StaleTasksAre(items: seq<Item>, now: int, maxAge: int)
    ensures forall t :: t in StaleTasks(items, now, maxAge) <==>
      now - t.createdAt > maxAge && exists x :: x in items && x.task == t
  {
    if items != [] {
      var front, last := items[..|items| - 1], items[|items| - 1];
      assert items == front + [last];
      StaleTasksAre(front, now, maxAge);
      forall t ensures t in StaleTasks(items, now, maxAge) <==>
        now - t.createdAt > maxAge && exists x :: x in items && x.task == t
      {
        assert t in StaleTasks(items, now, maxAge) <==> t in StaleTasks(front, now, maxAge) || (t == last.task && now - t.createdAt > maxAge);
      }
    }
  }
}
