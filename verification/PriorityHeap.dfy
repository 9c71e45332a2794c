/**
 The heap under the priority queue (pkg/reef/server/priority_queue.go:12-55): the
 repository's Less, Swap, Push and Pop, and Go's documented container/heap
 algorithms, which call nothing else.
 */
module PriorityHeaps {
  import opened Tasks

  /** What an item shows of its task: the key both the heap and the dequeue order compare, and the task's age. */
  datatype Entry = Entry(priority: int, seqNo: int, id: string, createdAt: int)

  /** Higher priority first; on equal priority the earlier insertion first. */
  predicate Before(a: Entry, b: Entry) {
    if a.priority != b.priority then a.priority > b.priority else a.seqNo < b.seqNo
  }

  class Item {
    const task: Task
    var priority: int
    const seqNo: int
    var index: int

    constructor (task: Task, priority: int, seqNo: int)
      ensures this.task == task && this.priority == priority && this.seqNo == seqNo
    {
      this.task, this.priority, this.seqNo, index := task, priority, seqNo, 0;
    }

    function Key(): Entry
      reads this`priority
    {
      Entry(priority, seqNo, task.id, task.createdAt)
    }
  }

  function Parent(c: int): int
    requires 0 < c
    ensures 0 <= Parent(c) < c
  {
    (c - 1) / 2
  }

  /** The first n keys form a heap, except that the key at `hole` may come before its parent. */
  ghost predicate HeapBut(ks: seq<Entry>, n: nat, hole: int)
    requires n <= |ks|
  {
    forall c :: 0 < c < n && c != hole ==> !Before(ks[c], ks[Parent(c)])
  }

  /** The first n keys form a heap, except that children of `p`, and `p` itself, are not compared with their parent. */
  ghost predicate HeapAround(ks: seq<Entry>, n: nat, p: int)
    requires n <= |ks|
  {
    forall c :: 0 < c < n && c != p && Parent(c) != p ==> !Before(ks[c], ks[Parent(c)])
  }

  /** No child of `p` comes before the parent of `p`. */
  ghost predicate Bridged(ks: seq<Entry>, n: nat, p: int)
    requires n <= |ks|
  {
    forall c :: 0 < p < c < n && Parent(c) == p ==> !Before(ks[c], ks[Parent(p)])
  }

  ghost predicate IsHeap(ks: seq<Entry>)
  {
    HeapBut(ks, |ks|, -1)
  }

  /** The two sequences agree from position n on. */
  ghost predicate SameFrom<T>(n: int, s: seq<T>, t: seq<T>) {
    |s| == |t| && forall k :: 0 <= n <= k < |s| ==> s[k] == t[k]
  }

  function Swapped<T>(s: seq<T>, i: int, j: int): (r: seq<T>)
    requires 0 <= i < |s| && 0 <= j < |s|
    ensures |r| == |s| && multiset(r) == multiset(s)
  {
    s[i := s[j]][j := s[i]]
  }

  lemma WithoutLast(ks: seq<Entry>)
    requires ks != []
    ensures multiset(ks[..|ks| - 1]) == multiset(ks) - multiset{ks[|ks| - 1]}
  {
    assert ks == ks[..|ks| - 1] + [ks[|ks| - 1]];
  }

  /** One step of `up`: the hole moves to its parent. */
  lemma UpStep(ks: seq<Entry>, n: nat, j: int)
    requires 0 < j < n <= |ks| && HeapBut(ks, n, j) && Bridged(ks, n, j)
    requires Before(ks[j], ks[Parent(j)])
    ensures HeapBut(Swapped(ks, Parent(j), j), n, Parent(j))
    ensures Bridged(Swapped(ks, Parent(j), j), n, Parent(j))
  {
  }

  /** `up` stops at the root, or below a parent that comes first. */
  lemma UpStop(ks: seq<Entry>, n: nat, j: nat)
    requires j < n <= |ks| && HeapBut(ks, n, j)
    requires j == 0 || !Before(ks[j], ks[Parent(j)])
    ensures HeapBut(ks, n, -1)
  {
  }

  /** No child of `p` comes before `p`. */
  ghost predicate Dominates(ks: seq<Entry>, n: nat, p: int)
    requires 0 <= p < n <= |ks|
  {
    forall c :: 0 < c < n && Parent(c) == p ==> !Before(ks[c], ks[p])
  }

  lemma Children(p: nat, c: int)
    requires 0 < c
    ensures Parent(c) == p <==> c == 2 * p + 1 || c == 2 * p + 2
  {
  }

  /** The loop invariant of `down`: it started at i0 on the keys `was` and now stands at i. */
  ghost predicate Sinking(was: seq<Entry>, ks: seq<Entry>, n: nat, i0: int, i: int)
    requires 0 <= i0 <= i < n <= |ks| == |was|
  {
    && HeapAround(ks, n, i)
    && Bridged(ks, n, i)
    && if i == i0 then ks == was else !Before(ks[i], ks[Parent(i)]) && !Dominates(was, n, i0)
  }

  /** One step of `down`: the disorder moves from i to its first child j. */
  lemma DownStep(was: seq<Entry>, ks: seq<Entry>, n: nat, i0: int, i: int, j: int)
    requires 0 <= i0 <= i < j < n <= |ks| == |was| && Sinking(was, ks, n, i0, i)
    requires j == 2 * i + 1 || j == 2 * i + 2
    requires !Before(ks[2 * i + 1], ks[j])
    requires 2 * i + 2 < n ==> !Before(ks[2 * i + 2], ks[j])
    requires Before(ks[j], ks[i])
    ensures Sinking(was, Swapped(ks, i, j), n, i0, j)
  {
    hide HeapAround, Bridged, Before;
    Children(i, j);
    forall c | 0 < c < n && Parent(c) == i ensures !Before(ks[c], ks[j]) {
      Children(i, c);
    }
    DownSwap(ks, n, i, j);
  }

  lemma DownSwap(ks: seq<Entry>, n: nat, i: int, j: int)
    requires 0 <= i < j < n <= |ks| && Parent(j) == i
    requires forall c :: 0 < c < n && Parent(c) == i ==> !Before(ks[c], ks[j])
    requires Before(ks[j], ks[i])
    requires HeapAround(ks, n, i) && Bridged(ks, n, i)
    ensures var k := Swapped(ks, i, j);
      HeapAround(k, n, j) && Bridged(k, n, j) && !Before(k[j], k[i])
  {
  }

  ghost predicate Settled(ks: seq<Entry>, n: nat, i: nat)
    requires i < n <= |ks|
  {
    && (2 * i + 1 < n ==> !Before(ks[2 * i + 1], ks[i]))
    && (2 * i + 2 < n ==> !Before(ks[2 * i + 2], ks[i]))
  }

  /** `down` stops where the first child does not come before its parent. */
  lemma DownStop(was: seq<Entry>, ks: seq<Entry>, n: nat, i0: int, i: int)
    requires 0 <= i0 <= i < n <= |ks| == |was| && Sinking(was, ks, n, i0, i)
    requires Settled(ks, n, i)
    ensures HeapBut(ks, n, if i == i0 then i0 else -1)
    ensures Dominates(was, n, i0) ==> i == i0
  {
    forall c | 0 < c < n && Parent(c) == i ensures !Before(ks[c], ks[i]) {
      Children(i, c);
    }
  }

  class PriorityHeap {
    var items: seq<Item>
    ghost var members: set<Item>
    ghost var keys: seq<Entry>

    constructor ()
      ensures items == [] && Valid()
    {
      items, members, keys := [], {}, [];
    }

    /** Positions and stored indices are inverse to each other, so no item is stored twice. */
    ghost predicate Linked()
      reads this, items, members
    {
      && |keys| == |items|
      && (forall i :: 0 <= i < |items| ==> items[i].index == i && items[i] in members && items[i].Key() == keys[i])
      && (forall x :: x in members ==> 0 <= x.index < |items| && items[x.index] == x)
    }

    ghost predicate Valid()
      reads this, items, members
    {
      Linked() && IsHeap(keys)
    }

    predicate Less(i: nat, j: nat)
      requires i < |items| && j < |items|
      reads this, items
    {
      Before(items[i].Key(), items[j].Key())
    }

    lemma SameSize()
      requires Linked()
      ensures |keys| == |items|
      ensures forall i :: 0 <= i < |items| ==> items[i] in members
    {
    }

    lemma PlaceOf(x: Item)
      requires Valid() && x in members
      ensures 0 <= x.index < |items| && items[x.index] == x
    {
    }

    lemma AtPlace(i: nat)
      requires Valid() && i < |items|
      ensures |keys| == |items| && items[i] in members && items[i].index == i && items[i].Key() == keys[i]
    {
    }

    lemma LessIsBefore(i: nat, j: nat)
      requires Linked() && i < |items| && j < |items|
      ensures |keys| == |items| && items[i] in members && items[j] in members
      ensures Less(i, j) == Before(keys[i], keys[j])
    {
    }

    method Swap(i: nat, j: nat)
      requires i < |items| && j < |items| && Linked()
      modifies `items, `keys, {items[i], items[j]}`index
      ensures items == Swapped(old(items), i, j)
      ensures Linked() && keys == Swapped(old(keys), i, j)
    {
      items := items[i := items[j]][j := items[i]];
      keys := Swapped(keys, i, j);
      items[i].index := i;
      items[j].index := j;
    }

    /** heap.up: moves the item at j0 towards the root. */
    method Up(j0: nat, ghost n: nat)
      requires Linked() && j0 < n <= |items|
      requires HeapBut(keys, n, j0) && Bridged(keys, n, j0)
      modifies `items, `keys, members`index
      ensures Linked() && multiset(keys) == old(multiset(keys)) && |items| == |old(items)|
      ensures HeapBut(keys, n, -1) && SameFrom(j0 + 1, old(items), items)
    {
      hide Linked, HeapBut, Bridged, Less, Before;
      var j := j0;
      SameSize();
      ghost var was, start := keys, items;
      while true
        invariant 0 <= j <= j0 && |keys| == |items|
        invariant Linked() && SameFrom(j0 + 1, start, items) && multiset(keys) == multiset(was)
        invariant HeapBut(keys, n, j) && Bridged(keys, n, j)
        decreases j
      {
        var i := if j == 0 then 0 else (j - 1) / 2;
        LessIsBefore(j, i);
        if i == j || !Less(j, i) {
          UpStop(keys, n, j);
          break;
        }
        UpStep(keys, n, j);
        Swap(i, j);
        j := i;
      }
    }

    /** The child of i that comes first; `down` compares i with this one only. */
    method FirstChild(i: nat, n: nat) returns (j: nat)
      requires 2 * i + 1 < n <= |items| && Linked()
      ensures (j == 2 * i + 1 || j == 2 * i + 2) && j < n
      ensures !Before(keys[2 * i + 1], keys[j])
      ensures 2 * i + 2 < n ==> !Before(keys[2 * i + 2], keys[j])
      ensures !Less(j, i) ==> Settled(keys, n, i)
    {
      var j1 := 2 * i + 1;
      j := j1;
      var j2 := j1 + 1;
      if j2 < n && Less(j2, j1) {
        j := j2;
      }
    }

    /** The loop of `down`, begun at i0 on the array `start` with the keys `was`, stands at i. */
    ghost predicate DownAt(start: seq<Item>, was: seq<Entry>, n: nat, i0: nat, i: nat)
      reads this, items, members
    {
      && Linked() && i0 <= i < n <= |items| == |was|
      && SameFrom(n, start, items) && multiset(keys) == multiset(was)
      && Sinking(was, keys, n, i0, i)
      && (i == i0 ==> items == start)
    }

    /** One turn of that loop: the item at i sinks to its first child j. */
    method Sink(ghost start: seq<Item>, ghost was: seq<Entry>, ghost n: nat, ghost i0: nat, i: nat, j: nat)
      requires DownAt(start, was, n, i0, i)
      requires (j == 2 * i + 1 || j == 2 * i + 2) && j < n && Less(j, i)
      requires !Before(keys[2 * i + 1], keys[j])
      requires 2 * i + 2 < n ==> !Before(keys[2 * i + 2], keys[j])
      modifies `items, `keys, members`index
      ensures DownAt(start, was, n, i0, j)
    {
      DownStep(was, keys, n, i0, i, j);
      Swap(i, j);
    }

    /** heap.down: moves the item at i0 towards the leaves of the first n items. */
    method Down(i0: nat, n: nat) returns (moved: bool)
      requires Linked() && i0 < n <= |items|
      requires HeapAround(keys, n, i0) && Bridged(keys, n, i0)
      modifies `items, `keys, members`index
      ensures Linked() && SameFrom(n, old(items), items) && multiset(keys) == old(multiset(keys))
      ensures HeapBut(keys, n, if moved then -1 else i0) && (!moved ==> items == old(items))
      ensures Dominates(old(keys), n, i0) ==> !moved
    {
      hide HeapBut, HeapAround, Bridged, Dominates, Before;
      var i := i0;
      ghost var start, was := items, keys;
      while 2 * i + 1 < n
        invariant DownAt(start, was, n, i0, i)
      {
        var j := FirstChild(i, n);
        if !Less(j, i) {
          break;
        }
        Sink(start, was, n, i0, i, j);
        i := j;
      }
      DownStop(was, keys, n, i0, i);
      moved := i > i0;
    }

    /** priorityHeap.Push: appends without ordering. */
    method Append(x: Item)
      requires Linked() && x !in members
      modifies this, x`index
      ensures items == old(items) + [x] && keys == old(keys) + [x.Key()]
      ensures members == old(members) + {x} && Linked()
    {
      x.index := |items|;
      items := items + [x];
      keys := keys + [x.Key()];
      members := members + {x};
    }

    /** priorityHeap.Pop: drops the last item. */
    method DropLast() returns (x: Item)
      requires Linked() && items != []
      modifies this, members`index
      ensures x == old(items[|items| - 1]) && items == old(items[..|items| - 1])
      ensures Linked() && members == old(members) - {x} && x.index == -1
      ensures keys == old(keys[..|items| - 1])
      ensures multiset(keys) == old(multiset(keys)) - multiset{x.Key()}
    {
      var n := |items|;
      x := items[n - 1];
      WithoutLast(keys);
      x.index := -1;
      items := items[..n - 1];
      keys := keys[..n - 1];
      members := members - {x};
    }

    /** heap.Push */
    method Push(x: Item)
      requires Valid() && x !in members
      modifies this, members`index, x`index
      ensures Valid()
      ensures members == old(members) + {x} && multiset(keys) == old(multiset(keys)) + multiset{x.Key()}
    {
      Append(x);
      Up(|items| - 1, |items|);
    }

    /** Down, and Up if Down did not move: orders the first n items again after the key at i changed. */
    method Settle(i: nat, n: nat)
      requires Linked() && i < n <= |items|
      requires HeapAround(keys, n, i) && Bridged(keys, n, i)
      modifies `items, `keys, members`index
      ensures Linked() && SameFrom(n, old(items), items) && multiset(keys) == old(multiset(keys))
      ensures HeapBut(keys, n, -1)
      ensures Dominates(old(keys), n, i) ==> SameFrom(i + 1, old(items), items)
    {
      var moved := Down(i, n);
      if !moved {
        Up(i, n);
      }
    }

    /** heap.Pop: the root leaves, and nothing in the heap comes before it. */
    method Pop() returns (x: Item)
      requires Valid() && items != []
      modifies this, members`index
      ensures x == old(items[0])
      ensures Valid()
      ensures members == old(members) - {x} && multiset(keys) == old(multiset(keys)) - multiset{x.Key()}
    {
      hide Linked, IsHeap, HeapBut, HeapAround, Bridged, Dominates, Before;
      SameSize();
      var n := |items| - 1;
      if n > 0 {
        LastGoesTo(keys, 0);
      }
      Swap(0, n);
      if n > 0 {
        var moved := Down(0, n);
        SameSize();
      }
      FrontIsHeap(keys, n);
      assert n == |items| - 1;
      x := DropLast();
    }

    /** The part of heap.Remove before its Pop. */
    method MoveToEnd(i: nat)
      requires Valid() && i < |items| - 1
      modifies `items, `keys, members`index
      ensures Linked() && multiset(keys) == old(multiset(keys)) && |items| == |old(items)|
      ensures HeapBut(keys, |items| - 1, -1) && items[|items| - 1] == old(items[i])
    {
      hide Linked, HeapBut, HeapAround, Bridged, Dominates, Before;
      SameSize();
      var n := |items| - 1;
      LastGoesTo(keys, i);
      Swap(i, n);
      Settle(i, n);
    }

    /** heap.Remove */
    method Remove(i: nat) returns (x: Item)
      requires Valid() && i < |items|
      modifies this, members`index
      ensures x == old(items[i])
      ensures Valid()
      ensures members == old(members) - {x} && multiset(keys) == old(multiset(keys)) - multiset{x.Key()}
    {
      hide HeapBut, HeapAround, Bridged, Dominates, Before;
      if i != |items| - 1 {
        MoveToEnd(i);
      } else {
        FrontOfHeap(keys);
      }
      FrontIsHeap(keys, |items| - 1);
      x := DropLast();
    }

    /** Valid, except that the item at i may store a new priority. */
    ghost predicate ValidBut(i: nat)
      reads this, items, members
    {
      && i < |items| == |keys| && IsHeap(keys)
      && (forall k :: 0 <= k < |items| ==> items[k].index == k && items[k] in members && (k != i ==> items[k].Key() == keys[k]))
      && (forall x :: x in members ==> 0 <= x.index < |items| && items[x.index] == x)
    }

    /** heap.Fix: restores the heap after the key at i changed.  An item that became more urgent only moves up. */
    method Fix(i: nat)
      requires ValidBut(i)
      modifies `items, `keys, members`index
      ensures Valid() && |items| == |old(items)|
      ensures multiset(keys) == old(multiset(keys[i := items[i].Key()]))
      ensures !Before(old(keys[i]), old(items[i].Key())) ==> SameFrom(i + 1, old(items), items)
    {
      RekeyAt(keys, |keys|, i, items[i].Key());
      keys := keys[i := items[i].Key()];
      Settle(i, |items|);
    }

    /** The root is what Peek shows and Pop removes: nothing queued comes before it. */
    lemma RootComesFirst(y: Item)
      requires Valid() && y in members
      ensures !Before(y.Key(), items[0].Key())
    {
      RootIsFirst(keys, y.index);
    }
  }

  /** Nothing in a heap comes before the root. */
  lemma {:induction false} RootIsFirst(ks: seq<Entry>, k: nat)
    requires IsHeap(ks) && k < |ks|
    ensures !Before(ks[k], ks[0])
  {
    if k > 0 {
      RootIsFirst(ks, Parent(k));
    }
  }

  /** The root has no parent to be compared with. */
  lemma FrontIsHeap(ks: seq<Entry>, n: nat)
    requires n < |ks|
    requires n == 0 || HeapBut(ks, n, 0) || HeapBut(ks, n, -1)
    ensures IsHeap(ks[..n])
  {
  }

  lemma FrontOfHeap(ks: seq<Entry>)
    requires IsHeap(ks) && ks != []
    ensures HeapBut(ks, |ks| - 1, -1)
  {
  }

  lemma LastGoesTo(ks: seq<Entry>, i: nat)
    requires IsHeap(ks) && i < |ks| - 1
    ensures HeapAround(Swapped(ks, i, |ks| - 1), |ks| - 1, i) && Bridged(Swapped(ks, i, |ks| - 1), |ks| - 1, i)
  {
    RekeyAt(ks, |ks| - 1, i, ks[|ks| - 1]);
  }

  /** Whatever key is put at i, only i itself can be out of order. */
  lemma RekeyAt(ks: seq<Entry>, n: nat, i: nat, e: Entry)
    requires i < n <= |ks| && HeapBut(ks, |ks|, -1)
    ensures HeapAround(ks[i := e], n, i) && Bridged(ks[i := e], n, i)
    ensures !Before(ks[i], e) ==> Dominates(ks[i := e], n, i)
  {
  }
}
