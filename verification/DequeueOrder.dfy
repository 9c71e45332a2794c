/**
 The abstract dequeue order both in-memory queues implement.

 A ticket is a queued task's ID with the priority the queue cached for it.  A FIFO queue
 gives every ticket the same priority, so it obeys the same discipline.
 */
module DequeueOrder {
  import opened Tasks
  import opened PriorityHeaps

  datatype Ticket = Ticket(priority: int, id: string)

  const DEFAULT_PRIORITY := 5

  /** A priority below 1 is unset. */
  function ResolvePriority(p: int): int {
    if p < 1 then DEFAULT_PRIORITY else p
  }

  /** Behind everything of the same or a higher priority. */
  function Insert(q: seq<Ticket>, t: Ticket): (r: seq<Ticket>)
    ensures |r| == |q| + 1
    ensures multiset(r) == multiset(q) + multiset{t}
  {
    if q == [] || q[0].priority < t.priority then [t] + q
    else assert q == [q[0]] + q[1..]; [q[0]] + Insert(q[1..], t)
  }

  function TicketIds(q: seq<Ticket>): set<string> {
    set i | 0 <= i < |q| :: q[i].id
  }

  predicate DistinctTickets(q: seq<Ticket>) {
    forall i, j :: 0 <= i < j < |q| ==> q[i].id != q[j].id
  }

  predicate Descending(q: seq<Ticket>) {
    forall i, j :: 0 <= i < j < |q| ==> q[i].priority >= q[j].priority
  }

  lemma {:induction false} InsertKeepsDescending(q: seq<Ticket>, t: Ticket)
    requires Descending(q)
    ensures Descending(Insert(q, t))
  {
    if q != [] && q[0].priority >= t.priority {
      InsertKeepsDescending(q[1..], t);
      var r := Insert(q[1..], t);
      forall k | 0 <= k < |r| ensures r[k].priority <= q[0].priority {
        assert r[k] in multiset(r);
        assert r[k] in multiset(q[1..]) || r[k] == t;
      }
    }
  }

  lemma {:induction false} InsertLast(q: seq<Ticket>, t: Ticket)
    requires forall i :: 0 <= i < |q| ==> q[i].priority >= t.priority
    ensures Insert(q, t) == q + [t]
  {
    if q != [] {
      InsertLast(q[1..], t);
      assert q + [t] == [q[0]] + (q[1..] + [t]);
    }
  }

  /** Strictly ordered by (priority descending, insertion number ascending). */
  predicate Sorted(q: seq<Entry>) {
    forall i, j :: 0 <= i < j < |q| ==> Before(q[i], q[j])
  }

  function InsertEntry(q: seq<Entry>, e: Entry): (r: seq<Entry>)
    ensures |r| == |q| + 1
    ensures forall x :: x in r <==> x in q || x == e
    ensures multiset(r) == multiset(q) + multiset{e}
  {
    if q == [] || Before(e, q[0]) then [e] + q
    else assert q == [q[0]] + q[1..]; [q[0]] + InsertEntry(q[1..], e)
  }

  predicate DistinctNumbers(q: seq<Entry>) {
    forall i, j :: 0 <= i < j < |q| ==> q[i].seqNo != q[j].seqNo
  }

  lemma {:induction false} InsertEntrySorted(q: seq<Entry>, e: Entry)
    requires Sorted(q) && DistinctNumbers(q)
    requires forall x :: x in q ==> x.seqNo != e.seqNo
    ensures Sorted(InsertEntry(q, e)) && DistinctNumbers(InsertEntry(q, e))
  {
    if q != [] && !Before(e, q[0]) {
      InsertEntrySorted(q[1..], e);
      var r := InsertEntry(q[1..], e);
      forall k | 0 <= k < |r| ensures Before(q[0], r[k]) && q[0].seqNo != r[k].seqNo {
        assert r[k] in r;
      }
    }
  }

  /** What a priority queue with `counter` insertions so far can hold. */
  predicate Ranked(q: seq<Entry>, counter: int) {
    var holds :=
      && Sorted(q)
      && DistinctNumbers(q)
      && forall x :: x in q ==> x.seqNo <= counter;
    holds
  }

  lemma InsertNewest(q: seq<Entry>, counter: int, e: Entry)
    requires Ranked(q, counter) && e.seqNo == counter + 1
    ensures Ranked(InsertEntry(q, e), counter + 1)
  {
    InsertEntrySorted(q, e);
  }

  lemma HeadAndTail(q: seq<Entry>)
    requires q != []
    ensures q == [q[0]] + q[1..] && multiset(q) == multiset{q[0]} + multiset(q[1..])
  {
    assert q == [q[0]] + q[1..];
  }

  lemma TailRanked(q: seq<Entry>, counter: int)
    requires Ranked(q, counter) && q != []
    ensures Ranked(q[1..], counter) && multiset(q[1..]) == multiset(q) - multiset{q[0]}
  {
    assert q == [q[0]] + q[1..];
  }

  function Tickets(q: seq<Entry>): seq<Ticket> {
    seq(|q|, i requires 0 <= i < |q| => Ticket(q[i].priority, q[i].id))
  }

  lemma TicketsCons(x: Entry, q: seq<Entry>)
    ensures Tickets([x] + q) == [Ticket(x.priority, x.id)] + Tickets(q)
    ensures Tickets([x] + q)[1..] == Tickets(q)
  {
  }

  /** The newest sequence number puts an entry behind all equals, so the number itself is not observable. */
  lemma {:induction false} NewestGoesLast(q: seq<Entry>, e: Entry)
    requires forall x :: x in q ==> x.seqNo < e.seqNo
    ensures Tickets(InsertEntry(q, e)) == Insert(Tickets(q), Ticket(e.priority, e.id))
  {
    if q != [] && !Before(e, q[0]) {
      NewestGoesLast(q[1..], e);
      TicketsCons(q[0], q[1..]);
      TicketsCons(q[0], InsertEntry(q[1..], e));
      assert q == [q[0]] + q[1..];
    } else {
      TicketsCons(e, q);
    }
  }

  /** The entries whose task is not in `gone`, in the same order. */
  function Keep(q: seq<Entry>, gone: set<string>): (r: seq<Entry>)
    ensures |r| <= |q|
  {
    if q == [] then [] else if q[0].id in gone then Keep(q[1..], gone) else [q[0]] + Keep(q[1..], gone)
  }

  lemma {:induction false} KeepHas(q: seq<Entry>, gone: set<string>)
    ensures forall x :: x in Keep(q, gone) <==> x in q && x.id !in gone
  {
    if q != [] {
      KeepHas(q[1..], gone);
      assert q == [q[0]] + q[1..];
    }
  }

  lemma {:induction false} KeepRanked(q: seq<Entry>, counter: int, gone: set<string>)
    requires Ranked(q, counter)
    ensures Ranked(Keep(q, gone), counter)
  {
    if q != [] {
      KeepRanked(q[1..], counter, gone);
      KeepHas(q[1..], gone);
      var r := Keep(q[1..], gone);
      forall k | 0 <= k < |r| ensures Before(q[0], r[k]) && q[0].seqNo != r[k].seqNo {
        assert r[k] in q[1..];
      }
    }
  }

  lemma {:induction false} KeepAll(q: seq<Entry>, gone: set<string>)
    requires forall x :: x in q ==> x.id !in gone
    ensures Keep(q, gone) == q
  {
    if q != [] {
      KeepAll(q[1..], gone);
      assert q == [q[0]] + q[1..];
    }
  }

  predicate DistinctIds(q: seq<Entry>) {
    forall i, j :: 0 <= i < j < |q| ==> q[i].id != q[j].id
  }

  lemma {:induction false} KeepTwice(q: seq<Entry>, a: set<string>, b: set<string>)
    ensures Keep(Keep(q, a), b) == Keep(q, a + b)
  {
    if q != [] {
      KeepTwice(q[1..], a, b);
      var rest := Keep(q[1..], a);
      if q[0].id !in a {
        assert Keep(q, a) == [q[0]] + rest;
        assert ([q[0]] + rest)[1..] == rest;
      } else {
        assert Keep(q, a) == rest;
      }
    }
  }

  function SortEntries(q: seq<Entry>): (r: seq<Entry>)
    ensures multiset(r) == multiset(q)
  {
    if q == [] then [] else assert q == [q[0]] + q[1..]; InsertEntry(SortEntries(q[1..]), q[0])
  }

  lemma {:induction false} SortEntriesSorted(q: seq<Entry>)
    requires DistinctNumbers(q)
    ensures Sorted(SortEntries(q)) && DistinctNumbers(SortEntries(q))
  {
    if q != [] {
      SortEntriesSorted(q[1..]);
      forall x | x in SortEntries(q[1..]) ensures x.seqNo != q[0].seqNo {
        assert x in multiset(q[1..]);
      }
      InsertEntrySorted(SortEntries(q[1..]), q[0]);
    }
  }

  lemma SortedHeads(p: seq<Entry>, q: seq<Entry>)
    requires Sorted(p) && Sorted(q) && multiset(p) == multiset(q) && p != [] && q != []
    ensures p[0] == q[0]
  {
    assert p[0] in multiset(q) && q[0] in multiset(p);
  }

  /** A dequeue order is determined by what is queued. */
  lemma {:induction false} SortedIsUnique(p: seq<Entry>, q: seq<Entry>)
    requires Sorted(p) && Sorted(q) && multiset(p) == multiset(q)
    ensures p == q
  {
    assert |p| == |multiset(p)| == |multiset(q)| == |q|;
    if p != [] {
      SortedHeads(p, q);
      hide Before;
      HeadAndTail(p);
      HeadAndTail(q);
      assert multiset(p[1..]) == multiset(p) - multiset{p[0]} == multiset(q[1..]);
      SortedIsUnique(p[1..], q[1..]);
    }
  }

  /** Where a member of a permuted sequence is found, and what is left without it. */
  lemma Pick(q: seq<Entry>, e: Entry) returns (k: nat)
    requires e in multiset(q)
    ensures k < |q| && q[k] == e && multiset(q[..k] + q[k + 1..]) == multiset(q) - multiset{e}
  {
    assert e in q;
    k :| 0 <= k < |q| && q[k] == e;
    assert q == q[..k] + [e] + q[k + 1..];
  }

  lemma {:induction false} KeepCuts(q: seq<Entry>, k: nat)
    requires k < |q| && DistinctIds(q)
    ensures Keep(q, {q[k].id}) == q[..k] + q[k + 1..]
  {
    var gone := {q[k].id};
    if k == 0 {
      KeepAll(q[1..], gone);
    } else {
      assert q[1..][k - 1] == q[k] && q[0].id != q[k].id;
      KeepCuts(q[1..], k - 1);
      assert Keep(q, gone) == [q[0]] + Keep(q[1..], gone);
      CutsShift(q, k);
    }
  }

  lemma CutsShift(q: seq<Entry>, k: nat)
    requires 0 < k < |q|
    ensures q[..k] + q[k + 1..] == [q[0]] + (q[1..][..k - 1] + q[1..][k..])
  {
  }

  /** Without the task of one entry exactly that entry is gone. */
  lemma KeepDropsOne(q: seq<Entry>, e: Entry)
    requires DistinctIds(q) && e in q
    ensures multiset(Keep(q, {e.id})) == multiset(q) - multiset{e}
  {
    hide Keep;
    assert e in multiset(q);
    var k := Pick(q, e);
    KeepCuts(q, k);
  }

  /** The parameters of one starvation sweep. */
  datatype Sweep = Sweep(now: int, threshold: int, boost: int, maxPriority: int)
  {
    /** The priority an entry gets: raised up to the cap if it waited too long. */
    function Boosted(e: Entry): Entry {
      if now - e.createdAt > threshold
      then e.(priority := if e.priority + boost > maxPriority then maxPriority else e.priority + boost)
      else e
    }

    /** A raised entry stays at least as urgent. */
    lemma NeverLater(e: Entry)
      ensures boost >= 0 && e.priority <= maxPriority ==> !Before(e, Boosted(e))
    {
    }

    /** The sweep over the first n entries. */
    function Prefix(q: seq<Entry>, n: nat): (r: seq<Entry>)
      requires n <= |q|
      ensures |r| == |q|
    {
      seq(|q|, k requires 0 <= k < |q| => if k < n then Boosted(q[k]) else q[k])
    }

    function All(q: seq<Entry>): seq<Entry> {
      Prefix(q, |q|)
    }

    function Count(q: seq<Entry>): nat {
      if q == [] then 0 else Count(q[..|q| - 1]) + if Boosted(q[|q| - 1]) != q[|q| - 1] then 1 else 0
    }

    /** The sweep never lowers a priority: the boost is not negative and nothing is above the cap. */
    predicate Raises(q: seq<Entry>) {
      boost >= 0 && forall e :: e in q ==> e.priority <= maxPriority
    }

    lemma PrefixStep(q: seq<Entry>, n: nat)
      requires n < |q|
      ensures Prefix(q, n + 1) == Prefix(q, n)[n := Boosted(q[n])]
      ensures Count(q[..n + 1]) == Count(q[..n]) + if Boosted(q[n]) != q[n] then 1 else 0
    {
      assert q[..n + 1][..n] == q[..n];
    }

    lemma Cut(q: seq<Entry>, k: nat)
      requires k < |q|
      ensures multiset(All(q)) == multiset(All(q[..k] + q[k + 1..])) + multiset{Boosted(q[k])}
    {
      var rest := q[..k] + q[k + 1..];
      assert All(q) == All(rest)[..k] + [Boosted(q[k])] + All(rest)[k..];
      assert All(rest) == All(rest)[..k] + All(rest)[k..];
    }

    lemma {:induction false} CountCut(q: seq<Entry>, k: nat)
      requires k < |q|
      ensures Count(q) == Count(q[..k] + q[k + 1..]) + if Boosted(q[k]) != q[k] then 1 else 0
    {
      var front, last := q[..|q| - 1], q[|q| - 1];
      var rest := q[..k] + q[k + 1..];
      if k == |q| - 1 {
        assert rest == front;
      } else {
        CountCut(front, k);
        var rest' := front[..k] + front[k + 1..];
        assert rest == rest' + [last];
        assert rest[..|rest| - 1] == rest';
      }
    }

    /** A sweep does not depend on the order in which the entries are visited. */
    lemma {:induction false} OrderIrrelevant(p: seq<Entry>, q: seq<Entry>)
      requires multiset(p) == multiset(q)
      ensures multiset(All(p)) == multiset(All(q)) && Count(p) == Count(q)
      decreases |p|
    {
      assert |p| == |multiset(p)| == |multiset(q)| == |q|;
      if p != [] {
        var e := p[|p| - 1];
        assert p == p[..|p| - 1] + [e];
        assert e in multiset(q);
        var k := Pick(q, e);
        var j := |p| - 1;
        var p', q' := p[..j] + p[j + 1..], q[..k] + q[k + 1..];
        assert p' == p[..j];
        Cut(p, j);
        Cut(q, k);
        CountCut(p, j);
        CountCut(q, k);
        OrderIrrelevant(p', q');
      }
    }

    /** What becomes of each entry, in numbers. */
    lemma RaisedTo(q: seq<Entry>)
      ensures |SortEntries(All(q))| == |q|
      ensures forall e :: e in q && now - e.createdAt <= threshold ==> e in SortEntries(All(q))
      ensures forall e :: e in q && now - e.createdAt > threshold ==>
        e.(priority := if e.priority + boost <= maxPriority then e.priority + boost else maxPriority) in SortEntries(All(q))
    {
      var r := SortEntries(All(q));
      assert |multiset(r)| == |multiset(All(q))|;
      forall e | e in q ensures Boosted(e) in r {
        var k :| 0 <= k < |q| && q[k] == e;
        assert All(q)[k] == Boosted(e);
        assert Boosted(e) in multiset(All(q));
      }
    }

    predicate Rises(e: Entry) {
      now - e.createdAt > threshold && boost > 0 && e.priority < maxPriority
    }

    lemma RisenSnoc(front: seq<Entry>, last: Entry)
      requires last !in front
      ensures var risen := set e | e in front && Rises(e);
        |set e | e in front + [last] && Rises(e)| == |risen| + if Rises(last) then 1 else 0
    {
      hide Rises;
      var risen := set e | e in front && Rises(e);
      assert (set e | e in front + [last] && Rises(e)) == risen + if Rises(last) then {last} else {};
    }

    lemma {:induction false} CountRisen(q: seq<Entry>)
      requires boost >= 0 && (forall e :: e in q ==> e.priority <= maxPriority) && DistinctIds(q)
      ensures Count(q) == |set e | e in q && Rises(e)|
    {
      if q != [] {
        var front, last := q[..|q| - 1], q[|q| - 1];
        CountRisen(front);
        assert q == front + [last];
        assert Rises(last) <==> Boosted(last) != last;
        hide Rises, Boosted;
        RisenSnoc(front, last);
      }
    }

    /** The entries a sweep changes are those that waited too long and are not at the cap yet. */
    lemma RaisedAre(q: seq<Entry>)
      requires Raises(q) && DistinctIds(q)
      ensures Count(q) == |set e | e in q && now - e.createdAt > threshold && boost > 0 && e.priority < maxPriority|
    {
      CountRisen(q);
      assert (set e | e in q && Rises(e)) == set e | e in q && now - e.createdAt > threshold && boost > 0 && e.priority < maxPriority;
    }

    lemma AllNumbers(q: seq<Entry>)
      requires DistinctNumbers(q)
      ensures DistinctNumbers(All(q))
    {
    }
  }
}
