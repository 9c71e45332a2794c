/**
 The client registry (pkg/reef/server/registry.go), client matching
 (pkg/reef/client_info.go) and the two load-based strategies (pkg/reef/server/strategy.go).
 */
module Registries {
  import opened Tasks
  import opened SchedulerSpec
  import Strings

  /** The set-building loop of ClientInfo.Matches. */
  method Matches(client: Client, requiredRole: string, requiredSkills: seq<string>) returns (ok: bool)
    ensures ok == client.Suits(requiredRole, requiredSkills)
    ensures ok <==> client.role == requiredRole && forall skill :: skill in requiredSkills ==> skill in client.skills
  {
    if client.role != requiredRole {
      return false;
    }
    if |requiredSkills| == 0 {
      return true;
    }
    var skillSet: set<string> := {};
    for i := 0 to |client.skills|
      invariant skillSet == set k | 0 <= k < i :: client.skills[k]
    {
      skillSet := skillSet + {client.skills[i]};
    }
    for i := 0 to |requiredSkills|
      invariant forall k :: 0 <= k < i ==> requiredSkills[k] in client.skills
    {
      if requiredSkills[i] !in skillSet {
        assert requiredSkills[i] !in client.skills;
        return false;
      }
    }
    return true;
  }

  class Registry {
    var clients: map<string, Client>

    constructor ()
      ensures clients == map[] && Valid()
    {
      clients := map[];
    }

    /** Clients are filed under their own ID. */
    ghost predicate Valid()
      reads this
    {
      forall id :: id in clients ==> clients[id].id == id
    }

    method Register(info: Client)
      modifies this
      ensures clients == old(clients)[info.id := info]
      ensures old(Valid()) ==> Valid()
    {
      clients := clients[info.id := info];
    }

    method Unregister(id: string)
      modifies this
      ensures clients == old(clients) - {id}
      ensures old(Valid()) ==> Valid()
    {
      clients := clients - {id};
    }

    /** All clients, in the unspecified order of a map iteration. */
    method List() returns (out: seq<Client>)
      requires Valid()
      ensures forall c :: c in out <==> c.id in clients && clients[c.id] == c
      ensures forall i, j :: 0 <= i < j < |out| ==> out[i].id != out[j].id
    {
      out := [];
      var todo := clients.Keys;
      while todo != {}
        invariant todo <= clients.Keys
        invariant forall c :: c in out <==> c.id in clients && clients[c.id] == c && c.id !in todo
        invariant forall i, j :: 0 <= i < j < |out| ==> out[i].id != out[j].id
        decreases todo
      {
        var id :| id in todo;
        out := out + [clients[id]];
        todo := todo - {id};
      }
    }

    method IncrementLoad(id: string) returns (found: bool)
      modifies this
      ensures found == (id in clients)
      ensures clients == Incremented(old(clients), id)
      ensures clients.Keys == old(clients).Keys && forall c :: c in clients ==>
        clients[c] == old(clients)[c].(load := if c == id then old(clients)[c].load + 1 else old(clients)[c].load)
      ensures old(Valid()) ==> Valid()
    {
      if id !in clients {
        return false;
      }
      clients := clients[id := clients[id].(load := clients[id].load + 1)];
      return true;
    }

    method UpdateHeartbeat(id: string) returns (found: bool)
      modifies this
      ensures found == (id in clients) && clients == Observed(old(clients), id, Connected)
      ensures clients == if found then old(clients)[id := old(clients)[id].(state := Connected)] else old(clients)
      ensures old(Valid()) ==> Valid()
    {
      found := id in clients;
      if found {
        clients := clients[id := clients[id].(state := Connected)];
      }
    }

    method MarkStale(id: string) returns (marked: bool)
      modifies this
      ensures marked == old(id in clients && !clients[id].state.Stale?)
      ensures clients == Observed(old(clients), id, Stale)
      ensures clients == if marked then old(clients)[id := old(clients)[id].(state := Stale)] else old(clients)
      ensures old(Valid()) ==> Valid()
    {
      if id !in clients || clients[id].state.Stale? {
        assert id in clients ==> clients[id].(state := Stale) == clients[id];
        return false;
      }
      clients := clients[id := clients[id].(state := Stale)];
      return true;
    }

    method MarkDisconnected(id: string) returns (found: bool)
      modifies this
      ensures found == (id in clients) && clients == Observed(old(clients), id, Disconnected)
      ensures clients == if found then old(clients)[id := old(clients)[id].(state := Disconnected)] else old(clients)
      ensures old(Valid()) ==> Valid()
    {
      found := id in clients;
      if found {
        clients := clients[id := clients[id].(state := Disconnected)];
      }
    }

    method DecrementLoad(id: string) returns (found: bool)
      modifies this
      ensures found == (id in clients)
      ensures clients == Decremented(old(clients), id)
      ensures clients.Keys == old(clients).Keys && forall c :: c in clients ==>
        clients[c] == old(clients)[c].(load := if c == id && old(clients)[c].load > 0 then old(clients)[c].load - 1 else old(clients)[c].load)
      ensures old(Valid()) ==> Valid()
    {
      if id !in clients {
        return false;
      }
      if clients[id].load > 0 {
        clients := clients[id := clients[id].(load := clients[id].load - 1)];
      }
      return true;
    }
  }

  datatype Strategy = LeastLoad | RoundRobin

  predicate FewerOrFirst(a: Client, b: Client) {
    a.load < b.load || (a.load == b.load && (a.id == b.id || Strings.Less(a.id, b.id)))
  }

  predicate FirstLeast(cs: seq<Client>, k: nat)
    requires k < |cs|
  {
    && (forall i :: 0 <= i < |cs| ==> cs[k].load <= cs[i].load)
    && (forall i :: 0 <= i < k ==> cs[k].load < cs[i].load)
  }

  /** LeastLoadStrategy.Select: the first candidate of least load. */
  method SelectLeastLoad(candidates: seq<Client>) returns (best: Option<Client>)
    ensures best.None? <==> candidates == []
    ensures best.Some? ==> exists k :: 0 <= k < |candidates| && candidates[k] == best.value && FirstLeast(candidates, k)
  {
    if |candidates| == 0 {
      return None;
    }
    var k := 0;
    for n := 1 to |candidates|
      invariant 0 <= k < |candidates|
      invariant forall i :: 0 <= i < n ==> candidates[k].load <= candidates[i].load
      invariant forall i :: 0 <= i < k ==> candidates[k].load < candidates[i].load
    {
      if candidates[n].load < candidates[k].load {
        k := n;
      }
    }
    return Some(candidates[k]);
  }

  ghost predicate SortedByLoad(cs: seq<Client>) {
    forall i, j :: 0 <= i < j < |cs| ==> FewerOrFirst(cs[i], cs[j])
  }

  lemma FewerIsTransitive(a: Client, b: Client, c: Client)
    requires FewerOrFirst(a, b) && FewerOrFirst(b, c)
    ensures FewerOrFirst(a, c)
  {
    if a.load == b.load == c.load && a.id != b.id && b.id != c.id {
      Strings.LessIsTransitive(a.id, b.id, c.id);
    }
  }

  /** The comparison sort behind sort.Slice, by (load, ID). */
  method SortByLoad(cs: seq<Client>) returns (sorted: seq<Client>)
    ensures multiset(sorted) == multiset(cs) && SortedByLoad(sorted)
  {
    sorted := [];
    for n := 0 to |cs|
      invariant multiset(sorted) == multiset(cs[..n]) && SortedByLoad(sorted)
    {
      assert cs[..n + 1] == cs[..n] + [cs[n]];
      sorted := Placed(sorted, cs[n]);
    }
    assert cs[..|cs|] == cs;
  }

  /** What does not come before c comes after it, and so does everything behind that. */
  lemma BehindToo(sorted: seq<Client>, k: nat, c: Client)
    requires SortedByLoad(sorted) && k < |sorted| && !FewerOrFirst(sorted[k], c)
    ensures forall i :: k <= i < |sorted| ==> FewerOrFirst(c, sorted[i])
  {
    Strings.LessIsTotal(sorted[k].id, c.id);
    assert FewerOrFirst(c, sorted[k]);
    forall i | k < i < |sorted| ensures FewerOrFirst(c, sorted[i]) {
      FewerIsTransitive(c, sorted[k], sorted[i]);
    }
  }

  method Placed(sorted: seq<Client>, c: Client) returns (r: seq<Client>)
    requires SortedByLoad(sorted)
    ensures multiset(r) == multiset(sorted) + multiset{c} && SortedByLoad(r)
  {
    hide FewerOrFirst;
    var k := 0;
    while k < |sorted| && FewerOrFirst(sorted[k], c)
      invariant 0 <= k <= |sorted|
      invariant forall i :: 0 <= i < k ==> FewerOrFirst(sorted[i], c)
    {
      k := k + 1;
    }
    if k < |sorted| {
      BehindToo(sorted, k, c);
    }
    r := sorted[..k] + [c] + sorted[k..];
    PlacedAt(sorted, k, c);
  }

  lemma PlacedAt(sorted: seq<Client>, k: nat, c: Client)
    requires SortedByLoad(sorted) && k <= |sorted|
    requires (forall i :: 0 <= i < k ==> FewerOrFirst(sorted[i], c)) && (forall i :: k <= i < |sorted| ==> FewerOrFirst(c, sorted[i]))
    ensures var r := sorted[..k] + [c] + sorted[k..]; multiset(r) == multiset(sorted) + multiset{c} && SortedByLoad(r)
  {
    hide FewerOrFirst;
    assert sorted == sorted[..k] + sorted[k..];
  }

  /** RoundRobinStrategy.Select: sorts and takes the first, so the answer does not depend on the order of the candidates. */
  method SelectRoundRobin(candidates: seq<Client>) returns (best: Option<Client>)
    ensures best.None? <==> candidates == []
    ensures best.Some? ==> best.value in candidates
    ensures best.Some? ==> forall c :: c in candidates && c != best.value ==> FewerOrFirst(best.value, c)
    ensures best.Some? ==> forall c :: c in candidates ==>
      && best.value.load <= c.load
      && (best.value.load == c.load ==> best.value.id == c.id || Strings.Less(best.value.id, c.id))
  {
    if |candidates| == 0 {
      return None;
    }
    var sorted := SortByLoad(candidates);
    assert |sorted| == |multiset(sorted)| == |multiset(candidates)| == |candidates|;
    assert sorted[0] in multiset(candidates);
    forall c | c in candidates && c != sorted[0] ensures FewerOrFirst(sorted[0], c) {
      assert c in multiset(sorted);
      var i :| 0 <= i < |sorted| && sorted[i] == c;
    }
    return Some(sorted[0]);
  }
}
