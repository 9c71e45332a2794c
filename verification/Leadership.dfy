/**
 Leadership edges (pkg/reef/raft/node.go:723-758) and the leader-only goroutines they
 start and stop (pkg/reef/raft/leadered.go:87-94, 117-135, 176-210).

 Stop is two events: its locked section, which closes the channel of the current term,
 and the moment at which the raft node's ready loop has ended.  Soft states can arrive in
 between, and none arrives afterwards.
 */
module Leadership {
  import opened Tasks

  datatype Edge = Became | Lost

  /** What happens to a server: the ready loop handles a soft state (or none), Stop begins, Stop has ended the loop. */
  datatype Event = Soft(lead: Option<int>) | StopBegins | StopEnds

  datatype Phase = Up | Stopping | Down

  /**
   The node's view of the leader, the server's flag, how far Stop has got, how often each
   stop channel was closed (in order of creation), and the callbacks fired so far.
   */
  datatype Server = Server(node: int, lead: int, isLeader: bool, phase: Phase, channels: seq<nat>, calls: seq<Edge>)

  /** The edge a soft state is, if it is one. */
  function EdgeOf(node: int, lead: int, ss: Option<int>): Option<Edge> {
    if ss.None? || ss.value == lead then None
    else if lead != node && ss.value == node then Some(Became)
    else if lead == node && ss.value != node then Some(Lost)
    else None
  }

  function CloseLast(channels: seq<nat>): seq<nat>
    requires channels != []
  {
    channels[|channels| - 1 := channels[|channels| - 1] + 1]
  }

  function Halted(s: Server): Server {
    if s.isLeader && s.channels != [] then s.(channels := CloseLast(s.channels), isLeader := false) else s
  }

  /** A callback fires. */
  function Called(s: Server, edge: Edge): Server {
    var called := s.(calls := s.calls + [edge]);
    if edge.Lost? then Halted(called)
    else if s.isLeader then called
    else called.(isLeader := true, channels := s.channels + [0])
  }

  function Next(s: Server, e: Event): Server {
    match e
    case Soft(ss) =>
      if s.phase.Down? then s else
      var heard := if ss.Some? then s.(lead := ss.value) else s;
      var edge := EdgeOf(s.node, s.lead, ss);
      if edge.Some? then Called(heard, edge.value) else heard
    case StopBegins => if s.phase.Up? then Halted(s).(phase := Stopping) else s
    case StopEnds => if s.phase.Stopping? then s.(phase := Down) else s
  }

  function After(s: Server, events: seq<Event>): Server {
    if events == [] then s else Next(After(s, events[..|events| - 1]), events[|events| - 1])
  }

  /** A server wired to a node that has heard of no leader yet, or of `lead`. */
  function Wired(node: int, lead: int): Server {
    if lead == node then Server(node, lead, true, Up, [0], []) else Server(node, lead, false, Up, [], [])
  }

  // ----- Invariant -----

  /** Callbacks alternate; the first is `first`. */
  predicate Alternate(calls: seq<Edge>, first: Edge) {
    forall i :: 0 <= i < |calls| ==> (calls[i] == first <==> i % 2 == 0)
  }

  /** Every channel but the latest is closed, once; the latest is open exactly while the flag is up. */
  predicate OneOpen(s: Server) {
    var holds :=
      && (forall i :: 0 <= i < |s.channels| - 1 ==> s.channels[i] == 1)
      && (s.channels == [] ==> !s.isLeader)
      && (s.channels != [] ==> s.channels[|s.channels| - 1] == if s.isLeader then 0 else 1);
    holds
  }

  predicate Sound(s: Server, first: Edge) {
    var holds :=
      && OneOpen(s) && Alternate(s.calls, first)
      && (s.lead == s.node <==> (if s.calls == [] then first == Lost else s.calls[|s.calls| - 1] == Became))
      && (s.isLeader ==> s.lead == s.node)
      && (s.phase.Up? ==> s.isLeader == (s.lead == s.node));
    holds
  }

  function FirstEdge(node: int, lead: int): Edge {
    if lead == node then Lost else Became
  }

  lemma StepIsSound(s: Server, e: Event, first: Edge)
    requires Sound(s, first)
    ensures Sound(Next(s, e), first)
  {
    hide Alternate;
    var s' := Next(s, e);
    if e.Soft? && !s.phase.Down? && EdgeOf(s.node, s.lead, e.lead).Some? {
      var edge := EdgeOf(s.node, s.lead, e.lead).value;
      assert s'.calls == s.calls + [edge];
      AlternateOn(s.calls, first, edge);
    }
  }

  lemma LastIsOpen(s: Server, first: Edge)
    requires Sound(s, first)
    ensures s.isLeader ==> s.channels != [] && s.channels[|s.channels| - 1] == 0
  {
  }

  lemma AlternateOn(calls: seq<Edge>, first: Edge, edge: Edge)
    requires Alternate(calls, first)
    requires if calls == [] then edge == first else edge != calls[|calls| - 1]
    ensures Alternate(calls + [edge], first)
  {
    var n := |calls|;
    if n > 0 {
      assert calls[n - 1] == first <==> (n - 1) % 2 == 0;
    }
  }

  /** In every run the callbacks alternate, no channel is closed twice, at most one is open, and until Stop the flag tells who leads. */
  lemma {:induction false} LeadershipAlternates(node: int, lead: int, events: seq<Event>)
    ensures Sound(After(Wired(node, lead), events), FirstEdge(node, lead))
  {
    if events != [] {
      LeadershipAlternates(node, lead, events[..|events| - 1]);
      StepIsSound(After(Wired(node, lead), events[..|events| - 1]), events[|events| - 1], FirstEdge(node, lead));
    }
  }

  /** Readable consequences for a server wired before any leader is known. */
  lemma StartsThenStops(node: int, events: seq<Event>)
    requires node != 0
    ensures var s := After(Wired(node, 0), events);
      && (forall i :: 0 <= i < |s.calls| ==> s.calls[i] == if i % 2 == 0 then Became else Lost)
      && (forall i :: 0 <= i < |s.channels| ==> s.channels[i] <= 1)
      && (forall i :: 0 <= i < |s.channels| - 1 ==> s.channels[i] == 1)
      && (StopBegins !in events ==> (s.isLeader <==> s.lead == node))
  {
    LeadershipAlternates(node, 0, events);
    NotStopped(Wired(node, 0), events);
  }

  lemma {:induction false} NotStopped(s: Server, events: seq<Event>)
    ensures After(s, events).node == s.node
    ensures After(s, events).phase.Up? <==> s.phase.Up? && StopBegins !in events
  {
    if events != [] {
      var front, last := events[..|events| - 1], events[|events| - 1];
      NotStopped(s, front);
      assert events == front + [last];
    }
  }

  // ----- After Stop -----

  /** The beginning of Stop fell into the current term of leadership. */
  predicate TermCutShort(s: Server, events: seq<Event>)
    decreases |events|
  {
    if events == [] then false
    else
      var before, e := After(s, events[..|events| - 1]), events[|events| - 1];
      match e
      case StopBegins => TermCutShort(s, events[..|events| - 1]) || (before.phase.Up? && before.lead == before.node)
      case StopEnds => TermCutShort(s, events[..|events| - 1])
      case Soft(ss) =>
        TermCutShort(s, events[..|events| - 1]) && (before.phase.Down? || EdgeOf(before.node, before.lead, ss) != Some(Lost))
  }

  /** The flag is up exactly when the node leads and Stop did not cut this very term short. */
  lemma {:induction false} FlagIsUpIff(node: int, lead: int, events: seq<Event>)
    ensures var s := After(Wired(node, lead), events);
      && (s.isLeader <==> s.lead == s.node && !TermCutShort(Wired(node, lead), events))
      && (TermCutShort(Wired(node, lead), events) ==> s.lead == s.node && !s.phase.Up?)
  {
    if events != [] {
      var front, last := events[..|events| - 1], events[|events| - 1];
      FlagIsUpIff(node, lead, front);
      LeadershipAlternates(node, lead, front);
    }
  }

  /** Nothing changes once Stop has ended the ready loop. */
  lemma {:induction false} DownForGood(s: Server, events: seq<Event>, more: seq<Event>)
    requires After(s, events).phase.Down?
    ensures After(s, events + more) == After(s, events)
    decreases |more|
  {
    if more == [] {
      assert events + more == events;
    } else {
      var front := more[..|more| - 1];
      DownForGood(s, events, front);
      assert (events + more)[..|events + more| - 1] == events + front;
    }
  }

  /**
   When Stop has ended the ready loop, a channel is left open for good exactly if the node
   leads at that moment in a term that began after Stop did; it is the latest one.
   */
  lemma OpenForGoodIff(node: int, lead: int, events: seq<Event>, more: seq<Event>)
    requires After(Wired(node, lead), events).phase.Down?
    ensures var s, end := After(Wired(node, lead), events), After(Wired(node, lead), events + more);
      && end.channels == s.channels
      && (0 in end.channels <==> s.lead == s.node && !TermCutShort(Wired(node, lead), events))
      && forall i :: 0 <= i < |end.channels| && end.channels[i] == 0 ==> i == |end.channels| - 1
  {
    hide Sound, TermCutShort;
    DownForGood(Wired(node, lead), events, more);
    FlagIsUpIff(node, lead, events);
    LeadershipAlternates(node, lead, events);
    OpenIffFlag(After(Wired(node, lead), events), FirstEdge(node, lead));
  }

  lemma OpenIffFlag(s: Server, first: Edge)
    requires Sound(s, first)
    ensures 0 in s.channels <==> s.isLeader
    ensures forall i :: 0 <= i < |s.channels| && s.channels[i] == 0 ==> i == |s.channels| - 1
  {
    if s.isLeader {
      assert s.channels[|s.channels| - 1] == 0;
    }
  }

  /** A node that loses and regains leadership while Stop waits for the ready loop leaves a channel open for good. */
  lemma LeadingAgainAfterStop(node: int, other: int, more: seq<Event>)
    requires node != other && node != 0
    ensures After(Wired(node, node), [StopBegins, Soft(Some(other)), Soft(Some(node)), StopEnds] + more).channels == [1, 0]
  {
    var s0 := Wired(node, node);
    var e1, e2, e3, e4 := [StopBegins], [StopBegins, Soft(Some(other))], [StopBegins, Soft(Some(other)), Soft(Some(node))],
                          [StopBegins, Soft(Some(other)), Soft(Some(node)), StopEnds];
    assert e1[..0] == [] && e2[..1] == e1 && e3[..2] == e2 && e4[..3] == e3;
    assert After(s0, e1) == Server(node, node, false, Stopping, [1], []);
    assert After(s0, e2) == Server(node, other, false, Stopping, [1], [Lost]);
    assert After(s0, e3) == Server(node, node, true, Stopping, [1, 0], [Lost, Became]);
    DownForGood(s0, e4, more);
  }

  // ----- The objects -----

  class Channel {
    var open: bool

    constructor ()
      ensures open
    {
      open := true;
    }

    /** close panics on a closed channel. */
    method Close()
      requires open
      modifies this
      ensures !open
    {
      open := false;
    }
  }

  class RaftNode {
    const nodeID: int
    var leaderID: int

    constructor (id: int)
      ensures nodeID == id && leaderID == 0
    {
      nodeID, leaderID := id, 0;
    }

    /** trackLeadership; the answer is the callback it fires. */
    method TrackLeadership(ss: Option<int>) returns (fired: Option<Edge>)
      modifies this
      ensures fired == EdgeOf(nodeID, old(leaderID), ss)
      ensures fired == Some(Became) <==> ss.Some? && old(leaderID) != nodeID && ss.value == nodeID
      ensures fired == Some(Lost) <==> ss.Some? && old(leaderID) == nodeID && ss.value != nodeID
      ensures leaderID == if ss.Some? then ss.value else old(leaderID)
    {
      fired := None;
      if ss.None? {
        return;
      }
      var oldLeader, newLeader := leaderID, ss.value;
      if oldLeader != newLeader {
        leaderID := newLeader;
        if oldLeader != nodeID && newLeader == nodeID {
          fired := Some(Became);
        }
        if oldLeader == nodeID && newLeader != nodeID {
          fired := Some(Lost);
        }
      }
    }

    method IsLeader() returns (leads: bool)
      ensures leads == (leaderID == nodeID)
    {
      leads := leaderID == nodeID;
    }
  }

  /** How often each channel was closed. */
  ghost function Closings(made: seq<Channel>): (r: seq<nat>)
    reads made
    ensures |r| == |made|
  {
    seq(|made|, i requires 0 <= i < |made| reads made => if made[i].open then 0 else 1)
  }

  class LeaderedServer {
    const raftNode: RaftNode
    var isLeader: bool
    var leaderStopCh: Option<Channel>
    var stopped: bool
    var ended: bool
    ghost var made: seq<Channel>
    ghost var calls: seq<Edge>
    ghost const first: Edge

    /** The channels made so far are different objects, and the current one is the latest. */
    ghost predicate Kept()
      reads this
    {
      && (forall i, j :: 0 <= i < j < |made| ==> made[i] != made[j])
      && leaderStopCh == (if made == [] then None else Some(made[|made| - 1]))
      && (ended ==> stopped)
    }

    ghost predicate Valid()
      reads this, raftNode, made
    {
      Kept() && Sound(View(), first)
    }

    ghost function View(): Server
      reads this, raftNode, made
    {
      Server(raftNode.nodeID, raftNode.leaderID, isLeader, if !stopped then Up else if !ended then Stopping else Down, Closings(made), calls)
    }

    /** NewLeaderedServer: wires the callbacks and catches up with a node that already leads. */
    constructor (raftNode: RaftNode)
      ensures this.raftNode == raftNode && Valid() && View() == Wired(raftNode.nodeID, raftNode.leaderID)
      ensures first == FirstEdge(raftNode.nodeID, raftNode.leaderID) && forall c :: c in made ==> fresh(c)
    {
      this.raftNode := raftNode;
      isLeader, leaderStopCh, stopped, ended := false, None, false, false;
      made, calls, first := [], [], FirstEdge(raftNode.nodeID, raftNode.leaderID);
      new;
      var leads := raftNode.IsLeader();
      if leads {
        OnBecomeLeader();
      }
    }

    method OnBecomeLeader()
      requires Kept()
      modifies this`isLeader, this`leaderStopCh, this`made
      ensures Kept() && isLeader && (forall c :: c in made ==> c in old(made) || fresh(c))
      ensures Closings(made) == if old(isLeader) then old(Closings(made)) else old(Closings(made)) + [0]
    {
      if isLeader {
        return;
      }
      isLeader := true;
      var ch := new Channel();
      leaderStopCh := Some(ch);
      made := made + [ch];
      assert Closings(made) == old(Closings(made)) + [0];
    }

    method OnLoseLeadership()
      requires Kept() && (isLeader ==> made != [] && leaderStopCh.value.open)
      modifies this`isLeader, made
      ensures Kept() && !isLeader
      ensures Closings(made) == if old(isLeader) then CloseLast(old(Closings(made))) else old(Closings(made))
    {
      if !isLeader {
        return;
      }
      leaderStopCh.value.Close();
      isLeader := false;
      assert Closings(made) == CloseLast(old(Closings(made)));
    }

    /** The ready loop handles a soft state, if it still runs. */
    method Deliver(ss: Option<int>)
      requires Valid()
      modifies this, raftNode, made
      ensures Valid() && View() == Next(old(View()), Soft(ss))
      ensures raftNode.leaderID == if ss.Some? && !(stopped && ended) then ss.value else old(raftNode.leaderID)
    {
      hide Sound;
      StepIsSound(View(), Soft(ss), first);
      LastIsOpen(View(), first);
      if stopped && ended {
        return;
      }
      var fired := raftNode.TrackLeadership(ss);
      if fired.Some? {
        Fire(fired.value);
      }
    }

    method Fire(edge: Edge)
      requires Kept() && (isLeader ==> made != [] && leaderStopCh.value.open)
      modifies this`isLeader, this`leaderStopCh, this`made, this`calls, made
      ensures Kept() && View() == Called(old(View()), edge)
    {
      calls := calls + [edge];
      if edge.Became? {
        OnBecomeLeader();
      } else {
        OnLoseLeadership();
      }
    }

    /** The locked section of Stop, under its sync.Once. */
    method BeginStop()
      requires Valid()
      modifies this, made
      ensures Valid() && View() == Next(old(View()), StopBegins)
    {
      hide Sound;
      StepIsSound(View(), StopBegins, first);
      LastIsOpen(View(), first);
      if !stopped {
        stopped := true;
        OnLoseLeadership();
      }
    }

    /** The rest of Stop: raftNode.Stop() returns when the ready loop has ended. */
    method EndStop()
      requires Valid()
      modifies this`ended
      ensures Valid() && View() == Next(old(View()), StopEnds)
    {
      hide Sound;
      StepIsSound(View(), StopEnds, first);
      if stopped {
        ended := true;
      }
    }
  }
}
