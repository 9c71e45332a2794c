/**
 The replicated state machine on values (pkg/reef/raft/types.go): 21 commands over five
 maps, and their effect on the one key each of them names.

 JSON decoding is outside the model: an operation carries what its payload decodes to.
 */
module ReplicatedState {
  import opened Tasks

  datatype Failure = Failure(kind: string, message: string)

  datatype FTask = FTask(id: string, status: string, client: string, startedAt: Option<int>, completedAt: Option<int>,
                         result: Option<string>, error: Option<Failure>, attempts: seq<Attempt>, escalations: int, rest: string)

  datatype FClient = FClient(id: string, state: string, rest: string)

  datatype FGene = FGene(id: string, status: string, approvedAt: Option<int>, rest: string)

  datatype FDraft = FDraft(id: string, status: string, reviewedAt: Option<int>, rest: string)

  datatype FNode = FNode(id: string, status: string, output: string, createdAt: int, updatedAt: int)

  /** The zero value of a task. */
  const ZERO_TASK := FTask("", "", "", None, None, None, None, [], 0, "")

  /** An embedded task: absent, not a task, or a task. */
  datatype Data = Absent | Garbled | Given(task: FTask)

  datatype Op =
    | TaskEnqueue(id: string, data: Data, direct: Option<FTask>)  // both readings of the payload
    | TaskAssign(id: string, client: string)
    | TaskStart(id: string)
    | TaskComplete(id: string, result: Option<string>)
    | TaskFailed(id: string, error: Option<Failure>, attempts: seq<Attempt>)
    | TaskCancel(id: string)
    | TaskEscalate(id: string)
    | TaskTimedOut(id: string)
    | ClientRegister(info: FClient)
    | ClientUnregister(client_id: string)
    | ClientStale(client_id: string)
    | GeneSubmit(gene: FGene)
    | GeneApprove(gene_id: string)
    | GeneReject(gene_id: string)
    | SkillDraft(draft: FDraft)
    | SkillApprove(draft_id: string)
    | SkillReject(draft_id: string)
    | ClaimPost(id: string, data: Data)
    | ClaimAssign(id: string, client: string)
    | ClaimExpire(id: string)
    | DagUpdate(node: string, status: string, output: string)
    | Undecodable  // a known type whose payload does not decode
    | Unknown      // a type this version does not know

  datatype Command = Command(op: Op, ts: int)

  datatype Maps = Maps(tasks: map<string, FTask>, clients: map<string, FClient>, genes: map<string, FGene>,
                       drafts: map<string, FDraft>, nodes: map<string, FNode>)

  // ----- One key -----

  datatype Key = TaskKey(id: string) | ClientKey(id: string) | GeneKey(id: string) | DraftKey(id: string) | NodeKey(id: string)

  datatype Cell = Vacant | ATask(t: FTask) | AClient(c: FClient) | AGene(g: FGene) | ADraft(d: FDraft) | ANode(n: FNode)

  function At(m: Maps, k: Key): Cell {
    match k
    case TaskKey(id) => if id in m.tasks then ATask(m.tasks[id]) else Vacant
    case ClientKey(id) => if id in m.clients then AClient(m.clients[id]) else Vacant
    case GeneKey(id) => if id in m.genes then AGene(m.genes[id]) else Vacant
    case DraftKey(id) => if id in m.drafts then ADraft(m.drafts[id]) else Vacant
    case NodeKey(id) => if id in m.nodes then ANode(m.nodes[id]) else Vacant
  }

  /** The key a command names, if it gets as far as naming one. */
  function Names(op: Op): Option<Key> {
    match op
    case TaskEnqueue(id, data, direct) =>
      if id != "" then Some(TaskKey(id)) else if direct.Some? then Some(TaskKey(direct.value.id)) else None
    case TaskAssign(id, _) => Some(TaskKey(id))
    case TaskStart(id) => Some(TaskKey(id))
    case TaskComplete(id, _) => Some(TaskKey(id))
    case TaskFailed(id, _, _) => Some(TaskKey(id))
    case TaskCancel(id) => Some(TaskKey(id))
    case TaskEscalate(id) => Some(TaskKey(id))
    case TaskTimedOut(id) => Some(TaskKey(id))
    case ClientRegister(info) => Some(ClientKey(info.id))
    case ClientUnregister(id) => Some(ClientKey(id))
    case ClientStale(id) => Some(ClientKey(id))
    case GeneSubmit(gene) => Some(GeneKey(gene.id))
    case GeneApprove(id) => Some(GeneKey(id))
    case GeneReject(id) => Some(GeneKey(id))
    case SkillDraft(draft) => Some(DraftKey(draft.id))
    case SkillApprove(id) => Some(DraftKey(id))
    case SkillReject(id) => Some(DraftKey(id))
    case ClaimPost(id, _) => Some(TaskKey(id))
    case ClaimAssign(id, _) => Some(TaskKey(id))
    case ClaimExpire(id) => Some(TaskKey(id))
    case DagUpdate(node, _, _) => Some(NodeKey(node))
    case Undecodable => None
    case Unknown => None
  }

  /** A task taken from a command's payload under the ID the command states. */
  function Embedded(id: string, data: Data): FTask {
    (if data.Given? then data.task else ZERO_TASK).(id := id)
  }

  /** What a command that changes a task does to it; None when it reports an error or does nothing to tasks. */
  function OnTask(op: Op, ts: int, t: FTask): Option<FTask> {
    match op
    case TaskAssign(_, client) => Some(t.(client := client, status := "Running", startedAt := Some(ts)))
    case TaskStart(_) => Some(t.(status := "Running", startedAt := Some(ts)))
    case TaskComplete(_, result) => Some(t.(status := "Completed", result := result, completedAt := Some(ts)))
    case TaskFailed(_, error, attempts) => Some(t.(status := "Failed", error := error, attempts := t.attempts + attempts))
    case TaskCancel(_) => Some(t.(status := "Cancelled", completedAt := Some(ts)))
    case TaskEscalate(_) => Some(t.(escalations := t.escalations + 1, status := "Failed"))
    case TaskTimedOut(_) => Some(t.(status := "Failed", error := Some(Failure("TIMEOUT", "task timed out"))))
    case ClaimAssign(_, client) => Some(t.(client := client, status := "Running"))
    case ClaimExpire(_) => Some(t.(client := "", status := "Queued"))
    case _ => None
  }

  /** The cell a command leaves under its key, or None for an error. */
  function OnCell(op: Op, ts: int, c: Cell): Option<Cell> {
    match op
    case TaskEnqueue(id, data, direct) =>
      if id == "" then (if direct.Some? then Some(ATask(direct.value)) else None)
      else if data.Garbled? then None
      else
        var t := Embedded(id, data);
        Some(ATask(if t.status == "" then t.(status := "Created") else t))
    case ClaimPost(id, data) =>
      if c != Vacant then Some(c) else if data.Given? then Some(ATask(Embedded(id, data))) else None
    case ClientRegister(info) => Some(AClient(info))
    case ClientUnregister(_) => Some(Vacant)
    case ClientStale(_) => Some(if c.AClient? then AClient(c.c.(state := "stale")) else c)
    case GeneSubmit(gene) => Some(AGene(gene))
    case GeneApprove(_) => if c.AGene? then Some(AGene(c.g.(status := "approved", approvedAt := Some(ts)))) else None
    case GeneReject(_) => if c.AGene? then Some(AGene(c.g.(status := "rejected"))) else None
    case SkillDraft(draft) => Some(ADraft(draft))
    case SkillApprove(_) => if c.ADraft? then Some(ADraft(c.d.(status := "approved", reviewedAt := Some(ts)))) else None
    case SkillReject(_) => if c.ADraft? then Some(ADraft(c.d.(status := "rejected", reviewedAt := Some(ts)))) else None
    case DagUpdate(node, status, output) =>
      var was := if c.ANode? then c.n else FNode(node, "", "", ts, 0);
      Some(ANode(was.(status := status, output := output, updatedAt := ts)))
    case Undecodable => None
    case Unknown => Some(c)
    case _ => if c.ATask? && OnTask(op, ts, c.t).Some? then Some(ATask(OnTask(op, ts, c.t).value)) else None
  }

  // ----- Whole logs, one key at a time -----

  /** The commands that name k, applied to its cell alone; an error changes nothing. */
  function CellStep(cmd: Command, k: Key, c: Cell): Cell {
    if Names(cmd.op) != Some(k) then c
    else match OnCell(cmd.op, cmd.ts, c)
         case Some(c') => c'
         case None => c
  }

  function CellAfter(log: seq<Command>, k: Key, c: Cell): Cell {
    if log == [] then c else CellStep(log[|log| - 1], k, CellAfter(log[..|log| - 1], k, c))
  }

  /** The commands that name k, in order. */
  function Naming(log: seq<Command>, k: Key): seq<Command> {
    if log == [] then []
    else Naming(log[..|log| - 1], k) + if Names(log[|log| - 1].op) == Some(k) then [log[|log| - 1]] else []
  }

  lemma {:induction false} OthersDoNotMatter(log: seq<Command>, k: Key, c: Cell)
    ensures CellAfter(Naming(log, k), k, c) == CellAfter(log, k, c)
  {
    if log != [] {
      var front, last := log[..|log| - 1], log[|log| - 1];
      OthersDoNotMatter(front, k, c);
      if Names(last.op) == Some(k) {
        assert (Naming(front, k) + [last])[..|Naming(front, k)|] == Naming(front, k);
      } else {
        assert Naming(front, k) + [] == Naming(front, k);
      }
    }
  }

  // ----- Whole logs, all maps -----

  function Put(m: Maps, k: Key, c: Cell): Maps {
    match k
    case TaskKey(id) => m.(tasks := if c.ATask? then m.tasks[id := c.t] else m.tasks - {id})
    case ClientKey(id) => m.(clients := if c.AClient? then m.clients[id := c.c] else m.clients - {id})
    case GeneKey(id) => m.(genes := if c.AGene? then m.genes[id := c.g] else m.genes - {id})
    case DraftKey(id) => m.(drafts := if c.ADraft? then m.drafts[id := c.d] else m.drafts - {id})
    case NodeKey(id) => m.(nodes := if c.ANode? then m.nodes[id := c.n] else m.nodes - {id})
  }

  /** A command changes the cell it names and nothing else. */
  function Applied(m: Maps, cmd: Command): Maps {
    match Names(cmd.op)
    case None => m
    case Some(k) => Put(m, k, CellStep(cmd, k, At(m, k)))
  }

  /** Whether the command reports an error. */
  predicate Fails(m: Maps, cmd: Command) {
    match Names(cmd.op)
    case None => !cmd.op.Unknown?
    case Some(k) => OnCell(cmd.op, cmd.ts, At(m, k)).None?
  }

  function AllApplied(m: Maps, log: seq<Command>): Maps {
    if log == [] then m else Applied(AllApplied(m, log[..|log| - 1]), log[|log| - 1])
  }

  /** Only cells of the key's own kind can be stored under it. */
  predicate Kinded(k: Key, c: Cell) {
    c == Vacant || match k
                   case TaskKey(_) => c.ATask?
                   case ClientKey(_) => c.AClient?
                   case GeneKey(_) => c.AGene?
                   case DraftKey(_) => c.ADraft?
                   case NodeKey(_) => c.ANode?
  }

  lemma PutAt(m: Maps, k: Key, c: Cell, j: Key)
    requires Kinded(k, c)
    ensures At(Put(m, k, c), j) == if j == k then c else At(m, j)
  {
  }

  lemma CellsAreKinded(cmd: Command, k: Key, c: Cell)
    requires Kinded(k, c)
    ensures Kinded(k, CellStep(cmd, k, c))
  {
  }

  lemma AppliedAt(m: Maps, cmd: Command, k: Key)
    ensures At(Applied(m, cmd), k) == CellStep(cmd, k, At(m, k))
  {
    hide CellStep, Put;
    match Names(cmd.op)
    case None => assert CellStep(cmd, k, At(m, k)) == At(m, k) by { Elsewhere(cmd, k, At(m, k)); }
    case Some(j) =>
      CellsAreKinded(cmd, j, At(m, j));
      PutAt(m, j, CellStep(cmd, j, At(m, j)), k);
      if k != j { Elsewhere(cmd, k, At(m, k)); }
  }

  lemma Elsewhere(cmd: Command, k: Key, c: Cell)
    requires Names(cmd.op) != Some(k)
    ensures CellStep(cmd, k, c) == c
  {
  }

  /** The five maps are the cells under all keys. */
  lemma AtIsAll(m: Maps, n: Maps)
    requires forall k :: At(m, k) == At(n, k)
    ensures m == n
  {
    forall id ensures id in m.tasks <==> id in n.tasks ensures id in m.tasks ==> m.tasks[id] == n.tasks[id] {
      assert At(m, TaskKey(id)) == At(n, TaskKey(id));
    }
    forall id ensures id in m.clients <==> id in n.clients ensures id in m.clients ==> m.clients[id] == n.clients[id] {
      assert At(m, ClientKey(id)) == At(n, ClientKey(id));
    }
    forall id ensures id in m.genes <==> id in n.genes ensures id in m.genes ==> m.genes[id] == n.genes[id] {
      assert At(m, GeneKey(id)) == At(n, GeneKey(id));
    }
    forall id ensures id in m.drafts <==> id in n.drafts ensures id in m.drafts ==> m.drafts[id] == n.drafts[id] {
      assert At(m, DraftKey(id)) == At(n, DraftKey(id));
    }
    forall id ensures id in m.nodes <==> id in n.nodes ensures id in m.nodes ==> m.nodes[id] == n.nodes[id] {
      assert At(m, NodeKey(id)) == At(n, NodeKey(id));
    }
    assert m.tasks == n.tasks && m.clients == n.clients && m.genes == n.genes && m.drafts == n.drafts && m.nodes == n.nodes;
  }

  lemma {:induction false} LogAt(m: Maps, log: seq<Command>, k: Key)
    ensures At(AllApplied(m, log), k) == CellAfter(log, k, At(m, k))
  {
    hide At, CellStep, Applied;
    if log != [] {
      LogAt(m, log[..|log| - 1], k);
      AppliedAt(AllApplied(m, log[..|log| - 1]), log[|log| - 1], k);
    }
  }

  /** The entry under a key after a whole log is what the commands naming that key alone produce. */
  lemma KeysAreIndependent(m: Maps, log: seq<Command>, k: Key)
    ensures At(AllApplied(m, log), k) == At(AllApplied(m, Naming(log, k)), k)
  {
    LogAt(m, log, k);
    LogAt(m, Naming(log, k), k);
    OthersDoNotMatter(log, k, At(m, k));
  }

  /** Commands that name different keys commute, errors included. */
  lemma DifferentKeysCommute(m: Maps, a: Command, b: Command)
    requires Names(a.op) != Names(b.op)
    ensures Applied(Applied(m, a), b) == Applied(Applied(m, b), a)
    ensures Fails(Applied(m, a), b) == Fails(m, b) && Fails(Applied(m, b), a) == Fails(m, a)
  {
    hide At, CellStep, Applied, OnCell, Names;
    forall k ensures At(Applied(Applied(m, a), b), k) == At(Applied(Applied(m, b), a), k) {
      AppliedAt(Applied(m, a), b, k);
      AppliedAt(m, a, k);
      AppliedAt(Applied(m, b), a, k);
      AppliedAt(m, b, k);
      if Names(a.op) != Some(k) {
        Elsewhere(a, k, At(m, k));
        Elsewhere(a, k, At(Applied(m, b), k));
      } else {
        Elsewhere(b, k, At(m, k));
        Elsewhere(b, k, At(Applied(m, a), k));
      }
    }
    AtIsAll(Applied(Applied(m, a), b), Applied(Applied(m, b), a));
    FailureIsLocal(m, a, b);
    FailureIsLocal(m, b, a);
  }

  lemma FailureIsLocal(m: Maps, a: Command, b: Command)
    requires Names(a.op) != Names(b.op)
    ensures Fails(Applied(m, a), b) == Fails(m, b)
  {
    hide At, CellStep, Applied, OnCell;
    if Names(b.op).Some? {
      AppliedAt(m, a, Names(b.op).value);
      Elsewhere(a, Names(b.op).value, At(m, Names(b.op).value));
    }
  }

  /** A command that reports an error changes none of the five maps. */
  lemma ErrorsChangeNothing(m: Maps, cmd: Command)
    requires Fails(m, cmd)
    ensures Applied(m, cmd) == m
  {
    hide At, Applied, OnCell, Names;
    forall k ensures At(Applied(m, cmd), k) == At(m, k) {
      AppliedAt(m, cmd, k);
    }
    AtIsAll(Applied(m, cmd), m);
  }

  // ----- Snapshots -----

  /** A snapshot as it decodes; a map may be missing or null. */
  datatype Snap = Snap(tasks: Option<map<string, FTask>>, clients: Option<map<string, FClient>>, genes: Option<map<string, FGene>>,
                       drafts: Option<map<string, FDraft>>, nodes: Option<map<string, FNode>>)

  datatype Bytes = NoBytes | Corrupt | Json(snap: Snap)

  function OrEmpty<V>(m: Option<map<string, V>>): map<string, V> {
    if m.Some? then m.value else map[]
  }

  const NO_MAPS := Maps(map[], map[], map[], map[], map[])

  function Saved(m: Maps): Bytes {
    Json(Snap(Some(m.tasks), Some(m.clients), Some(m.genes), Some(m.drafts), Some(m.nodes)))
  }

  function Loaded(b: Bytes): Option<Maps> {
    match b
    case NoBytes => Some(NO_MAPS)
    case Corrupt => None
    case Json(s) => Some(Maps(OrEmpty(s.tasks), OrEmpty(s.clients), OrEmpty(s.genes), OrEmpty(s.drafts), OrEmpty(s.nodes)))
  }

  lemma {:induction false} AppliedInTwo(m: Maps, log: seq<Command>, split: nat)
    requires split <= |log|
    ensures AllApplied(m, log) == AllApplied(AllApplied(m, log[..split]), log[split..])
    decreases |log|
  {
    hide Applied;
    if split == |log| {
      assert log[..split] == log && log[split..] == [];
    } else {
      var front := log[..|log| - 1];
      AppliedInTwo(m, front, split);
      assert front[..split] == log[..split];
      assert log[split..][..|log[split..]| - 1] == front[split..];
    }
  }

  /** Restoring a snapshot of any prefix and applying the rest gives the maps of the whole log. */
  lemma SnapshotThenSuffix(m: Maps, log: seq<Command>, split: nat)
    requires split <= |log|
    ensures Loaded(Saved(AllApplied(m, log[..split]))).Some?
    ensures AllApplied(Loaded(Saved(AllApplied(m, log[..split]))).value, log[split..]) == AllApplied(m, log)
  {
    AppliedInTwo(m, log, split);
  }
}
