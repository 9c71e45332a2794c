/**
 The ReefFSM object (pkg/reef/raft/types.go:454-925): Apply, Snapshot, Restore, Equal and
 the compaction test.  Apply is written against the five maps; its contract says what each
 command does to them, and that this is the effect `ReplicatedState` gives it on one key.
 */
module ReefFSMs {
  import opened Tasks
  import opened Words
  import opened ReplicatedState

  /** A log entry: whether it is a normal one, and the command it decodes to. */
  datatype Entry = Entry(normal: bool, index: uint64, command: Option<Command>)

  const COMPACT_THRESHOLD: uint64 := 10000

  class ReefFSM {
    var tasks: map<string, FTask>
    var clients: map<string, FClient>
    var genes: map<string, FGene>
    var drafts: map<string, FDraft>
    var nodes: map<string, FNode>
    var appliedIndex: uint64
    var snapshotIndex: uint64
    var compactThresh: uint64

    constructor ()
      ensures View() == NO_MAPS && appliedIndex == 0 && snapshotIndex == 0 && compactThresh == 10000
    {
      tasks, clients, genes, drafts, nodes := map[], map[], map[], map[], map[];
      appliedIndex, snapshotIndex, compactThresh := 0, 0, COMPACT_THRESHOLD;
    }

    function View(): Maps
      reads this
    {
      Maps(tasks, clients, genes, drafts, nodes)
    }

    /** A command with an embedded or a registered value. */
    method ApplyValue(op: Op, ghost ts: int) returns (ok: bool)
      requires op.TaskEnqueue? || op.ClaimPost? || op.ClientRegister? || op.GeneSubmit? || op.SkillDraft?
      modifies this`tasks, this`clients, this`genes, this`drafts
      ensures ok == !Fails(old(View()), Command(op, ts)) && View() == Applied(old(View()), Command(op, ts))
    {
      ok := true;
      match op
      case TaskEnqueue(id, data, direct) =>
        if id != "" {
          if data.Garbled? {
            return false;
          }
          var task := (if data.Given? then data.task else ZERO_TASK).(id := id);
          if task.status == "" {
            task := task.(status := "Created");
          }
          tasks := tasks[task.id := task];
        } else {
          if direct.None? {
            return false;
          }
          tasks := tasks[direct.value.id := direct.value];
        }
      case ClaimPost(id, data) =>
        if id !in tasks {
          if !data.Given? {
            return false;
          }
          tasks := tasks[id := data.task.(id := id)];
        }
      case ClientRegister(info) => clients := clients[info.id := info];
      case GeneSubmit(gene) => genes := genes[gene.id := gene];
      case SkillDraft(draft) => drafts := drafts[draft.id := draft];
    }

    /** A command that changes the task it names. */
    method ApplyTask(op: Op, ts: int) returns (ok: bool)
      requires OnTask(op, ts, ZERO_TASK).Some?
      modifies this`tasks
      ensures ok == !Fails(old(View()), Command(op, ts)) && View() == Applied(old(View()), Command(op, ts))
    {
      hide Applied, Fails;
      TaskEffect(View(), op, ts);
      if op.id !in tasks {
        return false;
      }
      ok := true;
      var task := tasks[op.id];
      match op {
        case TaskAssign(_, client) =>
          task := task.(client := client);
          task := task.(status := "Running");
          task := task.(startedAt := Some(ts));
        case TaskStart(_) =>
          task := task.(status := "Running");
          task := task.(startedAt := Some(ts));
        case TaskComplete(_, result) =>
          task := task.(status := "Completed");
          task := task.(result := result);
          task := task.(completedAt := Some(ts));
        case TaskFailed(_, error, attempts) =>
          task := task.(status := "Failed");
          task := task.(error := error);
          task := task.(attempts := task.attempts + attempts);
        case TaskCancel(_) =>
          task := task.(status := "Cancelled");
          task := task.(completedAt := Some(ts));
        case TaskEscalate(_) =>
          task := task.(escalations := task.escalations + 1);
          task := task.(status := "Failed");
        case TaskTimedOut(_) =>
          task := task.(status := "Failed");
          task := task.(error := Some(Failure("TIMEOUT", "task timed out")));
        case ClaimAssign(_, client) =>
          task := task.(client := client);
          task := task.(status := "Running");
        case ClaimExpire(_) =>
          task := task.(client := "");
          task := task.(status := "Queued");
      }
      assert task == OnTask(op, ts, tasks[op.id]).value;
      tasks := tasks[op.id := task];
    }

    /** A verdict on a gene or a draft, which must be known. */
    method ApplyVerdict(op: Op, ts: int) returns (ok: bool)
      requires op.GeneApprove? || op.GeneReject? || op.SkillApprove? || op.SkillReject?
      modifies this`genes, this`drafts
      ensures ok == !Fails(old(View()), Command(op, ts)) && View() == Applied(old(View()), Command(op, ts))
    {
      match op
      case GeneApprove(id) =>
        ok := id in genes;
        if ok {
          genes := genes[id := genes[id].(status := "approved", approvedAt := Some(ts))];
        }
      case GeneReject(id) =>
        ok := id in genes;
        if ok {
          genes := genes[id := genes[id].(status := "rejected")];
        }
      case SkillApprove(id) =>
        ok := id in drafts;
        if ok {
          drafts := drafts[id := drafts[id].(status := "approved", reviewedAt := Some(ts))];
        }
      case SkillReject(id) =>
        ok := id in drafts;
        if ok {
          drafts := drafts[id := drafts[id].(status := "rejected", reviewedAt := Some(ts))];
        }
    }

    /** A command about a client already known, or a DAG node, which is made if it is not known. */
    method ApplyOther(op: Op, ts: int) returns (ok: bool)
      requires op.ClientUnregister? || op.ClientStale? || op.DagUpdate?
      modifies this`clients, this`nodes
      ensures ok == !Fails(old(View()), Command(op, ts)) && View() == Applied(old(View()), Command(op, ts))
    {
      ok := true;
      match op
      case ClientUnregister(id) => clients := clients - {id};
      case ClientStale(id) =>
        if id in clients {
          clients := clients[id := clients[id].(state := "stale")];
        }
      case DagUpdate(id, status, output) =>
        if id !in nodes {
          nodes := nodes[id := FNode(id, "", "", ts, 0)];
        }
        nodes := nodes[id := nodes[id].(status := status, output := output, updatedAt := ts)];
    }

    /** Apply.  A command that fails still counts as applied; an entry that does not decode does not. */
    method Apply(entry: Entry) returns (ok: bool)
      modifies this
      ensures snapshotIndex == old(snapshotIndex) && compactThresh == old(compactThresh)
      ensures !entry.normal ==> ok && View() == old(View()) && appliedIndex == old(appliedIndex)
      ensures entry.normal && entry.command.None? ==> !ok && View() == old(View()) && appliedIndex == old(appliedIndex)
      ensures entry.normal && entry.command.Some? ==>
        && View() == Applied(old(View()), entry.command.value) && ok == !Fails(old(View()), entry.command.value)
        && appliedIndex == entry.index
      ensures entry.normal && entry.command.Some? ==>
        var m, m', ts := old(View()), View(), entry.command.value.ts;
        match entry.command.value.op
        case TaskEnqueue(id, data, direct) =>
          if id == "" then (if direct.Some? then ok && m' == m.(tasks := m.tasks[direct.value.id := direct.value]) else !ok && m' == m)
          else if data.Garbled? then !ok && m' == m
          else
            var t := (if data.Given? then data.task else FTask("", "", "", None, None, None, None, [], 0, "")).(id := id);
            ok && m' == m.(tasks := m.tasks[id := if t.status == "" then t.(status := "Created") else t])
        case TaskAssign(id, client) =>
          if id !in m.tasks then !ok && m' == m
          else ok && m' == m.(tasks := m.tasks[id := m.tasks[id].(client := client, status := "Running", startedAt := Some(ts))])
        case TaskStart(id) =>
          if id !in m.tasks then !ok && m' == m
          else ok && m' == m.(tasks := m.tasks[id := m.tasks[id].(status := "Running", startedAt := Some(ts))])
        case TaskComplete(id, result) =>
          if id !in m.tasks then !ok && m' == m
          else ok && m' == m.(tasks := m.tasks[id := m.tasks[id].(status := "Completed", result := result, completedAt := Some(ts))])
        case TaskFailed(id, error, attempts) =>
          if id !in m.tasks then !ok && m' == m
          else ok && m' == m.(tasks := m.tasks[id := m.tasks[id].(status := "Failed", error := error, attempts := m.tasks[id].attempts + attempts)])
        case TaskCancel(id) =>
          if id !in m.tasks then !ok && m' == m
          else ok && m' == m.(tasks := m.tasks[id := m.tasks[id].(status := "Cancelled", completedAt := Some(ts))])
        case TaskEscalate(id) =>
          if id !in m.tasks then !ok && m' == m
          else ok && m' == m.(tasks := m.tasks[id := m.tasks[id].(status := "Failed", escalations := m.tasks[id].escalations + 1)])
        case TaskTimedOut(id) =>
          if id !in m.tasks then !ok && m' == m
          else ok && m' == m.(tasks := m.tasks[id := m.tasks[id].(status := "Failed", error := Some(Failure("TIMEOUT", "task timed out")))])
        case ClientRegister(info) => ok && m' == m.(clients := m.clients[info.id := info])
        case ClientUnregister(id) => ok && m' == m.(clients := m.clients - {id})
        case ClientStale(id) =>
          ok && m' == if id in m.clients then m.(clients := m.clients[id := m.clients[id].(state := "stale")]) else m
        case GeneSubmit(gene) => ok && m' == m.(genes := m.genes[gene.id := gene])
        case GeneApprove(id) =>
          if id !in m.genes then !ok && m' == m
          else ok && m' == m.(genes := m.genes[id := m.genes[id].(status := "approved", approvedAt := Some(ts))])
        case GeneReject(id) =>
          if id !in m.genes then !ok && m' == m
          else ok && m' == m.(genes := m.genes[id := m.genes[id].(status := "rejected")])
        case SkillDraft(draft) => ok && m' == m.(drafts := m.drafts[draft.id := draft])
        case SkillApprove(id) =>
          if id !in m.drafts then !ok && m' == m
          else ok && m' == m.(drafts := m.drafts[id := m.drafts[id].(status := "approved", reviewedAt := Some(ts))])
        case SkillReject(id) =>
          if id !in m.drafts then !ok && m' == m
          else ok && m' == m.(drafts := m.drafts[id := m.drafts[id].(status := "rejected", reviewedAt := Some(ts))])
        case ClaimPost(id, data) =>
          if id in m.tasks then ok && m' == m
          else if data.Given? then ok && m' == m.(tasks := m.tasks[id := data.task.(id := id)])
          else !ok && m' == m
        case ClaimAssign(id, client) =>
          if id !in m.tasks then !ok && m' == m
          else ok && m' == m.(tasks := m.tasks[id := m.tasks[id].(client := client, status := "Running")])
        case ClaimExpire(id) =>
          if id !in m.tasks then !ok && m' == m
          else ok && m' == m.(tasks := m.tasks[id := m.tasks[id].(client := "", status := "Queued")])
        case DagUpdate(node, status, output) =>
          var was := if node in m.nodes then m.nodes[node] else FNode(node, "", "", ts, 0);
          ok && m' == m.(nodes := m.nodes[node := was.(status := status, output := output, updatedAt := ts)])
        case Undecodable => !ok && m' == m
        case Unknown => ok && m' == m
    {
      if !entry.normal {
        return true;
      }
      if entry.command.None? {
        return false;
      }
      var cmd := entry.command.value;
      appliedIndex := entry.index;
      if cmd.op.Undecodable? {
        return false;
      }
      if cmd.op.Unknown? {
        return true;
      }
      if Fails(View(), cmd) {
        ErrorsChangeNothing(View(), cmd);
      }
      ok := Dispatch(cmd);
    }

    method Dispatch(cmd: Command) returns (ok: bool)
      requires !cmd.op.Undecodable? && !cmd.op.Unknown?
      modifies this`tasks, this`clients, this`genes, this`drafts, this`nodes
      ensures View() == Applied(old(View()), cmd) && ok == !Fails(old(View()), cmd)
    {
      hide Fails, Applied;
      var op := cmd.op;
      if op.TaskEnqueue? || op.ClaimPost? || op.ClientRegister? || op.GeneSubmit? || op.SkillDraft? {
        ok := ApplyValue(op, cmd.ts);
      } else if op.GeneApprove? || op.GeneReject? || op.SkillApprove? || op.SkillReject? {
        ok := ApplyVerdict(op, cmd.ts);
      } else if op.ClientUnregister? || op.ClientStale? || op.DagUpdate? {
        ok := ApplyOther(op, cmd.ts);
      } else {
        ok := ApplyTask(op, cmd.ts);
      }
    }

    /** Snapshot: encodes the maps and remembers how far they reach. */
    method Snapshot() returns (data: Bytes)
      modifies this`snapshotIndex
      ensures data == Saved(View()) && snapshotIndex == appliedIndex
    {
      data := Json(Snap(Some(tasks), Some(clients), Some(genes), Some(drafts), Some(nodes)));
      snapshotIndex := appliedIndex;
    }

    /** Restore: replaces the maps, whatever they were; the indices stay. */
    method Restore(data: Bytes) returns (ok: bool)
      modifies this`tasks, this`clients, this`genes, this`drafts, this`nodes
      ensures ok == Loaded(data).Some?
      ensures View() == if ok then Loaded(data).value else old(View())
      ensures ok <==> data != Corrupt
      ensures data == NoBytes ==> View() == Maps(map[], map[], map[], map[], map[])
      ensures data.Json? ==>
        && tasks == (if data.snap.tasks.Some? then data.snap.tasks.value else map[])
        && clients == (if data.snap.clients.Some? then data.snap.clients.value else map[])
        && genes == (if data.snap.genes.Some? then data.snap.genes.value else map[])
        && drafts == (if data.snap.drafts.Some? then data.snap.drafts.value else map[])
        && nodes == (if data.snap.nodes.Some? then data.snap.nodes.value else map[])
    {
      match data
      case NoBytes =>
        tasks, clients, genes, drafts, nodes := map[], map[], map[], map[], map[];
        ok := true;
      case Corrupt => ok := false;
      case Json(s) =>
        tasks := if s.tasks.None? then map[] else s.tasks.value;
        clients := if s.clients.None? then map[] else s.clients.value;
        genes := if s.genes.None? then map[] else s.genes.value;
        drafts := if s.drafts.None? then map[] else s.drafts.value;
        nodes := if s.nodes.None? then map[] else s.nodes.value;
        ok := true;
    }

    /** Equal: compares the encodings. */
    method Equal(other: ReefFSM) returns (same: bool)
      ensures same <==> View() == other.View()
    {
      same := Json(Snap(Some(tasks), Some(clients), Some(genes), Some(drafts), Some(nodes)))
           == Json(Snap(Some(other.tasks), Some(other.clients), Some(other.genes), Some(other.drafts), Some(other.nodes)));
    }

    /**
     ShouldCompact.  While the log is only applied forwards it compares the entries since
     the snapshot with the threshold; after older entries were replayed the difference
     wraps, and it is true unless the threshold exceeds what is left of the 64 bits.
     */
    method ShouldCompact() returns (due: bool)
      ensures due == (compactThresh != 0 &&
        (if appliedIndex >= snapshotIndex then appliedIndex - snapshotIndex > compactThresh
         else snapshotIndex - appliedIndex < UINT64 - compactThresh))
    {
      CompactionIsDueIff(appliedIndex, snapshotIndex, compactThresh);
      if compactThresh == 0 {
        return false;
      }
      var gap: int := appliedIndex - snapshotIndex;
      due := gap % UINT64 > compactThresh;
    }
  }

  /** A command on a task needs the task to be there, and changes that one entry. */
  lemma TaskEffect(m: Maps, op: Op, ts: int)
    requires OnTask(op, ts, ZERO_TASK).Some?
    ensures OnTask(op, ts, if op.id in m.tasks then m.tasks[op.id] else ZERO_TASK).Some?
    ensures Fails(m, Command(op, ts)) <==> op.id !in m.tasks
    ensures Applied(m, Command(op, ts)) ==
      if op.id in m.tasks then m.(tasks := m.tasks[op.id := OnTask(op, ts, m.tasks[op.id]).value]) else m
  {
    assert Names(op) == Some(TaskKey(op.id));
    if op.id !in m.tasks {
      assert m.tasks - {op.id} == m.tasks;
    }
  }

  predicate CompactionDue(applied: uint64, snapshot: uint64, threshold: uint64) {
    threshold != 0 && (applied - snapshot) % UINT64 > threshold
  }

  /**
   While the log is only applied forwards the test compares the true distance.  When older
   entries are replayed the difference wraps, and compaction is due unless the threshold
   exceeds what is left of the 64 bits.
   */
  lemma CompactionIsDueIff(applied: uint64, snapshot: uint64, threshold: uint64)
    ensures CompactionDue(applied, snapshot, threshold) <==>
      threshold != 0 && (if applied >= snapshot then applied - snapshot > threshold else snapshot - applied < UINT64 - threshold)
  {
    if applied < snapshot {
      assert (applied - snapshot + UINT64) % UINT64 == (applied - snapshot) % UINT64;
    }
  }

  /** The commands of a log, in order. */
  function Commands(log: seq<Entry>): seq<Command> {
    if log == [] then []
    else
      var last := log[|log| - 1];
      Commands(log[..|log| - 1]) + if last.normal && last.command.Some? then [last.command.value] else []
  }

  lemma CommandsSnoc(m: Maps, log: seq<Entry>, e: Entry)
    ensures AllApplied(m, Commands(log + [e])) ==
      if e.normal && e.command.Some? then Applied(AllApplied(m, Commands(log)), e.command.value) else AllApplied(m, Commands(log))
  {
    hide Applied;
    assert (log + [e])[..|log|] == log;
    if e.normal && e.command.Some? {
      assert (Commands(log) + [e.command.value])[..|Commands(log)|] == Commands(log);
    } else {
      assert Commands(log) + [] == Commands(log);
    }
  }

  /** Applying a log entry by entry leaves the maps that its commands determine. */
  method Replay(fsm: ReefFSM, log: seq<Entry>)
    modifies fsm
    ensures fsm.View() == AllApplied(old(fsm.View()), Commands(log))
    ensures fsm.snapshotIndex == old(fsm.snapshotIndex)
  {
    ghost var m := fsm.View();
    for i := 0 to |log|
      invariant fsm.View() == AllApplied(m, Commands(log[..i])) && fsm.snapshotIndex == old(fsm.snapshotIndex)
    {
      assert log[..i + 1][..i] == log[..i];
      CommandsSnoc(m, log[..i], log[i]);
      assert log[..i] + [log[i]] == log[..i + 1];
      var ok := fsm.Apply(log[i]);
    }
    assert log[..|log|] == log;
  }
}
