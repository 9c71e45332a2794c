/**
 The task domain object and its status machine (pkg/reef/task.go).

 A `Task` is shared by pointer between the queue, the scheduler's index and the
 DAG engine, so it is a class.  `Rec()` is the struct value the pointer refers to.
 */
module Tasks {

  datatype Option<+T> = None | Some(value: T)

  datatype Status =
    | Created | Queued | Assigned | Running | Paused | Blocked
    | Recovering | Aggregating | Completed | Failed | Cancelled | Escalated
  {
    predicate IsTerminal() {
      Completed? || Failed? || Cancelled?
    }

    /** The transition table. */
    predicate CanTransitionTo(target: Status) {
      target in match this
                case Created => {Queued, Assigned, Failed, Blocked, Aggregating, Cancelled}
                case Queued => {Assigned, Failed, Aggregating}
                case Assigned => {Running, Failed, Queued}
                case Running => {Completed, Failed, Paused, Cancelled, Queued}
                case Paused => {Running, Failed, Cancelled}
                case Blocked => {Queued, Failed, Cancelled, Recovering}
                case Recovering => {Queued, Failed, Cancelled, Blocked}
                case Aggregating => {Completed, Failed, Cancelled}
                case Completed => {}
                case Failed => {Queued, Escalated}
                case Escalated => {Queued, Failed, Cancelled}
                case Cancelled => {}
    }
  }

  /** One execution attempt; `status` is free text sent by a client. */
  datatype Attempt = Attempt(status: string, client: string)

  datatype TaskRec = TaskRec(
    id: string, status: Status, role: string, skills: seq<string>, priority: int,
    parent: string, subTasks: seq<string>, deps: seq<string>,
    client: string, attempts: seq<Attempt>, createdAt: int, escalations: int,
    pauseReason: string, result: Option<string>, error: Option<string>)
  {
    /** The task after `Transition(to)`; an edge outside the table changes nothing. */
    function Moved(to: Status): (r: TaskRec)
      ensures r.(status := status) == this
    {
      if status.CanTransitionTo(to) then this.(status := to) else this
    }

    /** Whether the task occupies a slot on the client it is assigned to. */
    predicate HoldsSlot() {
      status.Running? || status.Paused?
    }
  }

  class Task {
    const id: string
    var status: Status
    const role: string
    const skills: seq<string>
    var priority: int
    const parent: string
    var subTasks: seq<string>
    const deps: seq<string>
    var client: string
    var attempts: seq<Attempt>
    const createdAt: int
    var escalations: int
    var pauseReason: string
    var result: Option<string>
    var error: Option<string>

    function Rec(): TaskRec
      reads this
    {
      TaskRec(id, status, role, skills, priority, parent, subTasks, deps,
              client, attempts, createdAt, escalations, pauseReason, result, error)
    }

    /** A fresh struct holding a copy of `r`. */
    constructor (r: TaskRec)
      ensures Rec() == r
    {
      id, status, role, skills, priority := r.id, r.status, r.role, r.skills, r.priority;
      parent, subTasks, deps := r.parent, r.subTasks, r.deps;
      client, attempts, createdAt, escalations := r.client, r.attempts, r.createdAt, r.escalations;
      pauseReason, result, error := r.pauseReason, r.result, r.error;
    }

    method Transition(to: Status) returns (ok: bool)
      modifies this`status
      ensures ok == old(status).CanTransitionTo(to) && status == if ok then to else old(status)
      ensures Rec() == old(Rec()).Moved(to)
    {
      ok := status.CanTransitionTo(to);
      if ok {
        status := to;
      }
    }
  }

  /** The table read the other way: from where each status can be reached. */
  lemma ReachedFrom(s: Status, t: Status)
    ensures s.CanTransitionTo(t) <==>
      match t
      case Created => false
      case Queued => s in {Created, Assigned, Running, Blocked, Recovering, Failed, Escalated}
      case Assigned => s in {Created, Queued}
      case Running => s in {Assigned, Paused}
      case Paused => s == Running
      case Blocked => s in {Created, Recovering}
      case Recovering => s == Blocked
      case Aggregating => s in {Created, Queued}
      case Completed => s in {Running, Aggregating}
      case Failed => s !in {Completed, Failed, Cancelled}
      case Escalated => s == Failed
      case Cancelled => s in {Created, Running, Paused, Blocked, Recovering, Aggregating, Escalated}
    ensures s.IsTerminal() <==> s in {Completed, Failed, Cancelled}
  {
  }
}
