/** The snapshots of one task over a run: a serial chain, in which each commit replaces exactly the
    value the last writer before its turn left. */
module SnapshotChain {
  import opened Common
  import opened JournalState
  import Ops = JournalSteps
  import opened Retention
  import opened JournalRuns
  import opened JournalHistory

  /** The step writes the snapshot of `t`: a published commit, or another writer's change of the row. */
  ghost predicate Writes(db: Db, step: Step, d: Db, t: TaskId) {
    match step
    case Commit(id, _, _, _) => d != db && id in db.turns && db.turns[id].request.task == t
    case Foreign(PutTask(task, row)) => d != db && task == t && !(t in db.tasks && db.tasks[t] == row)
    case Foreign(DropTask(task)) => d != db && task == t
    case _ => false
  }

  ghost predicate SameSnapshot(db: Db, d: Db, t: TaskId) {
    && (t in db.tasks <==> t in d.tasks)
    && (t in db.tasks && t in d.tasks ==> d.tasks[t].snapshot == db.tasks[t].snapshot)
  }

  lemma BegunSnapshot(db: Db, r: Request, d: Db, t: TaskId)
    requires Began(db, r, d)
    ensures SameSnapshot(db, d, t)
  {
    hide Captured, Tick, Ops.TaskBusy;
  }

  lemma PublishedSnapshot(db: Db, id: RequestId, reply: Reply, d: Db, t: TaskId)
    requires Published(db, id, reply, d)
    ensures id in db.turns && db.turns[id].request.task in db.tasks
    ensures db.turns[id].request.task != t ==> SameSnapshot(db, d, t)
    ensures db.turns[id].request.task == t ==>
              t in d.tasks && d.tasks[t].snapshot == Ops.NewSnapshot(db.tasks[t], reply)
              && d.tasks[t].revision == db.tasks[t].revision + 1
  {
    hide Ticked, FactsAdded, FactsWritten, Fresh, Ops.EdgesOf, StartedCalls;
  }

  lemma PerformedSnapshot(db: Db, w: Write, d: Db, t: TaskId)
    requires Performed(db, w, d) && !Writes(db, Foreign(w), d, t)
    ensures SameSnapshot(db, d, t)
  {
    hide Allowed, Tick, TickMove;
  }

  lemma KeepsSnapshot(db: Db, step: Step, d: Db, t: TaskId)
    requires Effect(db, step, d) && !Writes(db, step, d, t)
    ensures SameSnapshot(db, d, t)
  {
    hide Began, Published, Finished, TurnMoved, RowWritten, Swept, Performed, Allowed;
    if d != db {
      match step
      case Begin(r, _, _) => BegunSnapshot(db, r, d, t);
      case Commit(id, _, reply, _) => PublishedSnapshot(db, id, reply, d, t);
      case FinishTool(id, _, c, result, _, _) => FinishedFrame(db, id, c, result, d);
      case Recover(_, _, _) => TurnFrame(db, step, d);
      case Abort(_, _, _) => TurnFrame(db, step, d);
      case Retain(plan) => RetiredFrame(db, plan, d);
      case Foreign(w) => PerformedSnapshot(db, w, d, t);
      case _ => RowFrame(db, step, d);
    }
  }

  /** The value a write leaves. */
  ghost predicate Leaves(db: Db, step: Step, d: Db, t: TaskId) {
    && Writes(db, step, d, t) && t in d.tasks
    && (step.Commit? ==> t in db.tasks && d.tasks[t].snapshot == Ops.NewSnapshot(db.tasks[t], step.reply))
    && (step.Foreign? ==> step.write.PutTask? && d.tasks[t].snapshot == step.write.row.snapshot)
  }

  lemma RowPut(db: Db, task: TaskId, row: TaskRow, d: Db, t: TaskId)
    requires Performed(db, PutTask(task, row), d) && Writes(db, Foreign(PutTask(task, row)), d, t)
    ensures t in d.tasks && d.tasks[t] == row && (t in db.tasks ==> db.tasks[t].revision < row.revision)
  {
    hide Tick, TickMove, TextOk;
  }

  lemma RowDropped(db: Db, task: TaskId, d: Db, t: TaskId)
    requires Performed(db, DropTask(task), d) && Writes(db, Foreign(DropTask(task)), d, t)
    ensures t !in d.tasks
  {
    hide Tick, TickMove, Allowed;
  }

  lemma ForeignPerformed(db: Db, w: Write, d: Db)
    requires Effect(db, Foreign(w), d) && d != db
    ensures Performed(db, w, d)
  {
    hide Performed;
  }

  /** A write shows: the row goes, comes, or rises in revision; and it leaves its value. */
  lemma WriteLeaves(db: Db, step: Step, d: Db, t: TaskId)
    requires Effect(db, step, d) && Writes(db, step, d, t) && t in d.tasks
    ensures Leaves(db, step, d, t)
    ensures t in db.tasks ==> db.tasks[t].revision < d.tasks[t].revision
  {
    hide Published, Performed, Effect;
    match step
    case Commit(id, _, reply, _) =>
      CommitPublishes(db, step, d);
      PublishedSnapshot(db, id, reply, d, t);
    case Foreign(w) =>
      ForeignPerformed(db, w, d);
      if w.PutTask? {
        RowPut(db, w.task, w.row, d, t);
      } else if w.DropTask? {
        RowDropped(db, w.task, d, t);
      }
  }

  ghost predicate WritesAt(db: Db, steps: seq<Step>, k: nat, t: TaskId)
    requires k < |steps|
  {
    Writes(At(db, steps, k), steps[k], At(db, steps, k + 1), t)
  }

  lemma StepAt(db: Db, steps: seq<Step>, k: nat)
    requires Inv(db) && k < |steps|
    ensures Inv(At(db, steps, k)) && Effect(At(db, steps, k), steps[k], At(db, steps, k + 1))
    ensures At(db, steps, k + 1) == Next(At(db, steps, k), steps[k])
  {
    hide Inv, Effect, Next;
    InvAlways(db, steps[..k]);
    AtNext(db, steps, k);
    StepEffect(At(db, steps, k), steps[k]);
  }

  /** The last write of a task's snapshot before a point, and that its value is still there. */
  lemma {:induction false} LastWrite(db: Db, steps: seq<Step>, j: nat, n: nat, t: TaskId) returns (k: nat)
    requires Inv(db) && j < n <= |steps| && WritesAt(db, steps, j, t)
    ensures j <= k < n && WritesAt(db, steps, k, t)
    ensures forall m :: k < m < n ==> !WritesAt(db, steps, m, t)
    ensures SameSnapshot(At(db, steps, k + 1), At(db, steps, n), t)
    decreases n - j
  {
    hide Inv, Effect, Next, Writes;
    StepAt(db, steps, n - 1);
    if n == j + 1 || WritesAt(db, steps, n - 1, t) {
      k := n - 1;
    } else {
      k := LastWrite(db, steps, j, n - 1, t);
      KeepsSnapshot(At(db, steps, n - 1), steps[n - 1], At(db, steps, n), t);
    }
  }

  /** One turn committed while another of its task was live is impossible, so commits of a task nest no
      turns: the later commit's turn began after the earlier commit. */
  lemma BeginsAfter(db: Db, steps: seq<Step>, j: nat, i: nat, n: nat, id: RequestId, other: RequestId)
    requires Inv(db) && i < n < |steps| && j < n && id != other
    requires Creates(At(db, steps, i), steps[i], other) && PhaseOf(At(db, steps, n), other) == Live
    requires steps[j].Commit? && PhaseOf(At(db, steps, j), id) == Live
    requires At(db, steps, j).turns[id].request.task == steps[i].request.task
    ensures j < i
  {
    hide Inv, Effect, Next, Creates;
    if i < j {
      StepAt(db, steps, i);
      InvAlways(db, steps[..j]);
      CreationIsFirst(At(db, steps, i), steps[i], other);
      CreatedRow(At(db, steps, i), steps[i], other);
      PhaseRises(db, steps, i + 1, j, other);
      PhaseRises(db, steps, j, n, other);
      LiveTurnFixed(db, steps, i + 1, j, other);
      TwoLive(At(db, steps, j), id, other);
    } else {
      BeginIsNoCommit(At(db, steps, i), steps[i], other);
    }
  }

  lemma BeginIsNoCommit(db: Db, step: Step, id: RequestId)
    requires Creates(db, step, id)
    ensures step.Begin? && step.request.id == id
  {}

  lemma CreatedRow(db: Db, step: Step, id: RequestId)
    requires Inv(db) && Creates(db, step, id)
    ensures step.Begin? && id in Next(db, step).turns && Next(db, step).turns[id].request == step.request
  {
    hide Captured, Tick, Ops.BeginWrites, TextOk, Inv;
    BeginEffect(db, step.request, step.packed, step.now);
  }

  lemma TwoLive(db: Db, a: RequestId, b: RequestId)
    requires Inv(db) && a != b && PhaseOf(db, a) == Live && PhaseOf(db, b) == Live
    ensures db.turns[a].request.task != db.turns[b].request.task
  {}

  /** While the turn is shown its captured snapshot, nobody writes the snapshot. */
  lemma NoWriteUnderTurn(db: Db, steps: seq<Step>, i: nat, m: nat, j: nat, id: RequestId)
    requires Inv(db) && i < m < j < |steps| && Creates(At(db, steps, i), steps[i], id)
    requires steps[j].Commit? && steps[j].id == id
    requires Published(At(db, steps, j), id, steps[j].reply, At(db, steps, j + 1))
    ensures steps[i].Begin? && !WritesAt(db, steps, m, steps[i].request.task)
  {
    hide Inv, Effect, Next, Creates, Published, Writes;
    StepAt(db, steps, i);
    StepAt(db, steps, m);
    CreatedRow(At(db, steps, i), steps[i], id);
    CommitReplacesCaptured(db, steps, i, m, j, id);
    CommitReplacesCaptured(db, steps, i, m + 1, j, id);
    if WritesAt(db, steps, m, steps[i].request.task) {
      WriteLeaves(At(db, steps, m), steps[m], At(db, steps, m + 1), steps[i].request.task);
    }
  }

  /** The serial chain: take any two requests committed on one task, in either order of beginning. The turn
      of the later commit began after the earlier commit; and there is a last writer from that commit on
      (the commit itself, another commit, or a foreign write of the row) whose value the later package
      shows, which nobody overwrote until the later commit, and which that commit replaces. */
  lemma SerialChain(db: Db, steps: seq<Step>, first: nat, begun: nat, second: nat, id: RequestId, other: RequestId)
    returns (k: nat)
    requires Inv(db) && first < second < |steps| && begun < second && id != other
    requires steps[first].Commit? && steps[first].id == id && steps[second].Commit? && steps[second].id == other
    requires Published(At(db, steps, first), id, steps[first].reply, At(db, steps, first + 1))
    requires Published(At(db, steps, second), other, steps[second].reply, At(db, steps, second + 1))
    requires Creates(At(db, steps, begun), steps[begun], other)
    requires id in At(db, steps, first).turns && steps[begun].Begin?
    requires At(db, steps, first).turns[id].request.task == steps[begun].request.task
    ensures first <= k < begun
    ensures var t := steps[begun].request.task;
            && Leaves(At(db, steps, k), steps[k], At(db, steps, k + 1), t)
            && (forall m :: k < m < second ==> !WritesAt(db, steps, m, t))
            && other in At(db, steps, second).turns && t in At(db, steps, second).tasks
            && At(db, steps, second).turns[other].package.snapshot == At(db, steps, k + 1).tasks[t].snapshot
            && At(db, steps, second).tasks[t].snapshot == At(db, steps, k + 1).tasks[t].snapshot
  {
    hide Inv, Effect, Next, Creates, Published, Writes, Leaves;
    var t := steps[begun].request.task;
    LivePublished(At(db, steps, first), id, steps[first].reply, At(db, steps, first + 1));
    LivePublished(At(db, steps, second), other, steps[second].reply, At(db, steps, second + 1));
    BeginsAfter(db, steps, first, begun, second, id, other);
    StepAt(db, steps, begun);
    CreatedRow(At(db, steps, begun), steps[begun], other);
    CommitWritesTask(At(db, steps, first), steps[first], At(db, steps, first + 1), t);
    k := LastWrite(db, steps, first, begun, t);
    BeginWritesNone(At(db, steps, begun), steps[begun], At(db, steps, begun + 1), t);
    KeepsSnapshot(At(db, steps, begun), steps[begun], At(db, steps, begun + 1), t);
    CommitReplacesCaptured(db, steps, begun, begun + 1, second, other);
    CommitReplacesCaptured(db, steps, begun, second, second, other);
    StepAt(db, steps, k);
    WriteLeaves(At(db, steps, k), steps[k], At(db, steps, k + 1), t);
    forall m | k < m < second ensures !WritesAt(db, steps, m, t) {
      if m > begun {
        NoWriteUnderTurn(db, steps, begun, m, second, other);
      }
    }
  }

  lemma LivePublished(db: Db, id: RequestId, reply: Reply, d: Db)
    requires Published(db, id, reply, d)
    ensures PhaseOf(db, id) == Live
  {
    hide Ticked, FactsAdded, FactsWritten, Fresh, Ops.EdgesOf, StartedCalls;
  }

  lemma CommitWritesTask(db: Db, step: Step, d: Db, t: TaskId)
    requires step.Commit? && Published(db, step.id, step.reply, d)
    requires step.id in db.turns && db.turns[step.id].request.task == t
    ensures Writes(db, step, d, t)
  {
    hide Published;
    PublishedFrame(db, step.id, step.reply, d);
  }

  lemma BeginWritesNone(db: Db, step: Step, d: Db, t: TaskId)
    requires step.Begin?
    ensures !Writes(db, step, d, t)
  {}
}
