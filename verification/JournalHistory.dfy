/** What holds over whole runs of the journal: the life of a request id, what it contributes, and
    the chain of snapshots. */
module JournalHistory {
  import opened Common
  import opened JournalState
  import Ops = JournalSteps
  import opened Retention
  import opened JournalRuns

  // Fencing.

  predicate ByWorker(step: Step) {
    !step.Begin? && !step.Retain? && !step.Foreign?
  }

  /** A worker that is not the current generation of a live turn changes nothing at all, whatever
      it calls; nor does anybody acting on an id that has no turn. */
  lemma StaleWorkerChangesNothing(db: Db, step: Step)
    requires ByWorker(step)
    requires step.id !in db.turns || db.turns[step.id].generation != step.generation
    ensures Answer(db, step).Err? && Next(db, step) == db
  {
    hide TextOk, Fresh;
  }

  /** After a recovery the generation it replaced is stale, and it never becomes current again. */
  lemma {:induction false} GenerationsRise(db: Db, steps: seq<Step>, id: RequestId)
    requires Inv(db)
    requires id in db.turns && id in Exec(db, steps).turns
    ensures db.turns[id].generation <= Exec(db, steps).turns[id].generation
    decreases |steps|
  {
    hide Inv, Effect, Next, Published;
    if steps == [] {
    } else {
      var front := steps[..|steps| - 1];
      InvAlways(db, front);
      PhaseRises(db, steps, |steps| - 1, |steps|, id);
      assert steps[..|steps| - 1] == front && steps[..|steps|] == steps;
      assert id in Exec(db, front).turns by {
        PhaseRises(db, steps, 0, |steps| - 1, id);
        assert steps[..0] == [];
      }
      GenerationsRise(db, front, id);
      StepEffect(Exec(db, front), steps[|steps| - 1]);
      GenerationStep(Exec(db, front), steps[|steps| - 1], Exec(db, steps), id);
    }
  }

  lemma GenerationStep(db: Db, step: Step, d: Db, id: RequestId)
    requires Effect(db, step, d) && id in db.turns && id in d.turns
    ensures db.turns[id].generation <= d.turns[id].generation
    ensures step.Recover? && step.id == id && d != db ==> db.turns[id].generation < d.turns[id].generation
  {
    hide Began, Published, Finished, TurnMoved, RowWritten, Swept, Performed;
    if d != db {
      match step
      case Begin(r, _, _) => BegunFrame(db, r, d);
      case Commit(other, _, reply, _) => PublishedFrame(db, other, reply, d);
      case FinishTool(other, _, c, result, _, _) => FinishedFrame(db, other, c, result, d);
      case Recover(_, _, _) => TurnFrame(db, step, d);
      case Abort(_, _, _) => TurnFrame(db, step, d);
      case Retain(plan) => RetiredFrame(db, plan, d);
      case Foreign(w) => PerformFrame(db, w, d);
      case _ => RowFrame(db, step, d);
    }
  }

  // The automaton.

  datatype Phase = Absent | Live | Done(status: Status) | Gone(status: Status)

  function PhaseOf(db: Db, id: RequestId): Phase {
    if id in db.turns then
      if db.turns[id].status == Pending then Live else Done(db.turns[id].status)
    else if id in db.retired then Gone(db.retired[id].status)
    else Absent
  }

  function Rank(p: Phase): nat {
    match p
    case Absent => 0
    case Live => 1
    case Done(_) => 2
    case Gone(_) => 3
  }

  /** The only moves a request id can make, and the only operation that makes each. */
  predicate Move(step: Step, id: RequestId, from: Phase, to: Phase) {
    || from == to
    || (from == Absent && to == Live && step.Begin? && step.request.id == id)
    || (from == Live && to == Done(Committed) && step.Commit? && step.id == id)
    || (from == Live && to == Done(Aborted) && step.Abort? && step.id == id)
    || (from.Done? && to == Gone(from.status) && step.Retain?)
  }

  lemma PhaseMoves(db: Db, step: Step, d: Db, id: RequestId)
    requires Effect(db, step, d) && (id in db.turns ==> id !in db.retired)
    ensures Move(step, id, PhaseOf(db, id), PhaseOf(d, id))
  {
    hide Began, Published, Finished, TurnMoved, RowWritten, Swept, Performed;
    if d != db {
      match step
      case Begin(r, _, _) => BegunFrame(db, r, d);
      case Commit(other, _, reply, _) => PublishedFrame(db, other, reply, d);
      case FinishTool(other, _, c, result, _, _) => FinishedFrame(db, other, c, result, d);
      case Recover(_, _, _) => TurnFrame(db, step, d);
      case Abort(_, _, _) => TurnFrame(db, step, d);
      case Retain(plan) => RetiredFrame(db, plan, d);
      case Foreign(w) => PerformFrame(db, w, d);
      case _ => RowFrame(db, step, d);
    }
  }

  /** A request id only ever moves forward: absent, live, finished, retired. */
  lemma {:induction false} PhaseRises(db: Db, steps: seq<Step>, i: nat, j: nat, id: RequestId)
    requires Inv(db) && i <= j <= |steps|
    ensures Rank(PhaseOf(At(db, steps, i), id)) <= Rank(PhaseOf(At(db, steps, j), id))
    decreases j - i
  {
    hide Inv, Effect, Next, Published;
    if i == j {
    } else {
      PhaseRises(db, steps, i, j - 1, id);
      InvAlways(db, steps[..j - 1]);
      AtNext(db, steps, j - 1);
      StepMoves(At(db, steps, j - 1), steps[j - 1], id);
    }
  }

  /** The part of the invariant the automaton needs, at any point of a run. */
  lemma NeverBoth(db: Db, id: RequestId)
    requires Inv(db)
    ensures id in db.turns ==> id !in db.retired
  {}

  lemma StepMoves(db: Db, step: Step, id: RequestId)
    requires Inv(db)
    ensures Move(step, id, PhaseOf(db, id), PhaseOf(Next(db, step), id))
  {
    hide Inv, Effect, Next;
    NeverBoth(db, id);
    StepEffect(db, step);
    PhaseMoves(db, step, Next(db, step), id);
  }

  // At most one creation.

  ghost predicate Creates(db: Db, step: Step, id: RequestId) {
    && step.Begin? && step.request.id == id
    && Answer(db, step).Ok? && Answer(db, step).view.TurnView? && Answer(db, step).view.created
  }

  lemma CreationIsFirst(db: Db, step: Step, id: RequestId)
    requires Inv(db) && Creates(db, step, id)
    ensures PhaseOf(db, id) == Absent && PhaseOf(Next(db, step), id) == Live
  {
    hide Captured, Tick, Ops.BeginWrites, TextOk, Inv;
    BeginEffect(db, step.request, step.packed, step.now);
  }

  /** Over a whole run `Begin` reports `created` at most once per request id, retention included. */
  lemma CreatedAtMostOnce(db: Db, steps: seq<Step>, i: nat, j: nat, id: RequestId)
    requires Inv(db) && i < j < |steps|
    requires Creates(At(db, steps, i), steps[i], id)
    ensures !Creates(At(db, steps, j), steps[j], id)
  {
    hide Inv, Effect, Next, Creates;
    InvAlways(db, steps[..i]);
    InvAlways(db, steps[..j]);
    CreationIsFirst(At(db, steps, i), steps[i], id);
    AtNext(db, steps, i);
    PhaseRises(db, steps, i + 1, j, id);
    if Creates(At(db, steps, j), steps[j], id) {
      CreationIsFirst(At(db, steps, j), steps[j], id);
    }
  }

  ghost predicate CreatesTool(db: Db, step: Step, id: RequestId, call: CallId) {
    && step.StartTool? && step.id == id && step.call == call
    && Answer(db, step).Ok? && Answer(db, step).view.ToolView? && Answer(db, step).view.created
  }

  /** The intent was journaled once; only retiring its turn removes it. */
  predicate ToolKnown(db: Db, id: RequestId, call: CallId) {
    (id, call) in db.tools || id in db.retired
  }

  lemma ToolStaysKnown(db: Db, step: Step, d: Db, id: RequestId, call: CallId)
    requires Effect(db, step, d) && ToolKnown(db, id, call)
    ensures ToolKnown(d, id, call)
  {
    hide Began, Published, Finished, TurnMoved, RowWritten, Swept, Performed;
    if d != db {
      match step
      case Begin(r, _, _) => BegunFrame(db, r, d);
      case Commit(other, _, reply, _) => PublishedFrame(db, other, reply, d);
      case FinishTool(other, _, c, result, _, _) => FinishedFrame(db, other, c, result, d);
      case Recover(_, _, _) => TurnFrame(db, step, d);
      case Abort(_, _, _) => TurnFrame(db, step, d);
      case Retain(plan) => RetiredFrame(db, plan, d);
      case Foreign(w) => PerformFrame(db, w, d);
      case _ => RowFrame(db, step, d);
    }
  }

  lemma ToolCreationIsFirst(db: Db, step: Step, id: RequestId, call: CallId)
    requires TurnTable(db) && CreatesTool(db, step, id, call)
    ensures !ToolKnown(db, id, call) && ToolKnown(Next(db, step), id, call)
  {
    hide Effect, TextOk, Fresh;
    StartToolEffect(db, id, step.generation, call, step.name, step.args);
  }

  lemma {:induction false} ToolKnownAlways(db: Db, steps: seq<Step>, i: nat, j: nat, id: RequestId, call: CallId)
    requires Inv(db) && i <= j <= |steps| && ToolKnown(At(db, steps, i), id, call)
    ensures ToolKnown(At(db, steps, j), id, call)
    decreases j - i
  {
    hide Inv, Effect, Next, Published;
    if i == j {
    } else {
      ToolKnownAlways(db, steps, i, j - 1, id, call);
      InvAlways(db, steps[..j - 1]);
      AtNext(db, steps, j - 1);
      StepEffect(At(db, steps, j - 1), steps[j - 1]);
      ToolStaysKnown(At(db, steps, j - 1), steps[j - 1], At(db, steps, j), id, call);
    }
  }

  /** Over a whole run `StartTool` reports `created` at most once per request and call id. */
  lemma ToolCreatedAtMostOnce(db: Db, steps: seq<Step>, i: nat, j: nat, id: RequestId, call: CallId)
    requires Inv(db) && i < j < |steps|
    requires CreatesTool(At(db, steps, i), steps[i], id, call)
    ensures !CreatesTool(At(db, steps, j), steps[j], id, call)
  {
    hide Effect, Next, CreatesTool, ToolKnown;
    InvAlways(db, steps[..i]);
    InvAlways(db, steps[..j]);
    ToolCreationIsFirst(At(db, steps, i), steps[i], id, call);
    AtNext(db, steps, i);
    ToolKnownAlways(db, steps, i + 1, j, id, call);
    if CreatesTool(At(db, steps, j), steps[j], id, call) {
      ToolCreationIsFirst(At(db, steps, j), steps[j], id, call);
    }
  }

  // What a request contributes.

  /** The assistant messages of a request that a step added. */
  function NewAnswers(db: Db, d: Db, id: RequestId): set<MessageId> {
    set m | m in d.messages && m !in db.messages
            && d.messages[m].role == Assistant && d.messages[m].origin == Some(id)
  }

  /** One once the request has committed, for ever after. */
  function Settled(db: Db, id: RequestId): nat {
    if PhaseOf(db, id) == Done(Committed) || PhaseOf(db, id) == Gone(Committed) then 1 else 0
  }

  ghost function AnswersWritten(db: Db, steps: seq<Step>, id: RequestId): nat
    decreases |steps|
  {
    if steps == [] then 0
    else
      var before := steps[..|steps| - 1];
      AnswersWritten(db, before, id) + |NewAnswers(Exec(db, before), Exec(db, steps), id)|
  }

  lemma PublishedAnswers(db: Db, id: RequestId, reply: Reply, d: Db, other: RequestId)
    requires IdsBounded(db) && Published(db, id, reply, d)
    ensures NewAnswers(db, d, other) == if other == id then {d.lastMessage} else {}
  {
    hide Ticked, FactsAdded, FactsWritten, Fresh, Ops.EdgesOf, StartedCalls;
  }

  lemma OthersAnswerNothing(db: Db, step: Step, d: Db, id: RequestId)
    requires Effect(db, step, d) && !step.Commit?
    ensures NewAnswers(db, d, id) == {}
  {
    hide Began, Published, Finished, TurnMoved, RowWritten, Swept, Performed;
    if d != db {
      match step
      case Begin(r, _, _) => BegunFrame(db, r, d);
      case FinishTool(other, _, c, result, _, _) => FinishedFrame(db, other, c, result, d);
      case Recover(_, _, _) => TurnFrame(db, step, d);
      case Abort(_, _, _) => TurnFrame(db, step, d);
      case Retain(plan) => RetiredFrame(db, plan, d);
      case Foreign(w) => PerformFrame(db, w, d);
      case _ => RowFrame(db, step, d);
    }
    assert forall m :: m !in NewAnswers(db, d, id);
  }

  lemma StepAnswers(db: Db, step: Step, d: Db, id: RequestId)
    requires Inv(db) && Effect(db, step, d)
    ensures Settled(db, id) <= Settled(d, id)
    ensures |NewAnswers(db, d, id)| == Settled(d, id) - Settled(db, id)
  {
    hide Began, Published, Finished, TurnMoved, RowWritten, Swept, Performed;
    NeverBoth(db, id);
    PhaseMoves(db, step, d, id);
    if step.Commit? && d != db {
      PublishedAnswers(db, step.id, step.reply, d, id);
      PublishedFrame(db, step.id, step.reply, d);
    } else if d != db {
      OthersAnswerNothing(db, step, d, id);
    } else {
      assert NewAnswers(db, d, id) == {};
    }
  }

  /** Conservation: over any run a request id adds exactly one assistant message if it went from
      uncommitted to committed, and none otherwise: not when aborted, not on any replay. */
  lemma {:induction false} OneAnswerPerCommit(db: Db, steps: seq<Step>, id: RequestId)
    requires Inv(db)
    ensures AnswersWritten(db, steps, id) == Settled(Exec(db, steps), id) - Settled(db, id)
    decreases |steps|
  {
    hide Inv, Effect, Next, Published;
    if steps == [] {
    } else {
      var before := steps[..|steps| - 1];
      OneAnswerPerCommit(db, before, id);
      InvAlways(db, before);
      StepEffect(Exec(db, before), steps[|steps| - 1]);
      StepAnswers(Exec(db, before), steps[|steps| - 1], Exec(db, steps), id);
    }
  }

  lemma CommitPublishes(db: Db, step: Step, d: Db)
    requires Effect(db, step, d) && step.Commit? && d != db
    ensures Published(db, step.id, step.reply, d) && d.turns[step.id].updatedAt == step.now
  {
    hide Published;
  }

  /** A request that became committed did so in exactly one step, which wrote all of its reply:
      one message, one revision, its snapshot, its facts and its edges. */
  lemma {:induction false} CommittedInOneStep(db: Db, steps: seq<Step>, id: RequestId)
    returns (at: nat)
    requires Inv(db) && Settled(db, id) == 0 && Settled(Exec(db, steps), id) == 1
    ensures at < |steps| && steps[at].Commit? && steps[at].id == id
    ensures Published(At(db, steps, at), id, steps[at].reply, At(db, steps, at + 1))
    ensures id in At(db, steps, at + 1).turns && At(db, steps, at + 1).turns[id].updatedAt == steps[at].now
    ensures forall k :: at < k <= |steps| ==> Settled(At(db, steps, k), id) == 1
    ensures forall k :: 0 <= k <= at ==> Settled(At(db, steps, k), id) == 0
    decreases |steps|
  {
    hide Inv, Effect, Next, Published;
    assert steps[..0] == [];
    var before := steps[..|steps| - 1];
    assert steps[..|steps|] == steps;
    InvAlways(db, before);
    StepEffect(Exec(db, before), steps[|steps| - 1]);
    StepMoves(Exec(db, before), steps[|steps| - 1], id);
    if Settled(Exec(db, before), id) == 1 {
      at := CommittedInOneStep(db, before, id);
      forall k | 0 <= k < |steps| ensures At(db, steps, k) == At(db, before, k) {
        assert before[..k] == steps[..k];
      }
    } else {
      at := |steps| - 1;
      CommitPublishes(Exec(db, before), steps[at], Exec(db, steps));
      forall k | 0 <= k <= at ensures Settled(At(db, steps, k), id) == 0 {
        SettledRises(db, steps, k, at, id);
      }
    }
  }

  lemma {:induction false} SettledRises(db: Db, steps: seq<Step>, i: nat, j: nat, id: RequestId)
    requires Inv(db) && i <= j <= |steps|
    ensures Settled(At(db, steps, i), id) <= Settled(At(db, steps, j), id)
    decreases j - i
  {
    hide Inv, Effect, Next, Published;
    if i == j {
    } else {
      SettledRises(db, steps, i, j - 1, id);
      InvAlways(db, steps[..j - 1]);
      AtNext(db, steps, j - 1);
      StepMoves(At(db, steps, j - 1), steps[j - 1], id);
    }
  }

  // Snapshots.

  lemma EffectAdvances(db: Db, step: Step, d: Db)
    requires Inv(db) && Effect(db, step, d)
    ensures TasksAdvance(db, d)
  {
    hide Began, Published, Finished, TurnMoved, RowWritten, Swept, Performed, TasksAdvance;
    if d != db {
      match step
      case Begin(r, _, _) => BegunAdvances(db, r, d);
      case Commit(id, _, reply, _) => PublishedAdvances(db, id, reply, d);
      case FinishTool(id, _, call, result, _, _) => FinishedAdvances(db, id, call, result, d);
      case Foreign(w) => PerformedAdvances(db, w, d);
      case Recover(id, _, _) => TurnFrame(db, step, d); TurnReplacedAdvances(db, id, d);
      case Abort(id, _, _) => TurnFrame(db, step, d); TurnReplacedAdvances(db, id, d);
      case Retain(plan) => RetiredAdvances(db, plan, d);
      case _ => RowFrame(db, step, d); SameTasksAdvance(db, d);
    } else {
      SameTasksAdvance(db, d);
    }
  }

  lemma SameTasksAdvance(db: Db, d: Db)
    requires d.turns == db.turns && d.tasks == db.tasks
    ensures TasksAdvance(db, d)
  {}

  lemma PerformedAdvances(db: Db, w: Write, d: Db)
    requires IdsBounded(db) && Performed(db, w, d)
    ensures TasksAdvance(db, d)
  {
    hide TasksAdvance, Perform, Allowed;
    PerformAdvances(db, w);
  }

  lemma TurnReplacedAdvances(db: Db, id: RequestId, d: Db)
    requires TurnReplaced(db, id, d) && d.tasks == db.tasks
    ensures TasksAdvance(db, d)
  {}

  lemma RetiredAdvances(db: Db, plan: Plan, d: Db)
    requires Swept(db, plan, d)
    ensures TasksAdvance(db, d)
  {
    hide PlanOf, Candidates;
  }

  /** While a turn stays live, its task's revision never falls and its own record is fixed. */
  lemma {:induction false} LiveTurnFixed(db: Db, steps: seq<Step>, i: nat, j: nat, id: RequestId)
    requires Inv(db) && i <= j <= |steps|
    requires PhaseOf(At(db, steps, i), id) == Live && PhaseOf(At(db, steps, j), id) == Live
    ensures id in At(db, steps, i).turns && id in At(db, steps, j).turns
    ensures var a, b := At(db, steps, i), At(db, steps, j);
            var task := a.turns[id].request.task;
            && b.turns[id].request == a.turns[id].request
            && b.turns[id].taskRevision == a.turns[id].taskRevision
            && b.turns[id].package == a.turns[id].package
            && task in a.tasks && task in b.tasks
            && a.tasks[task].revision <= b.tasks[task].revision
    decreases j - i
  {
    hide Effect, Next, TurnTable, ChildRows, IdsBounded;
    InvAlways(db, steps[..i]);
    assert SnapshotTracked(At(db, steps, i), id);
    if i == j {
    } else {
      InvAlways(db, steps[..j - 1]);
      AtNext(db, steps, j - 1);
      StepEffect(At(db, steps, j - 1), steps[j - 1]);
      PhaseRises(db, steps, i, j - 1, id);
      PhaseRises(db, steps, j - 1, j, id);
      LiveTurnFixed(db, steps, i, j - 1, id);
      EffectAdvances(At(db, steps, j - 1), steps[j - 1], At(db, steps, j));
    }
  }

  /** The turn's task holds the very snapshot that was packed when the turn began. */
  ghost predicate ShowsCaptured(db: Db, id: RequestId, begun: Db) {
    && id in db.turns && id in begun.turns
    && var turn := begun.turns[id];
    && db.turns[id].package == turn.package
    && turn.request.task in db.tasks
    && db.tasks[turn.request.task].snapshot == turn.package.snapshot
    && db.tasks[turn.request.task].revision == turn.taskRevision
  }

  /** No lost snapshot update: from `Begin` to the commit that publishes it, the task's snapshot
      is at every moment the one captured in the turn's package, whatever other writers did; so
      what a commit replaces is exactly what its model was shown. */
  lemma CommitReplacesCaptured(db: Db, steps: seq<Step>, i: nat, k: nat, j: nat, id: RequestId)
    requires Inv(db) && i < k <= j < |steps|
    requires Creates(At(db, steps, i), steps[i], id)
    requires steps[j].Commit? && steps[j].id == id
    requires Published(At(db, steps, j), id, steps[j].reply, At(db, steps, j + 1))
    ensures ShowsCaptured(At(db, steps, k), id, At(db, steps, i + 1))
  {
    hide Effect, Next, Creates, TurnTable, ChildRows, IdsBounded;
    InvAlways(db, steps[..i]);
    InvAlways(db, steps[..k]);
    CreationIsFirst(At(db, steps, i), steps[i], id);
    AtNext(db, steps, i);
    PhaseRises(db, steps, i + 1, k, id);
    PhaseRises(db, steps, k, j, id);
    LiveTurnFixed(db, steps, i + 1, k, id);
    LiveTurnFixed(db, steps, k, j, id);
    assert SnapshotTracked(At(db, steps, k), id);
  }
}
