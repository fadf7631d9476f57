/** Freshness of scoped turns: what the captured clocks mean over a whole run. */
module Freshness {
  import opened Common
  import Ancestry
  import opened JournalState
  import Ops = JournalSteps
  import opened Retention
  import opened JournalRuns
  import opened JournalHistory

  // What one task's memory is, apart from the outputs of one turn's own tools.

  type Messages = map<MessageId, Message>
  type Facts = map<int, Fact>

  predicate Counts(messages: Messages, m: MessageId, task: TaskId, id: RequestId) {
    && m in messages && messages[m].task == task
    && !(messages[m].role == Tool && messages[m].origin == Some(id))
  }

  ghost predicate SameTask(a: Db, b: Db, task: TaskId) {
    && (task in a.tasks <==> task in b.tasks)
    && (task in a.tasks ==> a.tasks[task] == b.tasks[task])
    && Ancestry.ParentsOf(a.parents, task) == Ancestry.ParentsOf(b.parents, task)
  }

  ghost predicate SameMessages(a: Messages, b: Messages, task: TaskId, id: RequestId) {
    && (forall m :: Counts(a, m, task, id) <==> Counts(b, m, task, id))
    && (forall m :: Counts(a, m, task, id) ==> m in b && a[m] == b[m])
  }

  ghost predicate SameFacts(a: Facts, b: Facts, task: TaskId) {
    && (forall f :: f in a && a[f].task == task ==> f in b && b[f] == a[f])
    && (forall f :: f in b && b[f].task == task ==> f in a && a[f] == b[f])
  }

  /** The task row, its parents, its facts and its messages are the same in both states. */
  ghost predicate SameMemory(a: Db, b: Db, task: TaskId, id: RequestId) {
    SameTask(a, b, task) && SameMessages(a.messages, b.messages, task, id) && SameFacts(a.facts, b.facts, task)
  }

  lemma SameMemoryThen(a: Db, b: Db, c: Db, task: TaskId, id: RequestId)
    requires SameMemory(a, b, task, id) && SameMemory(b, c, task, id)
    ensures SameMemory(a, c, task, id)
  {}

  // What one step can do to clocks and memory.

  ghost predicate LosesClock(step: Step, t: TaskId) {
    step.Foreign? && step.write == LoseClock(t)
  }

  predicate OwnOutput(step: Step, id: RequestId) {
    step.FinishTool? && step.id == id
  }

  /** A step advances the clocks of the tasks whose memory it touches, and no other task clock;
      the global clock advances whenever any memory is touched. */
  ghost predicate Touches(db: Db, d: Db, owners: set<TaskId>, id: RequestId) {
    && (owners == {} ==> forall t :: t in d.clock && t in db.clock ==> d.clock[t] == db.clock[t])
    && (owners != {} ==> Ticked(db.clock, d.clock, owners))
    && (forall t :: t !in owners ==> SameMemory(db, d, t, id))
  }

  lemma BegunTouches(db: Db, r: Request, d: Db, id: RequestId)
    requires IdsBounded(db) && Began(db, r, d)
    ensures Touches(db, d, {r.task}, id)
  {
    hide Captured, Tick, Ops.TaskBusy;
    TickTicks(db.clock, r.task);
    TickTicks(Tick(db.clock, r.task), r.task);
  }

  lemma PublishedTouches(db: Db, actor: RequestId, reply: Reply, d: Db, id: RequestId)
    requires IdsBounded(db) && Published(db, actor, reply, d)
    ensures actor in db.turns && Touches(db, d, {db.turns[actor].request.task}, id)
  {
    hide Ticked, Fresh, StartedCalls, Ops.EdgesOf;
  }

  lemma FinishedTouches(db: Db, actor: RequestId, call: CallId, result: Json, d: Db, id: RequestId)
    requires IdsBounded(db) && Finished(db, actor, call, result, d)
    ensures actor in db.turns && Touches(db, d, {db.turns[actor].request.task}, id)
    ensures actor == id ==> forall t :: SameMemory(db, d, t, id)
  {
    hide Tick, SameMemory;
    var task := db.turns[actor].request.task;
    TickTicks(db.clock, task);
    OutputAdded(db, d, task, result, actor, id);
    hide Finished;
  }

  /** A tool output is no memory of other tasks, and none that counts for its own turn. */
  lemma OutputAdded(db: Db, d: Db, task: TaskId, result: Json, actor: RequestId, id: RequestId)
    requires d.tasks == db.tasks && d.parents == db.parents && d.facts == db.facts
    requires d.messages == db.messages[d.lastMessage := Message(task, Tool, result, Some(actor))]
    requires d.lastMessage !in db.messages
    ensures forall t :: t != task || actor == id ==> SameMemory(db, d, t, id)
  {}

  lemma NothingTouched(db: Db, d: Db, id: RequestId)
    requires d.tasks == db.tasks && d.parents == db.parents && d.messages == db.messages
    requires d.facts == db.facts && d.clock == db.clock
    ensures Touches(db, d, {}, id)
  {}

  /** The task or tasks whose rows a foreign statement touches. */
  function Owners(db: Db, w: Write): set<TaskId> {
    match w
    case PutTask(t, _) => {t}
    case DropTask(t) => {t}
    case PutParents(t, _) => {t}
    case PutMessage(m, t, _, _) => if m in db.messages then {db.messages[m].task, t} else {t}
    case DropMessage(m) => if m in db.messages then {db.messages[m].task} else {}
    case PutFact(f, fact) => if f in db.facts then {db.facts[f].task, fact.task} else {fact.task}
    case DropFact(f) => if f in db.facts then {db.facts[f].task} else {}
    case TouchAlias(t) => {t}
    case LoseClock(_) => {}
  }

  lemma TickMoveTicks(clock: map<TaskId, int>, from: TaskId, to: TaskId)
    ensures Ticked(clock, TickMove(clock, from, to), {from, to})
    ensures from == to ==> Ticked(clock, TickMove(clock, from, to), {to})
  {}

  lemma MovedClock(db: Db, w: Write)
    requires w.PutMessage? || w.PutFact?
    ensures Owners(db, w) != {} && Ticked(db.clock, Perform(db, w).clock, Owners(db, w))
  {
    hide Ticked, TickMove;
    if w.PutMessage? {
      TickMoveTicks(db.clock, if w.message in db.messages then db.messages[w.message].task else w.owner, w.owner);
      assert w.owner in Owners(db, w);
    } else {
      TickMoveTicks(db.clock, if w.factId in db.facts then db.facts[w.factId].task else w.fact.task, w.fact.task);
      assert w.fact.task in Owners(db, w);
    }
  }

  lemma PerformClock(db: Db, w: Write)
    requires !w.LoseClock?
    ensures var d := Perform(db, w);
            if Owners(db, w) == {} then d.clock == db.clock else Ticked(db.clock, d.clock, Owners(db, w))
  {
    if w.PutMessage? || w.PutFact? {
      MovedClock(db, w);
    } else {
      SimpleClock(db, w);
    }
    hide Ticked, Tick, TickMove, Owners, Perform;
  }

  lemma SimpleClock(db: Db, w: Write)
    requires !w.LoseClock? && !w.PutMessage? && !w.PutFact?
    ensures var d := Perform(db, w);
            if Owners(db, w) == {} then d.clock == db.clock else Ticked(db.clock, d.clock, Owners(db, w))
  {
    hide Ticked, Tick;
    match w
    case PutTask(t, _) => TickTicks(db.clock, t);
    case DropTask(t) => TickTicks(db.clock, t);
    case PutParents(t, _) => TickTicks(db.clock, t);
    case DropMessage(m) => if m in db.messages { TickTicks(db.clock, db.messages[m].task); }
    case DropFact(f) => if f in db.facts { TickTicks(db.clock, db.facts[f].task); }
    case TouchAlias(t) => TickTicks(db.clock, t);
  }

  lemma PerformMemory(db: Db, w: Write, t: TaskId, id: RequestId)
    requires t !in Owners(db, w)
    ensures SameMemory(db, Perform(db, w), t, id)
  {
    hide Perform, Owners, SameTask, SameMessages, SameFacts;
    PerformTask(db, w, t);
    PerformOnMessages(db, w, t, id);
    PerformFacts(db, w, t);
  }

  lemma PerformTask(db: Db, w: Write, t: TaskId)
    requires t !in Owners(db, w)
    ensures SameTask(db, Perform(db, w), t)
  {
    hide Tick, TickMove, SameTask;
    var d := Perform(db, w);
    if w.PutTask? {
      TaskElsewhere(db, d, t);
    } else if w.DropTask? {
      TaskElsewhere(db, d, t);
    } else {
      assert d.tasks == db.tasks;
      ParentsElsewhere(db, d, w, t);
    }
  }

  lemma TaskElsewhere(db: Db, d: Db, t: TaskId)
    requires d.parents == db.parents && (t in d.tasks <==> t in db.tasks)
    requires t in db.tasks ==> d.tasks[t] == db.tasks[t]
    ensures SameTask(db, d, t)
  {}

  lemma ParentsElsewhere(db: Db, d: Db, w: Write, t: TaskId)
    requires d == Perform(db, w) && d.tasks == db.tasks && t !in Owners(db, w)
    requires !w.PutTask? && !w.DropTask?
    ensures SameTask(db, d, t)
  {
    hide Tick, TickMove;
  }

  lemma PerformOnMessages(db: Db, w: Write, t: TaskId, id: RequestId)
    requires t !in Owners(db, w)
    ensures SameMessages(db.messages, Perform(db, w).messages, t, id)
  {
    hide Tick, TickMove, SameMessages;
    if w.PutMessage? {
      MessageElsewhere(db.messages, w.message, Message(w.owner, w.role, w.content, None), t, id);
    } else if w.DropMessage? && w.message in db.messages {
      DropElsewhere(db.messages, w.message, t, id);
    } else {
      NoMessage(db.messages, t, id);
    }
  }

  lemma NoMessage(ms: Messages, t: TaskId, id: RequestId)
    ensures SameMessages(ms, ms, t, id)
  {}

  lemma MessageElsewhere(ms: Messages, m: MessageId, row: Message, t: TaskId, id: RequestId)
    requires row.task != t && (m in ms ==> ms[m].task != t)
    ensures SameMessages(ms, ms[m := row], t, id)
  {}

  lemma DropElsewhere(ms: Messages, m: MessageId, t: TaskId, id: RequestId)
    requires m in ms ==> ms[m].task != t
    ensures SameMessages(ms, ms - {m}, t, id)
  {}

  lemma PerformFacts(db: Db, w: Write, t: TaskId)
    requires t !in Owners(db, w)
    ensures SameFacts(db.facts, Perform(db, w).facts, t)
  {
    hide Tick, TickMove, SameFacts;
    FactsElsewhere(db.facts, if w.PutFact? || w.DropFact? then w.factId else 0, t);
  }

  lemma FactsElsewhere(fs: Facts, f: int, t: TaskId)
    ensures SameFacts(fs, fs, t)
    ensures f in fs ==> fs[f].task == t || SameFacts(fs, fs - {f}, t)
    ensures forall row: Fact :: row.task != t && (f in fs ==> fs[f].task != t) ==> SameFacts(fs, fs[f := row], t)
  {}

  lemma PerformTouches(db: Db, w: Write, id: RequestId)
    ensures Touches(db, Perform(db, w), Owners(db, w), id)
  {
    hide SameMemory, Perform, Owners, Ticked;
    forall t | t !in Owners(db, w) ensures SameMemory(db, Perform(db, w), t, id) {
      PerformMemory(db, w, t, id);
    }
    if w.LoseClock? {
      LostClock(db, w.task);
    } else {
      PerformClock(db, w);
    }
  }

  lemma LostClock(db: Db, t: TaskId)
    ensures Owners(db, LoseClock(t)) == {} && Perform(db, LoseClock(t)).clock == db.clock - {t}
  {}

  /** The tasks one step touches. */
  lemma StepTouches(db: Db, step: Step, d: Db, id: RequestId) returns (owners: set<TaskId>)
    requires Inv(db) && Effect(db, step, d)
    ensures Touches(db, d, owners, id)
    ensures OwnOutput(step, id) ==> forall t :: SameMemory(db, d, t, id)
    ensures OwnOutput(step, id) && d != db ==> id in db.turns && owners == {db.turns[id].request.task}
  {
    hide Began, Published, Finished, TurnMoved, RowWritten, Swept, Performed, Touches, SameMemory, TurnTable;
    owners := {};
    if d == db {
      NothingTouched(db, d, id);
      SameAsItself(db, id);
    } else {
      match step
      case Begin(r, _, _) => BegunTouches(db, r, d, id); owners := {r.task};
      case Commit(actor, _, reply, _) =>
        PublishedTouches(db, actor, reply, d, id);
        owners := {db.turns[actor].request.task};
      case FinishTool(actor, _, call, result, _, _) =>
        FinishedTouches(db, actor, call, result, d, id);
        owners := {db.turns[actor].request.task};
      case Recover(_, _, _) => TurnFrame(db, step, d); NothingTouched(db, d, id);
      case Abort(_, _, _) => TurnFrame(db, step, d); NothingTouched(db, d, id);
      case Retain(plan) => RetiredFrame(db, plan, d); NothingTouched(db, d, id);
      case Foreign(w) => PerformedTouches(db, w, d, id); owners := Owners(db, w);
      case _ => RowFrame(db, step, d); NothingTouched(db, d, id);
    }
  }

  lemma SameAsItself(db: Db, id: RequestId)
    ensures forall t :: SameMemory(db, db, t, id)
  {}

  lemma PerformedTouches(db: Db, w: Write, d: Db, id: RequestId)
    requires Performed(db, w, d)
    ensures Touches(db, d, Owners(db, w), id)
  {
    hide Touches, Perform, Allowed;
    PerformTouches(db, w, id);
  }

  // The basis of a turn.

  /** How far a captured clock has run ahead of the turn's basis. */
  function Gap(db: Db, id: RequestId, t: TaskId): int
    requires (id, t) in db.basis && t in db.clock
  {
    db.clock[t] - db.basis[(id, t)]
  }

  /** Advances of a clock that are not this turn's own tool output. */
  function ForeignTicks(db: Db, step: Step, d: Db, id: RequestId, t: TaskId): int {
    if OwnOutput(step, id) || t !in db.clock || t !in d.clock then 0 else d.clock[t] - db.clock[t]
  }

  lemma BegunBasis(db: Db, r: Request, d: Db, id: RequestId)
    requires Began(db, r, d) && id != r.id
    ensures BasisRows(d, id) == BasisRows(db, id)
    ensures forall k :: k in BasisRows(db, id) ==> d.basis[k] == db.basis[k]
  {
    hide Tick, ScopeTasks, Ops.TaskBusy;
    assert forall k :: k in BasisRows(d, id) <==> k in BasisRows(db, id);
  }

  lemma SweptBasis(db: Db, plan: Plan, d: Db, id: RequestId)
    requires Swept(db, plan, d) && id in d.turns
    ensures BasisRows(d, id) == BasisRows(db, id)
    ensures forall k :: k in BasisRows(db, id) ==> d.basis[k] == db.basis[k]
  {
    hide PlanOf, Candidates;
    assert forall k :: k in BasisRows(d, id) <==> k in BasisRows(db, id);
  }

  lemma FinishedBasis(db: Db, actor: RequestId, call: CallId, result: Json, d: Db, id: RequestId)
    requires Finished(db, actor, call, result, d)
    ensures BasisRows(d, id) == BasisRows(db, id)
    ensures forall k :: k in BasisRows(db, id) && k.1 in db.clock ==>
              && k.1 in d.clock
              && d.basis[k] - db.basis[k] == if actor == id then d.clock[k.1] - db.clock[k.1] else 0
  {
    TickTicks(db.clock, db.turns[actor].request.task);
    hide Tick;
    assert forall k :: k in BasisRows(d, id) <==> k in BasisRows(db, id);
  }

  /** The basis of a turn keeps its rows while the turn lives, and moves only with the turn's own
      tool output, by exactly what that output moved the clock. */
  lemma BasisStep(db: Db, step: Step, d: Db, id: RequestId)
    requires Inv(db) && Effect(db, step, d) && id in db.turns && id in d.turns
    ensures BasisRows(d, id) == BasisRows(db, id)
    ensures forall k :: k in BasisRows(db, id) && k.1 in db.clock && (OwnOutput(step, id) ==> k.1 in d.clock) ==>
              d.basis[k] - db.basis[k] == if OwnOutput(step, id) then d.clock[k.1] - db.clock[k.1] else 0
    ensures forall k :: k in BasisRows(db, id) && k.1 in db.clock && OwnOutput(step, id) ==> k.1 in d.clock
  {
    hide Began, Published, Finished, TurnMoved, RowWritten, Swept, Performed, Inv, BasisRows;
    if d != db {
      match step
      case Begin(r, _, _) => BegunFrame(db, r, d); BegunBasis(db, r, d, id);
      case Commit(actor, _, reply, _) => PublishedFrame(db, actor, reply, d); SameBasis(db, d, id);
      case FinishTool(actor, _, call, result, _, _) => FinishedBasis(db, actor, call, result, d, id);
      case Recover(_, _, _) => TurnFrame(db, step, d); SameBasis(db, d, id);
      case Abort(_, _, _) => TurnFrame(db, step, d); SameBasis(db, d, id);
      case Retain(plan) => SweptBasis(db, plan, d, id);
      case Foreign(w) => PerformFrame(db, w, d); SameBasis(db, d, id);
      case _ => RowFrame(db, step, d); SameBasis(db, d, id);
    }
  }

  /** One write of a task advances its clock by one, or creates it at one, and the global clock, if it is
      there, by one as well; no other clock moves. */
  lemma TickIs(clock: map<TaskId, int>, task: TaskId)
    requires task != GLOBAL
    ensures var after := Tick(clock, task);
            && after.Keys == clock.Keys + {task}
            && after[task] == (if task in clock then clock[task] else 0) + 1
            && forall t :: t in clock && t != task ==> after[t] == clock[t] + if t == GLOBAL then 1 else 0
  {}

  lemma SameBasis(db: Db, d: Db, id: RequestId)
    requires d.basis == db.basis
    ensures BasisRows(d, id) == BasisRows(db, id)
  {}

  /** A captured clock that is still there. */
  predicate Watched(db: Db, id: RequestId, t: TaskId) {
    (id, t) in db.basis && t in db.clock
  }

  lemma GapStep(db: Db, step: Step, d: Db, id: RequestId, t: TaskId)
    requires Inv(db) && Effect(db, step, d) && id in db.turns && id in d.turns
    requires Watched(db, id, t) && !LosesClock(step, t)
    ensures Watched(d, id, t) && ForeignTicks(db, step, d, id, t) >= 0
    ensures Gap(d, id, t) == Gap(db, id, t) + ForeignTicks(db, step, d, id, t)
  {
    hide Inv, Effect, Ticked, SameMemory;
    var owners := StepTouches(db, step, d, id);
    BasisStep(db, step, d, id);
    assert (id, t) in BasisRows(db, id);
    ClockStays(db, step, d, owners, id, t);
  }

  lemma ClockStays(db: Db, step: Step, d: Db, owners: set<TaskId>, id: RequestId, t: TaskId)
    requires Effect(db, step, d) && Touches(db, d, owners, id) && t in db.clock && !LosesClock(step, t)
    ensures t in d.clock && d.clock[t] >= db.clock[t]
  {
    hide Began, Published, Finished, TurnMoved, RowWritten, Swept, Performed, SameMemory;
    if owners == {} && d != db {
      match step
      case Begin(r, _, _) => BegunKeepsClock(db, r, d, t);
      case Commit(actor, _, reply, _) => PublishedKeepsClock(db, actor, reply, d, t);
      case FinishTool(actor, _, call, result, _, _) => FinishedKeepsClock(db, actor, call, result, d, t);
      case Recover(_, _, _) => TurnFrame(db, step, d);
      case Abort(_, _, _) => TurnFrame(db, step, d);
      case Retain(plan) => RetiredFrame(db, plan, d);
      case Foreign(w) => PerformedKeepsClock(db, w, d, t);
      case _ => RowFrame(db, step, d);
    }
  }

  lemma BegunKeepsClock(db: Db, r: Request, d: Db, t: TaskId)
    requires Began(db, r, d) && t in db.clock
    ensures t in d.clock
  {
    hide Captured, Ops.TaskBusy;
  }

  lemma PublishedKeepsClock(db: Db, actor: RequestId, reply: Reply, d: Db, t: TaskId)
    requires Published(db, actor, reply, d) && t in db.clock
    ensures t in d.clock
  {
    hide FactsAdded, FactsWritten, Fresh, StartedCalls, Ops.EdgesOf;
  }

  lemma FinishedKeepsClock(db: Db, actor: RequestId, call: CallId, result: Json, d: Db, t: TaskId)
    requires Finished(db, actor, call, result, d) && t in db.clock
    ensures t in d.clock
  {}

  lemma PerformedKeepsClock(db: Db, w: Write, d: Db, t: TaskId)
    requires Performed(db, w, d) && t in db.clock && w != LoseClock(t)
    ensures t in d.clock
  {
    hide Allowed;
  }
}
