/** Repeated calls: what each operation answers when its work was already done. */
module Replays {
  import opened Common
  import opened JournalState
  import Ops = JournalSteps
  import opened Retention
  import opened JournalRuns
  import opened JournalHistory
  import Workers
  import Dispatchers

  /** A retired id is refused for ever, and whether it is the same request decides how. */
  lemma RetiredIsRefused(db: Db, r: Request, packed: Option<Json>, now: int)
    requires Ops.ValidRequest(r) && r.id in db.retired
    ensures var begun := Ops.Begin(db, r, packed, now);
            begun.Err? && (begun.error == Retired <==> db.retired[r.id].fingerprint == r)
    ensures Next(db, Begin(r, packed, now)) == db
  {
    hide TextOk;
  }

  /** A known id is replayed exactly to the request that created it; in any case nothing changes, the
      task being archived or busy included. */
  lemma BeginReplays(db: Db, r: Request, packed: Option<Json>, now: int)
    requires Ops.ValidRequest(r) && r.id in db.turns && r.id !in db.retired
    ensures var begun := Ops.Begin(db, r, packed, now);
            && (begun.Ok? <==> db.turns[r.id].request == r)
            && (begun.Ok? ==> begun.view == TurnView(db.turns[r.id], false, true))
            && (begun.Err? ==> begun.error == Conflict)
    ensures Next(db, Begin(r, packed, now)) == db
  {
    hide TextOk, Ops.TaskBusy;
  }

  /** A new id is admitted only alone on its task; nothing of a refused one is kept. */
  lemma BusyTaskWaits(db: Db, r: Request, packed: Option<Json>, now: int, other: RequestId)
    requires Ops.ValidRequest(r) && r.id !in db.turns && r.id !in db.retired
    requires other in db.turns && db.turns[other].status == Pending && db.turns[other].request.task == r.task
    ensures Ops.Begin(db, r, packed, now) == Err(Busy) && Next(db, Begin(r, packed, now)) == db
  {
    hide TextOk, Ops.BeginWrites;
    assert Ops.TaskBusy(db, r.task);
  }

  /** A committed turn is replayed exactly to its own worker with its own reply, however stale its
      scope has become since. */
  lemma CommitReplays(db: Db, id: RequestId, g: int, reply: Reply, now: int)
    requires TextOk(reply.text) && id in db.turns && db.turns[id].status == Committed
    ensures var again := Ops.Commit(db, id, g, reply, now);
            && (again.Ok? <==> db.turns[id].generation == g && db.turns[id].reply == Some(Encoded(reply)))
            && (again.Ok? ==> again.view == TurnView(db.turns[id], false, true))
            && (again.Err? ==> again.error == if db.turns[id].generation != g then Fenced else Conflict)
    ensures Next(db, Commit(id, g, reply, now)) == db
  {
    hide TextOk, Ops.CommitProblem, Ops.CommitWrites;
  }

  /** An aborted turn answers nobody. */
  lemma AbortedStaysAborted(db: Db, id: RequestId, g: int, reply: Reply, now: int)
    requires TextOk(reply.text) && id in db.turns && db.turns[id].status == Aborted
    ensures Ops.Commit(db, id, g, reply, now) == Err(NotPending)
    ensures Ops.Recover(db, id, g, now) == Err(NotPending) && Ops.Abort(db, id, g, now) == Err(NotPending)
  {
    hide TextOk, Ops.CommitWrites, Fresh, Ops.ProvenanceProblem, StartedCalls;
  }

  /** A journaled intent is shown again exactly to the same call, and is never reported as created. */
  lemma StartReplays(db: Db, id: RequestId, g: int, call: CallId, name: string, args: Json)
    requires TextOk(call) && TextOk(name) && |call| <= 128 && Acts(db, id, g) && (id, call) in db.tools
    ensures var again := Ops.StartTool(db, id, g, call, name, args);
            && (again.Ok? <==> db.tools[(id, call)].name == name && db.tools[(id, call)].args == args)
            && (again.Ok? ==> again.view == ToolView(db.tools[(id, call)], false))
            && (again.Err? ==> again.error == Conflict)
    ensures Next(db, StartTool(id, g, call, name, args)) == db
  {
    hide TextOk, Fresh;
  }

  /** A recorded result is final: the same one is confirmed, without looking at the lease, and any
      other is refused. */
  lemma FinishReplays(db: Db, id: RequestId, g: int, call: CallId, result: Json, token: Option<Lease>, now: int)
    requires Acts(db, id, g) && (id, call) in db.tools && db.tools[(id, call)].Completed?
    ensures var again := Ops.FinishTool(db, id, g, call, result, token, now);
            && (again.Ok? <==> db.tools[(id, call)].result == result)
            && (again.Err? ==> again.error == Conflict)
    ensures Next(db, FinishTool(id, g, call, result, token, now)) == db
  {
    hide Ops.FinishWrites, Ops.LeaseProblem;
  }

  /** A journaled model request or response is confirmed byte for byte, and otherwise refused. */
  lemma ModelReplays(db: Db, id: RequestId, g: int, call: CallId, row: ModelRow, response: Json)
    requires TextOk(call) && TextOk(row.counting) && Acts(db, id, g) && (id, call) in db.models
    requires 0 <= row.units <= db.turns[id].package.allowance
    ensures Ops.RecordModelRequest(db, id, g, call, row)
         == if db.models[(id, call)] == row then Ok(db, NoView) else Err(Conflict)
    ensures (id, call) in db.responses ==>
              Ops.RecordModelResponse(db, id, g, call, response)
              == if db.responses[(id, call)] == response then Ok(db, NoView) else Err(Conflict)
  {
    hide TextOk, Fresh;
  }

  /** No payload is journaled that exceeds the turn's input allowance, and no response without its
      request. */
  lemma ModelGuards(db: Db, id: RequestId, g: int, call: CallId, row: ModelRow, response: Json)
    ensures Ops.RecordModelRequest(db, id, g, call, row).Ok? ==>
              id in db.turns && 0 <= row.units <= db.turns[id].package.allowance
    ensures Ops.RecordModelResponse(db, id, g, call, response).Ok? ==> (id, call) in db.models
  {
    hide TextOk, Fresh;
  }

  /** An unresolved tool holds up every commit of its turn. */
  lemma UnresolvedToolBlocks(db: Db, id: RequestId, g: int, reply: Reply, now: int, call: CallId)
    requires Inv(db) && (id, call) in db.tools && db.tools[(id, call)].Started?
    ensures Ops.Commit(db, id, g, reply, now).Err?
  {
    hide TextOk, Fresh, Ops.ProvenanceProblem, Ops.CommitWrites, Tracked, IdsBounded, EdgesCommitted;
    assert (id, call) in StartedCalls(db, id);
  }

  // Over runs: an accepted call, made again at any later point.

  /** The calls that answer a repetition; an eligibility check issues a new lease each time. */
  predicate Repeatable(step: Step) {
    !step.ActionEligible? && !step.Retain? && !step.Foreign?
  }

  /** The same call again: at another time, and for tools and model calls by any later worker. */
  predicate SameCall(step: Step, again: Step) {
    match step
    case Begin(r, _, _) => again.Begin? && again.request == r
    case Recover(id, g, _) => again.Recover? && again.id == id && again.generation == g
    case Commit(id, g, reply, _) => again.Commit? && again.id == id && again.generation == g && again.reply == reply
    case Abort(id, g, _) => again.Abort? && again.id == id && again.generation == g
    case StartTool(id, _, call, name, args) =>
      again.StartTool? && again.id == id && again.call == call && again.name == name && again.args == args
    case FinishTool(id, _, call, result, _, _) =>
      again.FinishTool? && again.id == id && again.call == call && again.result == result
    case ModelRequest(id, _, call, row) => again.ModelRequest? && again.id == id && again.call == call
        && again.row == row
    case ModelResponse(id, _, call, response) =>
      again.ModelResponse? && again.id == id && again.call == call && again.response == response
    case _ => false
  }

  /** What the call itself has to satisfy, whatever the state. */
  predicate WellFormed(step: Step) {
    match step
    case Begin(r, _, _) => Ops.ValidRequest(r)
    case Commit(_, _, reply, _) => TextOk(reply.text)
    case StartTool(_, _, call, name, _) => TextOk(call) && TextOk(name) && |call| <= 128
    case ModelRequest(_, _, call, row) => TextOk(call) && TextOk(row.counting) && 0 <= row.units
    case ModelResponse(_, _, call, _) => TextOk(call)
    case _ => true
  }

  /** What an accepted call leaves behind for as long as its turn is there. */
  ghost predicate Answered(db: Db, step: Step) {
    match step
    case Begin(r, _, _) => PhaseOf(db, r.id) != Absent && (r.id in db.turns ==> db.turns[r.id].request == r)
    case Recover(id, g, _) => PhaseOf(db, id) != Absent && (id in db.turns ==> g < db.turns[id].generation)
    case Commit(id, g, reply, _) =>
      && Settled(db, id) == 1
      && (id in db.turns ==> db.turns[id].reply == Some(Encoded(reply)) && db.turns[id].generation == g)
    case Abort(id, _, _) => Rank(PhaseOf(db, id)) >= 2
    case StartTool(id, _, call, name, args) =>
      && ToolKnown(db, id, call)
      && ((id, call) in db.tools ==> db.tools[(id, call)].name == name && db.tools[(id, call)].args == args)
    case FinishTool(id, _, call, result, _, _) => Workers.Stands(db, Workers.Returned(id, call, result))
    case ModelRequest(id, _, call, row) =>
      && Dispatchers.Logged(db, (id, call))
      && ((id, call) in db.models ==> db.models[(id, call)] == row)
      && (id in db.turns ==> row.units <= db.turns[id].package.allowance)
    case ModelResponse(id, _, call, response) =>
      && ((id, call) in db.responses || id in db.retired)
      && ((id, call) in db.responses ==> db.responses[(id, call)] == response)
    case _ => false
  }

  lemma AcceptedIsAnswered(db: Db, step: Step)
    requires Inv(db) && Repeatable(step) && Answer(db, step).Ok?
    ensures WellFormed(step) && Answered(Next(db, step), step)
  {
    hide Effect, Inv, TextOk, Fresh;
    match step
    case Begin(r, packed, now) => BeginAnswered(db, r, packed, now);
    case Recover(id, g, now) => RecoverAnswered(db, id, g, now);
    case Commit(id, g, reply, now) => CommitAnswered(db, id, g, reply, now);
    case Abort(id, g, now) => AbortAnswered(db, id, g, now);
    case StartTool(id, g, call, name, args) => StartAnswered(db, id, g, call, name, args);
    case FinishTool(id, g, call, result, token, now) => FinishAnswered(db, id, g, call, result, token, now);
    case ModelRequest(id, g, call, row) => RequestAnswered(db, id, g, call, row);
    case ModelResponse(id, g, call, response) => ResponseAnswered(db, id, g, call, response);
  }

  lemma BeginAnswered(db: Db, r: Request, packed: Option<Json>, now: int)
    requires Inv(db) && Ops.Begin(db, r, packed, now).Ok?
    ensures Ops.ValidRequest(r) && Answered(Ops.Begin(db, r, packed, now).db, Begin(r, packed, now))
  {
    hide TextOk, Inv, Ops.TaskBusy, Append, Ops.Reopen, Ops.CapturedRows, ScopeTasks;
    Workers.InvTurn(db, r.id);
  }

  lemma RecoverAnswered(db: Db, id: RequestId, g: int, now: int)
    requires Ops.Recover(db, id, g, now).Ok?
    ensures Answered(Ops.Recover(db, id, g, now).db, Recover(id, g, now))
  {}

  lemma AbortAnswered(db: Db, id: RequestId, g: int, now: int)
    requires Ops.Abort(db, id, g, now).Ok?
    ensures Answered(Ops.Abort(db, id, g, now).db, Abort(id, g, now))
  {}

  lemma CommitAnswered(db: Db, id: RequestId, g: int, reply: Reply, now: int)
    requires Inv(db) && Ops.Commit(db, id, g, reply, now).Ok?
    ensures TextOk(reply.text) && Answered(Ops.Commit(db, id, g, reply, now).db, Commit(id, g, reply, now))
  {
    hide TextOk, Inv, Ops.CommitProblem, Ops.CommitWrites;
    if id in db.turns && db.turns[id].status == Committed {
    } else {
      Workers.NoProblemHasTurn(db, id, g, reply);
      Workers.InvTurn(db, id);
      CommitShape(db, id, g, reply, now);
      NoProblemActs(db, id, g, reply);
      Workers.PublishedReply(db, id, reply, Ops.CommitWrites(db, db.turns[id], reply, now).db);
      PublishedFrame(db, id, reply, Ops.CommitWrites(db, db.turns[id], reply, now).db);
    }
  }

  lemma NoProblemActs(db: Db, id: RequestId, g: int, reply: Reply)
    requires Ops.CommitProblem(db, id, g, reply).None?
    ensures Acts(db, id, g)
  {
    hide Fresh, Ops.ProvenanceProblem, StartedCalls;
  }

  lemma StartAnswered(db: Db, id: RequestId, g: int, call: CallId, name: string, args: Json)
    requires Ops.StartTool(db, id, g, call, name, args).Ok?
    ensures TextOk(call) && TextOk(name) && |call| <= 128
    ensures Answered(Ops.StartTool(db, id, g, call, name, args).db, StartTool(id, g, call, name, args))
  {
    hide TextOk, Fresh;
  }

  lemma FinishAnswered(db: Db, id: RequestId, g: int, call: CallId, result: Json, token: Option<Lease>, now: int)
    requires Ops.FinishTool(db, id, g, call, result, token, now).Ok?
    ensures Answered(Ops.FinishTool(db, id, g, call, result, token, now).db,
                     FinishTool(id, g, call, result, token, now))
  {
    hide Append, Ops.LeaseProblem, Ops.AdvanceBasis;
  }

  lemma RequestAnswered(db: Db, id: RequestId, g: int, call: CallId, row: ModelRow)
    requires Ops.RecordModelRequest(db, id, g, call, row).Ok?
    ensures TextOk(call) && TextOk(row.counting) && 0 <= row.units
    ensures Answered(Ops.RecordModelRequest(db, id, g, call, row).db, ModelRequest(id, g, call, row))
  {
    hide TextOk, Fresh;
  }

  lemma ResponseAnswered(db: Db, id: RequestId, g: int, call: CallId, response: Json)
    requires Ops.RecordModelResponse(db, id, g, call, response).Ok?
    ensures TextOk(call)
    ensures Answered(Ops.RecordModelResponse(db, id, g, call, response).db, ModelResponse(id, g, call, response))
  {
    hide TextOk;
  }

  // Nothing later takes the answer back.

  /** The journal rows of one call only ever go with their turn. */
  lemma ToolRowStays(db: Db, step: Step, d: Db, k: (RequestId, CallId))
    requires Effect(db, step, d) && k in db.tools && k in d.tools
    ensures d.tools[k].name == db.tools[k].name && d.tools[k].args == db.tools[k].args
  {
    hide Began, Published, Finished, TurnMoved, RowWritten, Swept, Performed;
    if d != db {
      match step
      case Begin(r, _, _) => BegunFrame(db, r, d);
      case Commit(other, _, reply, _) => PublishedFrame(db, other, reply, d);
      case FinishTool(other, _, c, result, _, _) => FinishedInput(db, other, c, result, d, k);
      case Recover(_, _, _) => TurnFrame(db, step, d);
      case Abort(_, _, _) => TurnFrame(db, step, d);
      case Retain(plan) => Workers.SweptTools(db, plan, d);
      case Foreign(w) => PerformFrame(db, w, d);
      case _ => RowFrame(db, step, d);
    }
  }

  lemma FinishedInput(db: Db, id: RequestId, call: CallId, result: Json, d: Db, k: (RequestId, CallId))
    requires Finished(db, id, call, result, d) && k in db.tools
    ensures k in d.tools && d.tools[k].name == db.tools[k].name && d.tools[k].args == db.tools[k].args
  {
    hide Tick;
  }

  lemma SweptCalls(db: Db, plan: Plan, d: Db)
    requires Swept(db, plan, d)
    ensures forall k :: k in d.models ==> k in db.models && d.models[k] == db.models[k]
    ensures forall k :: k in d.responses ==> k in db.responses && d.responses[k] == db.responses[k]
    ensures forall k :: k in db.responses ==> k in d.responses || k.0 in d.retired
    ensures forall id :: id in db.retired ==> id in d.retired
  {
    hide PlanOf, StartedCalls, OtherEdges, OtherLeases;
  }

  lemma FinishedCalls(db: Db, id: RequestId, call: CallId, result: Json, d: Db)
    requires Finished(db, id, call, result, d)
    ensures d.models == db.models && d.responses == db.responses
  {
    hide Tick;
  }

  lemma WrittenCalls(db: Db, step: Step, d: Db)
    requires RowWritten(db, step, d)
    ensures forall k :: k in db.models ==> k in d.models && d.models[k] == db.models[k]
    ensures forall k :: k in db.responses ==> k in d.responses && d.responses[k] == db.responses[k]
    ensures d.retired == db.retired
  {
    hide Fresh;
  }

  lemma CallsStay(db: Db, step: Step, d: Db)
    requires Effect(db, step, d)
    ensures forall k :: k in db.models && k in d.models ==> d.models[k] == db.models[k]
    ensures forall k :: k in db.responses && k in d.responses ==> d.responses[k] == db.responses[k]
    ensures forall k :: k in db.responses ==> k in d.responses || k.0 in d.retired
  {
    hide Began, Published, Finished, TurnMoved, RowWritten, Swept, Performed;
    if d != db {
      match step
      case Begin(r, _, _) => BegunFrame(db, r, d);
      case Commit(other, _, reply, _) => PublishedFrame(db, other, reply, d);
      case FinishTool(other, _, c, result, _, _) => FinishedCalls(db, other, c, result, d);
      case Recover(_, _, _) => TurnFrame(db, step, d);
      case Abort(_, _, _) => TurnFrame(db, step, d);
      case Retain(plan) => SweptCalls(db, plan, d);
      case Foreign(w) => PerformFrame(db, w, d);
      case _ => WrittenCalls(db, step, d);
    }
  }

  /** A retired id is out of every table, now and later. */
  lemma RetiredIsOut(db: Db, id: RequestId)
    requires Inv(db) && id in db.retired
    ensures id !in db.turns
    ensures forall call :: (id, call) !in db.tools && (id, call) !in db.models && (id, call) !in db.responses
  {
    hide Tracked, IdsBounded, EdgesCommitted;
  }

  lemma RetiredStays(db: Db, step: Step, id: RequestId)
    requires Inv(db) && id in db.retired
    ensures id in Next(db, step).retired
  {
    hide Inv, Effect, Next;
    NeverBoth(db, id);
    StepMoves(db, step, id);
  }

  lemma TurnStays(db: Db, step: Step, id: RequestId)
    requires Inv(db) && PhaseOf(db, id) != Absent && id in Next(db, step).turns
    ensures id in db.turns && Next(db, step).turns[id].request == db.turns[id].request
    ensures Next(db, step).turns[id].package == db.turns[id].package
    ensures db.turns[id].generation <= Next(db, step).turns[id].generation
  {
    hide Inv, Effect, Next;
    StepMoves(db, step, id);
    StepEffect(db, step);
    EffectAdvances(db, step, Next(db, step));
    GenerationStep(db, step, Next(db, step), id);
  }

  lemma AnsweredStays(db: Db, other: Step, step: Step)
    requires Inv(db) && Answered(db, step)
    ensures Answered(Next(db, other), step)
  {
    hide Inv, Effect, Next, ToolKnown;
    var d := Next(db, other);
    StepEffect(db, other);
    EffectKeeps(db, other, d);
    match step
    case Begin(r, _, _) =>
      StepMoves(db, other, r.id);
      if r.id in d.turns { TurnStays(db, other, r.id); }
    case Recover(id, _, _) =>
      StepMoves(db, other, id);
      if id in d.turns { TurnStays(db, other, id); }
    case Commit(id, _, reply, _) =>
      StepMoves(db, other, id);
      Workers.ReplyStands(db, other, d, id, Encoded(reply));
    case Abort(id, _, _) => StepMoves(db, other, id);
    case StartTool(id, _, call, _, _) => StartStays(db, other, step, d);
    case FinishTool(id, _, call, result, _, _) => Workers.StandsStays(db, other, Workers.Returned(id, call, result));
    case ModelRequest(id, _, call, _) => RequestStays(db, other, step, d);
    case ModelResponse(id, _, call, _) => ResponseStays(db, other, step, d);
  }

  lemma StartStays(db: Db, other: Step, step: Step, d: Db)
    requires Inv(db) && Inv(d) && Effect(db, other, d) && d == Next(db, other) && step.StartTool? && Answered(db, step)
    ensures Answered(d, step)
  {
    hide Inv, Effect, Next;
    var k := (step.id, step.call);
    ToolStaysKnown(db, other, d, step.id, step.call);
    if step.id in db.retired {
      RetiredStays(db, other, step.id);
      RetiredIsOut(d, step.id);
    } else if k in d.tools {
      ToolRowStays(db, other, d, k);
    }
  }

  lemma RequestStays(db: Db, other: Step, step: Step, d: Db)
    requires Inv(db) && Inv(d) && Effect(db, other, d) && d == Next(db, other) && step.ModelRequest?
    requires Answered(db, step)
    ensures Answered(d, step)
  {
    hide Inv, Effect, Next;
    Dispatchers.LoggedStays(db, other, d, (step.id, step.call));
    if step.id in db.retired {
      RetiredStays(db, other, step.id);
      RetiredIsOut(d, step.id);
    } else {
      CallsStay(db, other, d);
      LoggedHasTurn(db, step.id, step.call);
      if step.id in d.turns { TurnStays(db, other, step.id); }
    }
  }

  lemma LoggedHasTurn(db: Db, id: RequestId, call: CallId)
    requires Inv(db) && ((id, call) in db.models || (id, call) in db.responses)
    ensures PhaseOf(db, id) != Absent
  {
    hide Tracked, IdsBounded, EdgesCommitted;
  }

  lemma ResponseStays(db: Db, other: Step, step: Step, d: Db)
    requires Inv(db) && Inv(d) && Effect(db, other, d) && d == Next(db, other) && step.ModelResponse?
    requires Answered(db, step)
    ensures Answered(d, step)
  {
    hide Inv, Effect, Next;
    if step.id in db.retired {
      RetiredStays(db, other, step.id);
      RetiredIsOut(d, step.id);
    } else {
      CallsStay(db, other, d);
    }
  }

  lemma {:induction false} AnsweredAlways(db: Db, steps: seq<Step>, i: nat, j: nat)
    requires Inv(db) && i < j <= |steps| && Repeatable(steps[i]) && Answer(At(db, steps, i), steps[i]).Ok?
    ensures WellFormed(steps[i]) && Answered(At(db, steps, j), steps[i])
    decreases j - i
  {
    hide Inv, Next, Answer, Answered, WellFormed;
    InvAlways(db, steps[..j - 1]);
    AtNext(db, steps, j - 1);
    if j == i + 1 {
      AcceptedIsAnswered(At(db, steps, i), steps[i]);
    } else {
      AnsweredAlways(db, steps, i, j - 1);
      AnsweredStays(At(db, steps, j - 1), steps[j - 1], steps[i]);
    }
  }

  // What the repetition meets.

  /** Whoever may still make the call is told that it was made. */
  ghost predicate Entitled(db: Db, again: Step) {
    match again
    case Begin(r, _, _) => r.id in db.turns
    case Commit(id, _, _, _) => id in db.turns
    case StartTool(id, g, _, _, _) => Acts(db, id, g)
    case FinishTool(id, g, _, _, _, _) => Acts(db, id, g)
    case ModelRequest(id, g, _, _) => Acts(db, id, g)
    case ModelResponse(id, g, _, _) => Acts(db, id, g)
    case _ => false
  }

  /** Answered, and not as something new. */
  predicate Confirms(answer: Result) {
    && answer.Ok?
    && (answer.view.TurnView? ==> answer.view.replayed && !answer.view.created)
    && (answer.view.ToolView? ==> !answer.view.created)
  }

  lemma RepeatMeets(db: Db, step: Step, again: Step)
    requires Inv(db) && WellFormed(step) && Answered(db, step) && SameCall(step, again)
    ensures Next(db, again) == db
    ensures Entitled(db, again) ==> Confirms(Answer(db, again))
  {
    hide Inv, Effect, TextOk, Fresh;
    match step
    case Begin(r, _, _) => RepeatBegin(db, r, again.packed, again.now);
    case Recover(id, g, _) => RepeatRecover(db, id, g, again.now);
    case Commit(id, g, reply, _) => RepeatCommit(db, id, g, reply, again.now);
    case Abort(id, g, _) => RepeatAbort(db, id, g, again.now);
    case StartTool(id, _, call, name, args) => RepeatStart(db, step, again);
    case FinishTool(id, _, call, result, _, _) => RepeatFinish(db, step, again);
    case ModelRequest(id, _, call, row) => RepeatRequest(db, step, again);
    case ModelResponse(id, _, call, response) => RepeatResponse(db, step, again);
  }

  lemma RepeatBegin(db: Db, r: Request, packed: Option<Json>, now: int)
    requires Inv(db) && Ops.ValidRequest(r) && Answered(db, Begin(r, packed, now))
    ensures Next(db, Begin(r, packed, now)) == db
    ensures r.id in db.turns ==> Confirms(Answer(db, Begin(r, packed, now)))
  {
    NeverBoth(db, r.id);
    hide TextOk, Inv, Ops.BeginWrites, Ops.TaskBusy;
    if r.id in db.retired {
      RetiredIsRefused(db, r, packed, now);
    } else {
      BeginReplays(db, r, packed, now);
    }
  }

  lemma RepeatRecover(db: Db, id: RequestId, g: int, now: int)
    requires Inv(db) && Answered(db, Recover(id, g, now))
    ensures Next(db, Recover(id, g, now)) == db
  {
    hide Inv, Next;
    StaleWorkerChangesNothing(db, Recover(id, g, now));
  }

  lemma RepeatAbort(db: Db, id: RequestId, g: int, now: int)
    requires Inv(db) && Answered(db, Abort(id, g, now))
    ensures Next(db, Abort(id, g, now)) == db
  {
    NeverBoth(db, id);
    hide Inv;
  }

  lemma RepeatCommit(db: Db, id: RequestId, g: int, reply: Reply, now: int)
    requires Inv(db) && TextOk(reply.text) && Answered(db, Commit(id, g, reply, now))
    ensures Next(db, Commit(id, g, reply, now)) == db
    ensures id in db.turns ==> Confirms(Answer(db, Commit(id, g, reply, now)))
  {
    NeverBoth(db, id);
    hide Inv, TextOk, Ops.CommitProblem, Ops.CommitWrites;
    if id in db.turns {
      CommitReplays(db, id, g, reply, now);
    } else {
      StaleWorkerChangesNothing(db, Commit(id, g, reply, now));
    }
  }

  lemma RepeatStart(db: Db, step: Step, again: Step)
    requires Inv(db) && step.StartTool? && WellFormed(step) && Answered(db, step) && SameCall(step, again)
    ensures Next(db, again) == db
    ensures Acts(db, again.id, again.generation) ==> Confirms(Answer(db, again))
  {
    NeverBoth(db, step.id);
    hide Inv, TextOk, Fresh;
    if (step.id, step.call) in db.tools && Acts(db, again.id, again.generation) {
      StartReplays(db, again.id, again.generation, again.call, again.name, again.args);
    }
  }

  lemma RepeatFinish(db: Db, step: Step, again: Step)
    requires Inv(db) && step.FinishTool? && Answered(db, step) && SameCall(step, again)
    ensures Next(db, again) == db
    ensures Acts(db, again.id, again.generation) ==> Confirms(Answer(db, again))
  {
    NeverBoth(db, step.id);
    hide Inv, Ops.FinishWrites, Ops.LeaseProblem;
    if (step.id, step.call) in db.tools && Acts(db, again.id, again.generation) {
      FinishReplays(db, again.id, again.generation, again.call, again.result, again.token, again.now);
    }
  }

  lemma RepeatRequest(db: Db, step: Step, again: Step)
    requires Inv(db) && step.ModelRequest? && WellFormed(step) && Answered(db, step) && SameCall(step, again)
    ensures Next(db, again) == db
    ensures Acts(db, again.id, again.generation) ==> Confirms(Answer(db, again))
  {
    hide Inv, TextOk, Fresh;
    NeverBoth(db, step.id);
  }

  lemma RepeatResponse(db: Db, step: Step, again: Step)
    requires Inv(db) && step.ModelResponse? && WellFormed(step) && Answered(db, step) && SameCall(step, again)
    ensures Next(db, again) == db
    ensures Acts(db, again.id, again.generation) ==> Confirms(Answer(db, again))
  {
    hide Inv, TextOk;
    NeverBoth(db, step.id);
    AnsweredResponseHasRequest(db, step.id, step.call);
  }

  lemma AnsweredResponseHasRequest(db: Db, id: RequestId, call: CallId)
    requires Inv(db)
    ensures (id, call) in db.responses ==> (id, call) in db.models
  {}

  /** Idempotence over runs: once a begin, recovery, commit, abort, tool start, tool result, model request
      or model response was accepted, the same call at any later point, whatever happened in between,
      changes nothing; and whoever may still make it is told that it was made, as a replay. */
  lemma AcceptedOnce(db: Db, steps: seq<Step>, i: nat, j: nat, again: Step)
    requires Inv(db) && i < j <= |steps| && Repeatable(steps[i]) && Answer(At(db, steps, i), steps[i]).Ok?
    requires SameCall(steps[i], again)
    ensures Next(At(db, steps, j), again) == At(db, steps, j)
    ensures Entitled(At(db, steps, j), again) ==> Confirms(Answer(At(db, steps, j), again))
  {
    hide Inv, Next, Answer, Answered, WellFormed, Entitled, Confirms, SameCall;
    InvAlways(db, steps[..j]);
    AnsweredAlways(db, steps, i, j);
    RepeatMeets(At(db, steps, j), steps[i], again);
  }
}
