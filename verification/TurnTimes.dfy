/** When a turn was last touched, over runs, and what that keeps from being retired. */
module TurnTimes {
  import opened Common
  import opened JournalState
  import opened Retention
  import opened JournalRuns
  import opened RetentionPass

  /** The calls that can move the turn of a request. */
  predicate OnTurn(step: Step, id: RequestId) {
    match step
    case Begin(r, _, _) => r.id == id
    case Recover(other, _, _) => other == id
    case Commit(other, _, _, _) => other == id
    case Abort(other, _, _) => other == id
    case _ => false
  }

  /** The time such a call was made at. */
  function TimeOf(step: Step): int {
    match step
    case Begin(_, _, now) => now
    case Recover(_, _, now) => now
    case Commit(_, _, _, now) => now
    case Abort(_, _, now) => now
    case _ => 0
  }

  /** The call began, recovered, committed or aborted the turn; a replay or a refusal does not. */
  ghost predicate Moves(db: Db, step: Step, id: RequestId) {
    OnTurn(step, id) && Next(db, step) != db
  }

  lemma EffectTouches(db: Db, step: Step, d: Db, id: RequestId)
    requires Effect(db, step, d) && d != db && id in d.turns
    ensures if OnTurn(step, id) then d.turns[id].updatedAt == TimeOf(step)
            else id in db.turns && d.turns[id] == db.turns[id]
    ensures OnTurn(step, id) && id in db.turns ==> db.turns[id].status == Pending
  {
    hide Began, Published, Finished, RowWritten, Swept, Performed;
    match step
    case Begin(r, _, _) => BegunFrame(db, r, d);
    case Commit(other, _, replied, _) => PublishedFrame(db, other, replied, d);
    case FinishTool(other, _, c, result, _, _) => FinishedFrame(db, other, c, result, d);
    case Recover(_, _, _) => TurnFrame(db, step, d);
    case Abort(_, _, _) => TurnFrame(db, step, d);
    case Retain(plan) => RetiredFrame(db, plan, d);
    case Foreign(w) => PerformFrame(db, w, d);
    case _ => RowFrame(db, step, d);
  }

  /** A step stamps the turn it moves with its own time, and leaves every other turn row as it is. */
  lemma StepStamps(db: Db, step: Step, id: RequestId)
    requires Inv(db) && id in Next(db, step).turns
    ensures if Moves(db, step, id) then Next(db, step).turns[id].updatedAt == TimeOf(step)
            else id in db.turns && Next(db, step).turns[id] == db.turns[id]
    ensures Moves(db, step, id) && id in db.turns ==> db.turns[id].status == Pending
  {
    hide Inv, Next, Effect, TimeOf;
    StepEffect(db, step);
    if Next(db, step) != db {
      EffectTouches(db, step, Next(db, step), id);
    }
  }

  /** Along any run a turn's time is that of the last call that moved it. */
  lemma {:induction false} LastMove(db: Db, steps: seq<Step>, id: RequestId) returns (at: nat)
    requires Inv(db) && id !in db.turns && id in Exec(db, steps).turns
    ensures at < |steps| && Moves(At(db, steps, at), steps[at], id)
    ensures Exec(db, steps).turns[id].updatedAt == TimeOf(steps[at])
    ensures forall k :: at < k < |steps| ==> !Moves(At(db, steps, k), steps[k], id)
    decreases |steps|
  {
    hide Inv, Next, Moves, TimeOf;
    var n := |steps| - 1;
    var front := steps[..n];
    InvAlways(db, front);
    StepStamps(Exec(db, front), steps[n], id);
    if Moves(Exec(db, front), steps[n], id) {
      at := n;
    } else {
      at := LastMove(db, front, id);
      forall k | 0 <= k < n ensures At(db, steps, k) == At(db, front, k) {
        assert front[..k] == steps[..k];
      }
    }
  }

  /** A step other than a retention pass with a later cutoff leaves a finished turn as it is. */
  lemma FinishedStays(db: Db, step: Step, id: RequestId)
    requires Inv(db) && id in db.turns && db.turns[id].status != Pending
    requires step.Retain? ==> step.plan.cutoff <= db.turns[id].updatedAt
    ensures id in Next(db, step).turns && Next(db, step).turns[id] == db.turns[id]
  {
    hide Inv, Next, Effect, Candidates;
    StepEffect(db, step);
    if Next(db, step) != db {
      FinishedRowStays(db, step, Next(db, step), id);
    }
  }

  lemma FinishedRowStays(db: Db, step: Step, d: Db, id: RequestId)
    requires Effect(db, step, d) && d != db && id in db.turns && db.turns[id].status != Pending
    requires step.Retain? ==> step.plan.cutoff <= db.turns[id].updatedAt
    ensures id in d.turns && d.turns[id] == db.turns[id]
  {
    hide Began, Published, Finished, RowWritten, Performed, PlanOf, StartedCalls;
    match step
    case Begin(r, _, _) => BegunFrame(db, r, d);
    case Commit(other, _, replied, _) => PublishedFrame(db, other, replied, d);
    case FinishTool(other, _, c, result, _, _) => FinishedFrame(db, other, c, result, d);
    case Recover(_, _, _) => TurnFrame(db, step, d);
    case Abort(_, _, _) => TurnFrame(db, step, d);
    case Retain(plan) => assert id !in Candidates(db, plan.cutoff);
    case Foreign(w) => PerformFrame(db, w, d);
    case _ => RowFrame(db, step, d);
  }

  lemma {:induction false} FinishedAlways(db: Db, steps: seq<Step>, id: RequestId)
    requires Inv(db) && id in db.turns && db.turns[id].status != Pending
    requires forall k :: 0 <= k < |steps| && steps[k].Retain? ==> steps[k].plan.cutoff <= db.turns[id].updatedAt
    ensures id in Exec(db, steps).turns && Exec(db, steps).turns[id] == db.turns[id]
    decreases |steps|
  {
    hide Inv, Next;
    if steps == [] {
    } else {
      var front := steps[..|steps| - 1];
      FinishedAlways(db, front, id);
      InvAlways(db, front);
      FinishedStays(Exec(db, front), steps[|steps| - 1], id);
    }
  }

  /** A turn finished at some time is retired by no later pass whose cutoff is not after that time: it
      keeps its row, whatever anybody does in between. */
  lemma KeptUntilCutoff(db: Db, finish: Step, steps: seq<Step>, id: RequestId)
    requires Inv(db) && (finish.Commit? || finish.Abort?) && finish.id == id && Next(db, finish) != db
    requires forall k :: 0 <= k < |steps| && steps[k].Retain? ==> steps[k].plan.cutoff <= finish.now
    ensures var done := Next(db, finish);
            && id in done.turns && done.turns[id].status == (if finish.Commit? then Committed else Aborted)
            && done.turns[id].updatedAt == finish.now
            && id in Exec(done, steps).turns && Exec(done, steps).turns[id] == done.turns[id]
  {
    hide Inv, Next;
    var done := Next(db, finish);
    StepEffect(db, finish);
    FinishMeans(db, finish, done);
    EffectKeeps(db, finish, done);
    hide Effect;
    FinishedAlways(done, steps, id);
  }

  lemma FinishMeans(db: Db, finish: Step, d: Db)
    requires Effect(db, finish, d) && d != db && (finish.Commit? || finish.Abort?)
    ensures finish.id in d.turns && d.turns[finish.id].updatedAt == finish.now
    ensures d.turns[finish.id].status == if finish.Commit? then Committed else Aborted
  {
    hide Published;
    if finish.Commit? {
      PublishedFrame(db, finish.id, finish.reply, d);
    }
  }

  /** The times of the calls that move turns never fall. */
  ghost predicate Clocked(steps: seq<Step>, id: RequestId) {
    forall i, j :: 0 <= i < j < |steps| && OnTurn(steps[i], id) && OnTurn(steps[j], id) ==>
                     TimeOf(steps[i]) <= TimeOf(steps[j])
  }

  /** With times that never fall, a turn is retired only after a cutoff later than every call that moved it. */
  lemma RetiredAfterAllMoves(db: Db, steps: seq<Step>, plan: Plan, id: RequestId, k: nat)
    requires Inv(db) && id !in db.turns && Clocked(steps, id)
    requires id in Exec(db, steps).turns && id !in Next(Exec(db, steps), Retain(plan)).turns
    requires k < |steps| && Moves(At(db, steps, k), steps[k], id)
    ensures TimeOf(steps[k]) < plan.cutoff
  {
    hide Inv, PlanOf, Candidates;
    var d := Exec(db, steps);
    var at := LastMove(db, steps, id);
    RetiredIsPlanned(d, plan, id);
    Protects(d, plan.cutoff, id);
    hide Next, Exec, TimeOf;
  }

  lemma RetiredIsPlanned(db: Db, plan: Plan, id: RequestId)
    requires id in db.turns && id !in Next(db, Retain(plan)).turns
    ensures id in PlannedIds(PlanOf(db, plan.cutoff))
  {
    hide PlanOf;
    PlannedAreCandidates(db, plan.cutoff);
  }
}
