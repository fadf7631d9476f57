/** Eligibility leases: what a lease certifies, and what a finish under a lease therefore knows. */
module Leases {
  import opened Common
  import opened JournalState
  import Ops = JournalSteps
  import opened Retention
  import opened JournalRuns

  /** The check a lease stands for, in the state it was made in. */
  ghost predicate Certifies(db: Db, lease: Lease) {
    && Acts(db, lease.request, lease.generation) && Fresh(db, lease.request)
    && (lease.request, lease.call) in db.tools
    && db.tools[(lease.request, lease.call)] == Started(lease.name, lease.args)
  }

  /** An eligibility check adds one lease, for exactly the call it checked, and at most ten minutes. */
  lemma IssuesOne(db: Db, id: RequestId, g: int, call: CallId, ttl: int, now: int)
    ensures var checked := Ops.ActionEligible(db, id, g, call, ttl, now);
            checked.Ok? ==>
              && checked.view.LeaseView?
              && var lease := checked.view.lease;
              && lease.request == id && lease.generation == g && lease.call == call && Certifies(db, lease)
              && now < lease.expires <= now + 600000 && lease.expires == now + (if ttl == 0 then 5000 else ttl)
              && lease !in db.leases && checked.db == db.(leases := db.leases + {lease})
  {
    hide TextOk, Fresh;
  }

  /** A first result recorded under a lease: the lease is on record for this very turn, worker and
      call, was taken for the recorded arguments, and has not expired. */
  lemma LeaseGuardsFinish(db: Db, id: RequestId, g: int, call: CallId, result: Json, lease: Lease, now: int)
    requires Next(db, FinishTool(id, g, call, result, Some(lease), now)) != db
    ensures Acts(db, id, g) && lease in db.leases
    ensures lease.request == id && lease.generation == g && lease.call == call && now < lease.expires
    ensures (id, call) in db.tools && db.tools[(id, call)] == Started(lease.name, lease.args)
  {
    hide Ops.FinishWrites;
  }

  // Where leases come from.

  lemma BegunLeases(db: Db, r: Request, d: Db)
    requires Began(db, r, d)
    ensures d.leases == db.leases
  {
    hide Captured, Tick, Ops.TaskBusy;
  }

  lemma PublishedLeases(db: Db, id: RequestId, reply: Reply, d: Db)
    requires Published(db, id, reply, d)
    ensures d.leases == db.leases
  {
    hide Ticked, FactsAdded, FactsWritten, Fresh, Ops.EdgesOf, StartedCalls;
  }

  lemma FinishedLeases(db: Db, id: RequestId, call: CallId, result: Json, d: Db)
    requires Finished(db, id, call, result, d)
    ensures d.leases == db.leases
  {
    hide Tick;
  }

  lemma SweptLeases(db: Db, plan: Plan, d: Db)
    requires Swept(db, plan, d)
    ensures d.leases <= db.leases
  {
    hide PlanOf, Candidates, Rest, OtherEdges, Buried;
  }

  lemma WrittenLeases(db: Db, step: Step, d: Db)
    requires RowWritten(db, step, d) && !step.ActionEligible?
    ensures d.leases == db.leases
  {
    hide Fresh, NewLease;
  }

  /** Only an eligibility check adds a lease. */
  lemma OnlyChecksIssue(db: Db, step: Step, d: Db)
    requires Effect(db, step, d) && !step.ActionEligible?
    ensures d.leases <= db.leases
  {
    hide Began, Published, Finished, TurnMoved, RowWritten, Swept, Performed;
    if d != db {
      match step
      case Begin(r, _, _) => BegunLeases(db, r, d);
      case Commit(other, _, reply, _) => PublishedLeases(db, other, reply, d);
      case FinishTool(other, _, c, result, _, _) => FinishedLeases(db, other, c, result, d);
      case Recover(_, _, _) => TurnFrame(db, step, d);
      case Abort(_, _, _) => TurnFrame(db, step, d);
      case Retain(plan) => SweptLeases(db, plan, d);
      case Foreign(w) => PerformFrame(db, w, d);
      case _ => WrittenLeases(db, step, d);
    }
  }

  /** A step that adds this lease is a check that it certifies. */
  lemma NewLeaseCertified(db: Db, step: Step, lease: Lease)
    requires Inv(db) && lease !in db.leases && lease in Next(db, step).leases
    ensures step.ActionEligible? && Certifies(db, lease)
  {
    hide Inv, Effect, Certifies, Ops.ActionEligible;
    StepEffect(db, step);
    if !step.ActionEligible? {
      OnlyChecksIssue(db, step, Next(db, step));
    } else {
      IssuesOne(db, step.id, step.generation, step.call, step.ttl, step.now);
    }
  }

  /** Every lease on record was issued at some point of the run, by a check that found the turn live
      under that worker, its scope fresh, and the tool call unresolved with those arguments. */
  lemma {:induction false} LeaseWasCertified(db: Db, steps: seq<Step>, lease: Lease) returns (at: nat)
    requires Inv(db) && lease !in db.leases && lease in Exec(db, steps).leases
    ensures at < |steps| && steps[at].ActionEligible? && Certifies(At(db, steps, at), lease)
    decreases |steps|
  {
    hide Inv, Next, Certifies;
    var n := |steps| - 1;
    var front := steps[..n];
    InvAlways(db, front);
    if lease in Exec(db, front).leases {
      at := LeaseWasCertified(db, front, lease);
      assert front[..at] == steps[..at];
    } else {
      at := n;
      NewLeaseCertified(Exec(db, front), steps[n], lease);
    }
  }

  /** A result first recorded under a lease that is not from before the run follows a check in the run
      that found this worker's turn live, its scope fresh and this very call unresolved. */
  lemma FinishFollowsCheck(db: Db, steps: seq<Step>, id: RequestId, g: int, call: CallId, result: Json,
                           lease: Lease, now: int) returns (at: nat)
    requires Inv(db) && lease !in db.leases
    requires Next(Exec(db, steps), FinishTool(id, g, call, result, Some(lease), now)) != Exec(db, steps)
    ensures at < |steps| && steps[at].ActionEligible?
    ensures Acts(At(db, steps, at), id, g) && Fresh(At(db, steps, at), id)
    ensures (id, call) in At(db, steps, at).tools && At(db, steps, at).tools[(id, call)].Started?
  {
    hide Inv, Next, Exec, Fresh;
    LeaseGuardsFinish(Exec(db, steps), id, g, call, result, lease, now);
    at := LeaseWasCertified(db, steps, lease);
  }
}
