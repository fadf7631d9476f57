/** Freshness over whole runs: the captured clock is exact, acceptance means an untouched scope,
    staleness is permanent, and a fresh scope is the scope the turn was shown. */
module FreshnessRuns {
  import opened Common
  import Ancestry
  import opened JournalState
  import Ops = JournalSteps
  import opened JournalRuns
  import opened JournalHistory
  import opened Freshness

  /** The sum of everybody else's advances of clock `t` along a run: the reference the stored
      basis is compared with. It reads clocks and steps only, never the basis. */
  ghost function ForeignSum(db: Db, steps: seq<Step>, id: RequestId, t: TaskId): int
    decreases |steps|
  {
    if steps == [] then 0
    else
      var front := steps[..|steps| - 1];
      ForeignSum(db, front, id, t)
      + ForeignTicks(Exec(db, front), steps[|steps| - 1], Exec(db, steps), id, t)
  }

  /** No clock row of `t` vanishes during the run. Nothing in the engine or the triggers deletes
      one; it takes a statement from outside. */
  ghost predicate KeepsClock(steps: seq<Step>, t: TaskId) {
    forall i :: 0 <= i < |steps| ==> !LosesClock(steps[i], t)
  }

  lemma LastStep(db: Db, steps: seq<Step>)
    requires Inv(db) && steps != []
    ensures var front := Exec(db, steps[..|steps| - 1]);
            Inv(front) && Effect(front, steps[|steps| - 1], Exec(db, steps))
  {
    hide Inv, Effect, Next;
    InvAlways(db, steps[..|steps| - 1]);
    StepEffect(Exec(db, steps[..|steps| - 1]), steps[|steps| - 1]);
    assert Exec(db, steps) == Next(Exec(db, steps[..|steps| - 1]), steps[|steps| - 1]);
  }

  /** A turn present at both ends of a run was present just before the last step. */
  lemma StillThere(db: Db, steps: seq<Step>, id: RequestId)
    requires Inv(db) && steps != [] && id in db.turns && id in Exec(db, steps).turns
    ensures id in Exec(db, steps[..|steps| - 1]).turns
  {
    hide Inv, Effect, Next, Exec;
    var n := |steps| - 1;
    assert steps[..0] == [] && steps[..n + 1] == steps;
    PhaseRises(db, steps, 0, n, id);
    PhaseRises(db, steps, n, n + 1, id);
    ExecNothing(db);
    InvAlways(db, steps);
    NeverBoth(Exec(db, steps), id);
  }

  lemma ExecNothing(db: Db)
    ensures Exec(db, []) == db
  {}

  /** Exactness: along any run, with any workers, recoveries, retention passes and other writers,
      a captured clock runs ahead of its basis by exactly what others added to it. */
  lemma {:induction false} ExactClock(db: Db, steps: seq<Step>, id: RequestId, t: TaskId)
    requires Inv(db) && id in db.turns && id in Exec(db, steps).turns
    requires Watched(db, id, t) && KeepsClock(steps, t)
    ensures Watched(Exec(db, steps), id, t) && ForeignSum(db, steps, id, t) >= 0
    ensures Gap(Exec(db, steps), id, t) == Gap(db, id, t) + ForeignSum(db, steps, id, t)
    decreases |steps|
  {
    hide Inv, Effect, Next;
    if steps == [] {
    } else {
      var front := steps[..|steps| - 1];
      StillThere(db, steps, id);
      ExactClock(db, front, id, t);
      LastStep(db, steps);
      GapStep(Exec(db, front), steps[|steps| - 1], Exec(db, steps), id, t);
    }
  }

  lemma {:induction false} BasisFixed(db: Db, steps: seq<Step>, id: RequestId)
    requires Inv(db) && id in db.turns && id in Exec(db, steps).turns
    ensures BasisRows(Exec(db, steps), id) == BasisRows(db, id)
    ensures Exec(db, steps).turns[id].request == db.turns[id].request
    decreases |steps|
  {
    hide Inv, Effect, Next, BasisRows;
    if steps == [] {
    } else {
      var front := steps[..|steps| - 1];
      StillThere(db, steps, id);
      BasisFixed(db, front, id);
      LastStep(db, steps);
      BasisStep(Exec(db, front), steps[|steps| - 1], Exec(db, steps), id);
      EffectAdvances(Exec(db, front), steps[|steps| - 1], Exec(db, steps));
    }
  }

  // A turn from its birth.

  /** The state right after a first `Begin` of a scoped request. */
  ghost predicate JustBegun(db: Db, r: Request) {
    && Inv(db) && r.id in db.turns && db.turns[r.id].request == r && r.scoped
    && (forall k :: k in BasisRows(db, r.id) <==> k.0 == r.id && k.1 in ScopeTasks(db, r))
    && forall t :: t in ScopeTasks(db, r) ==> Watched(db, r.id, t) && Gap(db, r.id, t) == 0
  }

  lemma BeginStarts(db: Db, r: Request, packed: Option<Json>, now: int)
    requires Inv(db) && r.scoped && Creates(db, Begin(r, packed, now), r.id)
    ensures JustBegun(Next(db, Begin(r, packed, now)), r)
  {
    hide Inv, Effect, Began, Next, ScopeTasks, BasisRows, Ops.Begin, Fresh;
    var step := Begin(r, packed, now);
    var d := Next(db, step);
    StepEffect(db, step);
    EffectKeeps(db, step, d);
    CreationBegan(db, r, packed, now);
    NoOldBasis(db, r.id);
    BasisAtBirth(db, r, d);
  }

  lemma CreationBegan(db: Db, r: Request, packed: Option<Json>, now: int)
    requires Creates(db, Begin(r, packed, now), r.id)
    ensures Began(db, r, Next(db, Begin(r, packed, now))) && r.id !in db.turns
  {
    hide Effect, Began, Ops.Begin;
    BeginEffect(db, r, packed, now);
  }

  lemma NoOldBasis(db: Db, id: RequestId)
    requires Inv(db)
    ensures id !in db.turns ==> forall t :: (id, t) !in db.basis
  {
    hide TurnTable, Tracked, IdsBounded;
  }

  lemma BasisAtBirth(db: Db, r: Request, d: Db)
    requires Began(db, r, d) && r.scoped && forall t :: (r.id, t) !in db.basis
    ensures r.id in d.turns && d.turns[r.id].request == r
    ensures forall k :: k in BasisRows(d, r.id) <==> k.0 == r.id && k.1 in ScopeTasks(d, r)
    ensures forall t :: t in ScopeTasks(d, r) ==> Watched(d, r.id, t) && Gap(d, r.id, t) == 0
  {
    hide Tick, ScopeTasks, Ops.TaskBusy;
    forall k ensures k in BasisRows(d, r.id) <==> k.0 == r.id && k.1 in ScopeTasks(d, r) {
      BornRow(db, r, d, k.0, k.1);
    }
  }

  lemma BornRow(db: Db, r: Request, d: Db, id: RequestId, t: TaskId)
    requires Captured(db, r, d) && r.scoped && forall x :: (r.id, x) !in db.basis
    ensures (id, t) in BasisRows(d, r.id) <==> id == r.id && t in ScopeTasks(d, r)
  {
    hide ScopeTasks;
    assert (r.id, t) !in db.basis;
  }

  lemma ScopeNonempty(db: Db, r: Request)
    ensures exists t :: t in ScopeTasks(db, r)
  {
    match r.scope
    case OneTask => assert r.task in ScopeTasks(db, r);
    case Lineage => Ancestry.SearchExact(db.parents, r.task, Ancestry.SCOPE_HOPS);
                    assert r.task in ScopeTasks(db, r);
    case Everything => assert GLOBAL in ScopeTasks(db, r);
  }

  ghost predicate ScopeKept(db: Db, r: Request, steps: seq<Step>) {
    forall t :: t in ScopeTasks(db, r) ==> KeepsClock(steps, t)
  }

  ghost predicate Untouched(db: Db, r: Request, steps: seq<Step>) {
    forall t :: t in ScopeTasks(db, r) ==> ForeignSum(db, steps, r.id, t) == 0
  }

  /** Acceptance, exactly: at any later point `validateBasis` passes if and only if nobody else
      has touched any task of the captured scope since `Begin`. */
  lemma FreshExactly(db: Db, r: Request, steps: seq<Step>)
    requires JustBegun(db, r) && r.id in Exec(db, steps).turns && ScopeKept(db, r, steps)
    ensures Fresh(Exec(db, steps), r.id) <==> Untouched(db, r, steps)
  {
    hide Inv, Exec, ScopeTasks, ForeignSum, KeepsClock;
    var d := Exec(db, steps);
    BasisFixed(db, steps, r.id);
    ScopeNonempty(db, r);
    var some :| some in ScopeTasks(db, r);
    assert (r.id, some) in BasisRows(d, r.id);
    forall t | t in ScopeTasks(db, r)
      ensures (r.id, t) in BasisRows(d, r.id)
      ensures RowHolds(d, (r.id, t)) <==> ForeignSum(db, steps, r.id, t) == 0
    {
      assert (r.id, t) in BasisRows(db, r.id);
      ExactClock(db, steps, r.id, t);
    }
    if Untouched(db, r, steps) {
      forall k | k in BasisRows(d, r.id) ensures RowHolds(d, k) {
        var t := k.1;
        assert t in ScopeTasks(db, r) && k == (r.id, t);
        assert ForeignSum(db, steps, r.id, t) == 0;
        assert RowHolds(d, (r.id, t));
      }
    }
    if Fresh(d, r.id) {
      forall t | t in ScopeTasks(db, r) ensures ForeignSum(db, steps, r.id, t) == 0 {
        assert RowHolds(d, (r.id, t));
      }
    }
  }

  /** New intents, leases, model requests and commits are accepted only then. */
  lemma WorkNeedsUntouchedScope(db: Db, r: Request, steps: seq<Step>, step: Step)
    requires JustBegun(db, r) && ScopeKept(db, r, steps) && r.id in Exec(db, steps).turns
    requires step.StartTool? || step.ActionEligible? || step.ModelRequest? || step.Commit?
    requires step.id == r.id && Next(Exec(db, steps), step) != Exec(db, steps)
    ensures Untouched(db, r, steps)
  {
    hide Inv, Effect, Next, Exec, Untouched, ScopeKept;
    var d := Exec(db, steps);
    InvAlways(db, steps);
    StepEffect(d, step);
    WorkNeedsFresh(d, step, Next(d, step));
    FreshExactly(db, r, steps);
  }

  lemma WorkNeedsFresh(db: Db, step: Step, d: Db)
    requires Effect(db, step, d) && d != db
    requires step.StartTool? || step.ActionEligible? || step.ModelRequest? || step.Commit?
    ensures step.id in db.turns && Fresh(db, step.id)
  {
    hide Began, Finished, TurnMoved, Swept, Performed, Fresh, Ticked, FactsAdded, FactsWritten;
  }

  /** The run extended by more steps. */
  lemma {:induction false} ForeignSumGrows(db: Db, steps: seq<Step>, more: seq<Step>, id: RequestId, t: TaskId)
    requires Inv(db) && id in db.turns && id in Exec(db, steps + more).turns
    requires Watched(db, id, t) && KeepsClock(steps + more, t)
    ensures id in Exec(db, steps).turns
    ensures ForeignSum(db, steps, id, t) <= ForeignSum(db, steps + more, id, t)
    decreases |more|
  {
    hide Inv, Effect, Next;
    var all := steps + more;
    if more == [] {
      assert all == steps;
    } else {
      var front := steps + more[..|more| - 1];
      assert all[..|all| - 1] == front;
      StillThere(db, all, id);
      ForeignSumGrows(db, steps, more[..|more| - 1], id, t);
      ExactClock(db, front, id, t);
      LastStep(db, all);
      GapStep(Exec(db, front), all[|all| - 1], Exec(db, all), id, t);
    }
  }

  /** Staleness is permanent: no later tool output, recovery or write makes the turn fresh again. */
  lemma StaleForever(db: Db, r: Request, steps: seq<Step>, more: seq<Step>)
    requires JustBegun(db, r) && ScopeKept(db, r, steps + more)
    requires r.id in Exec(db, steps).turns && r.id in Exec(db, steps + more).turns
    requires !Fresh(Exec(db, steps), r.id)
    ensures !Fresh(Exec(db, steps + more), r.id)
  {
    hide Inv, Exec, ScopeTasks, ForeignSum, Fresh;
    assert forall t :: KeepsClock(steps + more, t) ==> KeepsClock(steps, t) by {
      PrefixKeeps(steps, more);
    }
    FreshExactly(db, r, steps);
    FreshExactly(db, r, steps + more);
    if Untouched(db, r, steps + more) {
      forall t | t in ScopeTasks(db, r) ensures ForeignSum(db, steps, r.id, t) == 0 {
        ForeignSumGrows(db, steps, more, r.id, t);
        ExactClock(db, steps, r.id, t);
      }
    }
  }

  lemma PrefixKeeps(steps: seq<Step>, more: seq<Step>)
    ensures forall t :: KeepsClock(steps + more, t) ==> KeepsClock(steps, t)
  {
    assert forall i :: 0 <= i < |steps| ==> (steps + more)[i] == steps[i];
  }

  // What an accepted turn still sees.

  lemma {:induction false} MemoryKept(db: Db, steps: seq<Step>, id: RequestId, clock: TaskId, t: TaskId)
    requires Inv(db) && id in db.turns && id in Exec(db, steps).turns
    requires Watched(db, id, clock) && KeepsClock(steps, clock)
    requires ForeignSum(db, steps, id, clock) == 0
    requires t == clock || clock == GLOBAL
    ensures SameMemory(db, Exec(db, steps), t, id)
    decreases |steps|
  {
    hide Inv, Effect, Next, SameMemory, Ticked;
    if steps == [] {
      SameAsItself(db, id);
    } else {
      var front := steps[..|steps| - 1];
      var before := Exec(db, front);
      var step := steps[|steps| - 1];
      StillThere(db, steps, id);
      ExactClock(db, front, id, clock);
      LastStep(db, steps);
      GapStep(before, step, Exec(db, steps), id, clock);
      MemoryKept(db, front, id, clock, t);
      var owners := StepTouches(before, step, Exec(db, steps), id);
      QuietClock(before, Exec(db, steps), owners, id, clock, t, step);
      SameMemoryThen(db, before, Exec(db, steps), t, id);
    }
  }

  /** A clock that did not move vouches for its task, and the global clock for every task. */
  lemma QuietClock(db: Db, d: Db, owners: set<TaskId>, id: RequestId, clock: TaskId, t: TaskId, step: Step)
    requires Touches(db, d, owners, id) && clock in db.clock && clock in d.clock
    requires OwnOutput(step, id) ==> forall x :: SameMemory(db, d, x, id)
    requires ForeignTicks(db, step, d, id, clock) == 0
    requires t == clock || clock == GLOBAL
    ensures SameMemory(db, d, t, id)
  {
    hide SameMemory;
  }

  /** While a turn is fresh its scope is still exactly the captured list, in the same order, and
      every task in it (every task at all, for a whole-database scope) has the row, parents, facts
      and messages it had when the turn began, apart from the turn's own tool outputs. */
  lemma FreshScopeIsTheCapturedScope(db: Db, r: Request, steps: seq<Step>, t: TaskId)
    requires JustBegun(db, r) && ScopeKept(db, r, steps)
    requires r.id in Exec(db, steps).turns && Fresh(Exec(db, steps), r.id)
    ensures t in ScopeTasks(db, r) || r.scope == Everything ==> SameMemory(db, Exec(db, steps), t, r.id)
    ensures ScopeTasks(Exec(db, steps), r) == ScopeTasks(db, r)
  {
    hide Inv, Exec, ForeignSum, Fresh, SameMessages, SameFacts;
    FreshExactly(db, r, steps);
    var d := Exec(db, steps);
    if r.scope == Everything {
      assert GLOBAL in ScopeTasks(db, r);
      MemoryKept(db, steps, r.id, GLOBAL, t);
    } else {
      forall x | x in ScopeTasks(db, r) ensures SameMemory(db, d, x, r.id) {
        MemoryKept(db, steps, r.id, x, x);
      }
      if r.scope == Lineage {
        forall x | x in Ancestry.Lineage(db.parents, r.task)
          ensures Ancestry.ParentsOf(db.parents, x) == Ancestry.ParentsOf(d.parents, x)
        {
          assert x in ScopeTasks(db, r) && SameMemory(db, d, x, r.id);
        }
        Ancestry.LineageStable(db.parents, d.parents, r.task);
      }
    }
  }

  // Why the clock rows have to survive.

  /** A scoped turn on task 1 whose basis is one behind its clock. */
  function StaleTurn(): Db {
    var r := Request("r", 1, "q", OneTask, true, 10, 0, "");
    Db(map[1 := TaskRow(false, "{}", 1)], map[], map[], 0, map[], 0, map[1 := 2],
       map["r" := TurnRow(1, r, Pending, 1, 1, Package("[]", 10, "{}"), None, 0)], 1,
       map[], map[], map[], map[], map[("r", 1) := 1], {}, {})
  }

  lemma StaleTurnKept()
    ensures Inv(StaleTurn())
  {}

  lemma StaleTurnExists()
    ensures Inv(StaleTurn()) && "r" in StaleTurn().turns
    ensures BasisRows(StaleTurn(), "r") == {("r", 1)} && !Fresh(StaleTurn(), "r")
  {
    var db := StaleTurn();
    StaleTurnKept();
    hide StartedCalls, Inv;
    assert ("r", 1) in BasisRows(db, "r") && !RowHolds(db, ("r", 1));
  }

  /** Without the hypothesis that clock rows survive, staleness is not permanent: once a clock row
      is lost, the trigger restarts it at one and can pass through the captured value again. */
  lemma LostClockForgives(db: Db, id: RequestId, t: TaskId)
    requires id in db.turns && BasisRows(db, id) == {(id, t)} && db.basis[(id, t)] == 1
    requires t in db.tasks && t != GLOBAL
    ensures var d := Next(Next(db, Foreign(LoseClock(t))), Foreign(TouchAlias(t)));
            id in d.turns && Fresh(d, id)
  {
    var lost := Next(db, Foreign(LoseClock(t)));
    assert lost == db.(clock := db.clock - {t});
    var d := Next(lost, Foreign(TouchAlias(t)));
    assert d == lost.(clock := Tick(lost.clock, t));
    BirthClock(db.clock, t);
    assert BasisRows(d, id) == BasisRows(db, id);
  }

  lemma BirthClock(clock: map<TaskId, int>, t: TaskId)
    requires t != GLOBAL
    ensures var after := Tick(clock - {t}, t); t in after && after[t] == 1
  {}
}
