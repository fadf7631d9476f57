/** The engine's methods as they run: statement by statement against one database, inside a
    transaction that restores the state on any error. Each is proved equal to its specification
    in `JournalSteps`, which is what the results about runs speak of. */
module JournalEngine {
  import opened Common
  import Ancestry
  import opened JournalState
  import Ops = JournalSteps
  import Retention
  import RetentionScan
  import opened JournalRuns

  datatype Outcome = Done(view: View) | Failed(error: Code)

  /** A finished transaction: all of `expected`, or no change at all. */
  predicate Follows(before: Db, after: Db, out: Outcome, expected: Result) {
    if expected.Ok? then after == expected.db && out == Done(expected.view)
    else after == before && out == Failed(expected.error)
  }

  /** A transaction body: on an error the state is left for the rollback. */
  predicate Ran(after: Db, out: Outcome, expected: Result) {
    if expected.Ok? then after == expected.db && out == Done(expected.view)
    else out == Failed(expected.error)
  }

  lemma NothingCaptured(clock: map<TaskId, int>, basis: map<(RequestId, TaskId), int>, id: RequestId)
    ensures basis + Ops.CapturedRows(clock, id, []) == basis
  {}

  lemma OneCaptured(clock: map<TaskId, int>, basis: map<(RequestId, TaskId), int>, id: RequestId,
                    scope: seq<TaskId>, t: TaskId)
    requires t in clock && t !in scope && (id, t) !in basis
    ensures (id, t) !in basis + Ops.CapturedRows(clock, id, scope)
    ensures (basis + Ops.CapturedRows(clock, id, scope))[(id, t) := clock[t]]
         == basis + Ops.CapturedRows(clock, id, scope + [t])
  {}

  lemma AskKeepsBasis(db: Db, r: Request, packed: Json, now: int)
    requires r.task in db.tasks
    ensures var asked := Ops.Ask(db, r, packed, now); asked.Ok? ==> asked.db.basis == db.basis
  {
    hide Tick, TextOk, Append, Ops.Reopen;
    AppendShape(Ops.Reopen(db, r.task), r.task, User, r.query, Some(r.id));
    ReopenKeeps(db, r.task);
  }

  lemma ReopenKeeps(db: Db, task: TaskId)
    requires task in db.tasks
    ensures var live := Ops.Reopen(db, task);
            task in live.tasks && live.basis == db.basis && live.turns == db.turns && live.lastTurn == db.lastTurn
  {
    hide Tick;
  }

  lemma ProvenanceStep(db: Db, r: Request, refs: seq<Ref>, i: nat)
    requires i < |refs|
    ensures var problem := Ops.RefProblem(db, r, refs, i);
            Ops.ProvenanceProblem(db, r, refs, i) ==
              if problem.Some? then problem else Ops.ProvenanceProblem(db, r, refs, i + 1)
  {}

  lemma NoEdges(edges: set<(RequestId, MessageId, Kind)>, id: RequestId)
    ensures edges + Ops.EdgesOf(id, []) == edges
  {}

  lemma OneEdge(edges: set<(RequestId, MessageId, Kind)>, id: RequestId, refs: seq<Ref>, ref: Ref)
    requires ref !in refs && forall e :: e in edges ==> e.0 != id
    ensures (id, ref.evidence, ref.kind) !in edges + Ops.EdgesOf(id, refs)
    ensures edges + Ops.EdgesOf(id, refs) + {(id, ref.evidence, ref.kind)} == edges + Ops.EdgesOf(id, refs + [ref])
  {
    assert forall r :: r in refs ==> r != ref;
    assert forall r :: r in refs + [ref] <==> r in refs || r == ref;
  }

  /** What an accepted commit was already checked for, so that none of its inserts can collide. */
  lemma AcceptedCommit(db: Db, id: RequestId, generation: int, reply: Reply)
    requires TurnTable(db) && EdgesCommitted(db) && Ops.CommitProblem(db, id, generation, reply).None?
    ensures id in db.turns && db.turns[id].request.id == id && db.turns[id].request.task in db.tasks
    ensures Distinct(reply.provenance) && forall e :: e in db.provenance ==> e.0 != id
  {
    hide Fresh, StartedCalls, ScopeTasks;
    hide Ops.ProvenanceProblem, Admissible, Distinct;
    ProvenanceAccepted(db, db.turns[id].request, reply.provenance);
  }

  class Engine {
    var db: Db

    constructor (start: Db)
      ensures db == start
    {
      db := start;
    }

    // Statements.

    /** The clock triggers of a row owned by `task`. */
    method FireClocks(task: TaskId)
      modifies this
      ensures db == old(db).(clock := Tick(old(db).clock, task))
    {
      var clock := db.clock;
      clock := clock[task := if task in clock then clock[task] + 1 else 1];
      if GLOBAL in clock {
        clock := clock[GLOBAL := clock[GLOBAL] + 1];
      }
      db := db.(clock := clock);
    }

    /** `append`. */
    method AppendRow(task: TaskId, role: Role, content: string, origin: Option<RequestId>) returns (out: Outcome)
      modifies this
      ensures Ran(db, out, Append(old(db), task, role, content, origin))
    {
      hide Tick, TextOk;
      if !TextOk(content) {
        return Failed(Invalid);
      }
      if task !in db.tasks {
        return Failed(Storage);
      }
      var id := db.lastMessage + 1;
      db := db.(messages := db.messages[id := Message(task, role, content, origin)], lastMessage := id);
      FireClocks(task);
      out := Done(NoView);
    }

    /** `setFact`. */
    method SetFactRow(task: TaskId, f: FactUpdate) returns (out: Outcome)
      modifies this
      ensures Ran(db, out, SetFact(old(db), task, f))
    {
      hide Tick, TextOk;
      if !TextOk(f.key) {
        return Failed(Invalid);
      }
      if f.evidence !in db.messages || db.messages[f.evidence].task != task {
        return Failed(Invalid);
      }
      var id := db.lastFact + 1;
      var revision := NextRevision(Revisions(db, task, f.key));
      db := db.(facts := db.facts[id := Fact(task, f.key, revision, f.content, f.evidence, f.retracted)],
                lastFact := id);
      FireClocks(task);
      out := Done(NoView);
    }

    // Freshness.

    /** `captureBasis`: one row per task of the scope. */
    method CaptureBasis(id: RequestId, scope: seq<TaskId>) returns (out: Outcome)
      requires forall t :: t in scope ==> (id, t) !in db.basis
      requires Distinct(scope)
      modifies this
      ensures Ran(db, out, Ops.CaptureBasis(old(db), id, scope))
    {
      hide Ops.CapturedRows;
      ghost var start := db;
      NothingCaptured(db.clock, db.basis, id);
      assert scope[..0] == [];
      for i := 0 to |scope|
        invariant forall j :: 0 <= j < i ==> scope[j] in start.clock
        invariant db == start.(basis := start.basis + Ops.CapturedRows(start.clock, id, scope[..i]))
      {
        var t := scope[i];
        if t !in db.clock {
          return Failed(Integrity);
        }
        assert scope[..i + 1] == scope[..i] + [t] && t !in scope[..i];
        OneCaptured(start.clock, start.basis, id, scope[..i], t);
        if (id, t) in db.basis {
          return Failed(Storage);
        }
        db := db.(basis := db.basis[(id, t) := db.clock[t]]);
      }
      assert scope[..|scope|] == scope;
      out := Done(NoView);
    }

    /** `validateBasis`. */
    method ValidateBasis(id: RequestId) returns (current: bool)
      requires id in db.turns
      ensures current == Fresh(db, id)
    {
      if !db.turns[id].request.scoped {
        return true;
      }
      var rows := BasisRows(db, id);
      if rows == {} {
        return false;
      }
      while rows != {}
        invariant rows <= BasisRows(db, id)
        invariant forall k :: k in BasisRows(db, id) && k !in rows ==> RowHolds(db, k)
        decreases |rows|
      {
        var k :| k in rows;
        if !RowHolds(db, k) {
          return false;
        }
        rows := rows - {k};
      }
      current := true;
    }

    /** `pending`. */
    method CheckPending(id: RequestId, generation: int) returns (problem: Option<Code>)
      ensures problem == Barred(db, id, generation)
    {
      if id !in db.turns {
        return if id in db.retired then Some(Retired) else Some(NotFound);
      }
      if db.turns[id].status != Pending {
        return Some(NotPending);
      }
      if db.turns[id].generation != generation {
        return Some(Fenced);
      }
      problem := None;
    }

    /** `scope`, with the whole-database clock standing for every task. */
    method ScopeOf(r: Request) returns (ids: seq<TaskId>)
      ensures ids == ScopeTasks(db, r) && Distinct(ids)
    {
      match r.scope
      case OneTask => ids := [r.task];
      case Everything => ids := [GLOBAL];
      case Lineage =>
        ids := Ancestry.ScopeIds(db.parents, r.task);
        Ancestry.SearchExact(db.parents, r.task, Ancestry.SCOPE_HOPS);
    }

    // Begin.

    /** Beginning work on an archived task reopens it. */
    method ReopenTask(task: TaskId)
      requires task in db.tasks
      modifies this
      ensures db == Ops.Reopen(old(db), task)
    {
      hide Tick;
      var row := db.tasks[task];
      if row.archived {
        db := db.(tasks := db.tasks[task := row.(archived := false, revision := row.revision + 1)]);
        FireClocks(task);
      }
    }

    /** Reopen, ask and insert the turn row. */
    method AskRows(r: Request, packed: Json, now: int) returns (out: Outcome)
      requires r.task in db.tasks
      modifies this
      ensures Ran(db, out, Ops.Ask(old(db), r, packed, now))
    {
      hide Append, Ops.Reopen;
      ReopenKeeps(db, r.task);
      ReopenTask(r.task);
      var task := db.tasks[r.task];
      AppendShape(db, r.task, User, r.query, Some(r.id));
      out := AppendRow(r.task, User, r.query, Some(r.id));
      if out.Failed? {
        return;
      }
      var package := Package(packed, r.budget - r.reserve, task.snapshot);
      var row := TurnRow(db.lastTurn + 1, r, Pending, 1, task.revision, package, None, now);
      db := db.(turns := db.turns[r.id := row], lastTurn := db.lastTurn + 1);
      out := Done(TurnView(row, true, false));
    }

    method BeginRows(r: Request, packed: Json, now: int) returns (out: Outcome)
      requires r.task in db.tasks && forall t :: (r.id, t) !in db.basis
      modifies this
      ensures Ran(db, out, Ops.BeginWrites(old(db), r, packed, now))
    {
      hide Ops.Ask, Ops.CaptureBasis, ScopeTasks;
      AskKeepsBasis(db, r, packed, now);
      out := AskRows(r, packed, now);
      if out.Failed? || !r.scoped {
        return;
      }
      var ids := ScopeOf(r);
      var captured := CaptureBasis(r.id, ids);
      if captured.Failed? {
        return captured;
      }
    }

    /** `Begin`. The foreign key of the basis is the only thing asked of the state. */
    method Begin(r: Request, packed: Option<Json>, now: int) returns (out: Outcome)
      requires forall k :: k in db.basis ==> k.0 in db.turns
      modifies this
      ensures Follows(old(db), db, out, Ops.Begin(old(db), r, packed, now))
    {
      hide Ops.BeginWrites, TextOk;
      if !Ops.ValidRequest(r) {
        return Failed(Invalid);
      }
      if r.id in db.retired {
        return Failed(if db.retired[r.id].fingerprint != r then Conflict else Retired);
      }
      if r.id in db.turns {
        if db.turns[r.id].request != r {
          return Failed(Conflict);
        }
        return Done(TurnView(db.turns[r.id], false, true));
      }
      if Ops.TaskBusy(db, r.task) {
        return Failed(Busy);
      }
      if r.task !in db.tasks {
        return Failed(NotFound);
      }
      if packed.None? {
        return Failed(OverBudget);
      }
      var saved := db;
      out := BeginRows(r, packed.value, now);
      if out.Failed? {
        db := saved;
      }
    }

    // Recover, Abort.

    method Recover(id: RequestId, expected: int, now: int) returns (out: Outcome)
      modifies this
      ensures Follows(old(db), db, out, Ops.Recover(old(db), id, expected, now))
    {
      var problem := CheckPending(id, expected);
      if problem.Some? {
        return Failed(problem.value);
      }
      var turn := db.turns[id];
      if turn.request.task !in db.tasks {
        return Failed(NotFound);
      }
      if db.tasks[turn.request.task].revision != turn.taskRevision {
        return Failed(Conflict);
      }
      var row := turn.(generation := turn.generation + 1, updatedAt := now);
      db := db.(turns := db.turns[id := row]);
      out := Done(TurnView(row, false, false));
    }

    method Abort(id: RequestId, generation: int, now: int) returns (out: Outcome)
      modifies this
      ensures Follows(old(db), db, out, Ops.Abort(old(db), id, generation, now))
    {
      var problem := CheckPending(id, generation);
      if problem.Some? {
        return Failed(problem.value);
      }
      db := db.(turns := db.turns[id := db.turns[id].(status := Aborted, updatedAt := now)]);
      out := Done(NoView);
    }

    // Commit.

    /** `validateProvenance`: `seen` grows with the edges already accepted. */
    method ValidateProvenance(r: Request, refs: seq<Ref>) returns (problem: Option<Code>)
      ensures problem == Ops.ProvenanceProblem(db, r, refs, 0)
      ensures problem.None? <==> Sourced(db, r, refs)
    {
      hide Sourced;
      ProvenanceAccepted(db, r, refs);
      if refs == [] {
        return None;
      }
      hide ScopeTasks;
      var scope := ScopeOf(r);
      var allowed := set t | t in scope;
      var seen: set<Ref> := {};
      for i := 0 to |refs|
        invariant forall x :: x in seen <==> x in refs[..i]
        invariant Ops.ProvenanceProblem(db, r, refs, i) == Ops.ProvenanceProblem(db, r, refs, 0)
      {
        var ref := refs[i];
        ProvenanceStep(db, r, refs, i);
        if ref.evidence < 1 || ref.kind == UnknownKind {
          return Some(Invalid);
        }
        if ref in seen {
          return Some(Invalid);
        }
        seen := seen + {ref};
        assert refs[..i + 1] == refs[..i] + [ref];
        if ref.evidence !in db.messages {
          return Some(StaleContext);
        }
        if r.scope != Everything && db.messages[ref.evidence].task !in allowed {
          return Some(Invalid);
        }
        if ref.kind == Contradicts {
          return Some(Conflict);
        }
        var stale := HasRetractedFact(ref.evidence);
        if stale {
          return Some(StaleContext);
        }
      }
      problem := None;
    }

    /** The loop over the facts of one piece of evidence. */
    method HasRetractedFact(evidence: MessageId) returns (found: bool)
      ensures found == exists f :: f in db.facts && db.facts[f].evidence == evidence && db.facts[f].retracted
    {
      var facts := set f | f in db.facts && db.facts[f].evidence == evidence;
      while facts != {}
        invariant facts <= set f | f in db.facts && db.facts[f].evidence == evidence
        invariant forall f :: f in db.facts && db.facts[f].evidence == evidence && f !in facts ==>
                    !db.facts[f].retracted
        decreases |facts|
      {
        ghost var some := Pick(facts);
        var f :| f in facts;
        if db.facts[f].retracted {
          return true;
        }
        facts := facts - {f};
      }
      found := false;
    }

    method SetFactRows(task: TaskId, facts: seq<FactUpdate>) returns (out: Outcome)
      modifies this
      ensures Ran(db, out, Ops.SetFacts(old(db), task, facts))
    {
      hide SetFact;
      ghost var all := Ops.SetFacts(db, task, facts);
      for i := 0 to |facts|
        invariant Ops.SetFacts(db, task, facts[i..]) == all
      {
        assert facts[i..][0] == facts[i] && facts[i..][1..] == facts[i + 1..];
        var written := SetFactRow(task, facts[i]);
        if written.Failed? {
          return written;
        }
      }
      out := Done(NoView);
    }

    /** The loop inserting provenance edges; an edge already there breaks the primary key. */
    method InsertEdges(id: RequestId, refs: seq<Ref>) returns (out: Outcome)
      requires Distinct(refs) && forall e :: e in db.provenance ==> e.0 != id
      modifies this
      ensures out == Done(NoView)
      ensures db == old(db).(provenance := old(db).provenance + Ops.EdgesOf(id, refs))
    {
      hide Ops.EdgesOf;
      ghost var start := db;
      NoEdges(db.provenance, id);
      assert refs[..0] == [];
      for i := 0 to |refs|
        invariant db == start.(provenance := start.provenance + Ops.EdgesOf(id, refs[..i]))
      {
        assert refs[..i + 1] == refs[..i] + [refs[i]] && refs[i] !in refs[..i];
        OneEdge(start.provenance, id, refs[..i], refs[i]);
        var edge := (id, refs[i].evidence, refs[i].kind);
        if edge in db.provenance {
          return Failed(Storage);
        }
        db := db.(provenance := db.provenance + {edge});
      }
      assert refs[..|refs|] == refs;
      out := Done(NoView);
    }

    method PublishRows(turn: TurnRow, reply: Reply, now: int) returns (out: Outcome)
      requires turn.request.task in db.tasks && Distinct(reply.provenance)
      requires forall e :: e in db.provenance ==> e.0 != turn.request.id
      modifies this
      ensures Ran(db, out, Ops.Publish(old(db), turn, reply, now))
    {
      hide Tick, Ops.EdgesOf, Ops.NewSnapshot, Distinct;
      var id, task := turn.request.id, turn.request.task;
      var row := db.tasks[task];
      db := db.(tasks := db.tasks[task := row.(snapshot := Ops.NewSnapshot(row, reply), revision := row.revision + 1)]);
      FireClocks(task);
      var inserted := InsertEdges(id, reply.provenance);
      var committed := turn.(status := Committed, reply := Some(Encoded(reply)), updatedAt := now);
      db := db.(turns := db.turns[id := committed]);
      out := Done(TurnView(committed, false, false));
    }

    method CommitRows(turn: TurnRow, reply: Reply, now: int) returns (out: Outcome)
      requires turn.request.task in db.tasks && Distinct(reply.provenance)
      requires forall e :: e in db.provenance ==> e.0 != turn.request.id
      modifies this
      ensures Ran(db, out, Ops.CommitWrites(old(db), turn, reply, now))
    {
      hide Append, Ops.SetFacts, Ops.Publish, Distinct;
      var task := turn.request.task;
      AppendShape(db, task, Assistant, reply.text, Some(turn.request.id));
      out := AppendRow(task, Assistant, reply.text, Some(turn.request.id));
      if out.Failed? {
        return;
      }
      SetFactsShape(db, task, reply.facts);
      out := SetFactRows(task, reply.facts);
      if out.Failed? {
        return;
      }
      out := PublishRows(turn, reply, now);
    }

    /** Everything `Commit` checks before it writes. */
    method CheckCommit(id: RequestId, generation: int, reply: Reply) returns (problem: Option<Code>)
      ensures problem == Ops.CommitProblem(db, id, generation, reply)
    {
      hide Fresh, Ops.ProvenanceProblem, StartedCalls;
      problem := CheckPending(id, generation);
      if problem.Some? {
        return;
      }
      var turn := db.turns[id];
      var current := ValidateBasis(id);
      if !current {
        return Some(StaleContext);
      }
      if turn.request.task !in db.tasks {
        return Some(NotFound);
      }
      if turn.request.scoped && Ops.SnapshotChanged(turn, reply) && reply.provenance == [] {
        return Some(ProvenanceRequired);
      }
      problem := ValidateProvenance(turn.request, reply.provenance);
      if problem.Some? {
        return;
      }
      if db.tasks[turn.request.task].revision != turn.taskRevision {
        return Some(Conflict);
      }
      if StartedCalls(db, id) != {} {
        return Some(IndeterminateTool);
      }
      problem := None;
    }

    /** `Commit`. */
    method Commit(id: RequestId, generation: int, reply: Reply, now: int) returns (out: Outcome)
      requires TurnTable(db) && EdgesCommitted(db)
      modifies this
      ensures Follows(old(db), db, out, Ops.Commit(old(db), id, generation, reply, now))
    {
      hide TextOk, Ops.CommitProblem, Ops.CommitWrites, TurnTable, EdgesCommitted, Distinct;
      if !TextOk(reply.text) {
        return Failed(Invalid);
      }
      if id in db.turns && db.turns[id].status == Committed {
        if db.turns[id].generation != generation {
          return Failed(Fenced);
        }
        if db.turns[id].reply != Some(Encoded(reply)) {
          return Failed(Conflict);
        }
        return Done(TurnView(db.turns[id], false, true));
      }
      var problem := CheckCommit(id, generation, reply);
      if problem.Some? {
        return Failed(problem.value);
      }
      var saved := db;
      AcceptedCommit(db, id, generation, reply);
      out := CommitRows(db.turns[id], reply, now);
      if out.Failed? {
        db := saved;
      }
    }

    // Tools.

    method StartTool(id: RequestId, generation: int, call: CallId, name: string, args: Json) returns (out: Outcome)
      modifies this
      ensures Follows(old(db), db, out, Ops.StartTool(old(db), id, generation, call, name, args))
    {
      hide TextOk, Fresh;
      if !TextOk(call) || !TextOk(name) || |call| > 128 {
        return Failed(Invalid);
      }
      var problem := CheckPending(id, generation);
      if problem.Some? {
        return Failed(problem.value);
      }
      if (id, call) in db.tools {
        var row := db.tools[(id, call)];
        if row.name != name || row.args != args {
          return Failed(Conflict);
        }
        return Done(ToolView(row, false));
      }
      var current := ValidateBasis(id);
      if !current {
        return Failed(StaleContext);
      }
      db := db.(tools := db.tools[(id, call) := Started(name, args)]);
      out := Done(ToolView(Started(name, args), true));
    }

    method ActionEligible(id: RequestId, generation: int, call: CallId, ttl: int, now: int) returns (out: Outcome)
      modifies this
      ensures Follows(old(db), db, out, Ops.ActionEligible(old(db), id, generation, call, ttl, now))
    {
      hide TextOk, Fresh;
      if !TextOk(call) || |call| > 128 {
        return Failed(Invalid);
      }
      var ms := ttl;
      if ms == 0 {
        ms := Ops.DEFAULT_TTL;
      }
      if ms < 1 || ms > Ops.MAX_TTL {
        return Failed(Invalid);
      }
      var problem := CheckPending(id, generation);
      if problem.Some? {
        return Failed(problem.value);
      }
      if (id, call) !in db.tools {
        return Failed(NotFound);
      }
      var row := db.tools[(id, call)];
      if !row.Started? {
        return Failed(NotPending);
      }
      var current := ValidateBasis(id);
      if !current {
        return Failed(StaleContext);
      }
      var lease := Lease(id, generation, call, row.name, row.args, now + ms);
      if lease in db.leases {
        return Failed(Storage);
      }
      db := db.(leases := db.leases + {lease});
      out := Done(LeaseView(lease));
    }

    /** `advanceBasis`. */
    method AdvanceBasis(id: RequestId, task: TaskId, before: int) returns (ok: bool)
      modifies this
      ensures ok == (task in old(db).clock)
      ensures db == if ok
                    then old(db).(basis := Ops.AdvanceBasis(old(db).basis, id, task, old(db).clock[task] - before))
                    else old(db)
    {
      if task !in db.clock {
        return false;
      }
      if (id, task) in db.basis {
        db := db.(basis := db.basis[(id, task) := db.basis[(id, task)] + (db.clock[task] - before)]);
      }
      ok := true;
    }

    method FinishRows(id: RequestId, task: TaskId, call: CallId, row: ToolRow, result: Json) returns (out: Outcome)
      modifies this
      ensures Ran(db, out, Ops.FinishWrites(old(db), id, task, call, row, result))
    {
      hide Append, Ops.AdvanceBasis;
      if task !in db.clock || GLOBAL !in db.clock {
        return Failed(Integrity);
      }
      var taskBefore, globalBefore := db.clock[task], db.clock[GLOBAL];
      AppendShape(db, task, Tool, result, Some(id));
      out := AppendRow(task, Tool, result, Some(id));
      if out.Failed? {
        return;
      }
      var moved := AdvanceBasis(id, task, taskBefore);
      if !moved {
        return Failed(Integrity);
      }
      moved := AdvanceBasis(id, GLOBAL, globalBefore);
      if !moved {
        return Failed(Integrity);
      }
      var done := Completed(row.name, row.args, result, db.lastMessage);
      db := db.(tools := db.tools[(id, call) := done]);
      out := Done(ToolView(done, false));
    }

    method FinishTool(id: RequestId, generation: int, call: CallId, result: Json, token: Option<Lease>, now: int)
      returns (out: Outcome)
      modifies this
      ensures Follows(old(db), db, out, Ops.FinishTool(old(db), id, generation, call, result, token, now))
    {
      hide Ops.FinishWrites, Ops.LeaseProblem;
      var problem := CheckPending(id, generation);
      if problem.Some? {
        return Failed(problem.value);
      }
      if (id, call) !in db.tools {
        return Failed(NotFound);
      }
      var row := db.tools[(id, call)];
      if row.Completed? {
        if row.result != result {
          return Failed(Conflict);
        }
        return Done(ToolView(row, false));
      }
      if token.Some? {
        problem := Ops.LeaseProblem(db, id, generation, call, row, token.value, now);
        if problem.Some? {
          return Failed(problem.value);
        }
      }
      var saved := db;
      out := FinishRows(id, db.turns[id].request.task, call, row, result);
      if out.Failed? {
        db := saved;
      }
    }

    // Model calls.

    method RecordModelRequest(id: RequestId, generation: int, call: CallId, row: ModelRow) returns (out: Outcome)
      modifies this
      ensures Follows(old(db), db, out, Ops.RecordModelRequest(old(db), id, generation, call, row))
    {
      hide TextOk, Fresh;
      if !TextOk(call) || !TextOk(row.counting) || row.units < 0 {
        return Failed(Invalid);
      }
      var problem := CheckPending(id, generation);
      if problem.Some? {
        return Failed(problem.value);
      }
      if row.units > db.turns[id].package.allowance {
        return Failed(OverBudget);
      }
      if (id, call) in db.models {
        if db.models[(id, call)] != row {
          return Failed(Conflict);
        }
        return Done(NoView);
      }
      var current := ValidateBasis(id);
      if !current {
        return Failed(StaleContext);
      }
      db := db.(models := db.models[(id, call) := row]);
      out := Done(NoView);
    }

    method RecordModelResponse(id: RequestId, generation: int, call: CallId, response: Json) returns (out: Outcome)
      modifies this
      ensures Follows(old(db), db, out, Ops.RecordModelResponse(old(db), id, generation, call, response))
    {
      hide TextOk;
      if !TextOk(call) {
        return Failed(Invalid);
      }
      var problem := CheckPending(id, generation);
      if problem.Some? {
        return Failed(problem.value);
      }
      if (id, call) !in db.models {
        return Failed(NotFound);
      }
      if (id, call) in db.responses {
        if db.responses[(id, call)] != response {
          return Failed(Conflict);
        }
        return Done(NoView);
      }
      db := db.(responses := db.responses[(id, call) := response]);
      out := Done(NoView);
    }

    // Retention.

    method ApplyRetention(plan: Retention.Plan) returns (out: Outcome)
      requires RetentionScan.OwnRowids(db.turns)
      modifies this
      ensures Follows(old(db), db, out, Retention.ApplyRetention(old(db), plan))
    {
      var result := RetentionScan.Apply(db, plan);
      if result.Err? {
        return Failed(result.error);
      }
      db := result.db;
      out := Done(result.view);
    }
  }
}
