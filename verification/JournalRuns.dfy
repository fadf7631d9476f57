/** Runs of the journal: any interleaving of engine calls by any number of workers, retention
    passes, and statements by other writers of the same database. */
module JournalRuns {
  import opened Common
  import Ancestry
  import opened JournalState
  import Ops = JournalSteps
  import opened Retention

  /** One row-level statement of another writer. A larger transaction is several of these, which
      only admits more interleavings. */
  datatype Write =
    | PutTask(task: TaskId, row: TaskRow)
    | DropTask(task: TaskId)
    | PutParents(task: TaskId, parents: seq<TaskId>)
    | PutMessage(message: MessageId, owner: TaskId, role: Role, content: string)
    | DropMessage(message: MessageId)
    | PutFact(factId: int, fact: Fact)
    | DropFact(factId: int)
    | TouchAlias(task: TaskId)
    | LoseClock(task: TaskId)

  /** Foreign keys, autoincrement, and the rule every storage API follows: whatever changes a
      snapshot or a status also advances the revision. */
  ghost predicate Allowed(db: Db, w: Write) {
    match w
    case PutTask(t, row) =>
      && t >= 1
      && (t in db.tasks ==>
            && db.tasks[t].revision <= row.revision
            && (db.tasks[t].revision == row.revision ==> db.tasks[t] == row))
    case DropTask(t) =>
      && t in db.tasks
      && Ancestry.ParentsOf(db.parents, t) == []
      && (forall c :: c in db.parents ==> t !in db.parents[c])
      && (forall m :: m in db.messages ==> db.messages[m].task != t)
      && (forall f :: f in db.facts ==> db.facts[f].task != t)
      && (forall id :: id in db.turns ==> db.turns[id].request.task != t)
    case PutParents(t, ps) => t in db.tasks && t !in ps && forall p :: p in ps ==> p in db.tasks
    case PutMessage(m, t, _, content) =>
      t in db.tasks && TextOk(content) && (m in db.messages || m == db.lastMessage + 1)
    case DropMessage(m) =>
      && m in db.messages
      && (forall f :: f in db.facts ==> db.facts[f].evidence != m)
      && (forall k :: k in db.tools && db.tools[k].Completed? ==> db.tools[k].evidence != m)
    case PutFact(f, fact) =>
      fact.task in db.tasks && fact.evidence in db.messages && (f in db.facts || f == db.lastFact + 1)
    case DropFact(f) => f in db.facts
    case TouchAlias(t) => t in db.tasks
    case LoseClock(_) => true
  }

  /** An update that moves a row between tasks ticks both owners, and the global clock once. */
  function TickMove(clock: map<TaskId, int>, from: TaskId, to: TaskId): map<TaskId, int> {
    if from == to then Tick(clock, to) else Tick(BumpOrCreate(clock, from), to)
  }

  function Perform(db: Db, w: Write): Db {
    match w
    case PutTask(t, row) => db.(tasks := db.tasks[t := row], clock := Tick(db.clock, t))
    case DropTask(t) => db.(tasks := db.tasks - {t}, clock := Tick(db.clock, t))
    case PutParents(t, ps) => db.(parents := db.parents[t := ps], clock := Tick(db.clock, t))
    case PutMessage(m, t, role, content) =>
      db.(messages := db.messages[m := Message(t, role, content, None)],
          lastMessage := if m in db.messages then db.lastMessage else m,
          clock := TickMove(db.clock, if m in db.messages then db.messages[m].task else t, t))
    case DropMessage(m) =>
      if m in db.messages then
        db.(messages := db.messages - {m}, clock := Tick(db.clock, db.messages[m].task))
      else db
    case PutFact(f, fact) =>
      db.(facts := db.facts[f := fact],
          lastFact := if f in db.facts then db.lastFact else f,
          clock := TickMove(db.clock, if f in db.facts then db.facts[f].task else fact.task, fact.task))
    case DropFact(f) =>
      if f in db.facts then db.(facts := db.facts - {f}, clock := Tick(db.clock, db.facts[f].task))
      else db
    case TouchAlias(t) => db.(clock := Tick(db.clock, t))
    case LoseClock(t) => db.(clock := db.clock - {t})
  }

  datatype Step =
    | Begin(request: Request, packed: Option<Json>, now: int)
    | Recover(id: RequestId, generation: int, now: int)
    | Commit(id: RequestId, generation: int, reply: Reply, now: int)
    | Abort(id: RequestId, generation: int, now: int)
    | StartTool(id: RequestId, generation: int, call: CallId, name: string, args: Json)
    | ActionEligible(id: RequestId, generation: int, call: CallId, ttl: int, now: int)
    | FinishTool(id: RequestId, generation: int, call: CallId, result: Json, token: Option<Lease>, now: int)
    | ModelRequest(id: RequestId, generation: int, call: CallId, row: ModelRow)
    | ModelResponse(id: RequestId, generation: int, call: CallId, response: Json)
    | Retain(plan: Plan)
    | Foreign(write: Write)

  function StateOr(db: Db, result: Result): Db {
    if result.Ok? then result.db else db
  }

  /** What a step answers; another writer's statement answers nothing. */
  ghost function Answer(db: Db, step: Step): Result {
    match step
    case Begin(r, packed, now) => Ops.Begin(db, r, packed, now)
    case Recover(id, g, now) => Ops.Recover(db, id, g, now)
    case Commit(id, g, reply, now) => Ops.Commit(db, id, g, reply, now)
    case Abort(id, g, now) => Ops.Abort(db, id, g, now)
    case StartTool(id, g, call, name, args) => Ops.StartTool(db, id, g, call, name, args)
    case ActionEligible(id, g, call, ttl, now) => Ops.ActionEligible(db, id, g, call, ttl, now)
    case FinishTool(id, g, call, result, token, now) => Ops.FinishTool(db, id, g, call, result, token, now)
    case ModelRequest(id, g, call, row) => Ops.RecordModelRequest(db, id, g, call, row)
    case ModelResponse(id, g, call, response) => Ops.RecordModelResponse(db, id, g, call, response)
    case Retain(plan) => ApplyRetention(db, plan)
    case Foreign(w) => if Allowed(db, w) then Ok(Perform(db, w), NoView) else Err(Storage)
  }

  ghost function Next(db: Db, step: Step): Db {
    StateOr(db, Answer(db, step))
  }

  ghost function Exec(db: Db, steps: seq<Step>): Db
    decreases |steps|
  {
    if steps == [] then db else Next(Exec(db, steps[..|steps| - 1]), steps[|steps| - 1])
  }

  /** The state after the first `n` steps. */
  ghost function At(db: Db, steps: seq<Step>, n: nat): Db
    requires n <= |steps|
  {
    Exec(db, steps[..n])
  }

  lemma AtNext(db: Db, steps: seq<Step>, n: nat)
    requires n < |steps|
    ensures At(db, steps, n + 1) == Next(At(db, steps, n), steps[n])
  {
    assert steps[..n + 1][..n] == steps[..n];
  }

  // The invariant, in four groups that read different tables.

  ghost predicate TurnTable(db: Db) {
    && (forall id :: id in db.turns ==> db.turns[id].request.id == id && id !in db.retired)
    && (forall id :: id in db.turns ==> db.turns[id].rowid <= db.lastTurn)
    && (forall a, b {:trigger db.turns[a].rowid, db.turns[b].rowid} ::
          a in db.turns && b in db.turns && a != b ==> db.turns[a].rowid != db.turns[b].rowid)
    && (forall id :: id in db.turns ==> (db.turns[id].reply.Some? <==> db.turns[id].status == Committed))
    && (forall id :: id in db.retired ==> db.retired[id].status != Pending)
    && OnePendingPerTask(db)
  }

  ghost predicate OnePendingPerTask(db: Db) {
    forall a, b {:trigger db.turns[a].request.task, db.turns[b].request.task} ::
      a in db.turns && b in db.turns && a != b && db.turns[a].status == Pending && db.turns[b].status == Pending
      ==> db.turns[a].request.task != db.turns[b].request.task
  }

  /** While a turn is pending, an unchanged revision means an unchanged snapshot. */
  ghost predicate SnapshotTracked(db: Db, id: RequestId)
    requires id in db.turns
  {
    var turn := db.turns[id];
    && turn.request.task in db.tasks
    && turn.request.task >= 1
    && (turn.status == Pending ==>
          && turn.taskRevision <= db.tasks[turn.request.task].revision
          && (turn.taskRevision == db.tasks[turn.request.task].revision ==>
                turn.package.snapshot == db.tasks[turn.request.task].snapshot))
  }

  ghost predicate Tracked(db: Db) {
    forall id :: id in db.turns ==> SnapshotTracked(db, id)
  }

  /** Every child row has its turn, a committed turn has no unresolved tool, and, since
      contradicting evidence always blocks a commit, only supporting edges exist. */
  ghost predicate ChildRows(db: Db) {
    && (forall k :: k in db.tools ==> k.0 in db.turns)
    && (forall k :: k in db.tools && k.0 in db.turns && db.turns[k.0].status == Committed ==> db.tools[k].Completed?)
    && (forall k :: k in db.models ==> k.0 in db.turns)
    && (forall k :: k in db.responses ==> k in db.models)
    && (forall k :: k in db.basis ==> k.0 in db.turns)
    && (forall e :: e in db.provenance ==> e.0 in db.turns && e.2 == Supports)
    && (forall l :: l in db.leases ==> l.request in db.turns)
  }

  ghost predicate IdsBounded(db: Db) {
    && (forall m :: m in db.messages ==> m <= db.lastMessage)
    && (forall f :: f in db.facts ==> f <= db.lastFact)
    && (forall t :: t in db.tasks ==> t >= 1)
  }

  /** Only a committed turn has provenance, so publishing never collides with an older edge. */
  ghost predicate EdgesCommitted(db: Db) {
    forall e :: e in db.provenance ==> e.0 in db.turns && db.turns[e.0].status == Committed
  }

  ghost predicate Inv(db: Db) {
    TurnTable(db) && Tracked(db) && ChildRows(db) && IdsBounded(db) && EdgesCommitted(db)
  }

  // What each transaction may touch.

  lemma AppendShape(db: Db, task: TaskId, role: Role, content: string, origin: Option<RequestId>)
    ensures var written := Append(db, task, role, content, origin);
            written.Ok? ==>
              && task in db.tasks
              && written.db == db.(messages := db.messages[db.lastMessage + 1 := Message(task, role, content, origin)],
                                   lastMessage := db.lastMessage + 1,
                                   clock := Tick(db.clock, task))
  {}

  /** The user message and the turn row of a first `Begin`, on a reopened task. */
  ghost predicate Asked(db: Db, r: Request, d: Db) {
    && r.id !in db.turns && r.id !in db.retired && !Ops.TaskBusy(db, r.task)
    && r.task >= 1 && r.task in db.tasks && r.task in d.tasks && r.id in d.turns
    && d == db.(tasks := d.tasks, messages := d.messages, lastMessage := d.lastMessage,
                clock := d.clock, basis := d.basis, turns := d.turns, lastTurn := d.lastTurn)
    && d.tasks == db.tasks[r.task := d.tasks[r.task]]
    && d.tasks[r.task] == db.tasks[r.task].(archived := false,
         revision := db.tasks[r.task].revision + if db.tasks[r.task].archived then 1 else 0)
    && d.lastMessage == db.lastMessage + 1
    && d.messages == db.messages[d.lastMessage := Message(r.task, User, r.query, Some(r.id))]
    && d.lastTurn == db.lastTurn + 1
    && d.turns == db.turns[r.id := d.turns[r.id]]
    && var turn := d.turns[r.id];
    && turn == TurnRow(d.lastTurn, r, Pending, 1, d.tasks[r.task].revision, turn.package, None, turn.updatedAt)
    && turn.package.snapshot == d.tasks[r.task].snapshot
    && turn.package.allowance == r.budget - r.reserve
    && d.clock == (if db.tasks[r.task].archived then Tick(Tick(db.clock, r.task), r.task)
                   else Tick(db.clock, r.task))
  }

  /** The basis of a first `Begin`: exactly the scope, at its current clocks. */
  ghost predicate Captured(db: Db, r: Request, d: Db) {
    && (forall k :: k in d.basis ==> k in db.basis || (k.0 == r.id && r.scoped && k.1 in ScopeTasks(d, r)))
    && (forall k :: k in db.basis && k.0 != r.id ==> k in d.basis && d.basis[k] == db.basis[k])
    && (r.scoped ==> forall t :: t in ScopeTasks(d, r) ==>
                                   t in d.clock && (r.id, t) in d.basis && d.basis[(r.id, t)] == d.clock[t])
  }

  ghost predicate Began(db: Db, r: Request, d: Db) {
    Asked(db, r, d) && Captured(db, r, d)
  }

  /** What the new row has from the call: its counted context and its time. */
  ghost predicate Opened(r: Request, packed: Json, now: int, d: Db) {
    r.id in d.turns && d.turns[r.id].package.messages == packed && d.turns[r.id].updatedAt == now
  }

  lemma AskShape(db: Db, r: Request, packed: Json, now: int)
    requires r.task in db.tasks && r.id !in db.turns && r.id !in db.retired && r.task >= 1
    requires !Ops.TaskBusy(db, r.task)
    ensures var asked := Ops.Ask(db, r, packed, now);
            asked.Ok? ==> Asked(db, r, asked.db) && Opened(r, packed, now, asked.db) && asked.db.basis == db.basis
  {
    AppendShape(Ops.Reopen(db, r.task), r.task, User, r.query, Some(r.id));
  }

  lemma BeginShape(db: Db, r: Request, packed: Json, now: int)
    requires r.task in db.tasks && r.id !in db.turns && r.id !in db.retired && r.task >= 1
    requires !Ops.TaskBusy(db, r.task)
    ensures var begun := Ops.BeginWrites(db, r, packed, now);
            begun.Ok? ==> && Began(db, r, begun.db) && Opened(r, packed, now, begun.db)
                          && begun.view.TurnView? && begun.view.created && !begun.view.replayed
  {
    AskShape(db, r, packed, now);
    var asked := Ops.Ask(db, r, packed, now);
    var begun := Ops.BeginWrites(db, r, packed, now);
    if begun.Ok? && r.scoped {
      CaptureShape(asked.db, r);
      ScopeReadsParents(asked.db, begun.db, r);
    }
  }

  lemma CaptureShape(db: Db, r: Request)
    ensures var scope := ScopeTasks(db, r);
            var captured := Ops.CaptureBasis(db, r.id, scope);
            captured.Ok? ==>
              && captured.db == db.(basis := captured.db.basis)
              && (forall t :: t in scope ==>
                    t in db.clock && (r.id, t) in captured.db.basis && captured.db.basis[(r.id, t)] == db.clock[t])
              && (forall k :: k in captured.db.basis ==>
                    k in db.basis || (k.0 == r.id && k.1 in scope))
              && (forall k :: k in db.basis && k.0 != r.id ==>
                    k in captured.db.basis && captured.db.basis[k] == db.basis[k])
  {
    CapturedMeans(db.clock, r.id, ScopeTasks(db, r));
    hide Ops.CapturedRows, ScopeTasks;
  }

  lemma CapturedMeans(clock: map<TaskId, int>, id: RequestId, scope: seq<TaskId>)
    ensures forall t :: t in scope && t in clock ==>
              (id, t) in Ops.CapturedRows(clock, id, scope) && Ops.CapturedRows(clock, id, scope)[(id, t)] == clock[t]
    ensures forall k :: k in Ops.CapturedRows(clock, id, scope) ==> k.0 == id && k.1 in scope
  {}

  /** The scope is a function of the parents alone. */
  lemma ScopeReadsParents(a: Db, b: Db, r: Request)
    requires a.parents == b.parents
    ensures ScopeTasks(a, r) == ScopeTasks(b, r)
  {}

  /** The clocks of `owners` and the global clock advanced, and no other clock did. */
  ghost predicate Ticked(before: map<TaskId, int>, after: map<TaskId, int>, owners: set<TaskId>) {
    forall t :: t in before ==>
      && t in after
      && (t in owners || t == GLOBAL ==> before[t] < after[t])
      && (t !in owners && t != GLOBAL ==> before[t] == after[t])
  }

  lemma TickTicks(clock: map<TaskId, int>, task: TaskId)
    ensures Ticked(clock, Tick(clock, task), {task})
  {}

  lemma TickedThen(a: map<TaskId, int>, b: map<TaskId, int>, c: map<TaskId, int>, owners: set<TaskId>)
    requires Ticked(a, b, owners) && (Ticked(b, c, owners) || b == c)
    ensures Ticked(a, c, owners)
  {}

  /** Only facts of `task` are added, all under fresh ids. */
  ghost predicate FactsAdded(before: map<int, Fact>, last: int, after: map<int, Fact>, newLast: int,
                             task: TaskId)
  {
    && last <= newLast
    && (forall f :: f in before && f <= last ==> f in after && after[f] == before[f])
    && (forall f :: f in after ==>
          || (f in before && after[f] == before[f])
          || (last < f <= newLast && after[f].task == task))
  }

  /** Update `i` of a reply is row `last + 1 + i` of its task, with a revision above every earlier one of
      its key. */
  ghost predicate FactRow(after: map<int, Fact>, id: int, task: TaskId, f: FactUpdate) {
    && id in after
    && after[id] == Fact(task, f.key, after[id].revision, f.content, f.evidence, f.retracted)
    && forall x :: x in after && x < id && after[x].task == task && after[x].key == f.key ==>
                     after[x].revision < after[id].revision
  }

  /** Every fact of the reply is written, in order, and nothing but the last id moves. */
  ghost predicate FactsWritten(last: int, after: map<int, Fact>, newLast: int, task: TaskId, facts: seq<FactUpdate>) {
    newLast == last + |facts| && forall i :: 0 <= i < |facts| ==> FactRow(after, last + 1 + i, task, facts[i])
  }

  lemma SetFactWrites(db: Db, task: TaskId, f: FactUpdate)
    ensures var after := SetFact(db, task, f);
            after.Ok? ==> after.db.lastFact == db.lastFact + 1
                          && FactRow(after.db.facts, db.lastFact + 1, task, f)
  {
    hide Tick, TextOk;
    var after := SetFact(db, task, f);
    if after.Ok? {
      forall x | x in after.db.facts && x < db.lastFact + 1 && after.db.facts[x].task == task
                 && after.db.facts[x].key == f.key
        ensures after.db.facts[x].revision in Revisions(db, task, f.key)
      {
        assert x in db.facts && after.db.facts[x] == db.facts[x];
      }
    }
  }

  /** Later facts leave a written row as it is. */
  lemma FactRowStays(before: map<int, Fact>, last: int, after: map<int, Fact>, newLast: int, task: TaskId,
                     f: FactUpdate)
    requires FactRow(before, last, task, f) && FactsAdded(before, last, after, newLast, task)
    ensures FactRow(after, last, task, f)
  {}

  lemma FactsWrittenStep(last: int, after: map<int, Fact>, newLast: int, task: TaskId, facts: seq<FactUpdate>)
    requires facts != [] && FactRow(after, last + 1, task, facts[0])
    requires FactsWritten(last + 1, after, newLast, task, facts[1..])
    ensures FactsWritten(last, after, newLast, task, facts)
  {
    hide FactRow;
    forall i | 0 <= i < |facts| ensures FactRow(after, last + 1 + i, task, facts[i]) {
      if i > 0 {
        assert facts[1..][i - 1] == facts[i];
        assert FactRow(after, last + 1 + 1 + (i - 1), task, facts[1..][i - 1]);
      }
    }
  }

  lemma {:induction false} SetFactsWrite(db: Db, task: TaskId, facts: seq<FactUpdate>)
    ensures var after := Ops.SetFacts(db, task, facts);
            after.Ok? ==> FactsWritten(db.lastFact, after.db.facts, after.db.lastFact, task, facts)
    decreases |facts|
  {
    hide SetFact, FactRow, FactsAdded;
    if facts == [] {
    } else {
      var first := SetFact(db, task, facts[0]);
      if first.Ok? {
        SetFactWrites(db, task, facts[0]);
        SetFactsWrite(first.db, task, facts[1..]);
        SetFactsShape(first.db, task, facts[1..]);
        var after := Ops.SetFacts(first.db, task, facts[1..]);
        if after.Ok? {
          FactRowStays(first.db.facts, first.db.lastFact, after.db.facts, after.db.lastFact, task, facts[0]);
          FactsWrittenStep(db.lastFact, after.db.facts, after.db.lastFact, task, facts);
        }
      }
    }
  }

  lemma SetFactShape(db: Db, task: TaskId, f: FactUpdate)
    ensures var after := SetFact(db, task, f);
            after.Ok? ==>
              && after.db == db.(facts := after.db.facts, lastFact := after.db.lastFact,
                                 clock := after.db.clock)
              && FactsAdded(db.facts, db.lastFact, after.db.facts, after.db.lastFact, task)
              && after.db.clock == Tick(db.clock, task)
  {
    hide Tick;
  }

  lemma {:induction false} SetFactsShape(db: Db, task: TaskId, facts: seq<FactUpdate>)
    ensures var after := Ops.SetFacts(db, task, facts);
            after.Ok? ==>
              && after.db == db.(facts := after.db.facts, lastFact := after.db.lastFact,
                                 clock := after.db.clock)
              && FactsAdded(db.facts, db.lastFact, after.db.facts, after.db.lastFact, task)
              && (after.db.clock == db.clock || Ticked(db.clock, after.db.clock, {task}))
    decreases |facts|
  {
    hide SetFact, Tick, Ticked;
    if facts == [] {
    } else {
      var first := SetFact(db, task, facts[0]);
      if first.Ok? {
        SetFactShape(db, task, facts[0]);
        TickTicks(db.clock, task);
        SetFactsShape(first.db, task, facts[1..]);
        var after := Ops.SetFacts(first.db, task, facts[1..]);
        if after.Ok? {
          TickedThen(db.clock, first.db.clock, after.db.clock, {task});
        }
      }
    }
  }

  /** A task the turn's scope covers: its own, or one within three parent steps, or any. */
  ghost predicate InScope(db: Db, r: Request, t: TaskId) {
    match r.scope
    case OneTask => t == r.task
    case Lineage => Ancestry.Reaches(db.parents, r.task, t, 3)
    case Everything => true
  }

  lemma ScopeIsInScope(db: Db, r: Request, t: TaskId)
    requires r.scope != Everything
    ensures t in ScopeTasks(db, r) <==> InScope(db, r, t)
  {
    Ancestry.SearchExact(db.parents, r.task, 3);
  }

  /** Evidence a reply may rest on: on record, in scope, supporting, and under no retracted fact. */
  ghost predicate Admissible(db: Db, r: Request, ref: Ref) {
    && ref.evidence >= 1 && ref.kind == Supports
    && ref.evidence in db.messages && InScope(db, r, db.messages[ref.evidence].task)
    && forall f :: f in db.facts && db.facts[f].evidence == ref.evidence ==> !db.facts[f].retracted
  }

  /** Admissible edges, none of them twice. */
  ghost predicate Sourced(db: Db, r: Request, refs: seq<Ref>) {
    Distinct(refs) && forall ref :: ref in refs ==> Admissible(db, r, ref)
  }

  lemma RefAccepted(db: Db, r: Request, refs: seq<Ref>, i: nat)
    requires i < |refs|
    ensures Ops.RefProblem(db, r, refs, i).None? <==> Admissible(db, r, refs[i]) && refs[i] !in refs[..i]
  {
    hide InScope, ScopeTasks;
    var ref := refs[i];
    if ref.evidence in db.messages && r.scope != Everything {
      ScopeIsInScope(db, r, db.messages[ref.evidence].task);
    }
    if r.scope == Everything { EverythingInScope(db, r); }
  }

  lemma EverythingInScope(db: Db, r: Request)
    requires r.scope == Everything
    ensures forall t :: InScope(db, r, t)
  {}

  lemma {:induction false} NoFaultyEdge(db: Db, r: Request, refs: seq<Ref>, from: nat)
    requires from <= |refs|
    ensures Ops.ProvenanceProblem(db, r, refs, from).None? <==>
              forall i :: from <= i < |refs| ==> Ops.RefProblem(db, r, refs, i).None?
    decreases |refs| - from
  {
    hide Ops.RefProblem;
    if from == |refs| {
    } else {
      NoFaultyEdge(db, r, refs, from + 1);
    }
  }

  /** A list of edges is accepted if and only if each of them is admissible and none comes twice. */
  lemma ProvenanceAccepted(db: Db, r: Request, refs: seq<Ref>)
    ensures Ops.ProvenanceProblem(db, r, refs, 0).None? <==> Sourced(db, r, refs)
  {
    hide Ops.RefProblem, Ops.ProvenanceProblem, Admissible;
    NoFaultyEdge(db, r, refs, 0);
    forall i | 0 <= i < |refs|
      ensures Ops.RefProblem(db, r, refs, i).None? <==> Admissible(db, r, refs[i]) && refs[i] !in refs[..i]
    {
      RefAccepted(db, r, refs, i);
    }
    FirstOccurrences(refs);
    assert forall i :: 0 <= i < |refs| ==> refs[i] in refs;
  }

  lemma FirstOccurrences(refs: seq<Ref>)
    ensures Distinct(refs) <==> forall i :: 0 <= i < |refs| ==> refs[i] !in refs[..i]
  {
    if forall i :: 0 <= i < |refs| ==> refs[i] !in refs[..i] {
      forall i, j | 0 <= i < j < |refs| ensures refs[i] != refs[j] {
        assert refs[..j][i] == refs[i];
        assert refs[j] !in refs[..j];
      }
    }
  }

  /** A scoped turn that changes its snapshot names the evidence it derived it from. */
  ghost predicate Derived(turn: TurnRow, reply: Reply) {
    turn.request.scoped && reply.snapshot.Some? && reply.snapshot.value != turn.package.snapshot ==>
      reply.provenance != []
  }

  /** A commit that published: who was admitted, and every row it wrote. */
  ghost predicate Published(db: Db, id: RequestId, reply: Reply, d: Db) {
    && id in db.turns && db.turns[id].status == Pending && StartedCalls(db, id) == {}
    && Fresh(db, id)
    && var turn := db.turns[id];
    var task := turn.request.task;
    && task in db.tasks && db.tasks[task].revision == turn.taskRevision
    && d == db.(tasks := d.tasks, messages := d.messages, lastMessage := d.lastMessage,
                facts := d.facts, lastFact := d.lastFact, clock := d.clock,
                provenance := d.provenance, turns := d.turns)
    && d.tasks == db.tasks[task := db.tasks[task].(snapshot := Ops.NewSnapshot(db.tasks[task], reply),
                                                   revision := db.tasks[task].revision + 1)]
    && d.lastMessage == db.lastMessage + 1
    && d.messages == db.messages[d.lastMessage := Message(task, Assistant, reply.text, Some(id))]
    && FactsAdded(db.facts, db.lastFact, d.facts, d.lastFact, task) && Ticked(db.clock, d.clock, {task})
    && FactsWritten(db.lastFact, d.facts, d.lastFact, task, reply.facts)
    && d.provenance == db.provenance + Ops.EdgesOf(id, reply.provenance)
    && Sourced(db, turn.request, reply.provenance) && Derived(turn, reply)
    && id in d.turns && d.turns == db.turns[id := d.turns[id]]
    && d.turns[id] == turn.(status := Committed, reply := Some(Encoded(reply)), updatedAt := d.turns[id].updatedAt)
  }

  /** What an accepted commit has already been checked for. */
  lemma CommitGuard(db: Db, id: RequestId, generation: int, reply: Reply)
    requires Ops.CommitProblem(db, id, generation, reply).None?
    ensures id in db.turns && db.turns[id].status == Pending && StartedCalls(db, id) == {} && Fresh(db, id)
    ensures db.turns[id].request.task in db.tasks
    ensures db.tasks[db.turns[id].request.task].revision == db.turns[id].taskRevision
    ensures Sourced(db, db.turns[id].request, reply.provenance) && Derived(db.turns[id], reply)
  {
    hide Fresh, StartedCalls, Sourced;
    ProvenanceAccepted(db, db.turns[id].request, reply.provenance);
  }

  lemma CommitShape(db: Db, id: RequestId, generation: int, reply: Reply, now: int)
    requires id in db.turns && db.turns[id].request.id == id
    requires Ops.CommitProblem(db, id, generation, reply).None?
    requires Ops.CommitWrites(db, db.turns[id], reply, now).Ok?
    ensures var d := Ops.CommitWrites(db, db.turns[id], reply, now).db;
            Published(db, id, reply, d) && d.turns[id].updatedAt == now
  {
    hide Sourced, Derived, Ops.CommitProblem, Ops.SetFacts, StartedCalls, TextOk, Tick, Ticked, FactsAdded;
    hide FactsWritten, Fresh;
    CommitGuard(db, id, generation, reply);
    var turn := db.turns[id];
    var task := turn.request.task;
    var answered := Append(db, task, Assistant, reply.text, Some(id));
    AppendShape(db, task, Assistant, reply.text, Some(id));
    SetFactsShape(answered.db, task, reply.facts);
    SetFactsWrite(answered.db, task, reply.facts);
    var asserted := Ops.SetFacts(answered.db, task, reply.facts).db;
    TickTicks(db.clock, task);
    TickedThen(db.clock, answered.db.clock, asserted.clock, {task});
    TickTicks(asserted.clock, task);
    TickedThen(db.clock, asserted.clock, Tick(asserted.clock, task), {task});
  }

  /** A tool result recorded for the first time. */
  ghost predicate Finished(db: Db, id: RequestId, call: CallId, result: Json, d: Db) {
    && id in db.turns && db.turns[id].status == Pending
    && (id, call) in db.tools && db.tools[(id, call)].Started?
    && var task := db.turns[id].request.task;
    && task in db.tasks && task in db.clock && GLOBAL in db.clock
    && d == db.(messages := d.messages, lastMessage := d.lastMessage, clock := d.clock,
                basis := d.basis, tools := d.tools)
    && d.lastMessage == db.lastMessage + 1
    && d.messages == db.messages[d.lastMessage := Message(task, Tool, result, Some(id))]
    && d.clock == Tick(db.clock, task)
    && (id, call) in d.tools && d.tools == db.tools[(id, call) := d.tools[(id, call)]]
    && d.tools[(id, call)] == Completed(db.tools[(id, call)].name, db.tools[(id, call)].args, result, d.lastMessage)
    && d.basis.Keys == db.basis.Keys
    && (forall k :: k in db.basis ==>
          d.basis[k] - db.basis[k] ==
          if k.0 == id && k.1 in {task, GLOBAL} then d.clock[k.1] - db.clock[k.1] else 0)
  }

  lemma FinishShape(db: Db, id: RequestId, generation: int, call: CallId, result: Json,
                    token: Option<Lease>, now: int)
    requires Ops.FinishTool(db, id, generation, call, result, token, now).Ok?
    requires (id, call) in db.tools && db.tools[(id, call)].Started?
    requires id in db.turns && db.turns[id].request.task >= 1
    ensures Finished(db, id, call, result, Ops.FinishTool(db, id, generation, call, result, token, now).db)
  {
    AppendShape(db, db.turns[id].request.task, Tool, result, Some(id));
  }

  // Each operation keeps the invariant, one group at a time.

  lemma TurnsInserted(db: Db, r: Request, d: Db)
    requires TurnTable(db) && Asked(db, r, d)
    ensures TurnTable(d)
  {
    PendingInserted(db, r, d);
  }

  lemma PendingInserted(db: Db, r: Request, d: Db)
    requires OnePendingPerTask(db) && r.id in d.turns && d.turns == db.turns[r.id := d.turns[r.id]]
    requires d.turns[r.id].request.task == r.task && !Ops.TaskBusy(db, r.task)
    ensures OnePendingPerTask(d)
  {}

  /** A turn row is replaced by one that did not become pending. */
  ghost predicate TurnReplaced(db: Db, id: RequestId, d: Db) {
    && id in db.turns && id in d.turns && d.turns == db.turns[id := d.turns[id]]
    && d.retired == db.retired && d.lastTurn == db.lastTurn
    && d.turns[id].request == db.turns[id].request && d.turns[id].rowid == db.turns[id].rowid
    && d.turns[id].taskRevision == db.turns[id].taskRevision && d.turns[id].package == db.turns[id].package
    && db.turns[id].status == Pending
    && (d.turns[id].reply.Some? <==> d.turns[id].status == Committed)
  }

  lemma TurnReplacedKeeps(db: Db, id: RequestId, d: Db)
    requires TurnTable(db) && TurnReplaced(db, id, d)
    ensures TurnTable(d)
  {
    PendingReplaced(db, id, d);
    hide OnePendingPerTask;
  }

  lemma PendingReplaced(db: Db, id: RequestId, d: Db)
    requires OnePendingPerTask(db) && TurnReplaced(db, id, d)
    ensures OnePendingPerTask(d)
  {}

  /** No task that a remaining turn names lost its row, and revisions count snapshot changes. */
  ghost predicate TasksAdvance(db: Db, d: Db) {
    forall id :: id in d.turns && id in db.turns ==>
      var t := db.turns[id].request.task;
      && d.turns[id].request == db.turns[id].request
      && d.turns[id].taskRevision == db.turns[id].taskRevision
      && d.turns[id].package == db.turns[id].package
      && (d.turns[id].status == Pending ==> db.turns[id].status == Pending)
      && (t in db.tasks ==>
            && t in d.tasks
            && db.tasks[t].revision <= d.tasks[t].revision
            && (db.tasks[t].revision == d.tasks[t].revision ==> db.tasks[t].snapshot == d.tasks[t].snapshot))
  }

  lemma TrackedKept(db: Db, d: Db)
    requires Tracked(db) && TasksAdvance(db, d)
    requires forall id :: id in d.turns ==> id in db.turns || SnapshotTracked(d, id)
    ensures Tracked(d)
  {
    forall id | id in d.turns && id in db.turns ensures SnapshotTracked(d, id) {
      assert SnapshotTracked(db, id);
    }
  }

  /** Child rows only appear under turns that exist, and a commit leaves no started tool. */
  ghost predicate RowsAdvance(db: Db, d: Db) {
    && (forall id :: id in db.turns ==> id in d.turns)
    && (forall k :: k in d.tools ==> (k in db.tools && (db.tools[k].Completed? ==> d.tools[k].Completed?))
                                     || (k.0 in db.turns && db.turns[k.0].status == Pending && d.turns == db.turns))
    && (forall k :: k in d.tools && k.0 in d.turns && d.turns[k.0].status == Committed && k in db.tools ==>
          d.tools[k].Completed? || (k.0 in db.turns && db.turns[k.0].status == Committed))
    && (forall k :: k in d.models ==> k in db.models || k.0 in d.turns)
    && (forall k :: k in db.models ==> k in d.models)
    && (forall k :: k in d.responses ==> k in db.responses || k in d.models)
    && (forall k :: k in d.basis ==> k in db.basis || k.0 in d.turns)
    && (forall e :: e in d.provenance ==> e in db.provenance || (e.0 in d.turns && e.2 == Supports))
    && (forall l :: l in d.leases ==> l in db.leases || l.request in d.turns)
  }

  lemma ChildRowsKept(db: Db, d: Db)
    requires ChildRows(db) && RowsAdvance(db, d)
    ensures ChildRows(d)
  {}

  lemma RowsUntouched(db: Db, d: Db)
    requires ChildRows(db)
    requires d.turns == db.turns && d.tools == db.tools && d.models == db.models
    requires d.responses == db.responses && d.basis == db.basis && d.provenance == db.provenance
    requires d.leases == db.leases
    ensures ChildRows(d)
  {}

  /** Committed turns stay committed, and new edges belong to them. */
  lemma EdgesKept(db: Db, d: Db)
    requires EdgesCommitted(db)
    requires forall id :: id in db.turns && db.turns[id].status == Committed ==>
                            id in d.turns && d.turns[id].status == Committed
    requires forall e :: e in d.provenance ==>
               e in db.provenance || (e.0 in d.turns && d.turns[e.0].status == Committed)
    ensures EdgesCommitted(d)
  {}

  lemma BegunKeeps(db: Db, r: Request, d: Db)
    requires Inv(db) && Began(db, r, d)
    ensures Inv(d)
  {
    hide TurnTable, ChildRows, IdsBounded, EdgesCommitted, TasksAdvance, RowsAdvance, Captured, Ops.TaskBusy, Tick;
    TurnsInserted(db, r, d);
    BegunAdvances(db, r, d);
    TrackedKept(db, d);
    ChildRowsKept(db, d);
    BegunEdges(db, r, d);
  }

  lemma BegunEdges(db: Db, r: Request, d: Db)
    requires EdgesCommitted(db) && Began(db, r, d)
    ensures EdgesCommitted(d)
  {
    hide Captured, Tick, Ops.TaskBusy;
    EdgesKept(db, d);
  }

  lemma BegunAdvances(db: Db, r: Request, d: Db)
    requires Began(db, r, d) && IdsBounded(db) && ChildRows(db)
    ensures TasksAdvance(db, d) && RowsAdvance(db, d) && IdsBounded(d) && SnapshotTracked(d, r.id)
  {}

  lemma PublishedKeeps(db: Db, id: RequestId, reply: Reply, d: Db)
    requires Inv(db) && Published(db, id, reply, d)
    ensures Inv(d)
  {
    hide TurnTable, ChildRows, IdsBounded, EdgesCommitted, TasksAdvance, RowsAdvance, Ticked, FactsAdded;
    hide FactsWritten, Fresh, StartedCalls, Ops.EdgesOf;
    TurnReplacedKeeps(db, id, d);
    PublishedAdvances(db, id, reply, d);
    TrackedKept(db, d);
    ChildRowsKept(db, d);
    PublishedEdges(db, id, reply, d);
  }

  lemma PublishedEdges(db: Db, id: RequestId, reply: Reply, d: Db)
    requires EdgesCommitted(db) && Published(db, id, reply, d)
    ensures EdgesCommitted(d)
  {
    hide Ticked, FactsAdded, FactsWritten, Fresh, StartedCalls;
    EdgesKept(db, d);
  }

  lemma PublishedAdvances(db: Db, id: RequestId, reply: Reply, d: Db)
    requires Published(db, id, reply, d) && IdsBounded(db)
    ensures TasksAdvance(db, d) && RowsAdvance(db, d) && IdsBounded(d)
  {
    PublishedTasks(db, id, reply, d);
    PublishedIds(db, id, reply, d);
    hide Ticked, Fresh, FactsAdded, FactsWritten, TasksAdvance, IdsBounded;
    forall k | k in d.tools && k.0 in d.turns && d.turns[k.0].status == Committed && k.0 == id
      ensures d.tools[k].Completed?
    {
      assert k !in StartedCalls(db, id);
    }
  }

  lemma PublishedIds(db: Db, id: RequestId, reply: Reply, d: Db)
    requires Published(db, id, reply, d) && IdsBounded(db)
    ensures IdsBounded(d)
  {
    hide Ticked, FactsWritten, Fresh, StartedCalls, Ops.EdgesOf, Ops.NewSnapshot;
  }

  lemma PublishedTasks(db: Db, id: RequestId, reply: Reply, d: Db)
    requires Published(db, id, reply, d)
    ensures TasksAdvance(db, d)
  {
    hide Ticked, FactsAdded, FactsWritten, Fresh, StartedCalls, Ops.EdgesOf, Ops.NewSnapshot;
  }

  /** Nothing in the turn table changed. */
  lemma TurnsUntouched(db: Db, d: Db)
    requires TurnTable(db) && d.turns == db.turns && d.retired == db.retired && d.lastTurn == db.lastTurn
    ensures TurnTable(d)
  {}

  lemma FinishedKeeps(db: Db, id: RequestId, call: CallId, result: Json, d: Db)
    requires Inv(db) && Finished(db, id, call, result, d)
    ensures Inv(d)
  {
    TurnsUntouched(db, d);
    FinishedAdvances(db, id, call, result, d);
    TrackedKept(db, d);
    ChildRowsKept(db, d);
    EdgesKept(db, d);
  }

  lemma FinishedAdvances(db: Db, id: RequestId, call: CallId, result: Json, d: Db)
    requires Finished(db, id, call, result, d) && IdsBounded(db)
    ensures TasksAdvance(db, d) && RowsAdvance(db, d) && IdsBounded(d)
  {
    hide Tick;
  }

  /** A step that only adds a tool, a lease, or a model row to a pending turn. */
  ghost predicate RowAdded(db: Db, id: RequestId, d: Db) {
    && id in db.turns && db.turns[id].status == Pending
    && d == db.(tools := d.tools, leases := d.leases, models := d.models, responses := d.responses)
    && (forall k :: k in db.tools ==> k in d.tools && d.tools[k] == db.tools[k])
    && (forall k :: k in d.tools ==> k in db.tools || k.0 == id)
    && (forall k :: k in d.models ==> k in db.models || k.0 == id)
    && (forall k :: k in db.models ==> k in d.models)
    && (forall k :: k in d.responses ==> k in db.responses || k in d.models)
    && (forall l :: l in d.leases ==> l in db.leases || l.request == id)
  }

  lemma RowAddedKeeps(db: Db, id: RequestId, d: Db)
    requires Inv(db) && RowAdded(db, id, d)
    ensures Inv(d)
  {
    TurnsUntouched(db, d);
    RowAddedAdvances(db, id, d);
    TrackedKept(db, d);
    ChildRowsKept(db, d);
    EdgesKept(db, d);
  }

  lemma RowAddedAdvances(db: Db, id: RequestId, d: Db)
    requires RowAdded(db, id, d)
    ensures TasksAdvance(db, d) && RowsAdvance(db, d)
  {}

  lemma ToolAdded(db: Db, id: RequestId, call: CallId, row: ToolRow)
    requires id in db.turns && db.turns[id].status == Pending && (id, call) !in db.tools
    ensures RowAdded(db, id, db.(tools := db.tools[(id, call) := row]))
  {}

  lemma ModelAdded(db: Db, id: RequestId, call: CallId, row: ModelRow)
    requires id in db.turns && db.turns[id].status == Pending
    ensures RowAdded(db, id, db.(models := db.models[(id, call) := row]))
  {}

  lemma ResponseAdded(db: Db, id: RequestId, call: CallId, response: Json)
    requires id in db.turns && db.turns[id].status == Pending && (id, call) in db.models
    ensures RowAdded(db, id, db.(responses := db.responses[(id, call) := response]))
  {}

  lemma TurnReplacedKeepsAll(db: Db, id: RequestId, d: Db)
    requires Inv(db) && TurnReplaced(db, id, d) && d == db.(turns := d.turns)
    requires d.turns[id].status != Committed
    ensures Inv(d)
  {
    hide ChildRows, TasksAdvance, RowsAdvance, TurnTable;
    TurnReplacedKeeps(db, id, d);
    TurnAdvances(db, id, d);
    TrackedKept(db, d);
    ChildRowsKept(db, d);
    EdgesKept(db, d);
  }

  lemma TurnAdvances(db: Db, id: RequestId, d: Db)
    requires TurnReplaced(db, id, d) && d == db.(turns := d.turns)
    requires d.turns[id].status != Committed
    ensures TasksAdvance(db, d) && RowsAdvance(db, d)
  {}

  lemma RetireKeeps(db: Db, ids: set<RequestId>)
    requires Inv(db)
    requires forall id :: id in ids ==> id in db.turns && db.turns[id].status != Pending
    ensures Inv(Retire(db, ids))
  {
    RetireTurns(db, ids);
    RetireRows(db, ids);
    TrackedKept(db, Retire(db, ids));
    RetireEdges(db, ids);
  }

  lemma RetireTurns(db: Db, ids: set<RequestId>)
    requires TurnTable(db)
    requires forall id :: id in ids ==> id in db.turns && db.turns[id].status != Pending
    ensures TurnTable(Retire(db, ids))
  {}

  lemma RetireRows(db: Db, ids: set<RequestId>)
    requires ChildRows(db)
    ensures ChildRows(Retire(db, ids))
  {}

  lemma RetireEdges(db: Db, ids: set<RequestId>)
    requires EdgesCommitted(db)
    ensures EdgesCommitted(Retire(db, ids))
  {
    hide Rest, OtherLeases, Buried;
  }

  lemma PerformShape(db: Db, w: Write)
    ensures var d := Perform(db, w);
            d == db.(tasks := d.tasks, parents := d.parents, messages := d.messages,
                     lastMessage := d.lastMessage, facts := d.facts, lastFact := d.lastFact,
                     clock := d.clock)
  {
    hide Tick, TickMove;
  }

  lemma PerformAdvances(db: Db, w: Write)
    requires Allowed(db, w) && IdsBounded(db)
    ensures TasksAdvance(db, Perform(db, w)) && IdsBounded(Perform(db, w))
  {
    hide Tick, TickMove, TextOk;
  }

  lemma PerformKeeps(db: Db, w: Write)
    requires Inv(db) && Allowed(db, w)
    ensures Inv(Perform(db, w))
  {
    PerformShape(db, w);
    PerformAdvances(db, w);
    var d := Perform(db, w);
    TurnsUntouched(db, d);
    TrackedKept(db, d);
    RowsUntouched(db, d);
    EdgesKept(db, d);
  }

  // One step, described by what it did rather than by how.

  ghost predicate Acts(db: Db, id: RequestId, generation: int) {
    id in db.turns && db.turns[id].status == Pending && db.turns[id].generation == generation
  }

  /** A recovery or an abort: one turn row, nothing else. */
  ghost predicate TurnMoved(db: Db, step: Step, d: Db) {
    match step
    case Recover(id, g, _) =>
      && Acts(db, id, g) && TurnReplaced(db, id, d) && d == db.(turns := d.turns)
      && d.turns[id] == db.turns[id].(generation := g + 1, updatedAt := step.now)
      && db.turns[id].request.task in db.tasks
      && db.tasks[db.turns[id].request.task].revision == db.turns[id].taskRevision
    case Abort(id, g, _) =>
      && Acts(db, id, g) && TurnReplaced(db, id, d) && d == db.(turns := d.turns)
      && d.turns[id] == db.turns[id].(status := Aborted, updatedAt := step.now)
    case _ => false
  }

  /** A new intent, lease, model request or model response: one row, nothing else. All but the
      response need the turn's scope to be fresh. */
  ghost predicate RowWritten(db: Db, step: Step, d: Db) {
    || (step.StartTool? && NewIntent(db, step.id, step.generation, step.call, step.name, step.args, d))
    || (step.ActionEligible? && NewLease(db, step.id, step.generation, step.call, d))
    || (step.ModelRequest? && NewModelCall(db, step.id, step.generation, step.call, step.row, d))
    || (step.ModelResponse? && NewResponse(db, step.id, step.generation, step.call, step.response, d))
  }

  ghost predicate NewIntent(db: Db, id: RequestId, g: int, call: CallId, name: string, args: Json, d: Db) {
    && Acts(db, id, g) && Fresh(db, id) && (id, call) !in db.tools
    && d == db.(tools := db.tools[(id, call) := Started(name, args)])
  }

  ghost predicate NewLease(db: Db, id: RequestId, g: int, call: CallId, d: Db) {
    && Acts(db, id, g) && Fresh(db, id) && (id, call) in db.tools && db.tools[(id, call)].Started?
    && d == db.(leases := d.leases)
    && forall l :: l in d.leases ==> l in db.leases || l.request == id
  }

  ghost predicate NewModelCall(db: Db, id: RequestId, g: int, call: CallId, row: ModelRow, d: Db) {
    && Acts(db, id, g) && Fresh(db, id) && (id, call) !in db.models
    && d == db.(models := db.models[(id, call) := row])
  }

  ghost predicate NewResponse(db: Db, id: RequestId, g: int, call: CallId, response: Json, d: Db) {
    && Acts(db, id, g) && (id, call) in db.models && (id, call) !in db.responses
    && d == db.(responses := db.responses[(id, call) := response])
  }

  ghost predicate Swept(db: Db, plan: Plan, d: Db) {
    PlanOf(db, plan.cutoff) == plan && d == Retire(db, Candidates(db, plan.cutoff))
  }

  ghost predicate Performed(db: Db, w: Write, d: Db) {
    Allowed(db, w) && d == Perform(db, w)
  }

  /** Either nothing changed, or the step's one effect took place. */
  ghost predicate Effect(db: Db, step: Step, d: Db) {
    d == db ||
    match step
    case Begin(r, packed, now) => packed.Some? && Began(db, r, d) && Opened(r, packed.value, now, d)
    case Commit(id, g, reply, now) => Acts(db, id, g) && Published(db, id, reply, d) && d.turns[id].updatedAt == now
    case FinishTool(id, g, call, result, _, _) => Acts(db, id, g) && Finished(db, id, call, result, d)
    case Recover(_, _, _) => TurnMoved(db, step, d)
    case Abort(_, _, _) => TurnMoved(db, step, d)
    case Retain(plan) => Swept(db, plan, d)
    case Foreign(w) => Performed(db, w, d)
    case _ => RowWritten(db, step, d)
  }

  // The tables each effect leaves alone.

  lemma BegunFrame(db: Db, r: Request, d: Db)
    requires Began(db, r, d)
    ensures r.id !in db.turns && r.id !in db.retired && r.id in d.turns && d.turns[r.id].status == Pending
    ensures d.turns == db.turns[r.id := d.turns[r.id]] && d.retired == db.retired && d.tools == db.tools
    ensures d.models == db.models && d.responses == db.responses && d.parents == db.parents && d.facts == db.facts
    ensures forall m :: m in d.messages && m !in db.messages ==> d.messages[m].role == User
  {
    hide Captured, Tick, Ops.TaskBusy;
  }

  lemma PublishedFrame(db: Db, id: RequestId, reply: Reply, d: Db)
    requires Published(db, id, reply, d)
    ensures id in db.turns && db.turns[id].status == Pending
    ensures id in d.turns && d.turns[id].status == Committed && d.turns[id].generation == db.turns[id].generation
    ensures d.turns == db.turns[id := d.turns[id]] && d.retired == db.retired && d.tools == db.tools
    ensures d.models == db.models && d.responses == db.responses && d.parents == db.parents && d.basis == db.basis
  {
    hide Ticked, FactsAdded, FactsWritten, Fresh, Ops.EdgesOf, StartedCalls;
  }

  lemma FinishedFrame(db: Db, id: RequestId, call: CallId, result: Json, d: Db)
    requires Finished(db, id, call, result, d)
    ensures d.turns == db.turns && d.retired == db.retired && d.tools.Keys == db.tools.Keys
    ensures d.tasks == db.tasks && d.parents == db.parents && d.facts == db.facts
    ensures forall m :: m in d.messages && m !in db.messages ==> d.messages[m].role == Tool
  {
    hide Tick;
  }

  lemma TurnFrame(db: Db, step: Step, d: Db)
    requires TurnMoved(db, step, d)
    ensures step.Recover? || step.Abort?
    ensures TurnReplaced(db, step.id, d) && d == db.(turns := d.turns)
    ensures step.Recover? ==> d.turns[step.id].status == Pending
                              && d.turns[step.id].generation == db.turns[step.id].generation + 1
    ensures step.Abort? ==> d.turns[step.id].status == Aborted
                            && d.turns[step.id].generation == db.turns[step.id].generation
  {}

  lemma RowFrame(db: Db, step: Step, d: Db)
    requires RowWritten(db, step, d)
    ensures step.StartTool? || step.ActionEligible? || step.ModelRequest? || step.ModelResponse?
    ensures RowAdded(db, step.id, d)
    ensures step.id in db.turns && db.turns[step.id].generation == step.generation
  {
    hide RowWritten, NewIntent, NewLease, NewModelCall, NewResponse, RowAdded;
    RowKind(db, step, d);
    if step.StartTool? {
      IntentFrame(db, step.id, step.generation, step.call, step.name, step.args, d);
    } else if step.ActionEligible? {
      LeaseFrame(db, step.id, step.generation, step.call, d);
    } else if step.ModelRequest? {
      ModelCallFrame(db, step.id, step.generation, step.call, step.row, d);
    } else {
      ResponseFrame(db, step.id, step.generation, step.call, step.response, d);
    }
  }

  lemma RowKind(db: Db, step: Step, d: Db)
    requires RowWritten(db, step, d)
    ensures step.StartTool? || step.ActionEligible? || step.ModelRequest? || step.ModelResponse?
    ensures step.StartTool? ==> NewIntent(db, step.id, step.generation, step.call, step.name, step.args, d)
    ensures step.ActionEligible? ==> NewLease(db, step.id, step.generation, step.call, d)
    ensures step.ModelRequest? ==> NewModelCall(db, step.id, step.generation, step.call, step.row, d)
    ensures step.ModelResponse? ==> NewResponse(db, step.id, step.generation, step.call, step.response, d)
  {
    hide NewIntent, NewLease, NewModelCall, NewResponse;
  }

  lemma IntentFrame(db: Db, id: RequestId, g: int, call: CallId, name: string, args: Json, d: Db)
    requires NewIntent(db, id, g, call, name, args, d)
    ensures RowAdded(db, id, d) && Acts(db, id, g)
  {
    hide Fresh, RowAdded;
    ToolAdded(db, id, call, Started(name, args));
  }

  lemma LeaseFrame(db: Db, id: RequestId, g: int, call: CallId, d: Db)
    requires NewLease(db, id, g, call, d)
    ensures RowAdded(db, id, d) && Acts(db, id, g)
  {
    hide Fresh;
  }

  lemma ModelCallFrame(db: Db, id: RequestId, g: int, call: CallId, row: ModelRow, d: Db)
    requires NewModelCall(db, id, g, call, row, d)
    ensures RowAdded(db, id, d) && Acts(db, id, g)
  {
    hide Fresh, RowAdded;
    ModelAdded(db, id, call, row);
  }

  lemma ResponseFrame(db: Db, id: RequestId, g: int, call: CallId, response: Json, d: Db)
    requires NewResponse(db, id, g, call, response, d)
    ensures RowAdded(db, id, d) && Acts(db, id, g)
  {
    hide RowAdded;
    ResponseAdded(db, id, call, response);
  }

  lemma RetiredFrame(db: Db, plan: Plan, d: Db)
    requires Swept(db, plan, d)
    ensures forall id :: id in d.turns ==> id in db.turns && d.turns[id] == db.turns[id]
    ensures forall id :: id in db.turns && id !in d.turns ==>
              && db.turns[id].status != Pending && id in d.retired
              && (id !in db.retired ==> d.retired[id].status == db.turns[id].status)
    ensures forall id :: id in db.retired ==> id in d.retired && d.retired[id] == db.retired[id]
    ensures forall id :: id in d.retired ==> id in db.retired || id in db.turns
    ensures forall id :: id in d.retired && id !in db.retired ==> id !in d.turns
    ensures forall k :: k in db.tools ==> (k in d.tools && d.tools[k] == db.tools[k]) || k.0 in d.retired
    ensures d.tasks == db.tasks && d.parents == db.parents && d.messages == db.messages
            && d.facts == db.facts && d.clock == db.clock
  {
    hide StartedCalls, PlanOf;
  }

  lemma PerformFrame(db: Db, w: Write, d: Db)
    requires Performed(db, w, d)
    ensures d == db.(tasks := d.tasks, parents := d.parents, messages := d.messages,
                     lastMessage := d.lastMessage, facts := d.facts, lastFact := d.lastFact,
                     clock := d.clock)
    ensures forall m :: m in d.messages && m !in db.messages ==> d.messages[m].origin == None
  {
    hide Perform, Allowed;
    PerformShape(db, w);
    PerformMessages(db, w);
  }

  lemma PerformMessages(db: Db, w: Write)
    ensures var d := Perform(db, w);
            forall m :: m in d.messages && m !in db.messages ==> d.messages[m].origin == None
  {
    hide Tick, TickMove;
  }

  lemma BeginEffect(db: Db, r: Request, packed: Option<Json>, now: int)
    ensures Effect(db, Begin(r, packed, now), StateOr(db, Ops.Begin(db, r, packed, now)))
    ensures var begun := Ops.Begin(db, r, packed, now);
            begun.Ok? ==> && begun.view.TurnView?
                          && (begun.view.created <==> r.id !in db.turns)
                          && (begun.view.created ==> Began(db, r, begun.db))
  {
    hide TextOk, Fresh, Began, Published, Finished, TurnMoved, RowWritten, Swept, Performed, Ops.BeginWrites;
    if ValidToBegin(db, r, packed) {
      BeginShape(db, r, packed.value, now);
    }
  }

  ghost predicate ValidToBegin(db: Db, r: Request, packed: Option<Json>) {
    && Ops.ValidRequest(r) && r.id !in db.retired && r.id !in db.turns && !Ops.TaskBusy(db, r.task)
    && r.task in db.tasks && packed.Some?
  }

  lemma CommitEffect(db: Db, id: RequestId, g: int, reply: Reply, now: int)
    requires id in db.turns ==> db.turns[id].request.id == id
    ensures Effect(db, Commit(id, g, reply, now), StateOr(db, Ops.Commit(db, id, g, reply, now)))
  {
    hide TextOk, Fresh, Began, Published, Finished, TurnMoved, RowWritten, Swept, Performed, Ops.CommitWrites;
    hide Ops.ProvenanceProblem;
    if id in db.turns && Ops.CommitProblem(db, id, g, reply).None? {
      if Ops.CommitWrites(db, db.turns[id], reply, now).Ok? {
        CommitShape(db, id, g, reply, now);
      }
    }
  }

  lemma FinishEffect(db: Db, id: RequestId, g: int, call: CallId, result: Json, token: Option<Lease>, now: int)
    requires id in db.turns ==> db.turns[id].request.task >= 1
    ensures Effect(db, FinishTool(id, g, call, result, token, now),
                   StateOr(db, Ops.FinishTool(db, id, g, call, result, token, now)))
  {
    hide TextOk, Fresh, Began, Published, Finished, TurnMoved, RowWritten, Swept, Performed, Ops.FinishWrites;
    var finished := Ops.FinishTool(db, id, g, call, result, token, now);
    if finished.Ok? && db.tools[(id, call)].Started? {
      FinishShape(db, id, g, call, result, token, now);
    }
  }

  lemma RecoverEffect(db: Db, id: RequestId, g: int, now: int)
    requires TurnTable(db)
    ensures Effect(db, Recover(id, g, now), StateOr(db, Ops.Recover(db, id, g, now)))
  {
    hide TextOk, Fresh, Began, Published, Finished, Swept, Performed, RowWritten;
  }

  lemma AbortEffect(db: Db, id: RequestId, g: int, now: int)
    requires TurnTable(db)
    ensures Effect(db, Abort(id, g, now), StateOr(db, Ops.Abort(db, id, g, now)))
  {
    hide TextOk, Fresh, Began, Published, Finished, Swept, Performed, RowWritten;
  }

  lemma StartToolEffect(db: Db, id: RequestId, g: int, call: CallId, name: string, args: Json)
    ensures var started := Ops.StartTool(db, id, g, call, name, args);
            && Effect(db, StartTool(id, g, call, name, args), StateOr(db, started))
            && (started.Ok? ==> && started.view.ToolView?
                                && (started.view.created <==> (id, call) !in db.tools)
                                && (started.view.created ==> (id, call) in started.db.tools)
                                && id in db.turns)
  {
    hide TextOk, Fresh, Began, Published, Finished, TurnMoved, Swept, Performed;
  }

  lemma ActionEligibleEffect(db: Db, id: RequestId, g: int, call: CallId, ttl: int, now: int)
    ensures Effect(db, ActionEligible(id, g, call, ttl, now),
                   StateOr(db, Ops.ActionEligible(db, id, g, call, ttl, now)))
  {
    hide TextOk, Fresh, Began, Published, Finished, TurnMoved, Swept, Performed;
  }

  lemma ModelRequestEffect(db: Db, id: RequestId, g: int, call: CallId, row: ModelRow)
    ensures Effect(db, ModelRequest(id, g, call, row), StateOr(db, Ops.RecordModelRequest(db, id, g, call, row)))
  {
    hide TextOk, Fresh, Began, Published, Finished, TurnMoved, Swept, Performed;
  }

  lemma ModelResponseEffect(db: Db, id: RequestId, g: int, call: CallId, response: Json)
    ensures Effect(db, ModelResponse(id, g, call, response),
                   StateOr(db, Ops.RecordModelResponse(db, id, g, call, response)))
  {
    hide TextOk, Fresh, Began, Published, Finished, TurnMoved, Swept, Performed;
  }

  lemma RetainEffect(db: Db, plan: Plan)
    ensures Effect(db, Retain(plan), StateOr(db, ApplyRetention(db, plan)))
  {
    hide Retire, PlanOf, Candidates;
  }

  lemma ForeignEffect(db: Db, w: Write)
    ensures Effect(db, Foreign(w), Next(db, Foreign(w)))
  {
    hide Perform, Allowed;
  }

  /** Every step of every operation is one of the listed effects or changes nothing. */
  lemma StepEffect(db: Db, step: Step)
    requires Inv(db)
    ensures Effect(db, step, Next(db, step))
  {
    hide TextOk, Fresh, Effect, Ops.Begin, Ops.Commit, Ops.StartTool, Ops.FinishTool, Ops.Recover, Ops.Abort;
    hide Ops.ActionEligible, Ops.RecordModelRequest, Ops.RecordModelResponse;
    match step
    case Begin(r, packed, now) => BeginEffect(db, r, packed, now);
    case Recover(id, g, now) => RecoverEffect(db, id, g, now);
    case Commit(id, g, reply, now) => CommitEffect(db, id, g, reply, now);
    case Abort(id, g, now) => AbortEffect(db, id, g, now);
    case StartTool(id, g, call, name, args) => StartToolEffect(db, id, g, call, name, args);
    case ActionEligible(id, g, call, ttl, now) => ActionEligibleEffect(db, id, g, call, ttl, now);
    case FinishTool(id, g, call, result, token, now) =>
      if id in db.turns { assert SnapshotTracked(db, id); }
      FinishEffect(db, id, g, call, result, token, now);
    case ModelRequest(id, g, call, row) => ModelRequestEffect(db, id, g, call, row);
    case ModelResponse(id, g, call, response) => ModelResponseEffect(db, id, g, call, response);
    case Retain(plan) => RetainEffect(db, plan);
    case Foreign(w) => ForeignEffect(db, w);
  }

  lemma RowWrittenKeeps(db: Db, step: Step, d: Db)
    requires Inv(db) && RowWritten(db, step, d)
    ensures Inv(d)
  {
    hide Inv, RowWritten, RowAdded;
    RowFrame(db, step, d);
    RowAddedKeeps(db, step.id, d);
  }

  lemma EffectKeeps(db: Db, step: Step, d: Db)
    requires Inv(db) && Effect(db, step, d)
    ensures Inv(d)
  {
    hide Inv, Began, Published, Finished, TurnMoved, RowWritten, Retire, PlanOf, Perform, Allowed;
    if d != db {
      match step
      case Begin(r, _, _) => BegunKeeps(db, r, d);
      case Recover(id, _, _) => TurnFrame(db, step, d); TurnReplacedKeepsAll(db, id, d);
      case Commit(id, _, reply, _) => PublishedKeeps(db, id, reply, d);
      case Abort(id, _, _) => TurnFrame(db, step, d); TurnReplacedKeepsAll(db, id, d);
      case FinishTool(id, _, call, result, _, _) => FinishedKeeps(db, id, call, result, d);
      case Retain(plan) => RetireKeeps(db, Candidates(db, plan.cutoff));
      case Foreign(w) => PerformKeeps(db, w);
      case _ => RowWrittenKeeps(db, step, d);
    }
  }

  /** The journal invariant holds in every state of every run. */
  lemma {:induction false} InvAlways(db: Db, steps: seq<Step>)
    requires Inv(db)
    ensures Inv(Exec(db, steps))
    decreases |steps|
  {
    hide Inv, Effect;
    if steps == [] {
    } else {
      var before := Exec(db, steps[..|steps| - 1]);
      InvAlways(db, steps[..|steps| - 1]);
      StepEffect(before, steps[|steps| - 1]);
      EffectKeeps(before, steps[|steps| - 1], Exec(db, steps));
    }
  }
}
