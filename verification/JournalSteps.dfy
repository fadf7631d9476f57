/** What each engine operation does to the database, as a function of the state it starts from.
    A result of `Err` is a rolled-back transaction: it carries no state. */
module JournalSteps {
  import opened Common
  import opened JournalState

  // Begin.

  predicate ValidRequest(r: Request) {
    && TextOk(r.id) && |r.id| <= 128 && TextOk(r.query) && r.task >= 1
    && r.budget >= 1 && 0 <= r.reserve < r.budget
  }

  predicate TaskBusy(db: Db, task: TaskId) {
    exists id :: id in db.turns && db.turns[id].status == Pending && db.turns[id].request.task == task
  }

  /** Beginning work on an archived task reopens it. */
  function Reopen(db: Db, task: TaskId): Db
    requires task in db.tasks
  {
    var row := db.tasks[task];
    if row.archived then
      db.(tasks := db.tasks[task := row.(archived := false, revision := row.revision + 1)],
          clock := Tick(db.clock, task))
    else db
  }

  function CapturedRows(clock: map<TaskId, int>, id: RequestId, scope: seq<TaskId>)
    : map<(RequestId, TaskId), int>
  {
    map t | t in scope && t in clock :: (id, t) := clock[t]
  }

  /** `captureBasis`: one row per task of the scope, with its clock. */
  function CaptureBasis(db: Db, id: RequestId, scope: seq<TaskId>): Result {
    if exists t :: t in scope && t !in db.clock then Err(Integrity)
    else Ok(db.(basis := db.basis + CapturedRows(db.clock, id, scope)), NoView)
  }

  /** The first writes of a new turn: reopen the task, record the question, insert the row.
      `packed` is the turn's counted context. */
  function Ask(db: Db, r: Request, packed: Json, now: int): Result
    requires r.task in db.tasks
  {
    var live := Reopen(db, r.task);
    var task := live.tasks[r.task];
    var package := Package(packed, r.budget - r.reserve, task.snapshot);
    var asked := Append(live, r.task, User, r.query, Some(r.id));
    if asked.Err? then asked
    else
      var row := TurnRow(db.lastTurn + 1, r, Pending, 1, task.revision, package, None, now);
      Ok(asked.db.(turns := db.turns[r.id := row], lastTurn := db.lastTurn + 1),
         TurnView(row, true, false))
  }

  /** The scope's clocks are read last, after the turn's own writes. */
  function BeginWrites(db: Db, r: Request, packed: Json, now: int): Result
    requires r.task in db.tasks
  {
    var asked := Ask(db, r, packed, now);
    if asked.Err? || !r.scoped then asked
    else
      var captured := CaptureBasis(asked.db, r.id, ScopeTasks(asked.db, r));
      if captured.Err? then captured else Ok(captured.db, asked.view)
  }

  /** `packed` is nothing when the mandatory context exceeds the allowance. */
  function Begin(db: Db, r: Request, packed: Option<Json>, now: int): Result {
    if !ValidRequest(r) then Err(Invalid)
    else if r.id in db.retired then
      Err(if db.retired[r.id].fingerprint != r then Conflict else Retired)
    else if r.id in db.turns then
      if db.turns[r.id].request != r then Err(Conflict)
      else Ok(db, TurnView(db.turns[r.id], false, true))
    else if TaskBusy(db, r.task) then Err(Busy)
    else if r.task !in db.tasks then Err(NotFound)
    else if packed.None? then Err(OverBudget)
    else BeginWrites(db, r, packed.value, now)
  }

  // Recover, Abort.

  function Recover(db: Db, id: RequestId, expected: int, now: int): Result {
    var barred := Barred(db, id, expected);
    if barred.Some? then Err(barred.value)
    else
      var turn := db.turns[id];
      if turn.request.task !in db.tasks then Err(NotFound)
      else if db.tasks[turn.request.task].revision != turn.taskRevision then Err(Conflict)
      else
        var row := turn.(generation := turn.generation + 1, updatedAt := now);
        Ok(db.(turns := db.turns[id := row]), TurnView(row, false, false))
  }

  function Abort(db: Db, id: RequestId, generation: int, now: int): Result {
    var barred := Barred(db, id, generation);
    if barred.Some? then Err(barred.value)
    else Ok(db.(turns := db.turns[id := db.turns[id].(status := Aborted, updatedAt := now)]), NoView)
  }

  // Commit.

  /** What is wrong with one provenance edge, given the edges before it. */
  ghost function RefProblem(db: Db, r: Request, refs: seq<Ref>, i: nat): Option<Code>
    requires i < |refs|
  {
    var ref := refs[i];
    if ref.evidence < 1 || ref.kind == UnknownKind then Some(Invalid)
    else if ref in refs[..i] then Some(Invalid)
    else if ref.evidence !in db.messages then Some(StaleContext)
    else if r.scope != Everything && db.messages[ref.evidence].task !in ScopeTasks(db, r) then Some(Invalid)
    else if ref.kind == Contradicts then Some(Conflict)
    else if exists f :: f in db.facts && db.facts[f].evidence == ref.evidence && db.facts[f].retracted
    then Some(StaleContext)
    else None
  }

  /** The first offending edge decides the error. */
  ghost function ProvenanceProblem(db: Db, r: Request, refs: seq<Ref>, from: nat): Option<Code>
    requires from <= |refs|
    decreases |refs| - from
  {
    if from == |refs| then None
    else if RefProblem(db, r, refs, from).Some? then RefProblem(db, r, refs, from)
    else ProvenanceProblem(db, r, refs, from + 1)
  }

  function SetFacts(db: Db, task: TaskId, facts: seq<FactUpdate>): Result
    decreases |facts|
  {
    if facts == [] then Ok(db, NoView)
    else
      var first := SetFact(db, task, facts[0]);
      if first.Err? then first else SetFacts(first.db, task, facts[1..])
  }

  predicate SnapshotChanged(turn: TurnRow, reply: Reply) {
    reply.snapshot.Some? && reply.snapshot.value != turn.package.snapshot
  }

  function NewSnapshot(row: TaskRow, reply: Reply): Json {
    if reply.snapshot.Some? then reply.snapshot.value else row.snapshot
  }

  function EdgesOf(id: RequestId, refs: seq<Ref>): set<(RequestId, MessageId, Kind)> {
    set ref | ref in refs :: (id, ref.evidence, ref.kind)
  }

  /** Everything that must hold before a turn may commit a reply, in the order it is checked. */
  ghost function CommitProblem(db: Db, id: RequestId, generation: int, reply: Reply): Option<Code> {
    var barred := Barred(db, id, generation);
    if barred.Some? then barred
    else
      var turn := db.turns[id];
      if !Fresh(db, id) then Some(StaleContext)
      else if turn.request.task !in db.tasks then Some(NotFound)
      else if turn.request.scoped && SnapshotChanged(turn, reply) && reply.provenance == []
      then Some(ProvenanceRequired)
      else if ProvenanceProblem(db, turn.request, reply.provenance, 0).Some?
      then ProvenanceProblem(db, turn.request, reply.provenance, 0)
      else if db.tasks[turn.request.task].revision != turn.taskRevision then Some(Conflict)
      else if StartedCalls(db, id) != {} then Some(IndeterminateTool)
      else None
  }

  /** Publishing the reply: the snapshot, the provenance edges and the turn row. */
  function Publish(db: Db, turn: TurnRow, reply: Reply, now: int): Result {
    var id, task := turn.request.id, turn.request.task;
    if task !in db.tasks then Err(Storage)
    else
      var row := db.tasks[task];
      var committed := turn.(status := Committed, reply := Some(Encoded(reply)), updatedAt := now);
      Ok(db.(tasks := db.tasks[task := row.(snapshot := NewSnapshot(row, reply),
                                            revision := row.revision + 1)],
             clock := Tick(db.clock, task),
             provenance := db.provenance + EdgesOf(id, reply.provenance),
             turns := db.turns[id := committed]),
         TurnView(committed, false, false))
  }

  /** The writes of an accepted commit, in order; a bad fact rolls everything back. */
  function CommitWrites(db: Db, turn: TurnRow, reply: Reply, now: int): Result {
    var answered := Append(db, turn.request.task, Assistant, reply.text, Some(turn.request.id));
    if answered.Err? then answered
    else
      var asserted := SetFacts(answered.db, turn.request.task, reply.facts);
      if asserted.Err? then asserted else Publish(asserted.db, turn, reply, now)
  }

  ghost function Commit(db: Db, id: RequestId, generation: int, reply: Reply, now: int): Result {
    if !TextOk(reply.text) then Err(Invalid)
    else if id in db.turns && db.turns[id].status == Committed then
      if db.turns[id].generation != generation then Err(Fenced)
      else if db.turns[id].reply != Some(Encoded(reply)) then Err(Conflict)
      else Ok(db, TurnView(db.turns[id], false, true))
    else
      var problem := CommitProblem(db, id, generation, reply);
      if problem.Some? then Err(problem.value) else CommitWrites(db, db.turns[id], reply, now)
  }

  // Tools.

  function StartTool(db: Db, id: RequestId, generation: int, call: CallId, name: string, args: Json)
    : Result
  {
    var barred := Barred(db, id, generation);
    if !TextOk(call) || !TextOk(name) || |call| > 128 then Err(Invalid)
    else if barred.Some? then Err(barred.value)
    else if (id, call) in db.tools then
      var row := db.tools[(id, call)];
      if row.name != name || row.args != args then Err(Conflict)
      else Ok(db, ToolView(row, false))
    else if !Fresh(db, id) then Err(StaleContext)
    else
      var row := Started(name, args);
      Ok(db.(tools := db.tools[(id, call) := row]), ToolView(row, true))
  }

  const DEFAULT_TTL: int := 5000
  const MAX_TTL: int := 600000

  /** A second lease with the same token in the same millisecond breaks the primary key. */
  function ActionEligible(db: Db, id: RequestId, generation: int, call: CallId, ttl: int, now: int)
    : Result
  {
    var ms := if ttl == 0 then DEFAULT_TTL else ttl;
    var barred := Barred(db, id, generation);
    if !TextOk(call) || |call| > 128 || ms < 1 || ms > MAX_TTL then Err(Invalid)
    else if barred.Some? then Err(barred.value)
    else if (id, call) !in db.tools then Err(NotFound)
    else if !db.tools[(id, call)].Started? then Err(NotPending)
    else if !Fresh(db, id) then Err(StaleContext)
    else
      var row := db.tools[(id, call)];
      var lease := Lease(id, generation, call, row.name, row.args, now + ms);
      if lease in db.leases then Err(Storage)
      else Ok(db.(leases := db.leases + {lease}), LeaseView(lease))
  }

  /** `validateActionLease`: the token must have been issued for this turn, worker, call and
      arguments, and must not have expired. */
  function LeaseProblem(db: Db, id: RequestId, generation: int, call: CallId, row: ToolRow,
                        token: Lease, now: int): Option<Code>
  {
    if token !in db.leases || token.request != id then Some(StaleContext)
    else if token.generation != generation || token.call != call then Some(Fenced)
    else if token.expires <= now then Some(StaleContext)
    else if token.name != row.name || token.args != row.args then Some(Conflict)
    else None
  }

  /** `UPDATE cmp_turn_basis SET epoch=epoch+delta`: no row, no change. */
  function AdvanceBasis(basis: map<(RequestId, TaskId), int>, id: RequestId, task: TaskId, delta: int)
    : map<(RequestId, TaskId), int>
  {
    if (id, task) in basis then basis[(id, task) := basis[(id, task)] + delta] else basis
  }

  /** Recording a tool result: append the evidence and exempt exactly its own clock ticks. */
  function FinishWrites(db: Db, id: RequestId, task: TaskId, call: CallId, row: ToolRow, result: Json)
    : Result
  {
    if task !in db.clock || GLOBAL !in db.clock then Err(Integrity)
    else
      var written := Append(db, task, Tool, result, Some(id));
      if written.Err? then written
      else
        var after := written.db.clock;
        if task !in after || GLOBAL !in after then Err(Integrity)
        else
          var own := AdvanceBasis(db.basis, id, task, after[task] - db.clock[task]);
          var all := AdvanceBasis(own, id, GLOBAL, after[GLOBAL] - db.clock[GLOBAL]);
          var done := Completed(row.name, row.args, result, written.db.lastMessage);
          Ok(written.db.(basis := all, tools := db.tools[(id, call) := done]), ToolView(done, false))
  }

  function FinishTool(db: Db, id: RequestId, generation: int, call: CallId, result: Json,
                      token: Option<Lease>, now: int): Result
  {
    var barred := Barred(db, id, generation);
    if barred.Some? then Err(barred.value)
    else if (id, call) !in db.tools then Err(NotFound)
    else
      var row := db.tools[(id, call)];
      if row.Completed? then
        if row.result != result then Err(Conflict) else Ok(db, ToolView(row, false))
      else
        var problem := if token.None? then None
                       else LeaseProblem(db, id, generation, call, row, token.value, now);
        if problem.Some? then Err(problem.value)
        else FinishWrites(db, id, db.turns[id].request.task, call, row, result)
  }

  // Model calls.

  function RecordModelRequest(db: Db, id: RequestId, generation: int, call: CallId, row: ModelRow)
    : Result
  {
    var barred := Barred(db, id, generation);
    if !TextOk(call) || !TextOk(row.counting) || row.units < 0 then Err(Invalid)
    else if barred.Some? then Err(barred.value)
    else if row.units > db.turns[id].package.allowance then Err(OverBudget)
    else if (id, call) in db.models then
      if db.models[(id, call)] != row then Err(Conflict) else Ok(db, NoView)
    else if !Fresh(db, id) then Err(StaleContext)
    else Ok(db.(models := db.models[(id, call) := row]), NoView)
  }

  function RecordModelResponse(db: Db, id: RequestId, generation: int, call: CallId, response: Json)
    : Result
  {
    var barred := Barred(db, id, generation);
    if !TextOk(call) then Err(Invalid)
    else if barred.Some? then Err(barred.value)
    else if (id, call) !in db.models then Err(NotFound)
    else if (id, call) in db.responses then
      if db.responses[(id, call)] != response then Err(Conflict) else Ok(db, NoView)
    else Ok(db.(responses := db.responses[(id, call) := response]), NoView)
  }
}
