/** Exactly when each engine call is accepted, in terms of the rows it finds. */
module Admission {
  import opened Common
  import opened JournalState
  import Ops = JournalSteps
  import opened Retention
  import opened JournalRuns

  /** Each fact has a key, and rests on a message of the task or on the answer that is being published. */
  ghost predicate FactsFit(db: Db, task: TaskId, facts: seq<FactUpdate>) {
    forall f :: f in facts ==>
      && TextOk(f.key)
      && (f.evidence == db.lastMessage + 1 || (f.evidence in db.messages && db.messages[f.evidence].task == task))
  }

  ghost predicate FactsRest(messages: map<MessageId, Message>, task: TaskId, facts: seq<FactUpdate>) {
    forall f :: f in facts ==> TextOk(f.key) && f.evidence in messages && messages[f.evidence].task == task
  }

  lemma {:induction false} FactsAccepted(db: Db, task: TaskId, facts: seq<FactUpdate>)
    ensures Ops.SetFacts(db, task, facts).Ok? <==> FactsRest(db.messages, task, facts)
    decreases |facts|
  {
    hide TextOk, Tick, Revisions;
    if facts == [] {
    } else {
      assert facts == [facts[0]] + facts[1..];
      var first := SetFact(db, task, facts[0]);
      if first.Ok? {
        FactsAccepted(first.db, task, facts[1..]);
      }
    }
  }

  /** Every tool of the request has its result. */
  ghost predicate Resolved(db: Db, id: RequestId) {
    forall call :: (id, call) in db.tools ==> db.tools[(id, call)].Completed?
  }

  lemma ResolvedMeans(db: Db, id: RequestId)
    ensures Resolved(db, id) <==> StartedCalls(db, id) == {}
  {
    if StartedCalls(db, id) == {} {
      forall call | (id, call) in db.tools ensures db.tools[(id, call)].Completed? {
        assert (id, call) !in StartedCalls(db, id);
      }
    } else {
      var k := Pick(StartedCalls(db, id));
      assert k == (id, k.1);
    }
  }

  /** The reply of a live turn may be published. */
  ghost predicate Publishable(db: Db, id: RequestId, g: int, reply: Reply) {
    && TextOk(reply.text) && Acts(db, id, g) && Fresh(db, id)
    && var turn := db.turns[id];
    && turn.request.task in db.tasks && db.tasks[turn.request.task].revision == turn.taskRevision
    && Derived(turn, reply) && Sourced(db, turn.request, reply.provenance)
    && Resolved(db, id) && FactsFit(db, turn.request.task, reply.facts)
  }

  lemma NoProblem(db: Db, id: RequestId, g: int, reply: Reply)
    ensures Ops.CommitProblem(db, id, g, reply).None? <==>
              && Acts(db, id, g) && Fresh(db, id) && db.turns[id].request.task in db.tasks
              && db.tasks[db.turns[id].request.task].revision == db.turns[id].taskRevision
              && Derived(db.turns[id], reply) && Sourced(db, db.turns[id].request, reply.provenance)
              && Resolved(db, id)
  {
    hide Fresh, StartedCalls, Resolved, Sourced, Ops.ProvenanceProblem;
    ResolvedMeans(db, id);
    if id in db.turns {
      ProvenanceAccepted(db, db.turns[id].request, reply.provenance);
    }
  }

  lemma WritesAccepted(db: Db, turn: TurnRow, reply: Reply, now: int)
    requires turn.request.task in db.tasks && TextOk(reply.text)
    ensures Ops.CommitWrites(db, turn, reply, now).Ok? <==> FactsFit(db, turn.request.task, reply.facts)
  {
    hide TextOk, Tick, Ops.SetFacts, SetFact;
    var task := turn.request.task;
    AppendShape(db, task, Assistant, reply.text, Some(turn.request.id));
    var answered := Append(db, task, Assistant, reply.text, Some(turn.request.id));
    FactsAccepted(answered.db, task, reply.facts);
    SetFactsShape(answered.db, task, reply.facts);
    var m := answered.db.messages;
    assert FactsRest(m, task, reply.facts) <==> FactsFit(db, task, reply.facts);
  }

  /** A turn that is not committed yet is committed by a call if and only if its reply is publishable:
      with a scoped change naming its evidence, and all evidence on record, in scope, supporting, not
      retracted and named once. */
  lemma CommitAccepts(db: Db, id: RequestId, g: int, reply: Reply, now: int)
    requires id in db.turns ==> db.turns[id].status != Committed
    ensures Ops.Commit(db, id, g, reply, now).Ok? <==> Publishable(db, id, g, reply)
  {
    hide TextOk, Fresh, Resolved, Sourced, Derived, FactsFit, Ops.CommitProblem, Ops.CommitWrites;
    NoProblem(db, id, g, reply);
    if TextOk(reply.text) && Ops.CommitProblem(db, id, g, reply).None? {
      WritesAccepted(db, db.turns[id], reply, now);
    }
  }

  /** A lease as `FinishTool` wants it: issued for this turn, worker, call and arguments, and in time. */
  ghost predicate Covers(db: Db, id: RequestId, g: int, call: CallId, row: ToolRow, lease: Lease, now: int) {
    && lease in db.leases && lease.request == id && lease.generation == g && lease.call == call
    && lease.name == row.name && lease.args == row.args && now < lease.expires
  }

  /** A first result is recorded if and only if the call is started and live, and a lease, if one is
      given, covers it until after now. */
  lemma FinishAccepts(db: Db, id: RequestId, g: int, call: CallId, result: Json, token: Option<Lease>, now: int)
    requires (id, call) in db.tools ==> db.tools[(id, call)].Started?
    ensures Ops.FinishTool(db, id, g, call, result, token, now).Ok? <==>
              && Acts(db, id, g) && (id, call) in db.tools
              && (token.Some? ==> Covers(db, id, g, call, db.tools[(id, call)], token.value, now))
              && TextOk(result) && db.turns[id].request.task in db.tasks
              && db.turns[id].request.task in db.clock && GLOBAL in db.clock
  {
    hide TextOk;
  }

  /** An intent is journaled if and only if the call is live and the scope untouched; a known one is
      shown if and only if it is the same. */
  lemma StartAccepts(db: Db, id: RequestId, g: int, call: CallId, name: string, args: Json)
    ensures Ops.StartTool(db, id, g, call, name, args).Ok? <==>
              && TextOk(call) && TextOk(name) && |call| <= 128 && Acts(db, id, g)
              && if (id, call) in db.tools
                 then db.tools[(id, call)].name == name && db.tools[(id, call)].args == args
                 else Fresh(db, id)
  {
    hide TextOk, Fresh;
  }

  /** A lease is issued if and only if the call is live and unresolved, its scope untouched, the lifetime
      within ten minutes, and the very same lease not issued before; it lasts as long as was asked. */
  lemma EligibleAccepts(db: Db, id: RequestId, g: int, call: CallId, ttl: int, now: int)
    ensures var checked := Ops.ActionEligible(db, id, g, call, ttl, now);
            checked.Ok? <==>
              && TextOk(call) && |call| <= 128 && 0 <= ttl <= 600000 && Acts(db, id, g)
              && (id, call) in db.tools && db.tools[(id, call)].Started? && Fresh(db, id)
              && var row, ms := db.tools[(id, call)], if ttl == 0 then 5000 else ttl;
                 Lease(id, g, call, row.name, row.args, now + ms) !in db.leases
  {
    hide TextOk, Fresh;
  }

  /** A payload is journaled, or confirmed, if and only if the turn is live, the payload within its
      allowance, and either the scope untouched or the very same payload on record. */
  lemma RequestAccepts(db: Db, id: RequestId, g: int, call: CallId, row: ModelRow)
    ensures Ops.RecordModelRequest(db, id, g, call, row).Ok? <==>
              && TextOk(call) && TextOk(row.counting) && Acts(db, id, g)
              && 0 <= row.units <= db.turns[id].package.allowance
              && if (id, call) in db.models then db.models[(id, call)] == row else Fresh(db, id)
  {
    hide TextOk, Fresh;
  }

  lemma ResponseAccepts(db: Db, id: RequestId, g: int, call: CallId, response: Json)
    ensures Ops.RecordModelResponse(db, id, g, call, response).Ok? <==>
              && TextOk(call) && Acts(db, id, g) && (id, call) in db.models
              && ((id, call) in db.responses ==> db.responses[(id, call)] == response)
  {
    hide TextOk;
  }

  lemma RecoverAccepts(db: Db, id: RequestId, expected: int, now: int)
    ensures Ops.Recover(db, id, expected, now).Ok? <==>
              && Acts(db, id, expected) && db.turns[id].request.task in db.tasks
              && db.tasks[db.turns[id].request.task].revision == db.turns[id].taskRevision
  {}

  lemma AbortAccepts(db: Db, id: RequestId, g: int, now: int)
    ensures Ops.Abort(db, id, g, now).Ok? <==> Acts(db, id, g)
  {}

  /** The request is one the engine takes at all. */
  ghost predicate WellFormed(r: Request) {
    && TextOk(r.id) && |r.id| <= 128 && TextOk(r.query) && r.task >= 1 && r.budget >= 1 && 0 <= r.reserve < r.budget
  }

  /** Every clock a scoped turn will capture is there, or will be once the turn has written. */
  ghost predicate ClocksThere(db: Db, r: Request) {
    if r.scope == Everything then GLOBAL in db.clock
    else forall t :: InScope(db, r, t) ==> t == r.task || t in db.clock
  }

  lemma CaptureAccepts(db: Db, r: Request, packed: Json, now: int)
    requires r.task in db.tasks && r.task >= 1 && TextOk(r.query)
    ensures Ops.Ask(db, r, packed, now).Ok?
    ensures var asked := Ops.Ask(db, r, packed, now).db;
            Ops.CaptureBasis(asked, r.id, ScopeTasks(asked, r)).Ok? <==> ClocksThere(db, r)
  {
    hide TextOk, InScope, Ops.CapturedRows, Tick, Ops.Reopen;
    ReopenFrame(db, r.task);
    var asked := Ops.Ask(db, r, packed, now).db;
    TickKeys(db.clock, r.task);
    TickKeys(Ops.Reopen(db, r.task).clock, r.task);
    assert asked.clock.Keys == db.clock.Keys + {r.task};
    AppendShape(Ops.Reopen(db, r.task), r.task, User, r.query, Some(r.id));
    ScopeReadsParents(db, asked, r);
    ScopeThere(db, r, asked.clock);
    hide ScopeTasks, ClocksThere, Ops.Ask;
  }

  lemma ScopeThere(db: Db, r: Request, clock: map<TaskId, int>)
    requires clock.Keys == db.clock.Keys + {r.task} && r.task >= 1
    ensures (forall t :: t in ScopeTasks(db, r) ==> t in clock) <==> ClocksThere(db, r)
  {
    hide InScope;
    if r.scope == Everything {
      assert GLOBAL in ScopeTasks(db, r) && forall t :: t in ScopeTasks(db, r) ==> t == GLOBAL;
    } else {
      forall t ensures t in ScopeTasks(db, r) <==> InScope(db, r, t) {
        ScopeIsInScope(db, r, t);
      }
    }
    hide ScopeTasks;
    assert forall t :: t in clock <==> t in db.clock || t == r.task;
  }

  lemma ReopenFrame(db: Db, task: TaskId)
    requires task in db.tasks
    ensures var live := Ops.Reopen(db, task);
            && task in live.tasks && live.parents == db.parents
            && (live.clock == db.clock || live.clock == Tick(db.clock, task))
  {}

  lemma TickKeys(clock: map<TaskId, int>, task: TaskId)
    ensures Tick(clock, task).Keys == clock.Keys + {task}
  {}

  /** A new request begins if and only if it is well formed, its id not retired, no turn of its task is
      pending, the task is there, the mandatory context fits, and the clocks of a scoped turn are there. */
  lemma BeginAccepts(db: Db, r: Request, packed: Option<Json>, now: int)
    requires r.id !in db.turns
    ensures Ops.Begin(db, r, packed, now).Ok? <==>
              && WellFormed(r) && r.id !in db.retired && r.task in db.tasks && packed.Some?
              && (forall id :: id in db.turns && db.turns[id].request.task == r.task ==> db.turns[id].status != Pending)
              && (r.scoped ==> ClocksThere(db, r))
  {
    hide TextOk, InScope, ClocksThere, Ops.Ask, Ops.CaptureBasis;
    if WellFormed(r) && r.task in db.tasks && packed.Some? {
      CaptureAccepts(db, r, packed.value, now);
    }
  }

  // What a refusal says is so.

  /** The four codes every worker's call shares. */
  ghost predicate BarredFor(db: Db, id: RequestId, g: int, code: Code) {
    match code
    case Retired => id !in db.turns && id in db.retired
    case NotFound => id !in db.turns && id !in db.retired
    case NotPending => id in db.turns && db.turns[id].status != Pending
    case Fenced => id in db.turns && db.turns[id].status == Pending && db.turns[id].generation != g
    case _ => false
  }

  lemma BarredSays(db: Db, id: RequestId, g: int)
    ensures Barred(db, id, g).Some? <==> !Acts(db, id, g)
    ensures Barred(db, id, g).Some? ==> BarredFor(db, id, g, Barred(db, id, g).value)
  {}

  /** An edge that an error code speaks of. */
  ghost predicate FaultyFor(db: Db, r: Request, refs: seq<Ref>, code: Code) {
    match code
    case Invalid =>
      || !Distinct(refs)
      || exists ref :: ref in refs && (ref.evidence < 1 || ref.kind == UnknownKind || Outside(db, r, ref))
    case StaleContext => exists ref :: ref in refs && (ref.evidence !in db.messages || OnRetracted(db, ref))
    case Conflict => exists ref :: ref in refs && ref.kind == Contradicts
    case _ => false
  }

  ghost predicate Outside(db: Db, r: Request, ref: Ref) {
    ref.evidence in db.messages && !InScope(db, r, db.messages[ref.evidence].task)
  }

  ghost predicate OnRetracted(db: Db, ref: Ref) {
    exists f :: f in db.facts && db.facts[f].evidence == ref.evidence && db.facts[f].retracted
  }

  lemma EdgeSays(db: Db, r: Request, refs: seq<Ref>, i: nat)
    requires i < |refs| && Ops.RefProblem(db, r, refs, i).Some?
    ensures FaultyFor(db, r, refs, Ops.RefProblem(db, r, refs, i).value)
    ensures Ops.RefProblem(db, r, refs, i).value in {Invalid, StaleContext, Conflict}
  {
    hide InScope, ScopeTasks;
    var ref := refs[i];
    assert ref in refs;
    FirstOccurrences(refs);
    if ref.evidence in db.messages && r.scope != Everything {
      ScopeIsInScope(db, r, db.messages[ref.evidence].task);
    }
  }

  lemma {:induction false} ProvenanceSays(db: Db, r: Request, refs: seq<Ref>, from: nat)
    requires from <= |refs| && Ops.ProvenanceProblem(db, r, refs, from).Some?
    ensures FaultyFor(db, r, refs, Ops.ProvenanceProblem(db, r, refs, from).value)
    ensures Ops.ProvenanceProblem(db, r, refs, from).value in {Invalid, StaleContext, Conflict}
    decreases |refs| - from
  {
    hide Ops.RefProblem, FaultyFor;
    if Ops.RefProblem(db, r, refs, from).Some? {
      EdgeSays(db, r, refs, from);
    } else {
      ProvenanceSays(db, r, refs, from + 1);
    }
  }

  ghost predicate CommitRefusal(db: Db, id: RequestId, g: int, reply: Reply, code: Code) {
    || BarredFor(db, id, g, code)
    || (code == Invalid && !TextOk(reply.text))
    || (id in db.turns
        && var turn := db.turns[id];
           match code
           case Fenced => turn.generation != g
           case StaleContext => !Fresh(db, id) || FaultyFor(db, turn.request, reply.provenance, code)
           case NotFound => turn.request.task !in db.tasks
           case ProvenanceRequired => !Derived(turn, reply)
           case Conflict =>
             || FaultyFor(db, turn.request, reply.provenance, code)
             || (turn.status == Committed && turn.reply != Some(Encoded(reply)))
             || (turn.request.task in db.tasks && db.tasks[turn.request.task].revision != turn.taskRevision)
           case IndeterminateTool => !Resolved(db, id)
           case Invalid =>
             FaultyFor(db, turn.request, reply.provenance, code) || !FactsFit(db, turn.request.task, reply.facts)
           case _ => false)
  }

  lemma {:induction false} FactsSay(db: Db, task: TaskId, facts: seq<FactUpdate>)
    ensures Ops.SetFacts(db, task, facts).Err? ==> Ops.SetFacts(db, task, facts).error == Invalid
    decreases |facts|
  {
    hide TextOk, Tick, Revisions;
    if facts != [] && SetFact(db, task, facts[0]).Ok? {
      FactsSay(SetFact(db, task, facts[0]).db, task, facts[1..]);
    }
  }

  lemma WritesSay(db: Db, turn: TurnRow, reply: Reply, now: int)
    requires turn.request.task in db.tasks && TextOk(reply.text)
    ensures var written := Ops.CommitWrites(db, turn, reply, now); written.Err? ==> written.error == Invalid
  {
    hide TextOk, Tick, Ops.SetFacts, SetFact;
    AppendShape(db, turn.request.task, Assistant, reply.text, Some(turn.request.id));
    var answered := Append(db, turn.request.task, Assistant, reply.text, Some(turn.request.id));
    FactsSay(answered.db, turn.request.task, reply.facts);
    SetFactsShape(answered.db, turn.request.task, reply.facts);
  }

  /** Why a commit is refused: the reported code is true of the call and the rows it found. */
  lemma CommitSays(db: Db, id: RequestId, g: int, reply: Reply, now: int)
    ensures var done := Ops.Commit(db, id, g, reply, now); done.Err? ==> CommitRefusal(db, id, g, reply, done.error)
  {
    hide TextOk, Fresh, Resolved, StartedCalls, Derived, FactsFit, Sourced, FaultyFor, Ops.ProvenanceProblem;
    hide Ops.CommitWrites;
    BarredSays(db, id, g);
    ResolvedMeans(db, id);
    if id in db.turns {
      var turn := db.turns[id];
      DerivedMeans(turn, reply);
      if Ops.ProvenanceProblem(db, turn.request, reply.provenance, 0).Some? {
        ProvenanceSays(db, turn.request, reply.provenance, 0);
      }
      if turn.request.task in db.tasks && TextOk(reply.text) {
        WritesAccepted(db, turn, reply, now);
        WritesSay(db, turn, reply, now);
      }
    }
  }

  lemma DerivedMeans(turn: TurnRow, reply: Reply)
    ensures Derived(turn, reply) <==>
              !(turn.request.scoped && Ops.SnapshotChanged(turn, reply) && reply.provenance == [])
  {}

  /** Why a result is refused. A lease that is unknown, of another request or out of time is stale, one of
      another worker or call is fenced, and one for other arguments is in conflict. */
  lemma FinishSays(db: Db, id: RequestId, g: int, call: CallId, result: Json, token: Option<Lease>, now: int)
    ensures var done := Ops.FinishTool(db, id, g, call, result, token, now);
            done.Err? ==>
              || BarredFor(db, id, g, done.error)
              || (id in db.turns
                  && match done.error
                     case NotFound => (id, call) !in db.tools
                     case StaleContext =>
                       && token.Some?
                       && (token.value !in db.leases || token.value.request != id || token.value.expires <= now)
                     case Fenced => token.Some? && (token.value.generation != g || token.value.call != call)
                     case Conflict =>
                       (id, call) in db.tools
                       && var row := db.tools[(id, call)];
                          if row.Completed? then row.result != result
                          else token.Some? && (token.value.name != row.name || token.value.args != row.args)
                     case Invalid => !TextOk(result)
                     case Storage => db.turns[id].request.task !in db.tasks
                     case Integrity => db.turns[id].request.task !in db.clock || GLOBAL !in db.clock
                     case _ => false)
  {
    hide TextOk;
  }

  /** Why an intent, a lease or a model call is refused. */
  lemma WorkSays(db: Db, step: Step)
    requires step.StartTool? || step.ActionEligible? || step.ModelRequest? || step.ModelResponse?
    requires Answer(db, step).Err?
    ensures var code := Answer(db, step).error;
            || BarredFor(db, step.id, step.generation, code)
            || code == Invalid
            || (Acts(db, step.id, step.generation)
                && match code
                   case StaleContext => !Fresh(db, step.id)
                   case NotFound =>
                     if step.ActionEligible? then (step.id, step.call) !in db.tools
                     else step.ModelResponse? && (step.id, step.call) !in db.models
                   case NotPending => (step.id, step.call) in db.tools && db.tools[(step.id, step.call)].Completed?
                   case OverBudget => step.ModelRequest? && step.row.units > db.turns[step.id].package.allowance
                   case Storage => step.ActionEligible?
                   case Conflict => Differs(db, step)
                   case _ => false)
  {
    hide TextOk, Fresh;
  }

  /** The same call is on record with something else in it. */
  predicate Differs(db: Db, step: Step) {
    match step
    case StartTool(id, _, call, name, args) =>
      (id, call) in db.tools && (db.tools[(id, call)].name != name || db.tools[(id, call)].args != args)
    case ModelRequest(id, _, call, row) => (id, call) in db.models && db.models[(id, call)] != row
    case ModelResponse(id, _, call, response) => (id, call) in db.responses && db.responses[(id, call)] != response
    case _ => false
  }

  /** Why a request cannot begin. */
  lemma BeginSays(db: Db, r: Request, packed: Option<Json>, now: int)
    ensures var begun := Ops.Begin(db, r, packed, now);
            begun.Err? ==>
              match begun.error
              case Invalid => !WellFormed(r)
              case Retired => r.id in db.retired && db.retired[r.id].fingerprint == r
              case Conflict =>
                || (r.id in db.retired && db.retired[r.id].fingerprint != r)
                || (r.id in db.turns && db.turns[r.id].request != r)
              case Busy =>
                exists id :: id in db.turns && db.turns[id].status == Pending && db.turns[id].request.task == r.task
              case NotFound => r.task !in db.tasks
              case OverBudget => packed.None?
              case Integrity => r.scoped && !ClocksThere(db, r)
              case _ => false
  {
    hide TextOk, InScope, ClocksThere, Ops.Ask, Ops.CaptureBasis;
    if WellFormed(r) && r.task in db.tasks && packed.Some? {
      CaptureAccepts(db, r, packed.value, now);
      CaptureSays(Ops.Ask(db, r, packed.value, now).db, r.id, ScopeTasks(Ops.Ask(db, r, packed.value, now).db, r));
    }
  }

  lemma CaptureSays(db: Db, id: RequestId, scope: seq<TaskId>)
    ensures var captured := Ops.CaptureBasis(db, id, scope); captured.Err? ==> captured.error == Integrity
  {}

  /** Why a recovery is refused. */
  lemma RecoverSays(db: Db, id: RequestId, expected: int, now: int)
    ensures var moved := Ops.Recover(db, id, expected, now);
            moved.Err? ==>
              || BarredFor(db, id, expected, moved.error)
              || (moved.error == NotFound && id in db.turns && db.turns[id].request.task !in db.tasks)
              || (moved.error == Conflict && id in db.turns && db.turns[id].request.task in db.tasks
                  && db.tasks[db.turns[id].request.task].revision != db.turns[id].taskRevision)
  {}
}
