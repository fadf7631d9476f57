/** Model dispatches by agents that overlap: a process that was fenced may still be running while its
    successor resumes the same request. */
module Dispatchers {
  import opened Common
  import opened JournalState
  import Ops = JournalSteps
  import opened Retention
  import opened JournalRuns
  import opened JournalHistory

  /** An agent between two calls. After it took a generation it reads the journaled model calls once,
      and from then on decides by what it read and what it journaled itself. */
  datatype Agent =
    | Starting(request: Request, packed: Option<Json>)
    | Resuming(id: RequestId, expected: int)
    | Reading(id: RequestId, generation: int)
    | Looping(id: RequestId, generation: int, saved: set<CallId>)
    | Sending(id: RequestId, generation: int, saved: set<CallId>, call: CallId)
    | Stopped

  datatype World = World(db: Db, agents: map<nat, Agent>, sent: seq<(RequestId, CallId)>)

  datatype Event =
    | Arrive(who: nat, agent: Agent)
    | Enter(who: nat, now: int)
    | Read(who: nat)
    | Checkpoint(who: nat, call: CallId, row: ModelRow)
    | Send(who: nat)
    | Crash(who: nat)
    | Direct(step: Step)

  /** Model requests are journaled by this loop only; everything else anybody may do. A round with a
      journaled call is never dispatched: its response is reused, or the run stops. */
  predicate Enabled(world: World, e: Event) {
    match e
    case Arrive(who, agent) => who !in world.agents && (agent.Starting? || agent.Resuming?)
    case Enter(who, _) => who in world.agents && (world.agents[who].Starting? || world.agents[who].Resuming?)
    case Read(who) => who in world.agents && world.agents[who].Reading?
    case Checkpoint(who, call, _) =>
      who in world.agents && world.agents[who].Looping? && call !in world.agents[who].saved
    case Send(who) => who in world.agents && world.agents[who].Sending?
    case Crash(who) => who in world.agents
    case Direct(step) => !step.ModelRequest?
  }

  /** The engine call that gives an agent its generation. */
  function EntryCall(agent: Agent, now: int): Step
    requires agent.Starting? || agent.Resuming?
  {
    match agent
    case Starting(r, packed) => Begin(r, packed, now)
    case Resuming(id, expected) => Recover(id, expected, now)
  }

  function AfterEntry(agent: Agent, answer: Result): Agent {
    if answer.Err? || !answer.view.TurnView? then Stopped
    else if agent.Starting? && !answer.view.created then Stopped
    else Reading(answer.view.turn.request.id, answer.view.turn.generation)
  }

  ghost function Move(world: World, e: Event): World
    requires Enabled(world, e)
  {
    var db := world.db;
    match e
    case Arrive(who, agent) => world.(agents := world.agents[who := agent])
    case Enter(who, now) =>
      var step := EntryCall(world.agents[who], now);
      world.(db := Next(db, step), agents := world.agents[who := AfterEntry(world.agents[who], Answer(db, step))])
    case Read(who) =>
      var a := world.agents[who];
      world.(agents := world.agents[who := Looping(a.id, a.generation, JournaledCalls(db.models, a.id))])
    case Checkpoint(who, call, row) =>
      var a := world.agents[who];
      var step := ModelRequest(a.id, a.generation, call, row);
      var next := if Answer(db, step).Ok? then Sending(a.id, a.generation, a.saved + {call}, call) else Stopped;
      world.(db := Next(db, step), agents := world.agents[who := next])
    case Send(who) =>
      var a := world.agents[who];
      world.(agents := world.agents[who := Looping(a.id, a.generation, a.saved)], sent := world.sent + [(a.id, a.call)])
    case Crash(who) => world.(agents := world.agents - {who})
    case Direct(step) => world.(db := Next(db, step))
  }

  function JournaledCalls(models: map<(RequestId, CallId), ModelRow>, id: RequestId): set<CallId> {
    set k | k in models && k.0 == id :: k.1
  }

  // The invariant.

  /** The agent took this generation of this request. */
  function Owned(a: Agent): Option<(RequestId, int)> {
    match a
    case Reading(id, g) => Some((id, g))
    case Looping(id, g, _) => Some((id, g))
    case Sending(id, g, _, _) => Some((id, g))
    case _ => None
  }

  /** The dispatch was journaled, so a later run will find it. */
  predicate Logged(db: Db, deed: (RequestId, CallId)) {
    deed in db.models || deed.0 in db.retired
  }

  /** A generation is taken by one agent and never lies ahead of the journal's. */
  ghost predicate Behind(db: Db, owned: (RequestId, int)) {
    && PhaseOf(db, owned.0) != Absent
    && (owned.0 in db.turns ==> owned.1 <= db.turns[owned.0].generation)
  }

  /** While its generation is current, an agent knows every journaled call of its request. */
  ghost predicate Knows(db: Db, id: RequestId, g: int, saved: set<CallId>) {
    id in db.turns && db.turns[id].generation == g ==> JournaledCalls(db.models, id) <= saved
  }

  ghost predicate AgentGood(db: Db, a: Agent) {
    && (Owned(a).Some? ==> Behind(db, Owned(a).value))
    && (a.Looping? || a.Sending? ==> Knows(db, a.id, a.generation, a.saved))
    && (a.Sending? ==> Logged(db, (a.id, a.call)))
  }

  ghost predicate OneOwner(agents: map<nat, Agent>) {
    forall a, b {:trigger Owned(agents[a]), Owned(agents[b])} ::
      a in agents && b in agents && a != b && Owned(agents[a]).Some? ==> Owned(agents[a]) != Owned(agents[b])
  }

  function About(a: Agent): Option<(RequestId, CallId)> {
    if a.Sending? then Some((a.id, a.call)) else None
  }

  ghost predicate OneSender(agents: map<nat, Agent>, sent: seq<(RequestId, CallId)>) {
    && Distinct(sent)
    && (forall a :: a in agents && About(agents[a]).Some? ==> About(agents[a]).value !in sent)
    && (forall a, b {:trigger About(agents[a]), About(agents[b])} ::
          a in agents && b in agents && a != b && About(agents[a]).Some? ==> About(agents[a]) != About(agents[b]))
  }

  ghost predicate Good(world: World) {
    && Inv(world.db)
    && (forall a :: a in world.agents ==> AgentGood(world.db, world.agents[a]))
    && (forall deed :: deed in world.sent ==> Logged(world.db, deed))
    && OneOwner(world.agents) && OneSender(world.agents, world.sent)
  }

  // What one engine step keeps.

  lemma LoggedStays(db: Db, step: Step, d: Db, deed: (RequestId, CallId))
    requires Effect(db, step, d) && Logged(db, deed)
    ensures Logged(d, deed)
  {
    hide Began, Published, Finished, TurnMoved, RowWritten, Swept, Performed;
    if d != db {
      match step
      case Begin(r, _, _) => BegunFrame(db, r, d);
      case Commit(other, _, reply, _) => PublishedFrame(db, other, reply, d);
      case FinishTool(other, _, c, result, _, _) =>
        FinishedFrame(db, other, c, result, d);
        FinishedModels(db, other, c, result, d);
      case Recover(_, _, _) => TurnFrame(db, step, d);
      case Abort(_, _, _) => TurnFrame(db, step, d);
      case Retain(plan) => SweptModels(db, plan, d);
      case Foreign(w) => PerformFrame(db, w, d);
      case _ => RowFrame(db, step, d);
    }
  }

  lemma FinishedModels(db: Db, id: RequestId, call: CallId, result: Json, d: Db)
    requires Finished(db, id, call, result, d)
    ensures d.models == db.models
  {
    hide Tick;
  }

  lemma SweptModels(db: Db, plan: Plan, d: Db)
    requires Swept(db, plan, d)
    ensures d.models.Keys <= db.models.Keys
    ensures forall k :: k in db.models ==> k in d.models || k.0 in d.retired
    ensures forall id :: id in db.retired ==> id in d.retired
  {
    hide PlanOf, StartedCalls, OtherEdges, OtherLeases;
  }

  lemma WrittenModels(db: Db, step: Step, d: Db)
    requires RowWritten(db, step, d) && !step.ModelRequest?
    ensures d.models == db.models
  {
    hide Fresh;
  }

  /** Nothing but a model request journals a model call. */
  lemma OnlyRequestsLog(db: Db, step: Step, d: Db)
    requires Effect(db, step, d) && !step.ModelRequest?
    ensures d.models.Keys <= db.models.Keys
  {
    hide Began, Published, Finished, TurnMoved, RowWritten, Swept, Performed;
    if d != db {
      match step
      case Begin(r, _, _) => BegunFrame(db, r, d);
      case Commit(other, _, reply, _) => PublishedFrame(db, other, reply, d);
      case FinishTool(other, _, c, result, _, _) => FinishedModels(db, other, c, result, d);
      case Recover(_, _, _) => TurnFrame(db, step, d);
      case Abort(_, _, _) => TurnFrame(db, step, d);
      case Retain(plan) => SweptModels(db, plan, d);
      case Foreign(w) => PerformFrame(db, w, d);
      case _ => WrittenModels(db, step, d);
    }
  }

  lemma BehindStays(db: Db, step: Step, owned: (RequestId, int))
    requires Inv(db) && Behind(db, owned)
    ensures Behind(Next(db, step), owned)
    ensures owned.0 in Next(db, step).turns ==>
              owned.0 in db.turns && db.turns[owned.0].generation <= Next(db, step).turns[owned.0].generation
  {
    hide Inv, Effect, Next;
    var d := Next(db, step);
    StepEffect(db, step);
    StepMoves(db, step, owned.0);
    if owned.0 in d.turns {
      GenerationStep(db, step, d, owned.0);
    }
  }

  lemma FewerCalls(a: map<(RequestId, CallId), ModelRow>, b: map<(RequestId, CallId), ModelRow>, id: RequestId)
    requires b.Keys <= a.Keys
    ensures JournaledCalls(b, id) <= JournaledCalls(a, id)
  {}

  lemma AgentStays(db: Db, step: Step, a: Agent)
    requires Inv(db) && AgentGood(db, a) && !step.ModelRequest?
    ensures AgentGood(Next(db, step), a)
  {
    hide Inv, Effect, Next, Logged, JournaledCalls, Behind;
    var d := Next(db, step);
    StepEffect(db, step);
    if Owned(a).Some? {
      BehindStays(db, step, Owned(a).value);
      BehindMeans(db, Owned(a).value);
      OnlyRequestsLog(db, step, d);
      FewerCalls(db.models, d.models, Owned(a).value.0);
    }
    if a.Sending? {
      LoggedStays(db, step, d, (a.id, a.call));
    }
  }

  lemma BehindMeans(db: Db, owned: (RequestId, int))
    requires Behind(db, owned)
    ensures owned.0 in db.turns ==> owned.1 <= db.turns[owned.0].generation
  {}

  /** A step that is not a model request. */
  lemma StepKeepsGood(world: World, step: Step)
    requires Good(world) && !step.ModelRequest?
    ensures Good(world.(db := Next(world.db, step)))
  {
    hide Inv, Next, AgentGood, Logged, OneOwner, OneSender, Effect;
    var db := world.db;
    StepEffect(db, step);
    EffectKeeps(db, step, Next(db, step));
    forall a | a in world.agents ensures AgentGood(Next(db, step), world.agents[a]) {
      AgentStays(db, step, world.agents[a]);
    }
    forall deed | deed in world.sent ensures Logged(Next(db, step), deed) {
      LoggedStays(db, step, Next(db, step), deed);
    }
  }

  // What each move keeps.

  /** The generation an agent enters with is new: nobody took it before. */
  lemma EntryIsNew(db: Db, agent: Agent, now: int)
    requires Inv(db) && (agent.Starting? || agent.Resuming?)
    ensures var step := EntryCall(agent, now);
            var after := AfterEntry(agent, Answer(db, step));
            && AgentGood(Next(db, step), after) && (after.Stopped? || after.Reading?)
            && (after.Reading? ==> !Behind(db, (after.id, after.generation)))
  {
    if agent.Starting? {
      BegunIsNew(db, agent.request, agent.packed, now);
    } else {
      RecoveredIsNew(db, agent.id, agent.expected, now);
    }
  }

  lemma BegunIsNew(db: Db, r: Request, packed: Option<Json>, now: int)
    requires Inv(db)
    ensures var step := Begin(r, packed, now);
            var after := AfterEntry(Starting(r, packed), Answer(db, step));
            && AgentGood(Next(db, step), after) && (after.Stopped? || after.Reading?)
            && (after.Reading? ==> !Behind(db, (after.id, after.generation)))
  {
    hide Effect, Inv, Ops.BeginWrites, TextOk, Ops.TaskBusy;
    var step := Begin(r, packed, now);
    if Creates(db, step, r.id) {
      CreationIsFirst(db, step, r.id);
      BegunView(db, r, packed, now);
    } else {
      BeginEffect(db, r, packed, now);
    }
  }

  lemma BegunView(db: Db, r: Request, packed: Option<Json>, now: int)
    ensures var begun := Ops.Begin(db, r, packed, now);
            begun.Ok? && begun.view.TurnView? && begun.view.created ==>
              && r.id in begun.db.turns && begun.view.turn == begun.db.turns[r.id] && begun.view.turn.request == r
  {
    hide TextOk, Ops.TaskBusy, Append, Ops.Reopen, Ops.CapturedRows, ScopeTasks;
  }

  lemma RecoveredIsNew(db: Db, id: RequestId, expected: int, now: int)
    requires Inv(db)
    ensures var step := Recover(id, expected, now);
            var after := AfterEntry(Resuming(id, expected), Answer(db, step));
            && AgentGood(Next(db, step), after) && (after.Stopped? || after.Reading?)
            && (after.Reading? ==> !Behind(db, (after.id, after.generation)))
  {
    TurnIds(db, id);
    hide Inv;
  }

  lemma TurnIds(db: Db, id: RequestId)
    requires Inv(db)
    ensures id in db.turns ==> db.turns[id].request.id == id
  {}

  lemma OwnerAdded(db: Db, agents: map<nat, Agent>, who: nat, after: Agent)
    requires OneOwner(agents) && who in agents
    requires forall a :: a in agents && Owned(agents[a]).Some? ==> Behind(db, Owned(agents[a]).value)
    requires Owned(after).None? || Owned(after) == Owned(agents[who]) || !Behind(db, Owned(after).value)
    ensures OneOwner(agents[who := after])
  {
    hide Behind;
  }

  lemma SenderStays(agents: map<nat, Agent>, sent: seq<(RequestId, CallId)>, who: nat, after: Agent)
    requires OneSender(agents, sent) && About(after).None?
    ensures OneSender(agents[who := after], sent) && OneSender(agents - {who}, sent)
  {
    hide Distinct;
  }

  lemma OwnerGone(agents: map<nat, Agent>, who: nat, after: Agent)
    requires OneOwner(agents) && Owned(after).None?
    ensures OneOwner(agents - {who}) && (who !in agents ==> OneOwner(agents[who := after]))
  {}

  /** A request accepted from a looping agent journals a call that nobody journaled before. */
  lemma RequestIsNew(db: Db, a: Agent, call: CallId, row: ModelRow)
    requires Inv(db) && a.Looping? && AgentGood(db, a) && call !in a.saved
    requires Answer(db, ModelRequest(a.id, a.generation, call, row)).Ok?
    ensures Acts(db, a.id, a.generation) && !Logged(db, (a.id, call))
    ensures Next(db, ModelRequest(a.id, a.generation, call, row)) == db.(models := db.models[(a.id, call) := row])
  {
    NeverBoth(db, a.id);
    hide TextOk, Fresh, Inv, JournaledCalls;
    JournaledIff(db.models, a.id, call);
  }

  lemma JournaledIff(models: map<(RequestId, CallId), ModelRow>, id: RequestId, call: CallId)
    ensures call in JournaledCalls(models, id) <==> (id, call) in models
  {}

  lemma AddedCall(models: map<(RequestId, CallId), ModelRow>, id: RequestId, call: CallId, row: ModelRow,
                  other: RequestId)
    ensures JournaledCalls(models[(id, call) := row], other)
         == JournaledCalls(models, other) + if other == id then {call} else {}
  {
    var more := models[(id, call) := row];
    forall c
      ensures c in JournaledCalls(more, other) <==> c in JournaledCalls(models, other) || (other == id && c == call)
    {
      if c in JournaledCalls(models, other) {
        assert (other, c) in more;
      }
      if other == id && c == call {
        assert (id, call) in more;
      }
    }
  }

  /** For every other agent the new call belongs to another request or another generation. */
  lemma OthersUnmoved(db: Db, a: Agent, other: Agent, call: CallId, row: ModelRow)
    requires AgentGood(db, other) && a.Looping? && Acts(db, a.id, a.generation)
    requires Owned(other).Some? ==> Owned(other) != Owned(a)
    ensures AgentGood(db.(models := db.models[(a.id, call) := row]), other)
  {
    hide JournaledCalls;
    if Owned(other).Some? {
      AddedCall(db.models, a.id, call, row, Owned(other).value.0);
    }
  }

  lemma NowSending(db: Db, a: Agent, call: CallId, row: ModelRow)
    requires a.Looping? && AgentGood(db, a) && Acts(db, a.id, a.generation)
    ensures AgentGood(db.(models := db.models[(a.id, call) := row]),
                      Sending(a.id, a.generation, a.saved + {call}, call))
  {
    hide JournaledCalls;
    AddedCall(db.models, a.id, call, row, a.id);
  }

  lemma SenderAdded(agents: map<nat, Agent>, sent: seq<(RequestId, CallId)>, who: nat, after: Agent)
    requires OneSender(agents, sent) && who in agents && after.Sending? && (after.id, after.call) !in sent
    requires forall x :: x in agents && agents[x].Sending? ==> About(agents[x]) != About(after)
    ensures OneSender(agents[who := after], sent)
  {
    hide Distinct;
  }

  lemma CheckpointKeeps(world: World, who: nat, call: CallId, row: ModelRow)
    requires Good(world) && Enabled(world, Checkpoint(who, call, row))
    requires Answer(world.db, ModelRequest(world.agents[who].id, world.agents[who].generation, call, row)).Ok?
    ensures Good(Move(world, Checkpoint(who, call, row)))
  {
    hide Inv, Effect, Next, Answer, AgentGood, OneOwner, OneSender, Logged, Behind;
    var db, a := world.db, world.agents[who];
    var step := ModelRequest(a.id, a.generation, call, row);
    var d := Next(db, step);
    StepEffect(db, step);
    EffectKeeps(db, step, d);
    RequestIsNew(db, a, call, row);
    var after := Sending(a.id, a.generation, a.saved + {call}, call);
    NowSending(db, a, call, row);
    OwnersBehind(world);
    OwnerAdded(db, world.agents, who, after);
    forall x | x in world.agents && x != who ensures AgentGood(d, world.agents[x]) {
      OwnerDiffers(world.agents, x, who);
      OthersUnmoved(db, a, world.agents[x], call, row);
    }
    forall deed | deed in world.sent ensures Logged(d, deed) {
      LoggedStays(db, step, d, deed);
    }
    forall x | x in world.agents && world.agents[x].Sending? ensures About(world.agents[x]) != About(after) {
      SendingIsLogged(db, world.agents[x]);
    }
    SenderAdded(world.agents, world.sent, who, after);
  }

  lemma OwnersBehind(world: World)
    requires Good(world)
    ensures forall x :: x in world.agents && Owned(world.agents[x]).Some? ==>
              Behind(world.db, Owned(world.agents[x]).value)
  {
    hide Inv, OneOwner, OneSender, Behind, Knows, Logged;
    forall x | x in world.agents && Owned(world.agents[x]).Some?
      ensures Behind(world.db, Owned(world.agents[x]).value)
    {
      assert AgentGood(world.db, world.agents[x]);
    }
  }

  lemma OwnerDiffers(agents: map<nat, Agent>, x: nat, who: nat)
    requires OneOwner(agents) && x in agents && who in agents && x != who
    ensures Owned(agents[x]).Some? ==> Owned(agents[x]) != Owned(agents[who])
  {}

  lemma SendingIsLogged(db: Db, a: Agent)
    requires AgentGood(db, a) && a.Sending?
    ensures Logged(db, (a.id, a.call)) && About(a) == Some((a.id, a.call))
  {}

  lemma EnterKeeps(world: World, who: nat, now: int)
    requires Good(world) && Enabled(world, Enter(who, now))
    ensures Good(Move(world, Enter(who, now)))
  {
    hide Inv, Effect, Next, Answer, AgentGood, OneOwner, OneSender, Logged, Behind;
    var db, a := world.db, world.agents[who];
    var step := EntryCall(a, now);
    EntryIsNew(db, a, now);
    StepKeepsGood(world, step);
    OwnersBehind(world);
    OwnerAdded(db, world.agents, who, AfterEntry(a, Answer(db, step)));
    SenderStays(world.agents, world.sent, who, AfterEntry(a, Answer(db, step)));
  }

  lemma ReadKeeps(world: World, who: nat)
    requires Good(world) && Enabled(world, Read(who))
    ensures Good(Move(world, Read(who)))
  {
    hide Inv, OneOwner, OneSender, Logged, Behind;
    var a := world.agents[who];
    var after := Looping(a.id, a.generation, JournaledCalls(world.db.models, a.id));
    assert AgentGood(world.db, a);
    OwnersBehind(world);
    OwnerAdded(world.db, world.agents, who, after);
    SenderStays(world.agents, world.sent, who, after);
  }

  lemma SendKeeps(world: World, who: nat)
    requires Good(world) && Enabled(world, Send(who))
    ensures Good(Move(world, Send(who)))
  {
    hide Inv, OneOwner, Logged, Behind, Knows;
    var a := world.agents[who];
    var after := Looping(a.id, a.generation, a.saved);
    assert AgentGood(world.db, a);
    OwnersBehind(world);
    OwnerAdded(world.db, world.agents, who, after);
    SentOnce(world.agents, world.sent, who, after);
  }

  lemma SentOnce(agents: map<nat, Agent>, sent: seq<(RequestId, CallId)>, who: nat, after: Agent)
    requires OneSender(agents, sent) && who in agents && agents[who].Sending? && About(after).None?
    ensures OneSender(agents[who := after], sent + [(agents[who].id, agents[who].call)])
  {
    assert About(agents[who]) == Some((agents[who].id, agents[who].call));
  }

  lemma MoveKeeps(world: World, e: Event)
    requires Good(world) && Enabled(world, e)
    ensures Good(Move(world, e))
  {
    hide Inv, Effect, Next, Answer, AgentGood, OneOwner, OneSender, Logged;
    match e
    case Arrive(who, agent) => NewcomerKeeps(world, who, agent);
    case Enter(who, now) => EnterKeeps(world, who, now);
    case Read(who) => ReadKeeps(world, who);
    case Checkpoint(who, call, row) =>
      var a := world.agents[who];
      if Answer(world.db, ModelRequest(a.id, a.generation, call, row)).Ok? {
        CheckpointKeeps(world, who, call, row);
      } else {
        RefusedKeeps(world, ModelRequest(a.id, a.generation, call, row), who);
      }
    case Send(who) => SendKeeps(world, who);
    case Crash(who) => NewcomerKeeps(world, who, Stopped);
    case Direct(step) => StepKeepsGood(world, step);
  }

  lemma NewcomerKeeps(world: World, who: nat, agent: Agent)
    requires Good(world) && Owned(agent).None?
    ensures Good(world.(agents := world.agents - {who}))
    ensures who !in world.agents ==> Good(world.(agents := world.agents[who := agent]))
  {
    hide Inv, Logged, OneOwner, OneSender, Behind, Knows;
    OwnerGone(world.agents, who, agent);
    SenderStays(world.agents, world.sent, who, agent);
  }

  lemma RefusedKeeps(world: World, step: Step, who: nat)
    requires Good(world) && Answer(world.db, step).Err? && who in world.agents
    ensures Good(world.(db := Next(world.db, step), agents := world.agents[who := Stopped]))
  {
    hide Inv, Logged, OneOwner, OneSender, Behind, Knows, Answer;
    OwnersBehind(world);
    OwnerAdded(world.db, world.agents, who, Stopped);
    SenderStays(world.agents, world.sent, who, Stopped);
  }

  ghost function Play(world: World, events: seq<Event>): World
    decreases |events|
  {
    if events == [] then world
    else
      var before := Play(world, events[..|events| - 1]);
      var e := events[|events| - 1];
      if Enabled(before, e) then Move(before, e) else before
  }

  lemma {:induction false} PlayKeeps(world: World, events: seq<Event>)
    requires Good(world)
    ensures Good(Play(world, events))
    decreases |events|
  {
    hide Good, Move;
    if events == [] {
    } else {
      PlayKeeps(world, events[..|events| - 1]);
      var before := Play(world, events[..|events| - 1]);
      if Enabled(before, events[|events| - 1]) {
        MoveKeeps(before, events[|events| - 1]);
      }
    }
  }

  /** At most one dispatch: over any run of any number of overlapping agents, with crashes, recoveries,
      retention and every other kind of call in between, each model call id is sent at most once. */
  lemma SentAtMostOnce(db: Db, events: seq<Event>, i: nat, j: nat)
    requires Inv(db) && i < j < |Play(World(db, map[], []), events).sent|
    ensures Play(World(db, map[], []), events).sent[i] != Play(World(db, map[], []), events).sent[j]
  {
    hide Inv, Play, AgentGood, Logged;
    PlayKeeps(World(db, map[], []), events);
  }
}
