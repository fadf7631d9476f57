/** The client loops over the journal: any number of `Run` and `Tool` callers, in any number of
    processes, with crashes, recoveries, retention passes and other writers in between. */
module Workers {
  import opened Common
  import opened JournalState
  import Ops = JournalSteps
  import opened Retention
  import opened JournalRuns
  import opened JournalHistory

  /** What cannot be undone: calling the model or planner, and calling a tool. */
  datatype Deed = Complete(id: RequestId) | Execute(id: RequestId, call: CallId)

  /** What a caller is finally told. */
  datatype Reported = Replied(id: RequestId, reply: Reply) | Returned(id: RequestId, call: CallId, result: Json)

  /** Where a caller is between two engine calls. */
  datatype Worker =
    | WantsTurn(request: Request, packed: Option<Json>)
    | HasTurn(id: RequestId, generation: int)
    | HasReply(id: RequestId, generation: int, reply: Reply)
    | WantsTool(id: RequestId, generation: int, call: CallId, name: string, args: Json)
    | HasIntent(id: RequestId, generation: int, call: CallId)
    | HasLease(id: RequestId, generation: int, call: CallId, lease: Lease)
    | HasResult(id: RequestId, generation: int, call: CallId, lease: Lease, result: Json)
    | Reports(what: Reported)
    | Stopped

  /** What a caller may do without asking the engine again. */
  function Permit(w: Worker): Option<Deed> {
    match w
    case HasTurn(id, _) => Some(Complete(id))
    case HasIntent(id, _, call) => Some(Execute(id, call))
    case HasLease(id, _, call, _) => Some(Execute(id, call))
    case _ => None
  }

  datatype World = World(db: Db, workers: map<nat, Worker>, done: seq<Deed>, told: set<Reported>)

  /** Values a caller receives from outside: its callback's outcome, or the clock. A callback that
      fails gives nothing, and its caller stops. */
  datatype Input = Input(now: int, reply: Option<Reply>, result: Option<Json>)

  /** The engine call a caller is about to make, if any. */
  function NextCall(w: Worker, input: Input): Option<Step> {
    match w
    case WantsTurn(r, packed) => Some(Begin(r, packed, input.now))
    case HasReply(id, g, reply) => Some(Commit(id, g, reply, input.now))
    case WantsTool(id, g, call, name, args) => Some(StartTool(id, g, call, name, args))
    case HasIntent(id, g, call) => Some(ActionEligible(id, g, call, 5000, input.now))
    case HasResult(id, g, call, lease, result) => Some(FinishTool(id, g, call, result, Some(lease), input.now))
    case _ => None
  }

  /** `Run`, on the answer to `Begin`: a committed turn is returned, a turn somebody else began is
      left alone, and only a turn this call created is worked on. */
  function OnTurn(turn: TurnRow, created: bool): Worker {
    if turn.status == Committed && turn.reply.Some? then Reports(Replied(turn.request.id, turn.reply.value))
    else if !created then Stopped
    else HasTurn(turn.request.id, turn.generation)
  }

  /** `Session.Tool`, on the answer to `StartTool`. */
  function OnIntent(id: RequestId, g: int, call: CallId, tool: ToolRow, created: bool): Worker {
    if tool.Completed? then Reports(Returned(id, call, tool.result))
    else if !created then Stopped
    else HasIntent(id, g, call)
  }

  /** Where the engine's answer takes the caller. */
  function OnAnswer(w: Worker, answer: Result): Worker {
    if answer.Err? then Stopped
    else
      match w
      case WantsTurn(_, _) =>
        if answer.view.TurnView? then OnTurn(answer.view.turn, answer.view.created) else Stopped
      case HasReply(id, _, reply) => Reports(Replied(id, Encoded(reply)))
      case WantsTool(id, g, call, _, _) =>
        if answer.view.ToolView? then OnIntent(id, g, call, answer.view.tool, answer.view.created) else Stopped
      case HasIntent(id, g, call) =>
        if answer.view.LeaseView? then HasLease(id, g, call, answer.view.lease) else Stopped
      case HasResult(id, _, call, _, result) =>
        if answer.view.ToolView? && answer.view.tool.Completed?
        then Reports(Returned(id, call, answer.view.tool.result))
        else Stopped
      case _ => Stopped
  }

  /** Where the callback's outcome takes the caller. */
  function OnCallback(w: Worker, input: Input): Worker {
    match w
    case HasTurn(id, g) => if input.reply.Some? then HasReply(id, g, input.reply.value) else Stopped
    case HasLease(id, g, call, lease) =>
      if input.result.Some? then HasResult(id, g, call, lease, input.result.value) else Stopped
    case _ => Stopped
  }

  predicate AtCallback(w: Worker) {
    w.HasTurn? || w.HasLease?
  }

  datatype Event =
    | Arrive(who: nat, worker: Worker)
    | Ask(who: nat, input: Input)
    | Act(who: nat, input: Input)
    | Crash(who: nat)
    | Direct(step: Step)

  /** A new caller starts at the top of `Run` or `Tool`. */
  predicate Enabled(world: World, e: Event) {
    match e
    case Arrive(who, w) => who !in world.workers && (w.WantsTurn? || w.WantsTool?)
    case Ask(who, input) => who in world.workers && NextCall(world.workers[who], input).Some?
    case Act(who, input) => who in world.workers && AtCallback(world.workers[who])
    case Crash(who) => who in world.workers
    case Direct(_) => true
  }

  /** Engine calls that no caller of these loops is waiting for, and other writers, are `Direct`.
      The callback is counted before its outcome is known: a crash inside it leaves it done. */
  ghost function Move(world: World, e: Event): World
    requires Enabled(world, e)
  {
    match e
    case Arrive(who, w) => world.(workers := world.workers[who := w])
    case Ask(who, input) =>
      var w := world.workers[who];
      var step := NextCall(w, input).value;
      var after := OnAnswer(w, Answer(world.db, step));
      world.(db := Next(world.db, step), workers := world.workers[who := after],
             told := world.told + if after.Reports? then {after.what} else {})
    case Act(who, input) =>
      var w := world.workers[who];
      world.(workers := world.workers[who := OnCallback(w, input)], done := world.done + [Permit(w).value])
    case Crash(who) => world.(workers := world.workers - {who})
    case Direct(step) => world.(db := Next(world.db, step))
  }

  // What every caller's permission rests on.

  /** The journal has a trace of the deed, so nobody will be told to do it again. */
  ghost predicate Recorded(db: Db, deed: Deed) {
    match deed
    case Complete(id) => PhaseOf(db, id) != Absent
    case Execute(id, call) => ToolKnown(db, id, call)
  }

  /** The reported value is the journaled one for as long as the journal keeps it. */
  ghost predicate Stands(db: Db, what: Reported) {
    match what
    case Replied(id, reply) =>
      && Settled(db, id) == 1
      && (id in db.turns ==> db.turns[id].reply == Some(reply))
    case Returned(id, call, result) =>
      && ToolKnown(db, id, call)
      && ((id, call) in db.tools ==> db.tools[(id, call)].Completed? && db.tools[(id, call)].result == result)
  }

  /** No deed was done twice, no caller may do one that was done or that another caller may do, and
      every one of them is on record. */
  ghost predicate Once(db: Db, workers: map<nat, Worker>, done: seq<Deed>) {
    && Distinct(done)
    && (forall deed :: deed in done ==> Recorded(db, deed))
    && (forall w :: w in workers && Permit(workers[w]).Some? ==>
          Permit(workers[w]).value !in done && Recorded(db, Permit(workers[w]).value))
    && Exclusive(workers)
  }

  ghost predicate Exclusive(workers: map<nat, Worker>) {
    forall a, b {:trigger Permit(workers[a]), Permit(workers[b])} ::
      a in workers && b in workers && a != b && Permit(workers[a]).Some? ==> Permit(workers[a]) != Permit(workers[b])
  }

  /** Every report stands, and no two callers were told different things. */
  ghost predicate Agreed(db: Db, told: set<Reported>) {
    && (forall x :: x in told ==> Stands(db, x))
    && (forall x, y :: x in told && y in told && Same(x, y) ==> x == y)
  }

  /** About the same request, or the same tool call. */
  predicate Same(x: Reported, y: Reported) {
    || (x.Replied? && y.Replied? && x.id == y.id)
    || (x.Returned? && y.Returned? && x.id == y.id && x.call == y.call)
  }

  /** The journal still holds what the report was read from. */
  predicate Held(db: Db, what: Reported) {
    match what
    case Replied(id, _) => id in db.turns
    case Returned(id, call, _) => (id, call) in db.tools
  }

  // What one engine step keeps.

  lemma RecordedStays(db: Db, step: Step, deed: Deed)
    requires Inv(db) && Recorded(db, deed)
    ensures Recorded(Next(db, step), deed)
  {
    hide Inv, Effect, Next, ToolKnown;
    match deed
    case Complete(id) => StepMoves(db, step, id);
    case Execute(id, call) =>
      StepEffect(db, step);
      ToolStaysKnown(db, step, Next(db, step), id, call);
  }

  lemma RepliedRow(db: Db, id: RequestId, reply: Reply)
    requires Inv(db) && Stands(db, Replied(id, reply))
    ensures if id in db.turns then db.turns[id].status != Pending else id in db.retired
  {
    NeverBoth(db, id);
  }

  lemma ReplyStands(db: Db, step: Step, d: Db, id: RequestId, reply: Reply)
    requires Inv(db) && Effect(db, step, d) && Stands(db, Replied(id, reply))
    ensures id in d.turns ==> id in db.turns && d.turns[id] == db.turns[id]
  {
    hide Began, Published, Finished, TurnMoved, RowWritten, Swept, Performed, Inv, Stands;
    RepliedRow(db, id, reply);
    if d != db {
      match step
      case Begin(r, _, _) => BegunFrame(db, r, d);
      case Commit(other, _, replied, _) => PublishedFrame(db, other, replied, d);
      case FinishTool(other, _, c, result, _, _) => FinishedFrame(db, other, c, result, d);
      case Recover(_, _, _) => TurnFrame(db, step, d);
      case Abort(_, _, _) => TurnFrame(db, step, d);
      case Retain(plan) => RetiredFrame(db, plan, d);
      case Foreign(w) => PerformFrame(db, w, d);
      case _ => RowFrame(db, step, d);
    }
  }

  lemma FinishedOnce(db: Db, id: RequestId, call: CallId, result: Json, d: Db, key: (RequestId, CallId))
    requires Finished(db, id, call, result, d) && key in db.tools && db.tools[key].Completed?
    ensures key in d.tools && d.tools[key] == db.tools[key]
  {
    hide Tick;
  }

  lemma ReturnedRow(db: Db, id: RequestId, call: CallId, result: Json)
    requires Inv(db) && Stands(db, Returned(id, call, result))
    ensures if (id, call) in db.tools then db.tools[(id, call)].Completed? else id !in db.turns
  {
    NeverBoth(db, id);
  }

  lemma ResultStands(db: Db, step: Step, d: Db, id: RequestId, call: CallId, result: Json)
    requires Inv(db) && Effect(db, step, d) && Stands(db, Returned(id, call, result))
    ensures (id, call) in d.tools ==> (id, call) in db.tools && d.tools[(id, call)] == db.tools[(id, call)]
  {
    hide Began, Published, Finished, TurnMoved, RowWritten, Swept, Performed, Inv, Stands, ToolKnown;
    ReturnedRow(db, id, call, result);
    if d != db {
      match step
      case Begin(r, _, _) => BegunFrame(db, r, d);
      case Commit(other, _, replied, _) => PublishedFrame(db, other, replied, d);
      case FinishTool(other, _, c, r, _, _) =>
        FinishedFrame(db, other, c, r, d);
        if (id, call) in db.tools { FinishedOnce(db, other, c, r, d, (id, call)); }
      case Recover(_, _, _) => TurnFrame(db, step, d);
      case Abort(_, _, _) => TurnFrame(db, step, d);
      case Retain(plan) => SweptTools(db, plan, d);
      case Foreign(w) => PerformFrame(db, w, d);
      case _ => RowFrame(db, step, d);
    }
  }

  lemma SweptTools(db: Db, plan: Plan, d: Db)
    requires Swept(db, plan, d)
    ensures forall k :: k in d.tools ==> k in db.tools && d.tools[k] == db.tools[k]
  {
    hide PlanOf, Candidates;
  }

  lemma StandsStays(db: Db, step: Step, what: Reported)
    requires Inv(db) && Stands(db, what)
    ensures Stands(Next(db, step), what)
  {
    hide Inv, Effect, Next;
    var d := Next(db, step);
    StepEffect(db, step);
    match what
    case Replied(id, reply) =>
      ReplyStands(db, step, d, id, reply);
      StepMoves(db, step, id);
    case Returned(id, call, result) =>
      ResultStands(db, step, d, id, call, result);
      ToolStaysKnown(db, step, d, id, call);
  }

  // What one engine answer allows.

  /** A permission is kept, or it is new: not on record before, on record now. */
  ghost predicate Granted(db: Db, d: Db, before: Worker, after: Worker) {
    Permit(after).Some? ==>
      || Permit(after) == Permit(before)
      || (!Recorded(db, Permit(after).value) && Recorded(d, Permit(after).value))
  }

  ghost predicate ToldTruly(d: Db, w: Worker) {
    w.Reports? ==> Stands(d, w.what) && Held(d, w.what)
  }

  lemma TurnGranted(db: Db, r: Request, packed: Option<Json>, now: int)
    requires Inv(db)
    ensures var step := Begin(r, packed, now);
            var after := OnAnswer(WantsTurn(r, packed), Answer(db, step));
            Granted(db, Next(db, step), WantsTurn(r, packed), after) && ToldTruly(Next(db, step), after)
  {
    hide Ops.BeginWrites, TextOk, Fresh, Effect, Inv, Ops.TaskBusy, ToolKnown;
    var step := Begin(r, packed, now);
    InvTurn(db, r.id);
    BeginView(db, r, packed, now);
    if Creates(db, step, r.id) {
      CreationIsFirst(db, step, r.id);
    }
  }

  lemma InvTurn(db: Db, id: RequestId)
    requires Inv(db)
    ensures id in db.turns ==>
              db.turns[id].request.id == id && (db.turns[id].reply.Some? <==> db.turns[id].status == Committed)
  {}

  /** The turn `Begin` shows is the row of its own request. */
  lemma BeginView(db: Db, r: Request, packed: Option<Json>, now: int)
    requires Inv(db)
    ensures var begun := Ops.Begin(db, r, packed, now);
            begun.Ok? ==> && begun.view.TurnView?
                          && (begun.view.created <==> r.id !in db.turns)
                          && (begun.view.created ==>
                              begun.view.turn.request.id == r.id && begun.view.turn.status == Pending)
                          && (!begun.view.created ==> begun.db == db && begun.view.turn == db.turns[r.id])
  {
    hide TextOk, Inv, Ops.TaskBusy, Tick, Append;
  }

  lemma ReplyGranted(db: Db, id: RequestId, g: int, reply: Reply, now: int)
    requires Inv(db)
    ensures var step := Commit(id, g, reply, now);
            var w := HasReply(id, g, reply);
            var after := OnAnswer(w, Answer(db, step));
            Granted(db, Next(db, step), w, after) && ToldTruly(Next(db, step), after)
  {
    hide TextOk, Inv, Ops.CommitProblem, Ops.CommitWrites, ToolKnown, Effect;
    InvTurn(db, id);
    if Ops.CommitProblem(db, id, g, reply).None? {
      NoProblemHasTurn(db, id, g, reply);
      if Ops.CommitWrites(db, db.turns[id], reply, now).Ok? {
        CommitShape(db, id, g, reply, now);
        PublishedReply(db, id, reply, Ops.CommitWrites(db, db.turns[id], reply, now).db);
      }
    }
  }

  lemma NoProblemHasTurn(db: Db, id: RequestId, g: int, reply: Reply)
    requires Ops.CommitProblem(db, id, g, reply).None?
    ensures id in db.turns
  {
    hide Fresh, Ops.ProvenanceProblem, StartedCalls;
  }

  lemma PublishedReply(db: Db, id: RequestId, reply: Reply, d: Db)
    requires Published(db, id, reply, d)
    ensures id in d.turns && d.turns[id].status == Committed && d.turns[id].reply == Some(Encoded(reply))
  {
    hide Ticked, FactsAdded, FactsWritten, Fresh, Ops.EdgesOf, StartedCalls;
  }

  lemma ToolGranted(db: Db, id: RequestId, g: int, call: CallId, name: string, args: Json)
    requires Inv(db)
    ensures var step := StartTool(id, g, call, name, args);
            var w := WantsTool(id, g, call, name, args);
            var after := OnAnswer(w, Answer(db, step));
            Granted(db, Next(db, step), w, after) && ToldTruly(Next(db, step), after)
  {
    hide TextOk, Fresh, Effect, Inv;
    NeverBoth(db, id);
  }

  lemma LeaseGranted(db: Db, id: RequestId, g: int, call: CallId, now: int)
    ensures var step := ActionEligible(id, g, call, 5000, now);
            var w := HasIntent(id, g, call);
            var after := OnAnswer(w, Answer(db, step));
            Granted(db, Next(db, step), w, after) && ToldTruly(Next(db, step), after)
  {
    hide Next, Answer, Recorded, Stands, Held;
  }

  lemma ResultGranted(db: Db, id: RequestId, g: int, call: CallId, lease: Lease, result: Json, now: int)
    requires Inv(db)
    ensures var step := FinishTool(id, g, call, result, Some(lease), now);
            var w := HasResult(id, g, call, lease, result);
            var after := OnAnswer(w, Answer(db, step));
            Granted(db, Next(db, step), w, after) && ToldTruly(Next(db, step), after)
  {
    hide Inv, Append, Ops.LeaseProblem, Ops.AdvanceBasis;
  }

  lemma AnswerGrants(db: Db, w: Worker, input: Input)
    requires Inv(db) && NextCall(w, input).Some?
    ensures var step := NextCall(w, input).value;
            var after := OnAnswer(w, Answer(db, step));
            Granted(db, Next(db, step), w, after) && ToldTruly(Next(db, step), after)
  {
    hide Inv, Next, Answer, Granted, ToldTruly, OnAnswer;
    match w
    case WantsTurn(r, packed) => TurnGranted(db, r, packed, input.now);
    case HasReply(id, g, reply) => ReplyGranted(db, id, g, reply, input.now);
    case WantsTool(id, g, call, name, args) => ToolGranted(db, id, g, call, name, args);
    case HasIntent(id, g, call) => LeaseGranted(db, id, g, call, input.now);
    case HasResult(id, g, call, lease, result) => ResultGranted(db, id, g, call, lease, result, input.now);
  }

  // Every move keeps it.

  ghost predicate Good(world: World) {
    && Inv(world.db)
    && Once(world.db, world.workers, world.done)
    && Agreed(world.db, world.told)
  }

  lemma OnceStays(db: Db, step: Step, workers: map<nat, Worker>, done: seq<Deed>)
    requires Inv(db) && Once(db, workers, done)
    ensures Once(Next(db, step), workers, done)
  {
    hide Inv, Next, Recorded, Distinct, Exclusive, Permit;
    forall deed | Recorded(db, deed) ensures Recorded(Next(db, step), deed) {
      RecordedStays(db, step, deed);
    }
  }

  lemma AgreedStays(db: Db, step: Step, told: set<Reported>)
    requires Inv(db) && Agreed(db, told)
    ensures Agreed(Next(db, step), told)
  {
    hide Inv, Next, Stands;
    forall x | x in told ensures Stands(Next(db, step), x) {
      StandsStays(db, step, x);
    }
  }

  /** A caller moves on, holding its permission, a new one, or none. */
  lemma OnceMoved(db: Db, d: Db, workers: map<nat, Worker>, done: seq<Deed>, who: nat, after: Worker)
    requires Once(db, workers, done) && Once(d, workers, done) && who in workers
    requires Granted(db, d, workers[who], after)
    ensures Once(d, workers[who := after], done)
  {
    hide Recorded, Distinct;
    var p := Permit(after);
    if p.Some? && p != Permit(workers[who]) {
      assert !Recorded(db, p.value);
      assert p.value !in done;
      forall w | w in workers ensures Permit(workers[w]) != p {}
    }
  }

  /** The new report is about something the journal still holds, so it agrees with the old ones. */
  lemma AgreedMoved(d: Db, told: set<Reported>, what: Reported)
    requires Agreed(d, told) && Stands(d, what) && Held(d, what)
    ensures Agreed(d, told + {what})
  {
    forall x | x in told && Same(x, what) ensures x == what {
      assert Stands(d, x);
    }
  }

  /** Doing the deed uses the permission up. */
  lemma OnceActed(db: Db, workers: map<nat, Worker>, done: seq<Deed>, who: nat, after: Worker)
    requires Once(db, workers, done) && who in workers && Permit(workers[who]).Some? && Permit(after).None?
    ensures Once(db, workers[who := after], done + [Permit(workers[who]).value])
  {
    hide Recorded;
  }

  lemma OnceWithout(db: Db, workers: map<nat, Worker>, done: seq<Deed>, who: nat, w: Worker)
    requires Once(db, workers, done) && Permit(w).None?
    ensures Once(db, workers - {who}, done)
    ensures who !in workers ==> Once(db, workers[who := w], done)
  {
    hide Recorded, Distinct;
  }

  lemma MoveKeeps(world: World, e: Event)
    requires Good(world) && Enabled(world, e)
    ensures Good(Move(world, e))
  {
    hide Inv, Next, Answer, Once, Agreed, Granted, ToldTruly, Effect;
    var db := world.db;
    match e
    case Arrive(who, w) => OnceWithout(db, world.workers, world.done, who, w);
    case Ask(who, input) =>
      var w := world.workers[who];
      var step := NextCall(w, input).value;
      StepKeepsAll(world, step);
      AnswerGrants(db, w, input);
      var after := OnAnswer(w, Answer(db, step));
      OnceMoved(db, Next(db, step), world.workers, world.done, who, after);
      ReportAgrees(Next(db, step), world.told, after);
    case Act(who, input) => OnceActed(db, world.workers, world.done, who, OnCallback(world.workers[who], input));
    case Crash(who) => OnceWithout(db, world.workers, world.done, who, Stopped);
    case Direct(step) => StepKeepsAll(world, step);
  }

  lemma StepKeepsAll(world: World, step: Step)
    requires Good(world)
    ensures Good(world.(db := Next(world.db, step)))
  {
    hide Inv, Next, Once, Agreed, Effect;
    StepEffect(world.db, step);
    EffectKeeps(world.db, step, Next(world.db, step));
    OnceStays(world.db, step, world.workers, world.done);
    AgreedStays(world.db, step, world.told);
  }

  lemma ReportAgrees(d: Db, told: set<Reported>, w: Worker)
    requires Agreed(d, told) && ToldTruly(d, w)
    ensures Agreed(d, told + if w.Reports? then {w.what} else {})
  {
    hide Agreed, Stands, Held;
    if w.Reports? {
      AgreedMoved(d, told, w.what);
    } else {
      assert told + {} == told;
    }
  }

  /** Any sequence of events; those that cannot happen do nothing. */
  ghost function Play(world: World, events: seq<Event>): World
    decreases |events|
  {
    if events == [] then world
    else
      var before := Play(world, events[..|events| - 1]);
      var e := events[|events| - 1];
      if Enabled(before, e) then Move(before, e) else before
  }

  lemma {:induction false} PlayKeeps(world: World, events: seq<Event>)
    requires Good(world)
    ensures Good(Play(world, events))
    decreases |events|
  {
    hide Good, Move;
    if events == [] {
    } else {
      PlayKeeps(world, events[..|events| - 1]);
      var before := Play(world, events[..|events| - 1]);
      if Enabled(before, events[|events| - 1]) {
        MoveKeeps(before, events[|events| - 1]);
      }
    }
  }

  function Quiet(db: Db): World {
    World(db, map[], [], {})
  }

  lemma QuietIsGood(db: Db)
    requires Inv(db)
    ensures Good(Quiet(db))
  {
    hide Inv;
  }

  /** At most once: over any run, with any callers, crashes, recoveries, retention passes and other
      writers, `complete` is invoked at most once per request id and `execute` at most once per
      request and call id. */
  lemma AtMostOnce(db: Db, events: seq<Event>, i: nat, j: nat)
    requires Inv(db) && i < j < |Play(Quiet(db), events).done|
    ensures Play(Quiet(db), events).done[i] != Play(Quiet(db), events).done[j]
  {
    hide Inv, Play, Recorded;
    QuietIsGood(db);
    PlayKeeps(Quiet(db), events);
  }

  /** Agreement: all callers of `Run` that are given a reply for one request id are given the same
      reply, and all callers of `Tool` for one call id the same result, before and after crashes. */
  lemma SameAnswers(db: Db, events: seq<Event>, x: Reported, y: Reported)
    requires Inv(db) && x in Play(Quiet(db), events).told && y in Play(Quiet(db), events).told
    requires Same(x, y)
    ensures x == y
  {
    hide Inv, Play, Once;
    QuietIsGood(db);
    PlayKeeps(Quiet(db), events);
  }
}
