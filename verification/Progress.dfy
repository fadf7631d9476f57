/** What an undisturbed caller of `Run` or `Session.Tool` gets. */
module Progress {
  import opened Common
  import Ancestry
  import opened JournalState
  import Ops = JournalSteps
  import opened Retention
  import opened JournalRuns
  import opened JournalHistory
  import Freshness
  import FreshnessRuns
  import opened Workers
  import opened Admission
  import Dispatchers

  lemma PlayOne(world: World, events: seq<Event>, e: Event)
    requires Enabled(Play(world, events), e)
    ensures Play(world, events + [e]) == Workers.Move(Play(world, events), e)
  {
    hide Workers.Move;
    assert (events + [e])[..|events|] == events;
  }

  lemma PlayNone(world: World)
    ensures Play(world, []) == world
  {}

  // What is on record is told.

  /** A caller that asks for a completed call with the same input is told the recorded result, and nothing
      is done. */
  lemma CompletedIsTold(world: World, who: nat, input: Input, id: RequestId, g: int, call: CallId, name: string,
                        args: Json)
    requires who in world.workers && world.workers[who] == WantsTool(id, g, call, name, args)
    requires Acts(world.db, id, g) && TextOk(call) && TextOk(name) && |call| <= 128
    requires (id, call) in world.db.tools && world.db.tools[(id, call)].Completed?
    requires world.db.tools[(id, call)].name == name && world.db.tools[(id, call)].args == args
    ensures var after := Workers.Move(world, Event.Ask(who, input));
            var what := Returned(id, call, world.db.tools[(id, call)].result);
            && after.workers == world.workers[who := Reports(what)] && after.told == world.told + {what}
            && after.db == world.db && after.done == world.done
  {
    hide TextOk, Fresh;
  }

  /** A caller of `Run` whose request is committed is told the recorded reply, and nothing is done. */
  lemma CommittedIsTold(world: World, who: nat, input: Input, r: Request, packed: Option<Json>)
    requires Inv(world.db) && who in world.workers && world.workers[who] == WantsTurn(r, packed)
    requires Admission.WellFormed(r) && r.id in world.db.turns && world.db.turns[r.id].request == r
    requires world.db.turns[r.id].status == Committed && world.db.turns[r.id].reply.Some?
    ensures var after := Workers.Move(world, Event.Ask(who, input));
            var what := Replied(r.id, world.db.turns[r.id].reply.value);
            && after.workers == world.workers[who := Reports(what)] && after.told == world.told + {what}
            && after.db == world.db && after.done == world.done
  {
    NeverBoth(world.db, r.id);
    hide TextOk, Ops.TaskBusy, Ops.BeginWrites, Inv;
  }

  // A new request, start to end.

  /** Right after a first begin, a reply is publishable if and only if it is in order itself. */
  lemma JustBegunIsPublishable(db: Db, r: Request, packed: Json, now: int, reply: Reply)
    requires Inv(db) && r.id !in db.turns && Ops.Begin(db, r, Some(packed), now).Ok?
    ensures var d := Next(db, Begin(r, Some(packed), now));
            && r.id in d.turns
            && (Publishable(d, r.id, 1, reply) <==>
                 && TextOk(reply.text) && Derived(d.turns[r.id], reply) && Sourced(d, r, reply.provenance)
                 && FactsFit(d, r.task, reply.facts))
  {
    hide Inv, Effect, Next, TextOk, Derived, Sourced, FactsFit, Resolved, Fresh;
    BeginEffect(db, r, Some(packed), now);
    var d := Next(db, Begin(r, Some(packed), now));
    BegunRow(db, r, packed, now, d);
    BegunHasNoRows(db, r, d);
    BegunIsFresh(db, r, d);
  }

  lemma BegunRow(db: Db, r: Request, packed: Json, now: int, d: Db)
    requires r.id !in db.turns && Ops.Begin(db, r, Some(packed), now).Ok? && d == Next(db, Begin(r, Some(packed), now))
    ensures Began(db, r, d) && Acts(d, r.id, 1) && d.turns[r.id].request == r
    ensures r.task in d.tasks && d.tasks[r.task].revision == d.turns[r.id].taskRevision
  {
    hide Began, TextOk, Ops.BeginWrites;
    BeginEffect(db, r, Some(packed), now);
    BegunTurn(db, r, d);
  }

  lemma BegunTurn(db: Db, r: Request, d: Db)
    requires Began(db, r, d)
    ensures Acts(d, r.id, 1) && d.turns[r.id].request == r
    ensures r.task in d.tasks && d.tasks[r.task].revision == d.turns[r.id].taskRevision
  {
    hide Captured, Tick, Ops.TaskBusy;
  }

  /** No tool of a new request is on record. */
  lemma BegunHasNoRows(db: Db, r: Request, d: Db)
    requires Inv(db) && Began(db, r, d)
    ensures Resolved(d, r.id)
  {
    hide Captured, Tick, Ops.TaskBusy;
    NoRowsBefore(db, r.id);
  }

  lemma NoRowsBefore(db: Db, id: RequestId)
    requires Inv(db) && id !in db.turns
    ensures forall call :: (id, call) !in db.tools
    ensures forall t :: (id, t) !in db.basis
  {}

  lemma BegunIsFresh(db: Db, r: Request, d: Db)
    requires Inv(db) && Began(db, r, d)
    ensures r.id in d.turns && Fresh(d, r.id)
  {
    hide Inv, Began, ScopeTasks;
    BegunTurn(db, r, d);
    BegunNew(db, r, d);
    NoRowsBefore(db, r.id);
    if r.scoped {
      FreshnessRuns.BasisAtBirth(db, r, d);
      FreshnessRuns.ScopeNonempty(d, r);
      var t :| t in ScopeTasks(d, r);
      assert (r.id, t) in BasisRows(d, r.id);
      forall k | k in BasisRows(d, r.id) ensures RowHolds(d, k) {
        assert k == (r.id, k.1) && Freshness.Watched(d, r.id, k.1) && Freshness.Gap(d, r.id, k.1) == 0;
      }
    }
  }

  lemma BegunNew(db: Db, r: Request, d: Db)
    requires Began(db, r, d)
    ensures r.id !in db.turns
  {
    hide Captured, Tick, Ops.TaskBusy;
  }

  /** A lone caller of `Run` with a new request: its call is accepted, `complete` is invoked once, its
      reply is committed, and the caller is told it. */
  lemma RunCompletes(world: World, who: nat, r: Request, packed: Json, begin: Input, done: Input, commit: Input,
                     reply: Reply)
    requires Inv(world.db) && who !in world.workers && r.id !in world.db.turns
    requires Ops.Begin(world.db, r, Some(packed), begin.now).Ok? && done.reply == Some(reply)
    requires var d := Next(world.db, Begin(r, Some(packed), begin.now));
             && TextOk(reply.text) && FactsFit(d, r.task, reply.facts) && Sourced(d, r, reply.provenance)
             && (r.id in d.turns ==> Derived(d.turns[r.id], reply))
    ensures var after := Play(world, [] + [Arrive(who, WantsTurn(r, Some(packed)))] + [Event.Ask(who, begin)]
                                        + [Act(who, done)] + [Event.Ask(who, commit)]);
            && after.workers == world.workers[who := Reports(Replied(r.id, Encoded(reply)))]
            && after.done == world.done + [Complete(r.id)]
            && r.id in after.db.turns && after.db.turns[r.id].status == Committed
            && after.db.turns[r.id].reply == Some(Encoded(reply))
  {
    hide Inv, Next, Play, Effect, TextOk, FactsFit, Sourced, Derived, Answer, Publishable, Workers.Move, Enabled;
    var d := Next(world.db, Begin(r, Some(packed), begin.now));
    StepEffect(world.db, Begin(r, Some(packed), begin.now));
    EffectKeeps(world.db, Begin(r, Some(packed), begin.now), d);
    JustBegunIsPublishable(world.db, r, packed, begin.now, reply);
    var one := world.(workers := world.workers[who := WantsTurn(r, Some(packed))]);
    var two := world.(db := d, workers := world.workers[who := HasTurn(r.id, 1)]);
    BeginTells(one, who, r, packed, begin);
    assert one.workers[who := HasTurn(r.id, 1)] == two.workers;
    var three := two.(workers := two.workers[who := HasReply(r.id, 1, reply)], done := world.done + [Complete(r.id)]);
    CommitTells(three, who, r.id, 1, reply, commit);
    Arrives(world, who, WantsTurn(r, Some(packed)));
    Completes(two, who, done, r.id, 1, reply);
    PlayFour(world, one, two, three, Arrive(who, WantsTurn(r, Some(packed))), Event.Ask(who, begin), Act(who, done),
             Event.Ask(who, commit));
    var told := Reports(Replied(r.id, Encoded(reply)));
    assert three.workers[who := told] == world.workers[who := told];
  }

  /** Four events in a row, each possible when it comes. */
  lemma PlayFour(world: World, one: World, two: World, three: World, a: Event, b: Event, c: Event, d: Event)
    requires Enabled(world, a) && Workers.Move(world, a) == one && Enabled(one, b) && Workers.Move(one, b) == two
    requires Enabled(two, c) && Workers.Move(two, c) == three && Enabled(three, d)
    ensures Play(world, [] + [a] + [b] + [c]) == three
    ensures Play(world, [] + [a] + [b] + [c] + [d]) == Workers.Move(three, d)
  {
    hide Workers.Move, Play, Enabled;
    PlayNone(world);
    PlayOne(world, [], a);
    PlayOne(world, [] + [a], b);
    PlayOne(world, [] + [a] + [b], c);
    PlayOne(world, [] + [a] + [b] + [c], d);
  }

  lemma BeginTells(world: World, who: nat, r: Request, packed: Json, input: Input)
    requires Inv(world.db) && who in world.workers && world.workers[who] == WantsTurn(r, Some(packed))
    requires r.id !in world.db.turns && Ops.Begin(world.db, r, Some(packed), input.now).Ok?
    ensures Enabled(world, Event.Ask(who, input))
    ensures Workers.Move(world, Event.Ask(who, input))
         == world.(db := Next(world.db, Begin(r, Some(packed), input.now)),
                   workers := world.workers[who := HasTurn(r.id, 1)])
  {
    BeginSees(world.db, r, packed, input.now);
    hide Inv, Ops.Begin, Effect;
    assert world.told + {} == world.told;
  }

  lemma BeginSees(db: Db, r: Request, packed: Json, now: int)
    requires Inv(db) && r.id !in db.turns && Ops.Begin(db, r, Some(packed), now).Ok?
    ensures var view := Ops.Begin(db, r, Some(packed), now).view;
            && view.TurnView? && view.created && view.turn.status == Pending && view.turn.reply.None?
            && view.turn.generation == 1 && view.turn.request.id == r.id
  {
    hide TextOk, Inv, Ops.TaskBusy, Tick, Append;
  }

  lemma CommitTells(world: World, who: nat, id: RequestId, g: int, reply: Reply, input: Input)
    requires Inv(world.db) && who in world.workers && world.workers[who] == HasReply(id, g, reply)
    requires Publishable(world.db, id, g, reply)
    ensures Enabled(world, Event.Ask(who, input))
    ensures var after := Workers.Move(world, Event.Ask(who, input));
            && after.workers == world.workers[who := Reports(Replied(id, Encoded(reply)))] && after.done == world.done
            && id in after.db.turns && after.db.turns[id].status == Committed
            && after.db.turns[id].reply == Some(Encoded(reply))
  {
    CommitWrites(world.db, id, g, reply, input.now);
    hide Inv, Ops.Commit, Publishable, Effect;
  }

  lemma CommitWrites(db: Db, id: RequestId, g: int, reply: Reply, now: int)
    requires Inv(db) && Publishable(db, id, g, reply)
    ensures var done := Ops.Commit(db, id, g, reply, now);
            && done.Ok? && id in done.db.turns && done.db.turns[id].status == Committed
            && done.db.turns[id].reply == Some(Encoded(reply))
  {
    InvTurn(db, id);
    CommitAccepts(db, id, g, reply, now);
    NoProblem(db, id, g, reply);
    hide Inv, TextOk, Fresh, Resolved, Sourced, Derived, FactsFit, Ops.CommitProblem, Ops.CommitWrites;
    CommitShape(db, id, g, reply, now);
    PublishedReply(db, id, reply, Ops.CommitWrites(db, db.turns[id], reply, now).db);
  }

  // A new tool call, start to end.

  /** A new call of a live, fresh turn, whose task can take the result. */
  ghost predicate Callable(db: Db, id: RequestId, g: int, call: CallId, name: string) {
    && Acts(db, id, g) && Fresh(db, id) && TextOk(call) && TextOk(name) && |call| <= 128
    && (id, call) !in db.tools && (forall l :: l in db.leases && l.request == id ==> l.call != call)
    && db.turns[id].request.task in db.tasks && db.turns[id].request.task in db.clock && GLOBAL in db.clock
  }

  /** Where a lone caller stands when its callback has given a result. */
  function Executed(world: World, who: nat, id: RequestId, g: int, call: CallId, name: string, args: Json,
                    lease: Lease, result: Json): World
  {
    world.(db := world.db.(tools := world.db.tools[(id, call) := Started(name, args)],
                           leases := world.db.leases + {lease}),
           workers := world.workers[who := HasResult(id, g, call, lease, result)],
           done := world.done + [Execute(id, call)])
  }

  lemma ToolExecutes(world: World, who: nat, id: RequestId, g: int, call: CallId, name: string, args: Json,
                     start: Input, check: Input, done: Input, result: Json)
    requires who !in world.workers && Callable(world.db, id, g, call, name) && done.result == Some(result)
    ensures Play(world, [] + [Arrive(who, WantsTool(id, g, call, name, args))] + [Event.Ask(who, start)]
                           + [Event.Ask(who, check)] + [Act(who, done)])
         == Executed(world, who, id, g, call, name, args, Lease(id, g, call, name, args, check.now + 5000), result)
  {
    hide Next, Play, TextOk, Fresh, Answer, Workers.Move, Enabled;
    var lease := Lease(id, g, call, name, args, check.now + 5000);
    var one, two, three := ToolLeased(world, who, id, g, call, name, args, start, check);
    assert three.workers[who := HasResult(id, g, call, lease, result)]
        == world.workers[who := HasResult(id, g, call, lease, result)];
    var arrive := Arrive(who, WantsTool(id, g, call, name, args));
    Arrives(world, who, WantsTool(id, g, call, name, args));
    Executes(three, who, done, id, g, call, lease, result);
    PlayFour(world, one, two, three, arrive, Event.Ask(who, start), Event.Ask(who, check), Act(who, done));
  }

  lemma ToolLeased(world: World, who: nat, id: RequestId, g: int, call: CallId, name: string, args: Json,
                   start: Input, check: Input)
    returns (one: World, two: World, three: World)
    requires who !in world.workers && Callable(world.db, id, g, call, name)
    ensures one == world.(workers := world.workers[who := WantsTool(id, g, call, name, args)])
    ensures Enabled(one, Event.Ask(who, start)) && Workers.Move(one, Event.Ask(who, start)) == two
    ensures Enabled(two, Event.Ask(who, check)) && Workers.Move(two, Event.Ask(who, check)) == three
    ensures var lease := Lease(id, g, call, name, args, check.now + 5000);
            three == world.(db := world.db.(tools := world.db.tools[(id, call) := Started(name, args)],
                                            leases := world.db.leases + {lease}),
                            workers := world.workers[who := HasLease(id, g, call, lease)])
  {
    hide Next, TextOk, Fresh, Answer, Workers.Move, Enabled;
    var lease := Lease(id, g, call, name, args, check.now + 5000);
    var w := world.workers;
    one := world.(workers := w[who := WantsTool(id, g, call, name, args)]);
    two := world.(db := world.db.(tools := world.db.tools[(id, call) := Started(name, args)]),
                  workers := w[who := HasIntent(id, g, call)]);
    IntentTells(one, who, id, g, call, name, args, start);
    assert one.workers[who := HasIntent(id, g, call)] == two.workers;
    FreshIgnoresTools(world.db, id, two.db.tools);
    three := two.(db := two.db.(leases := two.db.leases + {lease}), workers := w[who := HasLease(id, g, call, lease)]);
    LeaseTells(two, who, id, g, call, name, args, check);
    assert two.workers[who := HasLease(id, g, call, lease)] == three.workers;
  }

  /** A lone caller of `Session.Tool` with a new call: the intent is journaled, a lease is issued, `execute`
      is invoked once, and if it took less than the lease's five seconds its result is recorded and told. */
  lemma ToolCompletes(world: World, who: nat, id: RequestId, g: int, call: CallId, name: string, args: Json,
                      start: Input, check: Input, done: Input, finish: Input, result: Json)
    requires who !in world.workers && Callable(world.db, id, g, call, name)
    requires done.result == Some(result) && TextOk(result) && finish.now < check.now + 5000
    ensures var after := Play(world, [] + [Arrive(who, WantsTool(id, g, call, name, args))] + [Event.Ask(who, start)]
                                        + [Event.Ask(who, check)] + [Act(who, done)] + [Event.Ask(who, finish)]);
            && after.workers == world.workers[who := Reports(Returned(id, call, result))]
            && after.done == world.done + [Execute(id, call)]
            && (id, call) in after.db.tools && after.db.tools[(id, call)].Completed?
            && after.db.tools[(id, call)].result == result
  {
    hide Next, Play, TextOk, Fresh, Answer, Workers.Move, Enabled;
    var lease := Lease(id, g, call, name, args, check.now + 5000);
    ToolExecutes(world, who, id, g, call, name, args, start, check, done, result);
    var four := Executed(world, who, id, g, call, name, args, lease, result);
    ResultTells(four, who, id, g, call, name, args, check.now + 5000, result, finish);
    assert four.workers[who := Reports(Returned(id, call, result))]
        == world.workers[who := Reports(Returned(id, call, result))];
    PlayOne(world, [] + [Arrive(who, WantsTool(id, g, call, name, args))] + [Event.Ask(who, start)]
                   + [Event.Ask(who, check)] + [Act(who, done)], Event.Ask(who, finish));
  }

  lemma Arrives(world: World, who: nat, w: Worker)
    requires who !in world.workers && (w.WantsTurn? || w.WantsTool?)
    ensures Enabled(world, Arrive(who, w))
    ensures Workers.Move(world, Arrive(who, w)) == world.(workers := world.workers[who := w])
  {}

  lemma Completes(world: World, who: nat, input: Input, id: RequestId, g: int, reply: Reply)
    requires who in world.workers && world.workers[who] == HasTurn(id, g) && input.reply == Some(reply)
    ensures Enabled(world, Act(who, input))
    ensures Workers.Move(world, Act(who, input))
         == world.(workers := world.workers[who := HasReply(id, g, reply)], done := world.done + [Complete(id)])
  {}

  lemma Executes(world: World, who: nat, input: Input, id: RequestId, g: int, call: CallId, lease: Lease, result: Json)
    requires who in world.workers && world.workers[who] == HasLease(id, g, call, lease) && input.result == Some(result)
    ensures Enabled(world, Act(who, input))
    ensures Workers.Move(world, Act(who, input))
         == world.(workers := world.workers[who := HasResult(id, g, call, lease, result)],
                   done := world.done + [Execute(id, call)])
  {}

  lemma FreshIgnoresTools(db: Db, id: RequestId, tools: map<(RequestId, CallId), ToolRow>)
    requires id in db.turns
    ensures Fresh(db.(tools := tools), id) <==> Fresh(db, id)
  {
    assert BasisRows(db.(tools := tools), id) == BasisRows(db, id);
  }

  lemma IntentTells(world: World, who: nat, id: RequestId, g: int, call: CallId, name: string, args: Json, input: Input)
    requires who in world.workers && world.workers[who] == WantsTool(id, g, call, name, args)
    requires Callable(world.db, id, g, call, name)
    ensures Enabled(world, Event.Ask(who, input))
    ensures Workers.Move(world, Event.Ask(who, input))
         == world.(db := world.db.(tools := world.db.tools[(id, call) := Started(name, args)]),
                   workers := world.workers[who := HasIntent(id, g, call)])
  {
    hide TextOk;
    assert world.told + {} == world.told;
  }

  lemma LeaseTells(world: World, who: nat, id: RequestId, g: int, call: CallId, name: string, args: Json, input: Input)
    requires who in world.workers && world.workers[who] == HasIntent(id, g, call)
    requires Acts(world.db, id, g) && Fresh(world.db, id) && TextOk(call) && |call| <= 128
    requires (id, call) in world.db.tools && world.db.tools[(id, call)] == Started(name, args)
    requires forall l :: l in world.db.leases && l.request == id ==> l.call != call
    ensures Enabled(world, Event.Ask(who, input))
    ensures var lease := Lease(id, g, call, name, args, input.now + 5000);
            Workers.Move(world, Event.Ask(who, input))
            == world.(db := world.db.(leases := world.db.leases + {lease}),
                      workers := world.workers[who := HasLease(id, g, call, lease)])
  {
    hide TextOk, Fresh;
    assert world.told + {} == world.told;
  }

  lemma ResultTells(world: World, who: nat, id: RequestId, g: int, call: CallId, name: string, args: Json,
                    expires: int, result: Json, input: Input)
    requires var lease := Lease(id, g, call, name, args, expires);
             && who in world.workers && world.workers[who] == HasResult(id, g, call, lease, result)
             && lease in world.db.leases && input.now < expires
    requires Acts(world.db, id, g) && TextOk(result)
    requires (id, call) in world.db.tools && world.db.tools[(id, call)] == Started(name, args)
    requires var task := world.db.turns[id].request.task;
             task in world.db.tasks && task in world.db.clock && GLOBAL in world.db.clock
    ensures Enabled(world, Event.Ask(who, input))
    ensures var after := Workers.Move(world, Event.Ask(who, input));
            && after.workers == world.workers[who := Reports(Returned(id, call, result))] && after.done == world.done
            && (id, call) in after.db.tools && after.db.tools[(id, call)].Completed?
            && after.db.tools[(id, call)].result == result
  {
    hide TextOk, Ops.AdvanceBasis;
  }

  // A model round, start to end.

  /** An agent that resumes a live turn takes its next generation, reads exactly the journaled calls, and
      sends a round that is not among them once its payload is journaled: if the turn's task is as it was
      and its scope untouched, and the payload is within the allowance. */
  lemma ResumedAgentSends(world: Dispatchers.World, who: nat, id: RequestId, expected: int, now: int, call: CallId,
                          row: ModelRow)
    requires who in world.agents && world.agents[who] == Dispatchers.Resuming(id, expected)
    requires Acts(world.db, id, expected) && Fresh(world.db, id) && world.db.turns[id].request.id == id
    requires world.db.turns[id].request.task in world.db.tasks
    requires world.db.tasks[world.db.turns[id].request.task].revision == world.db.turns[id].taskRevision
    requires TextOk(call) && TextOk(row.counting) && 0 <= row.units <= world.db.turns[id].package.allowance
    requires (id, call) !in world.db.models
    ensures var entered := Dispatchers.Move(world, Dispatchers.Enter(who, now));
            && Dispatchers.Enabled(entered, Dispatchers.Read(who))
            && var read := Dispatchers.Move(entered, Dispatchers.Read(who));
            && Dispatchers.Enabled(read, Dispatchers.Checkpoint(who, call, row))
            && (forall c :: c in read.agents[who].saved <==> (id, c) in world.db.models)
            && var asked := Dispatchers.Move(read, Dispatchers.Checkpoint(who, call, row));
            && Dispatchers.Enabled(asked, Dispatchers.Send(who))
            && (id, call) in asked.db.models && asked.db.models[(id, call)] == row
            && Dispatchers.Move(asked, Dispatchers.Send(who)).sent == world.sent + [(id, call)]
  {
    hide TextOk, Fresh, Dispatchers.Move, Next;
    ResumeEnters(world, who, id, expected, now);
    var entered := Dispatchers.Move(world, Dispatchers.Enter(who, now));
    FreshIgnoresTurn(world.db, id, entered.db.turns[id]);
    ReaderSends(entered, who, id, expected + 1, call, row);
  }

  lemma ResumeEnters(world: Dispatchers.World, who: nat, id: RequestId, expected: int, now: int)
    requires who in world.agents && world.agents[who] == Dispatchers.Resuming(id, expected)
    requires Acts(world.db, id, expected) && world.db.turns[id].request.id == id
    requires world.db.turns[id].request.task in world.db.tasks
    requires world.db.tasks[world.db.turns[id].request.task].revision == world.db.turns[id].taskRevision
    ensures var turn := world.db.turns[id].(generation := expected + 1, updatedAt := now);
            Dispatchers.Move(world, Dispatchers.Enter(who, now))
            == world.(db := world.db.(turns := world.db.turns[id := turn]),
                      agents := world.agents[who := Dispatchers.Reading(id, expected + 1)])
  {}

  lemma ReaderSends(world: Dispatchers.World, who: nat, id: RequestId, g: int, call: CallId, row: ModelRow)
    requires who in world.agents && world.agents[who] == Dispatchers.Reading(id, g)
    requires Acts(world.db, id, g) && Fresh(world.db, id) && (id, call) !in world.db.models
    requires TextOk(call) && TextOk(row.counting) && 0 <= row.units <= world.db.turns[id].package.allowance
    ensures Dispatchers.Enabled(world, Dispatchers.Read(who))
    ensures var read := Dispatchers.Move(world, Dispatchers.Read(who));
            && Dispatchers.Enabled(read, Dispatchers.Checkpoint(who, call, row))
            && (forall c :: c in read.agents[who].saved <==> (id, c) in world.db.models)
            && var asked := Dispatchers.Move(read, Dispatchers.Checkpoint(who, call, row));
            && Dispatchers.Enabled(asked, Dispatchers.Send(who))
            && (id, call) in asked.db.models && asked.db.models[(id, call)] == row
            && Dispatchers.Move(asked, Dispatchers.Send(who)).sent == world.sent + [(id, call)]
  {
    hide TextOk, Fresh;
    CallsAreJournaled(world.db.models, id);
  }

  lemma CallsAreJournaled(models: map<(RequestId, CallId), ModelRow>, id: RequestId)
    ensures forall c :: c in Dispatchers.JournaledCalls(models, id) <==> (id, c) in models
  {
    forall c ensures c in Dispatchers.JournaledCalls(models, id) <==> (id, c) in models {
      if (id, c) in models {
        var k := (id, c);
        assert k in models && k.0 == id && k.1 == c;
      }
    }
  }

  lemma FreshIgnoresTurn(db: Db, id: RequestId, turn: TurnRow)
    requires id in db.turns && turn.request == db.turns[id].request
    ensures Fresh(db.(turns := db.turns[id := turn]), id) <==> Fresh(db, id)
  {
    assert BasisRows(db.(turns := db.turns[id := turn]), id) == BasisRows(db, id);
  }
}
