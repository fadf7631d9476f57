/** The research agent: its loop over model rounds and tool calls, resumed from the journal after any
    crash, against an agent that never crashes. */
module Agent {
  import opened Common
  import State = JournalState

  type Json = State.Json

  datatype Call = Call(id: string, name: string, args: string, wellFormed: bool)

  /** A provider response as the loop reads it. */
  datatype Response = Malformed | Message(content: string, calls: seq<Call>)
  datatype Msg = Given(text: string) | FromModel(response: Response) | FromTool(call: string, result: Json)

  /** A tool call of a round; its journal id is the round's call id and the provider's. */
  type ToolKey = (nat, string)
  datatype ToolEntry = ToolEntry(name: string, args: string, result: Option<Json>)

  datatype Outcome =
    | Reply(text: string) | BadResponse | TurnLimit
    | InProgress | NotPending | IndeterminateModel | IndeterminateTool | Conflict | Blocked | OverBudget
    | Stopped

  /** `content.strip()` leaves something. */
  predicate NonBlank(text: string) {
    exists i :: 0 <= i < |text| && !PythonSpace(text[i])
  }

  // The agent that never crashes, asking `model` once a round and running every tool.

  type Model = nat -> Response
  type Tools = ToolKey -> Json

  /** The j-th call cannot be run: not a function call, no id, or an id already seen. */
  predicate BadCall(calls: seq<Call>, j: nat)
    requires j < |calls|
  {
    !calls[j].wellFormed || calls[j].id == "" || exists i :: 0 <= i < j && calls[i].id == calls[j].id
  }

  function ResultMsgs(calls: seq<Call>, n: nat, round: nat, tools: Tools): seq<Msg>
    requires n <= |calls|
  {
    seq(n, j requires 0 <= j < n => FromTool(calls[j].id, tools((round, calls[j].id))))
  }

  predicate AllRunnable(calls: seq<Call>) {
    forall j :: 0 <= j < |calls| ==> !BadCall(calls, j)
  }

  /** The messages after a round whose response asked for tools. */
  function AfterRound(messages: seq<Msg>, response: Response, round: nat, tools: Tools): seq<Msg> {
    messages + [FromModel(response)]
    + if response.Message? then ResultMsgs(response.calls, |response.calls|, round, tools) else []
  }

  /** What a round ends in, unless it goes on. */
  function Verdict(response: Response): Option<Outcome> {
    if response.Malformed? then Some(BadResponse)
    else if response.calls == [] then
      if NonBlank(response.content) then Some(Reply(response.content)) else Some(BadResponse)
    else if !AllRunnable(response.calls) then Some(BadResponse)
    else None
  }

  function Straight(messages: seq<Msg>, model: Model, tools: Tools, round: nat, last: nat): Outcome
    decreases last + 1 - round
  {
    if round > last then TurnLimit
    else
      var verdict := Verdict(model(round));
      if verdict.Some? then verdict.value
      else Straight(AfterRound(messages, model(round), round, tools), model, tools, round + 1, last)
  }

  /** The payloads it sends, in order. */
  function Sent(messages: seq<Msg>, model: Model, tools: Tools, round: nat, last: nat): seq<seq<Msg>>
    decreases last + 1 - round
  {
    if round > last then []
    else if Verdict(model(round)).Some? then [messages]
    else [messages] + Sent(AfterRound(messages, model(round), round, tools), model, tools, round + 1, last)
  }

  /** The payload of each round. */
  function Payload(first: seq<Msg>, model: Model, tools: Tools, round: nat): seq<Msg>
    requires round >= 1
  {
    if round == 1 then first
    else AfterRound(Payload(first, model, tools, round - 1), model(round - 1), round - 1, tools)
  }

  // The journal rows of one request.

  datatype Rows = Rows(requests: map<nat, seq<Msg>>, responses: map<nat, Response>, tools: map<ToolKey, ToolEntry>)

  function ModelOf(rows: Rows): Model {
    (k: nat) => if k in rows.responses then rows.responses[k] else Malformed
  }

  function ToolsOf(rows: Rows): Tools {
    (key: ToolKey) => if key in rows.tools && rows.tools[key].result.Some? then rows.tools[key].result.value else ""
  }

  /** The results of the first `n` calls of a round are on record. */
  predicate CallsDone(rows: Rows, round: nat, n: nat)
    requires round in rows.responses && rows.responses[round].Message? && n <= |rows.responses[round].calls|
  {
    forall j :: 0 <= j < n ==>
      var key := (round, rows.responses[round].calls[j].id);
      key in rows.tools && rows.tools[key].result.Some?
  }

  /** The round went on to the next, and everything it needed is on record. */
  predicate RoundDone(rows: Rows, round: nat) {
    && round in rows.responses && Verdict(rows.responses[round]).None?
    && CallsDone(rows, round, |rows.responses[round].calls|)
  }

  predicate RoundsDone(rows: Rows, round: nat) {
    forall k :: 1 <= k < round ==> RoundDone(rows, k)
  }

  /** A tool row was journaled for a call of a recorded response. */
  predicate FromResponse(rows: Rows, key: ToolKey) {
    && key in rows.tools && key.0 in rows.responses && rows.responses[key.0].Message?
    && exists j :: 0 <= j < |rows.responses[key.0].calls| && IsCall(rows, key, j)
  }

  predicate IsCall(rows: Rows, key: ToolKey, j: nat)
    requires key in rows.tools && key.0 in rows.responses && rows.responses[key.0].Message?
    requires j < |rows.responses[key.0].calls|
  {
    var call := rows.responses[key.0].calls[j];
    && call.id == key.1 && !BadCall(rows.responses[key.0].calls, j)
    && rows.tools[key].name == call.name && rows.tools[key].args == call.args
  }

  /** Every checkpoint is the payload the records themselves lead to. */
  ghost predicate Consistent(rows: Rows, first: seq<Msg>) {
    && (forall k :: k in rows.requests ==>
          k >= 1 && RoundsDone(rows, k) && rows.requests[k] == Payload(first, ModelOf(rows), ToolsOf(rows), k))
    && (forall k :: k in rows.responses ==> k in rows.requests)
    && (forall key :: key in rows.tools ==> FromResponse(rows, key))
  }

  /** Oracles that answer what the journal has on record. */
  ghost predicate Agrees(rows: Rows, model: Model, tools: Tools) {
    && (forall k :: k in rows.responses ==> model(k) == rows.responses[k])
    && (forall key :: key in rows.tools && rows.tools[key].result.Some? ==> tools(key) == rows.tools[key].result.value)
  }

  /** A payload depends on nothing but the records of the rounds before it. */
  lemma {:induction false} PayloadDetermined(rows: Rows, first: seq<Msg>, model: Model, tools: Tools, round: nat)
    requires round >= 1 && RoundsDone(rows, round) && Agrees(rows, model, tools)
    ensures Payload(first, model, tools, round) == Payload(first, ModelOf(rows), ToolsOf(rows), round)
    decreases round
  {
    if round == 1 {
    } else {
      var k := round - 1;
      assert RoundDone(rows, k);
      PayloadDetermined(rows, first, model, tools, k);
      var calls := rows.responses[k].calls;
      assert ResultMsgs(calls, |calls|, k, tools) == ResultMsgs(calls, |calls|, k, ToolsOf(rows));
    }
  }

  /** The payload after a recorded round: the one before it, the recorded response, and for each of its
      calls, in order, one tool message with the call's id and recorded result. */
  ghost predicate Continued(rows: Rows, round: nat, before: seq<Msg>, after: seq<Msg>) {
    && round in rows.responses && rows.responses[round].Message?
    && var calls := rows.responses[round].calls;
    && calls != [] && |after| == |before| + 1 + |calls|
    && before <= after && after[|before|] == FromModel(rows.responses[round])
    && forall j :: 0 <= j < |calls| ==>
         && (round, calls[j].id) in rows.tools && rows.tools[(round, calls[j].id)].result.Some?
         && after[|before| + 1 + j] == FromTool(calls[j].id, rows.tools[(round, calls[j].id)].result.value)
  }

  /** The checkpoints are one conversation: the first messages, then each payload continued by what its
      own round left on record. */
  ghost predicate Transcript(rows: Rows, first: seq<Msg>) {
    forall k :: k in rows.requests ==>
      if k == 1 then rows.requests[k] == first
      else k > 1 && k - 1 in rows.requests && Continued(rows, k - 1, rows.requests[k - 1], rows.requests[k])
  }

  lemma CheckpointsContinue(rows: Rows, first: seq<Msg>)
    requires Consistent(rows, first)
    ensures Transcript(rows, first)
  {
    hide Continued;
    forall k | k in rows.requests && k != 1
      ensures k > 1 && k - 1 in rows.requests && Continued(rows, k - 1, rows.requests[k - 1], rows.requests[k])
    {
      CheckpointContinues(rows, first, k);
    }
  }

  lemma CheckpointContinues(rows: Rows, first: seq<Msg>, k: nat)
    requires Consistent(rows, first) && k in rows.requests && k > 1
    ensures k - 1 in rows.requests && Continued(rows, k - 1, rows.requests[k - 1], rows.requests[k])
  {
    hide AfterRound, FromResponse;
    assert RoundDone(rows, k - 1);
    assert rows.requests[k] == AfterRound(rows.requests[k - 1], rows.responses[k - 1], k - 1, ToolsOf(rows));
    RoundContinues(rows.requests[k - 1], rows.responses[k - 1], k - 1, ToolsOf(rows));
    hide Consistent;
  }

  /** One round adds the response and one message for each of its calls, in order. */
  lemma RoundContinues(before: seq<Msg>, response: Response, round: nat, tools: Tools)
    requires response.Message?
    ensures var after, calls := AfterRound(before, response, round, tools), response.calls;
            && |after| == |before| + 1 + |calls| && before <= after && after[|before|] == FromModel(response)
            && forall j :: 0 <= j < |calls| ==>
                 after[|before| + 1 + j] == FromTool(calls[j].id, tools((round, calls[j].id)))
  {}

  /** More records, none of them changed. */
  ghost predicate Grows(a: Rows, b: Rows) {
    && (forall k :: k in a.requests ==> k in b.requests && b.requests[k] == a.requests[k])
    && (forall k :: k in a.responses ==> k in b.responses && b.responses[k] == a.responses[k])
    && (forall key :: key in a.tools ==>
          && key in b.tools && b.tools[key].name == a.tools[key].name && b.tools[key].args == a.tools[key].args
          && (a.tools[key].result.Some? ==> b.tools[key] == a.tools[key]))
  }

  lemma RoundsStayDone(a: Rows, b: Rows, round: nat)
    requires Grows(a, b) && RoundsDone(a, round)
    ensures RoundsDone(b, round)
  {
    forall k | 1 <= k < round ensures RoundDone(b, k) {
      assert RoundDone(a, k);
    }
  }

  lemma AgreesWithOlder(a: Rows, b: Rows)
    requires Grows(a, b)
    ensures Agrees(a, ModelOf(b), ToolsOf(b))
  {}

  /** Old checkpoints stay right as records are added. */
  lemma OldPayload(a: Rows, b: Rows, first: seq<Msg>, round: nat)
    requires Grows(a, b) && round >= 1 && RoundsDone(a, round)
    ensures RoundsDone(b, round)
    ensures Payload(first, ModelOf(b), ToolsOf(b), round) == Payload(first, ModelOf(a), ToolsOf(a), round)
  {
    RoundsStayDone(a, b, round);
    AgreesWithOlder(a, b);
    PayloadDetermined(a, first, ModelOf(b), ToolsOf(b), round);
  }

  lemma StaysConsistent(a: Rows, b: Rows, first: seq<Msg>)
    requires Consistent(a, first) && Grows(a, b)
    requires forall k :: k in b.requests && k !in a.requests ==>
               k >= 1 && RoundsDone(b, k) && b.requests[k] == Payload(first, ModelOf(b), ToolsOf(b), k)
    requires forall k :: k in b.responses ==> k in b.requests
    requires forall key :: key in b.tools && key !in a.tools ==> FromResponse(b, key)
    ensures Consistent(b, first)
  {
    forall k | k in b.requests
      ensures k >= 1 && RoundsDone(b, k) && b.requests[k] == Payload(first, ModelOf(b), ToolsOf(b), k)
    {
      if k in a.requests {
        OldPayload(a, b, first, k);
      }
    }
    forall key | key in a.tools ensures FromResponse(b, key) {
      assert FromResponse(a, key);
      var j :| 0 <= j < |a.responses[key.0].calls| && IsCall(a, key, j);
      assert IsCall(b, key, j);
    }
  }

  // What one new record adds.

  lemma RequestAdded(rows: Rows, first: seq<Msg>, k: nat)
    requires Consistent(rows, first) && k >= 1 && RoundsDone(rows, k) && k !in rows.requests
    ensures var b := rows.(requests := rows.requests[k := Payload(first, ModelOf(rows), ToolsOf(rows), k)]);
            Grows(rows, b) && Consistent(b, first)
  {
    var b := rows.(requests := rows.requests[k := Payload(first, ModelOf(rows), ToolsOf(rows), k)]);
    OldPayload(rows, b, first, k);
    StaysConsistent(rows, b, first);
  }

  lemma ResponseAdded(rows: Rows, first: seq<Msg>, k: nat, response: Response)
    requires Consistent(rows, first) && k in rows.requests && k !in rows.responses
    ensures var b := rows.(responses := rows.responses[k := response]);
            Grows(rows, b) && Consistent(b, first)
  {
    StaysConsistent(rows, rows.(responses := rows.responses[k := response]), first);
  }

  lemma IntentAdded(rows: Rows, first: seq<Msg>, round: nat, j: nat)
    requires Consistent(rows, first) && round in rows.responses && rows.responses[round].Message?
    requires j < |rows.responses[round].calls| && !BadCall(rows.responses[round].calls, j)
    requires (round, rows.responses[round].calls[j].id) !in rows.tools
    ensures var call := rows.responses[round].calls[j];
            var b := rows.(tools := rows.tools[(round, call.id) := ToolEntry(call.name, call.args, None)]);
            Grows(rows, b) && Consistent(b, first)
  {
    var call := rows.responses[round].calls[j];
    var b := rows.(tools := rows.tools[(round, call.id) := ToolEntry(call.name, call.args, None)]);
    assert IsCall(b, (round, call.id), j);
    StaysConsistent(rows, b, first);
  }

  lemma ResultAdded(rows: Rows, first: seq<Msg>, key: ToolKey, result: Json)
    requires Consistent(rows, first) && key in rows.tools && rows.tools[key].result.None?
    ensures var b := rows.(tools := rows.tools[key := rows.tools[key].(result := Some(result))]);
            Grows(rows, b) && Consistent(b, first)
  {
    StaysConsistent(rows, rows.(tools := rows.tools[key := rows.tools[key].(result := Some(result))]), first);
  }

  /** The row journaled for a call always carries that call's own name and arguments. */
  lemma SameInput(rows: Rows, first: seq<Msg>, round: nat, j: nat)
    requires Consistent(rows, first) && round in rows.responses && rows.responses[round].Message?
    requires j < |rows.responses[round].calls| && !BadCall(rows.responses[round].calls, j)
    requires (round, rows.responses[round].calls[j].id) in rows.tools
    ensures var call := rows.responses[round].calls[j];
            rows.tools[(round, call.id)].name == call.name && rows.tools[(round, call.id)].args == call.args
  {
    var calls := rows.responses[round].calls;
    var key := (round, calls[j].id);
    assert FromResponse(rows, key);
    var i :| 0 <= i < |calls| && IsCall(rows, key, i);
    assert i == j;
  }

  /** When a round's answer is final, no tool of the request is unresolved. */
  lemma NothingUnresolved(rows: Rows, first: seq<Msg>, round: nat, key: ToolKey)
    requires Consistent(rows, first) && round in rows.responses && key in rows.tools
    requires rows.responses[round].Message? && rows.responses[round].calls == [] && RoundsDone(rows, round)
    ensures rows.tools[key].result.Some?
  {
    assert FromResponse(rows, key);
    var calls := rows.responses[key.0].calls;
    var j :| 0 <= j < |calls| && IsCall(rows, key, j);
    assert key == (key.0, calls[j].id);
    if key.0 < round {
      assert key.0 in rows.requests;
      assert RoundDone(rows, key.0);
    } else if key.0 > round {
      assert key.0 in rows.requests;
      assert RoundDone(rows, round);
    }
  }

  lemma GrowsThen(a: Rows, b: Rows, c: Rows)
    requires Grows(a, b) && Grows(b, c)
    ensures Grows(a, c)
  {}

  lemma GrowsSelf(a: Rows)
    ensures Grows(a, a)
  {}

  /** The loop stands at the top of a round, with the conversation the records lead to. */
  ghost predicate AtRound(rows: Rows, first: seq<Msg>, round: nat, messages: seq<Msg>) {
    round >= 1 && RoundsDone(rows, round) && messages == Payload(first, ModelOf(rows), ToolsOf(rows), round)
  }

  lemma StillAtRound(a: Rows, b: Rows, first: seq<Msg>, round: nat, messages: seq<Msg>)
    requires Grows(a, b) && AtRound(a, first, round, messages)
    ensures AtRound(b, first, round, messages)
  {
    OldPayload(a, b, first, round);
  }

  lemma NextRound(rows: Rows, first: seq<Msg>, round: nat, messages: seq<Msg>)
    requires AtRound(rows, first, round, messages) && RoundDone(rows, round)
    ensures AtRound(rows, first, round + 1, AfterRound(messages, rows.responses[round], round, ToolsOf(rows)))
  {}

  /** Requests and responses beyond those of `saved` are only of rounds before `round`. */
  ghost predicate NewBefore(saved: Rows, rows: Rows, round: nat) {
    && (forall k :: k in rows.requests ==> k in saved.requests || k < round)
    && (forall k :: k in rows.responses ==> k in saved.responses || k < round)
    && (forall k :: k in saved.responses ==> k in saved.requests)
  }

  /** The rows are consistent, and the logs agree with them: what was done was journaled before, no tool
      ran twice, and every result and response on record comes from doing it. */
  ghost predicate Recorded(rows: Rows, first: seq<Msg>, executed: seq<ToolKey>, dispatched: seq<nat>) {
    && Consistent(rows, first)
    && Distinct(executed) && (forall key :: key in executed ==> key in rows.tools)
    && (forall key :: key in rows.tools && rows.tools[key].result.Some? ==> key in executed)
    && (forall k :: k in dispatched ==> k in rows.requests)
    && (forall k :: k in rows.responses ==> k in dispatched)
  }

  lemma RecordedMeans(rows: Rows, first: seq<Msg>, executed: seq<ToolKey>, dispatched: seq<nat>)
    requires Recorded(rows, first, executed, dispatched)
    ensures Consistent(rows, first)
    ensures forall key :: key !in rows.tools ==> key !in executed
    ensures forall k :: k !in rows.requests ==> k !in dispatched
  {}

  lemma IntentRecorded(rows: Rows, first: seq<Msg>, executed: seq<ToolKey>, dispatched: seq<nat>, round: nat, j: nat)
    requires Recorded(rows, first, executed, dispatched)
    requires round in rows.responses && rows.responses[round].Message?
    requires j < |rows.responses[round].calls| && !BadCall(rows.responses[round].calls, j)
    requires (round, rows.responses[round].calls[j].id) !in rows.tools
    ensures var call := rows.responses[round].calls[j];
            var b := rows.(tools := rows.tools[(round, call.id) := ToolEntry(call.name, call.args, None)]);
            Grows(rows, b) && Recorded(b, first, executed, dispatched)
  {
    IntentAdded(rows, first, round, j);
    hide Consistent, Distinct;
  }

  lemma ExecutionRecorded(rows: Rows, first: seq<Msg>, executed: seq<ToolKey>, dispatched: seq<nat>, key: ToolKey)
    requires Recorded(rows, first, executed, dispatched) && key in rows.tools && key !in executed
    ensures Recorded(rows, first, executed + [key], dispatched)
  {
    hide Consistent;
    OnceMore(executed, key);
  }

  lemma ResultRecorded(rows: Rows, first: seq<Msg>, executed: seq<ToolKey>, dispatched: seq<nat>, key: ToolKey,
                       result: Json)
    requires Recorded(rows, first, executed, dispatched)
    requires key in rows.tools && rows.tools[key].result.None? && key in executed
    ensures var b := rows.(tools := rows.tools[key := rows.tools[key].(result := Some(result))]);
            Grows(rows, b) && Recorded(b, first, executed, dispatched)
  {
    ResultAdded(rows, first, key, result);
    hide Consistent, Distinct;
  }

  lemma RequestRecorded(rows: Rows, first: seq<Msg>, executed: seq<ToolKey>, dispatched: seq<nat>, round: nat,
                        messages: seq<Msg>)
    requires Recorded(rows, first, executed, dispatched) && AtRound(rows, first, round, messages)
    requires round !in rows.requests
    ensures var b := rows.(requests := rows.requests[round := messages]);
            Grows(rows, b) && Recorded(b, first, executed, dispatched) && AtRound(b, first, round, messages)
  {
    RequestAdded(rows, first, round);
    StillAtRound(rows, rows.(requests := rows.requests[round := messages]), first, round, messages);
    hide Consistent, Distinct, AtRound;
  }

  lemma DispatchRecorded(rows: Rows, first: seq<Msg>, executed: seq<ToolKey>, dispatched: seq<nat>, round: nat)
    requires Recorded(rows, first, executed, dispatched) && round in rows.requests
    ensures Recorded(rows, first, executed, dispatched + [round])
  {
    hide Consistent, Distinct;
  }

  lemma ResponseRecorded(rows: Rows, first: seq<Msg>, executed: seq<ToolKey>, dispatched: seq<nat>, round: nat,
                         messages: seq<Msg>, response: Response)
    requires Recorded(rows, first, executed, dispatched) && AtRound(rows, first, round, messages)
    requires round in rows.requests && round in dispatched && round !in rows.responses
    ensures var b := rows.(responses := rows.responses[round := response]);
            Grows(rows, b) && Recorded(b, first, executed, dispatched) && AtRound(b, first, round, messages)
  {
    ResponseAdded(rows, first, round, response);
    StillAtRound(rows, rows.(responses := rows.responses[round := response]), first, round, messages);
    hide Consistent, Distinct, AtRound;
  }

  /** A checkpoint is the payload of its round. */
  lemma CheckpointIs(rows: Rows, first: seq<Msg>, round: nat, messages: seq<Msg>)
    requires Consistent(rows, first) && AtRound(rows, first, round, messages) && round in rows.requests
    ensures rows.requests[round] == messages && rows.(requests := rows.requests[round := messages]) == rows
  {
    assert rows.requests[round := messages] == rows.requests;
  }

  /** A log keeps what it had, and what is new in it was not known before. */
  ghost predicate Logs<T>(before: seq<T>, after: seq<T>, known: set<T>) {
    before <= after && forall i :: |before| <= i < |after| ==> after[i] !in known
  }

  lemma LogsNothing<T>(log: seq<T>, known: set<T>)
    ensures Logs(log, log, known)
  {}

  lemma LogsOne<T>(log: seq<T>, x: T, known: set<T>)
    requires x !in known
    ensures Logs(log, log + [x], known)
  {}

  lemma LogsThen<T>(a: seq<T>, b: seq<T>, c: seq<T>, known: set<T>, more: set<T>)
    requires Logs(a, b, known) && Logs(b, c, more) && known <= more
    ensures Logs(a, c, known)
  {}

  /** The rounds a run never dispatches, from the rows it read at its start: those with a response, and
      unless a retry was authorized those with a journaled request. */
  ghost function Settled(saved: Rows, retry: bool): set<nat> {
    if retry then saved.responses.Keys else saved.requests.Keys + saved.responses.Keys
  }

  /** Both logs of a run against the rows it read at its start. */
  ghost predicate NothingAgain(saved: Rows, retry: bool, ranBefore: seq<ToolKey>, ran: seq<ToolKey>,
                               sentBefore: seq<nat>, sent: seq<nat>)
  {
    && Logs(ranBefore, ran, saved.tools.Keys)
    && Logs(sentBefore, sent, Settled(saved, retry))
    && (!retry && Distinct(sentBefore) ==> Distinct(sent))
  }

  lemma NothingYet(saved: Rows, retry: bool, ran: seq<ToolKey>, sent: seq<nat>)
    ensures NothingAgain(saved, retry, ran, ran, sent, sent)
  {}

  lemma StillNothing(saved: Rows, retry: bool, a: seq<ToolKey>, b: seq<ToolKey>, c: seq<ToolKey>, x: seq<nat>,
                     y: seq<nat>, z: seq<nat>)
    requires NothingAgain(saved, retry, a, b, x, y) && NothingAgain(saved, retry, b, c, y, z)
    ensures NothingAgain(saved, retry, a, c, x, z)
  {
    hide Logs, Distinct;
    LogsThen(a, b, c, saved.tools.Keys, saved.tools.Keys);
    LogsThen(x, y, z, Settled(saved, retry), Settled(saved, retry));
  }

  /** What a run has done since it read its rows. */
  ghost predicate SoFar(saved: Rows, rows: Rows, retry: bool, ranBefore: seq<ToolKey>, ran: seq<ToolKey>,
                        sentBefore: seq<nat>, sent: seq<nat>, workspace: (ToolKey, string, string) -> Json,
                        transport: (nat, seq<Msg>) -> Option<Response>)
  {
    && Grows(saved, rows) && NothingAgain(saved, retry, ranBefore, ran, sentBefore, sent)
    && Worked(saved, rows, workspace) && Answered(saved, rows, transport)
  }

  lemma SoFarMeans(saved: Rows, rows: Rows, retry: bool, ranBefore: seq<ToolKey>, ran: seq<ToolKey>,
                   sentBefore: seq<nat>, sent: seq<nat>, workspace: (ToolKey, string, string) -> Json,
                   transport: (nat, seq<Msg>) -> Option<Response>)
    requires SoFar(saved, rows, retry, ranBefore, ran, sentBefore, sent, workspace, transport)
    ensures Grows(saved, rows) && NothingAgain(saved, retry, ranBefore, ran, sentBefore, sent)
    ensures Worked(saved, rows, workspace) && Answered(saved, rows, transport)
  {
    hide Grows, NothingAgain, Worked, Answered;
  }

  lemma SoFarThen(saved: Rows, before: Rows, rows: Rows, retry: bool, a: seq<ToolKey>, b: seq<ToolKey>,
                  c: seq<ToolKey>, x: seq<nat>, y: seq<nat>, z: seq<nat>,
                  workspace: (ToolKey, string, string) -> Json, transport: (nat, seq<Msg>) -> Option<Response>)
    requires SoFar(saved, before, retry, a, b, x, y, workspace, transport)
    requires Grows(before, rows) && NothingAgain(saved, retry, b, c, y, z)
    requires Worked(before, rows, workspace) && Answered(before, rows, transport)
    ensures SoFar(saved, rows, retry, a, c, x, z, workspace, transport)
  {
    hide Grows, NothingAgain, Worked, Answered;
    GrowsThen(saved, before, rows);
    StillNothing(saved, retry, a, b, c, x, y, z);
    WorkedThen(saved, before, rows, workspace);
    AnsweredThen(saved, before, rows, transport);
  }

  lemma GrowsKeys(a: Rows, b: Rows)
    requires Grows(a, b)
    ensures a.tools.Keys <= b.tools.Keys
  {}

  /** Each result a run put on record is what the workspace gave for exactly that call. */
  ghost predicate Worked(a: Rows, b: Rows, workspace: (ToolKey, string, string) -> Json) {
    forall key :: key in b.tools && b.tools[key].result.Some? && (key !in a.tools || a.tools[key].result.None?) ==>
      b.tools[key].result.value == workspace(key, b.tools[key].name, b.tools[key].args)
  }

  /** Each response a run put on record is what the transport gave for exactly that round's checkpoint. */
  ghost predicate Answered(a: Rows, b: Rows, transport: (nat, seq<Msg>) -> Option<Response>) {
    forall k :: k in b.responses && k !in a.responses ==>
      k in b.requests && transport(k, b.requests[k]) == Some(b.responses[k])
  }

  lemma WorkedNothing(a: Rows, workspace: (ToolKey, string, string) -> Json)
    ensures Worked(a, a, workspace)
  {}

  lemma AnsweredNothing(a: Rows, transport: (nat, seq<Msg>) -> Option<Response>)
    ensures Answered(a, a, transport)
  {}

  lemma WorkedThen(a: Rows, b: Rows, c: Rows, workspace: (ToolKey, string, string) -> Json)
    requires Worked(a, b, workspace) && Worked(b, c, workspace) && Grows(b, c)
    ensures Worked(a, c, workspace)
  {}

  lemma AnsweredThen(a: Rows, b: Rows, c: Rows, transport: (nat, seq<Msg>) -> Option<Response>)
    requires Answered(a, b, transport) && Answered(b, c, transport) && Grows(b, c)
    ensures Answered(a, c, transport)
  {}

  /** The ids of the calls can key a journal: each call is a function call, and no id is missing or
      comes twice. */
  ghost predicate GoodCalls(calls: seq<Call>) {
    && (forall j :: 0 <= j < |calls| ==> calls[j].wellFormed && calls[j].id != "")
    && forall i, j :: 0 <= i < j < |calls| ==> calls[i].id != calls[j].id
  }

  ghost predicate NewId(calls: seq<Call>, j: nat)
    requires j < |calls|
  {
    forall i :: 0 <= i < j ==> calls[i].id != calls[j].id
  }

  lemma GoodIsRunnable(calls: seq<Call>)
    ensures GoodCalls(calls) <==> AllRunnable(calls)
  {
    forall j | 0 <= j < |calls|
      ensures BadCall(calls, j) <==> !calls[j].wellFormed || calls[j].id == "" || !NewId(calls, j)
    {}
    if GoodCalls(calls) {
      forall j | 0 <= j < |calls| ensures NewId(calls, j) {}
    } else if AllRunnable(calls) {
      forall i, j | 0 <= i < j < |calls| ensures calls[i].id != calls[j].id {
        assert !BadCall(calls, j);
        assert NewId(calls, j);
      }
      assert forall j :: 0 <= j < |calls| ==> !BadCall(calls, j);
    }
  }

  /** What a round does with a response: the loop goes on after runnable calls, ends with the content of
      a final answer that is not blank, and fails on anything else; unless a tool stops it. */
  ghost predicate Fitting(response: Response, outcome: Option<Outcome>) {
    match outcome
    case None => response.Message? && response.calls != [] && GoodCalls(response.calls)
    case Some(Reply(text)) =>
      && response.Message? && response.calls == [] && response.content == text
      && exists i :: 0 <= i < |text| && !PythonSpace(text[i])
    case Some(BadResponse) =>
      || response.Malformed?
      || (response.calls == [] && forall i :: 0 <= i < |response.content| ==> PythonSpace(response.content[i]))
      || (response.calls != [] && !GoodCalls(response.calls))
    case Some(Stopped) => response.Message?
    case Some(IndeterminateTool) => response.Message? && response.calls != []
    case _ => false
  }

  lemma VerdictFits(response: Response)
    ensures Fitting(response, Verdict(response))
    ensures Fitting(response, Some(BadResponse)) <==> Verdict(response) == Some(BadResponse)
  {
    if response.Message? { GoodIsRunnable(response.calls); }
  }

  /** A call of the response is on record without a result. */
  ghost predicate Unresolved(rows: Rows, round: nat, response: Response) {
    response.Message? && exists j :: 0 <= j < |response.calls| && HasNoResult(rows, (round, response.calls[j].id))
  }

  predicate HasNoResult(rows: Rows, key: ToolKey) {
    key in rows.tools && rows.tools[key].result.None?
  }

  /** Every intent that was added has its result. */
  ghost predicate NoneLeftOpen(a: Rows, b: Rows) {
    forall key :: key in b.tools && key !in a.tools ==> b.tools[key].result.Some?
  }

  lemma LeftOpenThen(a: Rows, b: Rows, c: Rows, key: ToolKey)
    requires NoneLeftOpen(a, b) && Grows(a, b)
    ensures HasNoResult(b, key) ==> HasNoResult(a, key)
    ensures NoneLeftOpen(b, c) && Grows(b, c) ==> NoneLeftOpen(a, c)
  {}

  lemma NothingLeftOpen(a: Rows)
    ensures NoneLeftOpen(a, a)
  {}

  /** No new response; nor any new result, where the tools are the same. */
  lemma AnsweredMeanwhile(a: Rows, b: Rows, transport: (nat, seq<Msg>) -> Option<Response>)
    requires b.responses == a.responses
    ensures Answered(a, b, transport)
  {}

  lemma WorkedMeanwhile(a: Rows, b: Rows, workspace: (ToolKey, string, string) -> Json)
    requires b.tools == a.tools
    ensures Worked(a, b, workspace)
  {}

  lemma AnsweredOne(a: Rows, b: Rows, round: nat, transport: (nat, seq<Msg>) -> Option<Response>)
    requires round in a.requests && b.requests == a.requests
    requires || b.responses == a.responses
             || (&& round in b.responses && b.responses == a.responses[round := b.responses[round]]
                 && transport(round, a.requests[round]) == Some(b.responses[round]))
    ensures Answered(a, b, transport)
  {}

  /** The round's payload and the response to it are on record. */
  ghost predicate HasAnswer(rows: Rows, round: nat, messages: seq<Msg>, response: Response) {
    && round in rows.requests && rows.requests[round] == messages
    && round in rows.responses && rows.responses[round] == response
  }

  /** Why a round got no response. */
  ghost predicate NoAnswer(saved: Rows, round: nat, messages: seq<Msg>, retry: bool,
                           transport: (nat, seq<Msg>) -> Option<Response>, fits: seq<Msg> -> bool,
                           problem: Outcome, left: nat)
  {
    match problem
    case IndeterminateModel => !retry && round in saved.requests && round !in saved.responses
    case OverBudget => !fits(messages)
    case Stopped => left == 0 || transport(round, messages).None?
    case _ => false
  }

  /** How a round ends: without a response, or with what its response says. */
  ghost predicate RoundEnds(saved: Rows, rows: Rows, round: nat, messages: seq<Msg>, retry: bool,
                            transport: (nat, seq<Msg>) -> Option<Response>, fits: seq<Msg> -> bool,
                            outcome: Option<Outcome>, left: nat)
  {
    || (outcome.Some? && NoAnswer(saved, round, messages, retry, transport, fits, outcome.value, left))
    || exists response :: HasAnswer(rows, round, messages, response) && Fitting(response, outcome)
  }

  lemma RoundUnanswered(saved: Rows, rows: Rows, round: nat, messages: seq<Msg>, retry: bool,
                        transport: (nat, seq<Msg>) -> Option<Response>, fits: seq<Msg> -> bool,
                        problem: Outcome, left: nat)
    requires NoAnswer(saved, round, messages, retry, transport, fits, problem, left)
    ensures RoundEnds(saved, rows, round, messages, retry, transport, fits, Some(problem), left)
    ensures problem in {IndeterminateModel, OverBudget, Stopped}
  {}

  lemma RoundEnded(saved: Rows, rows: Rows, round: nat, messages: seq<Msg>, response: Response, retry: bool,
                   transport: (nat, seq<Msg>) -> Option<Response>, fits: seq<Msg> -> bool,
                   outcome: Option<Outcome>, left: nat)
    requires HasAnswer(rows, round, messages, response) && Fitting(response, outcome)
    ensures RoundEnds(saved, rows, round, messages, retry, transport, fits, outcome, left)
  {}

  lemma NewSame(saved: Rows, a: Rows, b: Rows, round: nat)
    requires NewBefore(saved, a, round) && b.requests == a.requests && b.responses == a.responses
    ensures NewBefore(saved, b, round)
  {}

  /** A run in progress: what it has read, what has been added since, and where it stands. */
  ghost predicate OnTrack(saved: Rows, rows: Rows, first: seq<Msg>, round: nat, messages: seq<Msg>) {
    Grows(saved, rows) && NewBefore(saved, rows, round) && AtRound(rows, first, round, messages)
  }

  /** What the rows read at the start of the run still say about this round. */
  lemma SavedDecides(saved: Rows, rows: Rows, round: nat)
    requires NewBefore(saved, rows, round) && Grows(saved, rows)
    ensures round in rows.requests <==> round in saved.requests
    ensures round in rows.responses <==> round in saved.responses
    ensures round in saved.responses ==> round in saved.requests && rows.responses[round] == saved.responses[round]
    ensures round in saved.requests ==> rows.requests[round] == saved.requests[round]
  {}

  lemma NewUpTo(saved: Rows, a: Rows, b: Rows, round: nat)
    requires NewBefore(saved, a, round)
    requires forall k :: k in b.requests ==> k in a.requests || k == round
    requires forall k :: k in b.responses ==> k in a.responses || k == round
    ensures NewBefore(saved, b, round + 1)
  {}

  lemma OnceMore<T>(log: seq<T>, x: T)
    requires Distinct(log) && x !in log
    ensures Distinct(log + [x])
  {}

  /** The journal rows of one request, and the log of what was done outside it. */
  class Journal {
    /** The round limit; part of the request's identity, so every resume has the same. */
    const last: nat
    var begun: bool
    var status: State.Status
    var generation: nat
    var first: seq<Msg>
    var rows: Rows
    var reply: Option<string>
    var dispatched: seq<nat>
    var executed: seq<ToolKey>

    constructor (limit: nat)
      ensures Valid() && !begun && dispatched == [] && last == limit
    {
      last := limit;
      begun, status, generation, first, rows := false, State.Pending, 0, [], Rows(map[], map[], map[]);
      reply, dispatched, executed := None, [], [];
    }

    ghost predicate Valid()
      reads this
    {
      && Recorded(rows, first, executed, dispatched)
      && (status == State.Committed ==> reply.Some? && Settles(rows, reply.value, last))
      && (!begun ==> rows == Rows(map[], map[], map[]) && status == State.Pending)
    }

    /** One tool call of a round, as the session runs it; what the workspace gives may differ from call to
        call, equal names and arguments included. An intent is journaled before the effect, a completed
        call is not run again, and an unresolved one stops the run. */
    method RunTool(round: nat, j: nat, workspace: (ToolKey, string, string) -> Json, fuel: nat)
      returns (result: Json, problem: Option<Outcome>, left: nat)
      requires Valid() && status == State.Pending && begun
      requires round in rows.responses && rows.responses[round].Message?
      requires j < |rows.responses[round].calls| && !BadCall(rows.responses[round].calls, j)
      modifies this`rows, this`executed
      ensures Valid() && Grows(old(rows), rows) && Logs(old(executed), executed, old(rows).tools.Keys)
      ensures rows.requests == old(rows).requests && rows.responses == old(rows).responses
      ensures problem.None? ==>
                var call := rows.responses[round].calls[j];
                var key := (round, call.id);
                && key in rows.tools && rows.tools[key].result == Some(result)
                && (key !in old(rows).tools ==> result == workspace(key, call.name, call.args))
      ensures (round, rows.responses[round].calls[j].id) in old(rows).tools ==>
                rows == old(rows) && executed == old(executed)
      ensures problem.None? || problem.value in {IndeterminateTool, Stopped}
      ensures Worked(old(rows), rows, workspace) && (problem.None? ==> NoneLeftOpen(old(rows), rows))
      ensures problem == Some(Stopped) ==> left == 0
      ensures problem == Some(IndeterminateTool) <==> HasNoResult(old(rows), (round, rows.responses[round].calls[j].id))
    {
      hide Recorded, Consistent, Grows, Logs, BadCall;
      var call := rows.responses[round].calls[j];
      var key := (round, call.id);
      result, left := "", fuel;
      GrowsSelf(rows);
      LogsNothing(executed, rows.tools.Keys);
      RecordedMeans(rows, first, executed, dispatched);
      if key in rows.tools {
        SameInput(rows, first, round, j);
        if rows.tools[key].name != call.name || rows.tools[key].args != call.args {
          return result, Some(Conflict), left;
        }
        if rows.tools[key].result.None? {
          return result, Some(IndeterminateTool), left;
        }
        return rows.tools[key].result.value, None, left;
      }
      if left == 0 { return result, Some(Stopped), left; }
      left := left - 1;
      IntentRecorded(rows, first, executed, dispatched, round, j);
      rows := rows.(tools := rows.tools[key := ToolEntry(call.name, call.args, None)]);
      if left == 0 { return result, Some(Stopped), left; }
      left := left - 1;
      ghost var intended := rows;
      LogsOne(executed, key, old(rows).tools.Keys);
      assert Worked(old(rows), intended, workspace);
      hide Worked;
      result, problem, left := Execute(key, workspace, left);
      GrowsThen(old(rows), intended, rows);
      WorkedThen(old(rows), intended, rows, workspace);
    }

    /** The effect of a journaled intent that was never executed, and the record of its result. */
    method Execute(key: ToolKey, workspace: (ToolKey, string, string) -> Json, fuel: nat)
      returns (result: Json, problem: Option<Outcome>, left: nat)
      requires Valid() && status == State.Pending && begun
      requires key in rows.tools && rows.tools[key].result.None? && key !in executed
      modifies this`rows, this`executed
      ensures Valid() && Grows(old(rows), rows) && executed == old(executed) + [key]
      ensures rows.requests == old(rows).requests && rows.responses == old(rows).responses
      ensures problem.None? ==> key in rows.tools && rows.tools[key].result == Some(result)
      ensures problem.None? ==> result == workspace(key, old(rows).tools[key].name, old(rows).tools[key].args)
      ensures problem.None? || (problem == Some(Stopped) && left == 0)
      ensures Worked(old(rows), rows, workspace) && rows.tools.Keys == old(rows).tools.Keys
    {
      hide Recorded, Grows;
      left := fuel;
      GrowsSelf(rows);
      result := workspace(key, rows.tools[key].name, rows.tools[key].args);
      ExecutionRecorded(rows, first, executed, dispatched, key);
      executed := executed + [key];
      if left == 0 { return result, Some(Stopped), left; }
      left := left - 1;
      ResultRecorded(rows, first, executed, dispatched, key, result);
      rows := rows.(tools := rows.tools[key := rows.tools[key].(result := Some(result))]);
      problem := None;
    }

    /** The calls of one response, in order. */
    method RunCalls(round: nat, messages: seq<Msg>, workspace: (ToolKey, string, string) -> Json, fuel: nat)
      returns (after: seq<Msg>, problem: Option<Outcome>, left: nat)
      requires Valid() && status == State.Pending && begun
      requires round in rows.responses && rows.responses[round].Message? && rows.responses[round].calls != []
      modifies this`rows, this`executed
      ensures Valid() && Grows(old(rows), rows) && Logs(old(executed), executed, old(rows).tools.Keys)
      ensures rows.requests == old(rows).requests && rows.responses == old(rows).responses
      ensures problem.None? ==>
                && RoundDone(rows, round)
                && var calls := rows.responses[round].calls;
                   after == messages + ResultMsgs(calls, |calls|, round, ToolsOf(rows))
      ensures problem.None? || problem.value in {IndeterminateTool, Stopped, BadResponse}
      ensures problem == Some(BadResponse) ==> Verdict(rows.responses[round]) == problem
      ensures Worked(old(rows), rows, workspace)
      ensures problem == Some(IndeterminateTool) ==> Unresolved(old(rows), round, rows.responses[round])
      ensures problem == Some(Stopped) ==> left == 0
    {
      hide Recorded, Grows, Logs, Settles, BadCall, FirstIds, ResultMsgs, Worked, NoneLeftOpen, HasNoResult;
      WorkedNothing(rows, workspace);
      NothingLeftOpen(rows);
      var calls := rows.responses[round].calls;
      var seen: set<string> := {};
      after, left := messages, fuel;
      GrowsSelf(rows);
      LogsNothing(executed, rows.tools.Keys);
      NoIds(calls);
      assert after == messages + ResultMsgs(calls, 0, round, ToolsOf(rows)) by {
        NoResults(calls, round, ToolsOf(rows));
      }
      for j := 0 to |calls|
        invariant Logs(old(executed), executed, old(rows).tools.Keys)
        invariant Valid() && Grows(old(rows), rows) && status == State.Pending && begun
        invariant rows.requests == old(rows).requests && rows.responses == old(rows).responses
        invariant seen == FirstIds(calls, j)
        invariant forall i :: 0 <= i < j ==> !BadCall(calls, i)
        invariant CallsDone(rows, round, j)
        invariant Worked(old(rows), rows, workspace) && NoneLeftOpen(old(rows), rows)
        invariant after == messages + ResultMsgs(calls, j, round, ToolsOf(rows))
      {
        var call := calls[j];
        NextId(calls, j);
        if !call.wellFormed || call.id == "" || call.id in seen {
          assert BadCall(calls, j);
          return after, Some(BadResponse), left;
        }
        seen := seen + {call.id};
        ghost var before, log := rows, executed;
        var result;
        result, problem, left := RunTool(round, j, workspace, left);
        GrowsKeys(old(rows), before);
        LogsThen(old(executed), log, executed, old(rows).tools.Keys, before.tools.Keys);
        GrowsThen(old(rows), before, rows);
        WorkedThen(old(rows), before, rows, workspace);
        LeftOpenThen(old(rows), before, rows, (round, call.id));
        if problem.Some? {
          return;
        }
        SameResults(before, rows, round, j);
        after := after + [FromTool(call.id, result)];
        MoreResults(calls, j, round, ToolsOf(rows));
      }
      problem := None;
    }

    /** `checkpoint_model_request`: the exact payload is journaled before it is sent; a round already
        journaled must have the same one. */
    method Checkpoint(round: nat, messages: seq<Msg>, fits: seq<Msg> -> bool) returns (problem: Option<Outcome>)
      requires Valid() && status == State.Pending && begun && AtRound(rows, first, round, messages)
      modifies this`rows
      ensures Valid() && Grows(old(rows), rows) && AtRound(rows, first, round, messages)
      ensures problem == if fits(messages) then None else Some(OverBudget)
      ensures problem.None? ==> round in rows.requests && rows.requests[round] == messages
      ensures rows == if problem.None? then old(rows).(requests := old(rows).requests[round := messages]) else old(rows)
    {
      hide Recorded, Consistent, Grows, AtRound;
      GrowsSelf(rows);
      RecordedMeans(rows, first, executed, dispatched);
      if !fits(messages) {
        return Some(OverBudget);
      }
      if round in rows.requests {
        CheckpointIs(rows, first, round, messages);
        if rows.requests[round] != messages {
          return Some(Conflict);
        }
      } else {
        RequestRecorded(rows, first, executed, dispatched, round, messages);
        rows := rows.(requests := rows.requests[round := messages]);
      }
      problem := None;
    }

    /** Sending the payload, and recording the response before it is used. */
    method Dispatch(round: nat, messages: seq<Msg>, transport: (nat, seq<Msg>) -> Option<Response>, fuel: nat)
      returns (response: Response, problem: Option<Outcome>, left: nat)
      requires Valid() && status == State.Pending && begun && AtRound(rows, first, round, messages)
      requires round in rows.requests && round !in rows.responses
      modifies this`rows, this`dispatched
      ensures Valid() && Grows(old(rows), rows) && AtRound(rows, first, round, messages)
      ensures problem.None? || problem == Some(Stopped)
      ensures problem.None? ==> round in rows.responses && rows.responses[round] == response
      ensures problem.None? ==> transport(round, messages) == Some(response) && dispatched == old(dispatched) + [round]
      ensures rows == if problem.Some? then old(rows)
                      else old(rows).(responses := old(rows).responses[round := response])
      ensures dispatched == old(dispatched) || dispatched == old(dispatched) + [round]
      ensures problem == Some(Stopped) ==> left == 0 || transport(round, messages).None?
    {
      hide Recorded, Grows, AtRound;
      GrowsSelf(rows);
      response, left := Malformed, fuel;
      if left == 0 { return response, Some(Stopped), left; }
      left := left - 1;
      DispatchRecorded(rows, first, executed, dispatched, round);
      dispatched := dispatched + [round];
      var answer := transport(round, messages);
      if answer.None? || left == 0 { return response, Some(Stopped), left; }
      left := left - 1;
      response := answer.value;
      ResponseRecorded(rows, first, executed, dispatched, round, messages, response);
      rows := rows.(responses := rows.responses[round := response]);
      problem := None;
    }

    /** Getting the round's response: checkpoint, and dispatch unless a response is on record. The rows
        read at the start of the run decide whether to dispatch. */
    method Ask(round: nat, messages: seq<Msg>, saved: Rows, retry: bool,
               transport: (nat, seq<Msg>) -> Option<Response>, fits: seq<Msg> -> bool, fuel: nat)
      returns (response: Response, problem: Option<Outcome>, left: nat)
      requires Valid() && status == State.Pending && begun && OnTrack(saved, rows, first, round, messages)
      modifies this`rows, this`dispatched
      ensures Valid() && Grows(saved, rows) && Grows(old(rows), rows) && rows.tools == old(rows).tools
      ensures Answered(old(rows), rows, transport)
      ensures Logs(old(dispatched), dispatched, Settled(saved, retry))
      ensures !retry && Distinct(old(dispatched)) ==> Distinct(dispatched)
      ensures dispatched == old(dispatched) || dispatched == old(dispatched) + [round]
      ensures round in Settled(saved, retry) ==> dispatched == old(dispatched)
      ensures problem.None? ==>
                && NewBefore(saved, rows, round + 1) && AtRound(rows, first, round, messages)
                && HasAnswer(rows, round, messages, response)
      ensures problem.Some? ==> NoAnswer(saved, round, messages, retry, transport, fits, problem.value, left)
      ensures !retry && round in saved.requests && round !in saved.responses ==> problem == Some(IndeterminateModel)
    {
      hide Recorded, Consistent, Settles, AtRound, Grows, NewBefore, Distinct, Logs, Answered;
      RecordedMeans(rows, first, executed, dispatched);
      response, left := Malformed, fuel;
      ghost var start, log := rows, dispatched;
      GrowsSelf(rows);
      AnsweredNothing(rows, transport);
      LogsNothing(dispatched, Settled(saved, retry));
      SavedDecides(saved, start, round);
      NewUpTo(saved, start, start, round);
      var known := round in saved.requests;
      if known && round !in saved.responses && !retry {
        return response, Some(IndeterminateModel), left;
      }
      if left == 0 { return response, Some(Stopped), left; }
      left := left - 1;
      problem := Checkpoint(round, messages, fits);
      ghost var asked := rows;
      GrowsThen(saved, start, asked);
      NewUpTo(saved, start, asked, round);
      AnsweredMeanwhile(start, asked, transport);
      if problem.Some? {
        return;
      }
      if known && messages != saved.requests[round] {
        return response, Some(Conflict), left;
      }
      if known && round in saved.responses {
        response := saved.responses[round];
      } else {
        if !retry && Distinct(log) { OnceMore(log, round); }
        LogsOne(log, round, Settled(saved, retry));
        response, problem, left := Dispatch(round, messages, transport, left);
        GrowsThen(saved, asked, rows);
        GrowsThen(start, asked, rows);
        NewUpTo(saved, start, rows, round);
        AnsweredOne(asked, rows, round, transport);
        AnsweredThen(start, asked, rows, transport);
      }
    }

    /** One round: getting the response, and acting on it. */
    method RunRound(round: nat, messages: seq<Msg>, saved: Rows, retry: bool,
                    transport: (nat, seq<Msg>) -> Option<Response>, workspace: (ToolKey, string, string) -> Json,
                    fits: seq<Msg> -> bool, fuel: nat)
      returns (after: seq<Msg>, outcome: Option<Outcome>, left: nat)
      requires Valid() && status == State.Pending && begun && round <= last
      requires OnTrack(saved, rows, first, round, messages)
      modifies this`rows, this`executed, this`dispatched, this`status, this`reply
      ensures Valid() && Grows(saved, rows) && Grows(old(rows), rows)
      ensures outcome.None? ==> status == State.Pending && OnTrack(saved, rows, first, round + 1, after)
      ensures outcome != Some(Conflict) && outcome != Some(Blocked)
      ensures NothingAgain(saved, retry, old(executed), executed, old(dispatched), dispatched)
      ensures dispatched == old(dispatched) || dispatched == old(dispatched) + [round]
      ensures round in Settled(saved, retry) ==> dispatched == old(dispatched)
      ensures !retry && round in saved.requests && round !in saved.responses ==> outcome == Some(IndeterminateModel)
      ensures outcome.Some? && outcome.value.Reply? <==> status == State.Committed
      ensures status == State.Committed ==> outcome == Some(Reply(reply.value))
      ensures Worked(old(rows), rows, workspace) && Answered(old(rows), rows, transport)
      ensures RoundEnds(saved, rows, round, messages, retry, transport, fits, outcome, left)
    {
      hide Recorded, Consistent, Settles, AtRound, Grows, NewBefore, Distinct, Logs, Answered, Worked, Fitting;
      hide RoundEnds, NoAnswer, Unresolved;
      ghost var start, ran := rows, executed;
      LogsNothing(executed, saved.tools.Keys);
      WorkedNothing(rows, workspace);
      var response;
      response, outcome, left := Ask(round, messages, saved, retry, transport, fits, fuel);
      after := messages;
      ghost var before := rows;
      WorkedMeanwhile(start, before, workspace);
      if outcome.Some? {
        RoundUnanswered(saved, rows, round, messages, retry, transport, fits, outcome.value, left);
        return;
      }
      GrowsKeys(saved, before);
      after, outcome, left := Act(round, messages, response, workspace, left);
      LogsThen(ran, ran, executed, saved.tools.Keys, before.tools.Keys);
      GrowsThen(saved, before, rows);
      GrowsThen(start, before, rows);
      WorkedThen(start, before, rows, workspace);
      AnsweredMeanwhile(before, rows, transport);
      AnsweredThen(start, before, rows, transport);
      NewSame(saved, before, rows, round + 1);
      RoundEnded(saved, rows, round, messages, response, retry, transport, fits, outcome, left);
    }

    /** Acting on a recorded response. */
    method Act(round: nat, messages: seq<Msg>, response: Response, workspace: (ToolKey, string, string) -> Json,
               fuel: nat)
      returns (after: seq<Msg>, outcome: Option<Outcome>, left: nat)
      requires Valid() && status == State.Pending && begun && round <= last && AtRound(rows, first, round, messages)
      requires round in rows.responses && rows.responses[round] == response
      modifies this`rows, this`executed, this`status, this`reply
      ensures Valid() && Grows(old(rows), rows) && Logs(old(executed), executed, old(rows).tools.Keys)
      ensures rows.requests == old(rows).requests && rows.responses == old(rows).responses
      ensures outcome.None? ==> status == State.Pending && AtRound(rows, first, round + 1, after)
      ensures outcome != Some(Conflict) && outcome != Some(Blocked)
      ensures outcome.Some? && outcome.value.Reply? <==> status == State.Committed
      ensures status == State.Committed ==> outcome == Some(Reply(reply.value))
      ensures Worked(old(rows), rows, workspace) && Fitting(response, outcome)
      ensures outcome == Some(IndeterminateTool) ==> Unresolved(old(rows), round, response)
      ensures outcome == Some(Stopped) ==> left == 0
    {
      hide Recorded, Consistent, Logs, Worked, Unresolved, GoodCalls;
      RecordedMeans(rows, first, executed, dispatched);
      GrowsSelf(rows);
      LogsNothing(executed, rows.tools.Keys);
      WorkedNothing(rows, workspace);
      VerdictFits(response);
      after, left := messages, fuel;
      if response.Malformed? {
        return after, Some(BadResponse), left;
      }
      after := after + [FromModel(response)];
      if response.calls == [] {
        if !NonBlank(response.content) {
          return after, Some(BadResponse), left;
        }
        if left == 0 { return after, Some(Stopped), left; }
        left := left - 1;
        if exists key :: key in rows.tools && rows.tools[key].result.None? {
          ghost var key :| key in rows.tools && rows.tools[key].result.None?;
          NothingUnresolved(rows, first, round, key);
          return after, Some(Blocked), left;
        }
        assert SettlesAt(rows, response.content, round, last);
        status, reply := State.Committed, Some(response.content);
        return after, Some(Reply(response.content)), left;
      }
      ghost var before := rows;
      after, outcome, left := RunCalls(round, after, workspace, left);
      if outcome.Some? {
        return;
      }
      StillAtRound(before, rows, first, round, messages);
      NextRound(rows, first, round, messages);
      assert after == AfterRound(messages, response, round, ToolsOf(rows));
    }

    /** The loop over rounds, from the journal's first messages. */
    method Rounds(retry: bool, transport: (nat, seq<Msg>) -> Option<Response>,
                  workspace: (ToolKey, string, string) -> Json, fits: seq<Msg> -> bool, fuel: nat)
      returns (outcome: Outcome)
      requires Valid() && status == State.Pending && begun
      modifies this`rows, this`executed, this`dispatched, this`status, this`reply
      ensures Valid() && outcome !in {Conflict, Blocked, InProgress, NotPending}
      ensures SoFar(old(rows), rows, retry, old(executed), executed, old(dispatched), dispatched, workspace, transport)
      ensures outcome.Reply? ==> status == State.Committed && reply == Some(outcome.text)
      ensures RunEnds(old(rows), rows, first, last, retry, fits, outcome)
    {
      hide Recorded, Consistent, Settles, OnTrack, Grows, NothingAgain, Worked, Answered, RoundEnds, RunEnds, SoFar;
      var left := fuel;
      var messages := first;
      var saved := rows;
      RunStarts(rows, first, retry, executed, dispatched, workspace, transport);
      for round := 1 to last + 1
        invariant Valid() && begun && status == State.Pending
        invariant OnTrack(saved, rows, first, round, messages)
        invariant SoFar(saved, rows, retry, old(executed), executed, old(dispatched), dispatched, workspace, transport)
      {
        ghost var before, payload, ran, sent := rows, messages, executed, dispatched;
        var ended;
        messages, ended, left := RunRound(round, messages, saved, retry, transport, workspace, fits, left);
        SoFarThen(saved, before, rows, retry, old(executed), ran, executed, old(dispatched), sent, dispatched,
                  workspace, transport);
        if ended.Some? {
          RecordedMeans(rows, first, executed, dispatched);
          RoundEndsRun(saved, before, rows, first, round, payload, retry, transport, fits, ended.value, left, last);
          return ended.value;
        }
      }
      outcome := TurnLimit;
      LimitEndsRun(saved, rows, first, last, messages, retry, fits);
    }

    /** `ResearchAgent.run`, stopped anywhere by `fuel`. */
    method Run(start: seq<Msg>, resume: bool, retry: bool, transport: (nat, seq<Msg>) -> Option<Response>,
               workspace: (ToolKey, string, string) -> Json, fits: seq<Msg> -> bool, fuel: nat)
      returns (outcome: Outcome)
      requires Valid()
      modifies this
      ensures Valid() && Grows(old(rows), rows)
      ensures outcome != Conflict && outcome != Blocked
      ensures NothingAgain(old(rows), retry, old(executed), executed, old(dispatched), dispatched)
      ensures outcome.Reply? ==> status == State.Committed && reply == Some(outcome.text)
      ensures old(status) == State.Committed ==>
                && outcome == Reply(old(reply).value) && rows == old(rows)
                && dispatched == old(dispatched) && executed == old(executed)
      ensures outcome == InProgress <==> old(begun) && old(status) != State.Committed && !resume
      ensures outcome == NotPending <==> old(begun) && old(status) == State.Aborted && resume
      ensures outcome !in {InProgress, NotPending} ==> RunEnds(old(rows), rows, first, last, retry, fits, outcome)
      ensures first == if old(begun) || fuel == 0 then old(first) else start
      ensures Transcript(rows, first)
      ensures old(begun) ==>
                generation == old(generation) + if old(status) == State.Pending && resume then 1 else 0
      ensures Worked(old(rows), rows, workspace) && Answered(old(rows), rows, transport)
    {
      GrowsSelf(rows);
      NothingYet(rows, retry, executed, dispatched);
      WorkedNothing(rows, workspace);
      AnsweredNothing(rows, transport);
      RunStops(rows, first, last, retry, fits);
      if status == State.Committed { CommittedEndsRun(rows, rows, first, last, retry, fits, reply.value); }
      CheckpointsContinue(rows, first);
      hide Settles, AtRound, Grows, NothingAgain, Worked, Answered, RunEnds, Transcript, Consistent, SoFar;
      if status == State.Committed {
        return Reply(reply.value);
      }
      if begun {
        if !resume {
          return InProgress;
        }
        if status != State.Pending {
          return NotPending;
        }
        generation := generation + 1;
      } else {
        if fuel == 0 { return Stopped; }
        begun, generation, first := true, 1, start;
      }
      outcome := Rounds(retry, transport, workspace, fits, fuel);
      SoFarMeans(old(rows), rows, retry, old(executed), executed, old(dispatched), dispatched, workspace, transport);
      CheckpointsContinue(rows, first);
    }
  }

  lemma RunStarts(rows: Rows, first: seq<Msg>, retry: bool, ran: seq<ToolKey>, sent: seq<nat>,
                  workspace: (ToolKey, string, string) -> Json, transport: (nat, seq<Msg>) -> Option<Response>)
    requires Recorded(rows, first, ran, sent)
    ensures OnTrack(rows, rows, first, 1, first)
    ensures SoFar(rows, rows, retry, ran, ran, sent, sent, workspace, transport)
  {
    WorkedNothing(rows, workspace);
    AnsweredNothing(rows, transport);
    GrowsSelf(rows);
    RecordedMeans(rows, first, ran, sent);
    FirstRound(rows, first);
    NothingYet(rows, retry, ran, sent);
    hide Recorded, Consistent, Grows, NothingAgain, Worked, Answered;
  }

  lemma FirstRound(rows: Rows, first: seq<Msg>)
    requires Consistent(rows, first)
    ensures AtRound(rows, first, 1, first) && NewBefore(rows, rows, 1)
  {}

  ghost function FirstIds(calls: seq<Call>, n: nat): set<string>
    requires n <= |calls|
  {
    set i | 0 <= i < n :: calls[i].id
  }

  lemma NextId(calls: seq<Call>, j: nat)
    requires j < |calls|
    ensures FirstIds(calls, j + 1) == FirstIds(calls, j) + {calls[j].id}
    ensures BadCall(calls, j) <==> !calls[j].wellFormed || calls[j].id == "" || calls[j].id in FirstIds(calls, j)
  {}

  lemma NoIds(calls: seq<Call>)
    ensures FirstIds(calls, 0) == {}
  {}

  lemma NoResults(calls: seq<Call>, round: nat, tools: Tools)
    ensures ResultMsgs(calls, 0, round, tools) == []
  {}

  lemma MoreResults(calls: seq<Call>, j: nat, round: nat, tools: Tools)
    requires j < |calls|
    ensures ResultMsgs(calls, j + 1, round, tools)
         == ResultMsgs(calls, j, round, tools) + [FromTool(calls[j].id, tools((round, calls[j].id)))]
  {}

  lemma SameResults(a: Rows, b: Rows, round: nat, n: nat)
    requires Grows(a, b) && round in a.responses && a.responses[round].Message? && n <= |a.responses[round].calls|
    requires CallsDone(a, round, n)
    ensures CallsDone(b, round, n)
    ensures ResultMsgs(a.responses[round].calls, n, round, ToolsOf(a))
              == ResultMsgs(a.responses[round].calls, n, round, ToolsOf(b))
  {}

  /** The reply is what the records lead to: some round's final answer, after rounds that are all
      on record. */
  ghost predicate Settles(rows: Rows, text: string, last: nat) {
    exists n: nat :: SettlesAt(rows, text, n, last)
  }

  ghost predicate SettlesAt(rows: Rows, text: string, n: nat, last: nat) {
    1 <= n <= last && RoundsDone(rows, n) && n in rows.responses && Verdict(rows.responses[n]) == Some(Reply(text))
  }

  /** The final answer of a journal, read off its rows: every round up to the limit was checkpointed and
      answered, each but the last with runnable calls, and the last with the text, which is not blank. */
  ghost predicate FinalAt(rows: Rows, text: string, n: nat, last: nat) {
    && 1 <= n <= last && (forall k :: k in rows.requests <==> 1 <= k <= n)
    && (forall k :: 1 <= k < n ==> k in rows.responses && Fitting(rows.responses[k], None))
    && n in rows.responses && Fitting(rows.responses[n], Some(Reply(text)))
  }

  ghost predicate FinalAnswer(rows: Rows, text: string, last: nat) {
    exists n: nat :: FinalAt(rows, text, n, last)
  }

  lemma SettledIsFinal(rows: Rows, first: seq<Msg>, text: string, n: nat, last: nat)
    requires Consistent(rows, first) && SettlesAt(rows, text, n, last)
    ensures FinalAt(rows, text, n, last)
  {
    hide Fitting, Consistent, Verdict, RoundsDone;
    RoundsFit(rows, n);
    VerdictFits(rows.responses[n]);
    RequestsEnd(rows, first, n);
  }

  lemma RoundsFit(rows: Rows, n: nat)
    requires RoundsDone(rows, n)
    ensures forall k :: 1 <= k < n ==> k in rows.responses && Fitting(rows.responses[k], None)
  {
    hide Fitting, Verdict, CallsDone;
    forall k | 1 <= k < n ensures k in rows.responses && Fitting(rows.responses[k], None) {
      assert RoundDone(rows, k);
      VerdictFits(rows.responses[k]);
    }
  }

  /** Nothing was checkpointed after the round that did not go on. */
  lemma RequestsEnd(rows: Rows, first: seq<Msg>, n: nat)
    requires Consistent(rows, first) && n >= 1 && RoundsDone(rows, n)
    requires n in rows.responses && Verdict(rows.responses[n]).Some?
    ensures forall k :: k in rows.requests <==> 1 <= k <= n
  {
    hide Verdict, CallsDone, FromResponse, Payload;
    assert !RoundDone(rows, n);
    forall k ensures k in rows.requests <==> 1 <= k <= n {
      if 1 <= k < n { assert RoundDone(rows, k); }
    }
  }

  /** How a run ends: with the answer on record, at the limit after rounds that all went on, or for the
      reason its error names. */
  ghost predicate RunEnds(saved: Rows, rows: Rows, first: seq<Msg>, last: nat, retry: bool,
                          fits: seq<Msg> -> bool, outcome: Outcome)
  {
    match outcome
    case Reply(text) => FinalAnswer(rows, text, last)
    case TurnLimit => forall k :: 1 <= k <= last ==> k in rows.responses && Fitting(rows.responses[k], None)
    case BadResponse => exists k: nat :: k in rows.responses && Fitting(rows.responses[k], Some(BadResponse))
    case IndeterminateModel => !retry && exists k: nat :: k in saved.requests && k !in saved.responses
    case OverBudget => exists k: nat, messages :: AtRound(rows, first, k, messages) && !fits(messages)
    case _ => outcome in {Stopped, IndeterminateTool}
  }

  lemma CommittedEndsRun(saved: Rows, rows: Rows, first: seq<Msg>, last: nat, retry: bool,
                         fits: seq<Msg> -> bool, text: string)
    requires Consistent(rows, first) && Settles(rows, text, last)
    ensures RunEnds(saved, rows, first, last, retry, fits, Reply(text))
  {
    var n: nat :| SettlesAt(rows, text, n, last);
    SettledIsFinal(rows, first, text, n, last);
  }

  lemma RunStops(rows: Rows, first: seq<Msg>, last: nat, retry: bool, fits: seq<Msg> -> bool)
    ensures RunEnds(rows, rows, first, last, retry, fits, Stopped)
  {}

  lemma LimitEndsRun(saved: Rows, rows: Rows, first: seq<Msg>, last: nat, messages: seq<Msg>, retry: bool,
                     fits: seq<Msg> -> bool)
    requires OnTrack(saved, rows, first, last + 1, messages)
    ensures RunEnds(saved, rows, first, last, retry, fits, TurnLimit)
  {
    hide Fitting;
    RoundsFit(rows, last + 1);
  }

  lemma RoundEndsRun(saved: Rows, before: Rows, rows: Rows, first: seq<Msg>, round: nat, messages: seq<Msg>,
                     retry: bool, transport: (nat, seq<Msg>) -> Option<Response>, fits: seq<Msg> -> bool,
                     outcome: Outcome, left: nat, last: nat)
    requires OnTrack(saved, before, first, round, messages) && Grows(before, rows)
    requires RoundEnds(saved, rows, round, messages, retry, transport, fits, Some(outcome), left)
    requires outcome.Reply? ==> Consistent(rows, first) && Settles(rows, outcome.text, last)
    ensures RunEnds(saved, rows, first, last, retry, fits, outcome) && outcome !in {InProgress, NotPending}
  {
    hide Consistent, Settles, AtRound, FinalAnswer;
    StillAtRound(before, rows, first, round, messages);
    if outcome.Reply? {
      CommittedEndsRun(saved, rows, first, last, retry, fits, outcome.text);
    } else if outcome.BadResponse? {
      var response :| HasAnswer(rows, round, messages, response) && Fitting(response, Some(outcome));
    }
  }

  // Against the agent that never crashes.

  /** One payload after another: the same messages, the model's response, and for each of its calls, in
      order, the tool message with that call's id and result. */
  ghost predicate Follows(before: seq<Msg>, response: Response, round: nat, tools: Tools, after: seq<Msg>) {
    && Fitting(response, None) && |after| == |before| + 1 + |response.calls|
    && before <= after && after[|before|] == FromModel(response)
    && forall j :: 0 <= j < |response.calls| ==>
         after[|before| + 1 + j] == FromTool(response.calls[j].id, tools((round, response.calls[j].id)))
  }

  /** What the agent that never crashes sends and ends with, without its recursion: the first messages,
      then each payload followed by the next, and the outcome of the last response, or the limit. */
  lemma {:induction false} StraightIs(messages: seq<Msg>, model: Model, tools: Tools, round: nat, last: nat)
    requires round <= last
    ensures var sent := Sent(messages, model, tools, round, last);
            && 0 < |sent| <= last + 1 - round && sent[0] == messages
            && (forall i :: 0 <= i < |sent| - 1 ==> Follows(sent[i], model(round + i), round + i, tools, sent[i + 1]))
            && var outcome := Straight(messages, model, tools, round, last);
               if Fitting(model(round + |sent| - 1), None) then outcome == TurnLimit && |sent| == last + 1 - round
               else Fitting(model(round + |sent| - 1), Some(outcome))
    decreases last - round
  {
    hide Fitting, AfterRound, Verdict, Follows;
    var response := model(round);
    VerdictFits(response);
    VerdictNone(response);
    if Verdict(response).None? {
      var after := AfterRound(messages, response, round, tools);
      RoundFollows(messages, response, round, tools);
      if round < last {
        StraightIs(after, model, tools, round + 1, last);
        var rest := Sent(after, model, tools, round + 1, last);
        var sent := Sent(messages, model, tools, round, last);
        assert sent == [messages] + rest;
        FollowedBy(messages, rest, model, tools, round);
      }
    }
  }

  lemma FollowedBy(first: seq<Msg>, rest: seq<seq<Msg>>, model: Model, tools: Tools, round: nat)
    requires rest != [] && Follows(first, model(round), round, tools, rest[0])
    requires forall i :: 0 <= i < |rest| - 1 ==>
               Follows(rest[i], model(round + 1 + i), round + 1 + i, tools, rest[i + 1])
    ensures var sent := [first] + rest;
            forall i :: 0 <= i < |sent| - 1 ==> Follows(sent[i], model(round + i), round + i, tools, sent[i + 1])
  {
    hide Follows;
    var sent := [first] + rest;
    forall i | 0 <= i < |sent| - 1 ensures Follows(sent[i], model(round + i), round + i, tools, sent[i + 1]) {
      if i > 0 {
        assert sent[i] == rest[i - 1] && sent[i + 1] == rest[i];
        assert Follows(rest[i - 1], model(round + 1 + (i - 1)), round + 1 + (i - 1), tools, rest[i]);
      }
    }
  }

  lemma VerdictNone(response: Response)
    ensures Verdict(response).None? <==> Fitting(response, None)
  {
    if response.Message? { GoodIsRunnable(response.calls); }
  }

  lemma RoundFollows(messages: seq<Msg>, response: Response, round: nat, tools: Tools)
    requires Verdict(response).None?
    ensures Follows(messages, response, round, tools, AfterRound(messages, response, round, tools))
  {
    VerdictNone(response);
    RoundContinues(messages, response, round, tools);
    hide AfterRound, Verdict, Fitting;
  }

  lemma {:induction false} StraightFrom(rows: Rows, first: seq<Msg>, model: Model, tools: Tools, k: nat, n: nat,
                                        last: nat, text: string)
    requires SettlesAt(rows, text, n, last) && Agrees(rows, model, tools) && 1 <= k <= n
    ensures Straight(Payload(first, model, tools, k), model, tools, k, last) == Reply(text)
    ensures var sent := Sent(Payload(first, model, tools, k), model, tools, k, last);
            |sent| == n + 1 - k && forall i :: 0 <= i < |sent| ==> sent[i] == Payload(first, model, tools, k + i)
    decreases n - k
  {
    hide Verdict, AfterRound;
    if k == n {
    } else {
      assert RoundDone(rows, k);
      StraightFrom(rows, first, model, tools, k + 1, n, last, text);
      var rest := Sent(Payload(first, model, tools, k + 1), model, tools, k + 1, last);
      var sent := Sent(Payload(first, model, tools, k), model, tools, k, last);
      assert sent == [Payload(first, model, tools, k)] + rest;
      forall i | 0 <= i < |sent| ensures sent[i] == Payload(first, model, tools, k + i) {
        if i > 0 {
          assert sent[i] == rest[i - 1] == Payload(first, model, tools, k + 1 + (i - 1));
        }
      }
    }
  }

  lemma CheckpointsAre(rows: Rows, first: seq<Msg>, model: Model, tools: Tools)
    requires Consistent(rows, first) && Agrees(rows, model, tools)
    ensures forall k :: k in rows.requests ==> k >= 1 && rows.requests[k] == Payload(first, model, tools, k)
  {
    hide FromResponse, RoundDone;
    forall k | k in rows.requests ensures k >= 1 && rows.requests[k] == Payload(first, model, tools, k) {
      PayloadDetermined(rows, first, model, tools, k);
    }
  }

  /** Crash-resume equivalence: whatever runs, crashes and resumes led to a committed journal, an
      agent that never crashes and is given the recorded responses and results (and anything else
      beyond them) sends exactly the checkpointed payloads and ends with exactly the same reply. */
  lemma ResumeEquivalence(rows: Rows, first: seq<Msg>, last: nat, text: string, model: Model, tools: Tools)
    requires Consistent(rows, first) && Settles(rows, text, last) && Agrees(rows, model, tools)
    ensures Straight(first, model, tools, 1, last) == Reply(text)
    ensures var sent := Sent(first, model, tools, 1, last);
            && (forall k :: k in rows.requests <==> 1 <= k <= |sent|)
            && forall k :: k in rows.requests ==> rows.requests[k] == sent[k - 1]
  {
    hide Straight, Sent, SettlesAt, Consistent, Agrees;
    var n: nat :| SettlesAt(rows, text, n, last);
    SettledSends(rows, first, last, text, model, tools, n);
  }

  lemma SettledSends(rows: Rows, first: seq<Msg>, last: nat, text: string, model: Model, tools: Tools, n: nat)
    requires Consistent(rows, first) && SettlesAt(rows, text, n, last) && Agrees(rows, model, tools)
    ensures Straight(first, model, tools, 1, last) == Reply(text)
    ensures var sent := Sent(first, model, tools, 1, last);
            && (forall k :: k in rows.requests <==> 1 <= k <= |sent|)
            && forall k :: k in rows.requests ==> rows.requests[k] == sent[k - 1]
  {
    hide Straight, Sent, Consistent, Agrees, Fitting, RoundsDone, Verdict;
    StraightFrom(rows, first, model, tools, 1, n, last, text);
    SettledIsFinal(rows, first, text, n, last);
    CheckpointsAre(rows, first, model, tools);
    var sent := Sent(first, model, tools, 1, last);
    forall k | k in rows.requests ensures 1 <= k <= |sent| && rows.requests[k] == sent[k - 1] {
      assert sent[k - 1] == Payload(first, model, tools, 1 + (k - 1));
    }
  }
}
