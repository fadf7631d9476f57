/** The tables of the execution journal and of the task memory it guards, and the row-level
    statements every transaction is made of.

    SHA-256 and canonical JSON encoding are injective, so a fingerprint is modelled as the value
    it was taken of, and a JSON column as its canonical text. Time is the caller's clock. */
module JournalState {
  import opened Common
  import Ancestry

  type TaskId = int
  type MessageId = int
  type RequestId = string
  type CallId = string
  type Json = string

  datatype Code =
    | Invalid | NotFound | Retired | Conflict | Busy | NotPending | Fenced | StaleContext
    | ProvenanceRequired | IndeterminateTool | OverBudget | Integrity | StalePlan | Storage

  // Task memory.

  datatype TaskRow = TaskRow(archived: bool, snapshot: Json, revision: int)
  datatype Role = User | Assistant | Tool | Document

  /** `origin` is the request id the engine stamps into `source`; other writers leave it out. */
  datatype Message = Message(task: TaskId, role: Role, content: string, origin: Option<RequestId>)
  datatype Fact = Fact(task: TaskId, key: string, revision: int, content: Json,
                       evidence: MessageId, retracted: bool)

  // Journal.

  datatype ScopeKind = OneTask | Lineage | Everything

  /** A normalised request; `settings` is the rest of its serialisation. */
  datatype Request = Request(id: RequestId, task: TaskId, query: string, scope: ScopeKind,
                             scoped: bool, budget: int, reserve: int, settings: string)
  datatype Package = Package(messages: Json, allowance: int, snapshot: Json)
  datatype Kind = Supports | Contradicts | UnknownKind
  datatype Ref = Ref(evidence: MessageId, kind: Kind)
  datatype FactUpdate = FactUpdate(key: string, content: Json, evidence: MessageId, retracted: bool)
  datatype Reply = Reply(text: string, snapshot: Option<Json>, facts: seq<FactUpdate>,
                         provenance: seq<Ref>)

  /** A reply as its JSON reads: an empty snapshot is left out, so a reply with one and a reply without
      any are the same on record. */
  function Encoded(reply: Reply): Reply {
    if reply.snapshot == Some("{}") then reply.(snapshot := None) else reply
  }

  datatype Status = Pending | Committed | Aborted
  datatype TurnRow = TurnRow(rowid: int, request: Request, status: Status, generation: int,
                             taskRevision: int, package: Package, reply: Option<Reply>,
                             updatedAt: int)
  datatype Tombstone = Tombstone(fingerprint: Request, status: Status)
  datatype ToolRow =
    | Started(name: string, args: Json)
    | Completed(name: string, args: Json, result: Json, evidence: MessageId)
  datatype ModelRow = ModelRow(payload: Json, units: int, counting: string)

  /** A lease token is the fingerprint of these five fields. */
  datatype Lease = Lease(request: RequestId, generation: int, call: CallId, name: string,
                         args: Json, expires: int)

  datatype Db = Db(
    tasks: map<TaskId, TaskRow>,
    parents: Ancestry.Graph,
    messages: map<MessageId, Message>, lastMessage: MessageId,
    facts: map<int, Fact>, lastFact: int,
    clock: map<TaskId, int>,
    turns: map<RequestId, TurnRow>, lastTurn: int,
    retired: map<RequestId, Tombstone>,
    tools: map<(RequestId, CallId), ToolRow>,
    models: map<(RequestId, CallId), ModelRow>,
    responses: map<(RequestId, CallId), Json>,
    basis: map<(RequestId, TaskId), int>,
    provenance: set<(RequestId, MessageId, Kind)>,
    leases: set<Lease>)

  /** What an operation hands back to its caller. */
  datatype View =
    | NoView
    | TurnView(turn: TurnRow, created: bool, replayed: bool)
    | ToolView(tool: ToolRow, created: bool)
    | LeaseView(lease: Lease)

  /** The result of a transaction: an error leaves no new state behind. */
  datatype Result = Ok(db: Db, view: View) | Err(error: Code)

  /** Key zero of the clock table is the whole-database clock. */
  const GLOBAL: TaskId := 0

  /** `strings.TrimSpace(text) != ""`. */
  predicate TextOk(text: string) {
    exists i :: 0 <= i < |text| && !GoSpace(text[i])
  }

  function BumpOrCreate(clock: map<TaskId, int>, task: TaskId): map<TaskId, int> {
    clock[task := if task in clock then clock[task] + 1 else 1]
  }

  /** The trigger on every task, message, fact, dependency and alias row: the owner's clock is
      created or advanced, the global clock only advanced. */
  function Tick(clock: map<TaskId, int>, task: TaskId): map<TaskId, int> {
    var bumped := BumpOrCreate(clock, task);
    if GLOBAL in bumped then bumped[GLOBAL := bumped[GLOBAL] + 1] else bumped
  }

  function Append(db: Db, task: TaskId, role: Role, content: string, origin: Option<RequestId>)
    : Result
  {
    if !TextOk(content) then Err(Invalid)
    else if task !in db.tasks then Err(Storage)
    else
      var id := db.lastMessage + 1;
      Ok(db.(messages := db.messages[id := Message(task, role, content, origin)],
             lastMessage := id, clock := Tick(db.clock, task)), NoView)
  }

  /** Revisions already recorded for one key of one task. */
  function Revisions(db: Db, task: TaskId, key: string): set<int> {
    set f | f in db.facts && db.facts[f].task == task && db.facts[f].key == key :: db.facts[f].revision
  }

  lemma {:induction false} GreatestExists(s: set<int>)
    requires s != {}
    ensures exists m :: m in s && forall x :: x in s ==> x <= m
    decreases |s|
  {
    var a := Pick(s);
    var rest := s - {a};
    if rest != {} {
      GreatestExists(rest);
      var m :| m in rest && forall x :: x in rest ==> x <= m;
      var top := if a <= m then m else a;
      assert top in s && forall x :: x in s ==> x in rest || x == a;
    } else {
      assert forall x :: x in s ==> x in rest || x == a;
    }
  }

  /** `coalesce(max(revision), 0) + 1`. */
  function NextRevision(revisions: set<int>): (next: int)
    ensures revisions == {} ==> next == 1
    ensures forall x :: x in revisions ==> x < next
    ensures revisions != {} ==> next - 1 in revisions
  {
    if revisions == {} then 1
    else
      GreatestExists(revisions);
      var m :| m in revisions && forall x :: x in revisions ==> x <= m;
      m + 1
  }

  function SetFact(db: Db, task: TaskId, f: FactUpdate): Result {
    if !TextOk(f.key) then Err(Invalid)
    else if f.evidence !in db.messages || db.messages[f.evidence].task != task then Err(Invalid)
    else
      var id := db.lastFact + 1;
      var row := Fact(task, f.key, NextRevision(Revisions(db, task, f.key)), f.content, f.evidence,
                      f.retracted);
      Ok(db.(facts := db.facts[id := row], lastFact := id, clock := Tick(db.clock, task)), NoView)
  }

  // Scope and freshness.

  function ScopeTasks(db: Db, r: Request): seq<TaskId> {
    match r.scope
    case OneTask => [r.task]
    case Lineage => Ancestry.Lineage(db.parents, r.task)
    case Everything => [GLOBAL]
  }

  function BasisRows(db: Db, id: RequestId): set<(RequestId, TaskId)> {
    set k | k in db.basis && k.0 == id
  }

  /** A captured row agrees with the clock; a clock that vanished agrees with nothing. */
  predicate RowHolds(db: Db, row: (RequestId, TaskId))
    requires row in db.basis
  {
    row.1 in db.clock && db.clock[row.1] == db.basis[row]
  }

  /** `validateBasis`: only a turn that asked for scope consistency can be stale. */
  predicate Fresh(db: Db, id: RequestId)
    requires id in db.turns
  {
    db.turns[id].request.scoped ==>
      && BasisRows(db, id) != {}
      && forall k :: k in BasisRows(db, id) ==> RowHolds(db, k)
  }

  /** `pending`: only the current generation of a pending turn may act on it. */
  function Barred(db: Db, id: RequestId, generation: int): (code: Option<Code>)
    ensures code.None? ==> id in db.turns && db.turns[id].status == Pending
                           && db.turns[id].generation == generation
  {
    if id !in db.turns then Some(if id in db.retired then Retired else NotFound)
    else if db.turns[id].status != Pending then Some(NotPending)
    else if db.turns[id].generation != generation then Some(Fenced)
    else None
  }

  function StartedCalls(db: Db, id: RequestId): set<(RequestId, CallId)> {
    set k | k in db.tools && k.0 == id && db.tools[k].Started?
  }
}
