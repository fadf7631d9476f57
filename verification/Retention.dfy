/** Retirement of finished turns: the plan, its hash, and what applying it removes. */
module Retention {
  import opened Common
  import opened JournalState

  /** Committed or aborted, nothing unresolved, and last touched strictly before the cutoff. */
  predicate Candidate(db: Db, cutoff: int, id: RequestId) {
    && id in db.turns
    && db.turns[id].status != Pending
    && StartedCalls(db, id) == {}
    && db.turns[id].updatedAt < cutoff
  }

  function Candidates(db: Db, cutoff: int): set<RequestId> {
    set id | id in db.turns && Candidate(db, cutoff, id)
  }

  /** Every journal row of one request. The rowid is not encoded. */
  datatype Record = Record(id: RequestId, request: Request, status: Status, generation: int,
                           taskRevision: int, package: Package, reply: Option<Reply>, updatedAt: int,
                           tools: map<CallId, ToolRow>, models: map<CallId, ModelRow>,
                           responses: map<CallId, Json>, basis: map<TaskId, int>,
                           provenance: set<(MessageId, Kind)>, leases: set<Lease>,
                           tombstone: Option<Tombstone>)

  /** One request's rows of a keyed table. */
  function Part<K(==), V>(m: map<(RequestId, K), V>, id: RequestId): map<K, V> {
    map k | k in m && k.0 == id :: k.1 := m[k]
  }

  /** `DELETE FROM ... WHERE request_id` for each of `ids`. */
  function Rest<K(==), V>(m: map<(RequestId, K), V>, ids: set<RequestId>): map<(RequestId, K), V> {
    map k | k in m && k.0 !in ids :: m[k]
  }

  function EdgesFrom(edges: set<(RequestId, MessageId, Kind)>, id: RequestId): set<(MessageId, Kind)> {
    set e | e in edges && e.0 == id :: (e.1, e.2)
  }

  function OtherEdges(edges: set<(RequestId, MessageId, Kind)>, ids: set<RequestId>)
    : set<(RequestId, MessageId, Kind)>
  {
    set e | e in edges && e.0 !in ids
  }

  function LeasesOf(leases: set<Lease>, id: RequestId): set<Lease> {
    set l | l in leases && l.request == id
  }

  function OtherLeases(leases: set<Lease>, ids: set<RequestId>): set<Lease> {
    set l | l in leases && l.request !in ids
  }

  function RecordOf(db: Db, id: RequestId): (r: Record)
    requires id in db.turns
    ensures r.id == id && r.request == db.turns[id].request && r.status == db.turns[id].status
  {
    var row := db.turns[id];
    Record(id, row.request, row.status, row.generation, row.taskRevision, row.package, row.reply,
           row.updatedAt,
           Part(db.tools, id), Part(db.models, id), Part(db.responses, id), Part(db.basis, id),
           EdgesFrom(db.provenance, id), LeasesOf(db.leases, id),
           if id in db.retired then Some(db.retired[id]) else None)
  }

  /** The plan hash is injective, so it is the ordered records it was computed from. */
  datatype Plan = Plan(cutoff: int, records: seq<Record>)

  lemma {:induction false} EarliestExists(db: Db, ids: set<RequestId>)
    requires ids != {} && forall id :: id in ids ==> id in db.turns
    ensures exists m :: m in ids && forall id :: id in ids ==> db.turns[m].rowid <= db.turns[id].rowid
    decreases |ids|
  {
    var a := Pick(ids);
    var rest := ids - {a};
    assert forall id :: id in ids ==> id in rest || id == a;
    if rest != {} {
      EarliestExists(db, rest);
      var m :| m in rest && forall id :: id in rest ==> db.turns[m].rowid <= db.turns[id].rowid;
      var least := if db.turns[m].rowid <= db.turns[a].rowid then m else a;
      assert least in ids && forall id :: id in ids ==> db.turns[least].rowid <= db.turns[id].rowid;
    } else {
      assert a in ids && forall id :: id in ids ==> db.turns[a].rowid <= db.turns[id].rowid;
    }
  }

  /** The requests in `ids`, in rowid order. */
  ghost function InRowOrder(db: Db, ids: set<RequestId>): (order: seq<RequestId>)
    requires forall id :: id in ids ==> id in db.turns
    ensures forall id :: id in order <==> id in ids
    ensures |order| == |ids|
    ensures forall i, j :: 0 <= i < j < |order| ==> db.turns[order[i]].rowid <= db.turns[order[j]].rowid
    decreases |ids|
  {
    if ids == {} then []
    else
      EarliestExists(db, ids);
      var m :| m in ids && forall id :: id in ids ==> db.turns[m].rowid <= db.turns[id].rowid;
      [m] + InRowOrder(db, ids - {m})
  }

  ghost function PlanOf(db: Db, cutoff: int): Plan {
    var order := InRowOrder(db, Candidates(db, cutoff));
    Plan(cutoff, seq(|order|, i requires 0 <= i < |order| => RecordOf(db, order[i])))
  }

  /** `INSERT OR IGNORE` of a tombstone for each turn of `ids`. */
  function Buried(retired: map<RequestId, Tombstone>, turns: map<RequestId, TurnRow>, ids: set<RequestId>)
    : map<RequestId, Tombstone>
  {
    retired + (map id | id in ids && id in turns && id !in retired
                 :: Tombstone(turns[id].request, turns[id].status))
  }

  /** Tombstones for `ids` and no other journal row left of them; a tombstone that is already
      there is kept as it is. */
  function Retire(db: Db, ids: set<RequestId>): Db {
    db.(turns := db.turns - ids,
        retired := Buried(db.retired, db.turns, ids),
        tools := Rest(db.tools, ids),
        models := Rest(db.models, ids),
        responses := Rest(db.responses, ids),
        basis := Rest(db.basis, ids),
        provenance := OtherEdges(db.provenance, ids),
        leases := OtherLeases(db.leases, ids))
  }

  ghost function ApplyRetention(db: Db, plan: Plan): Result {
    if PlanOf(db, plan.cutoff) != plan then Err(StalePlan)
    else Ok(Retire(db, Candidates(db, plan.cutoff)), NoView)
  }
}
