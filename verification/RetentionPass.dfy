/** A retention pass as the engine runs it: the scan that plans, and the statements that apply. */
module RetentionPass {
  import opened Common
  import opened JournalState
  import opened Retention
  import opened JournalRuns
  import opened RowScan

  /** Rows per journal table. */
  datatype Counts = Counts(turns: int, tools: int, models: int, responses: int, basis: int,
                           provenance: int, leases: int)

  function Plus(a: Counts, b: Counts): Counts {
    Counts(a.turns + b.turns, a.tools + b.tools, a.models + b.models, a.responses + b.responses,
           a.basis + b.basis, a.provenance + b.provenance, a.leases + b.leases)
  }

  const NO_ROWS := Counts(0, 0, 0, 0, 0, 0, 0)

  function RowCounts(db: Db): Counts {
    Counts(|db.turns|, |db.tools|, |db.models|, |db.responses|, |db.basis|, |db.provenance|, |db.leases|)
  }

  function RecordCounts(r: Record): Counts {
    Counts(1, |r.tools|, |r.models|, |r.responses|, |r.basis|, |r.provenance|, |r.leases|)
  }

  /** What a dry run reports: the rows of all its records. */
  function Total(records: seq<Record>): Counts
    decreases |records|
  {
    if records == [] then NO_ROWS
    else Plus(Total(records[..|records| - 1]), RecordCounts(records[|records| - 1]))
  }

  // Counting one request's rows of a keyed table.

  lemma {:induction false} PartCounts<K, V>(m: map<(RequestId, K), V>, id: RequestId)
    ensures |m| == |Part(m, id)| + |Rest(m, {id})|
    decreases |m|
  {
    if m == map[] {
      assert Part(m, id) == map[] && Rest(m, {id}) == map[];
    } else {
      var k := Pick(m.Keys);
      var less := m - {k};
      assert m == less[k := m[k]] && k !in less && |m| == |less| + 1;
      PartCounts(less, id);
      if k.0 == id {
        assert k == (id, k.1) && k.1 !in Part(less, id);
        assert Part(m, id) == Part(less, id)[k.1 := m[k]];
        assert Rest(m, {id}) == Rest(less, {id});
      } else {
        assert Part(m, id) == Part(less, id);
        assert Rest(m, {id}) == Rest(less, {id})[k := m[k]];
      }
    }
  }

  lemma SetSplits<T>(all: set<T>, part: set<T>, rest: set<T>)
    requires all == part + rest && part !! rest
    ensures |all| == |part| + |rest|
  {}

  lemma {:induction false} PairsCount(own: set<(RequestId, MessageId, Kind)>, id: RequestId)
    requires forall e :: e in own ==> e.0 == id
    ensures |set e | e in own :: (e.1, e.2)| == |own|
    decreases |own|
  {
    var pairs := set e | e in own :: (e.1, e.2);
    if own == {} {
      assert pairs == {};
    } else {
      var e := Pick(own);
      PairsCount(own - {e}, id);
      var fewer := set x | x in own - {e} :: (x.1, x.2);
      assert (e.1, e.2) !in fewer by {
        assert forall x :: x in own ==> x == (id, x.1, x.2);
      }
      forall p ensures p in pairs <==> p in fewer || p == (e.1, e.2) {
        if p in pairs {
          var x :| x in own && p == (x.1, x.2);
          assert x in own - {e} || x == e;
        }
      }
      assert pairs == fewer + {(e.1, e.2)};
    }
  }

  lemma EdgesCount(edges: set<(RequestId, MessageId, Kind)>, id: RequestId)
    ensures |edges| == |EdgesFrom(edges, id)| + |OtherEdges(edges, {id})|
  {
    var own := set e | e in edges && e.0 == id;
    PairsCount(own, id);
    assert (set e | e in own :: (e.1, e.2)) == EdgesFrom(edges, id);
    SetSplits(edges, own, OtherEdges(edges, {id}));
  }

  lemma LeasesCount(leases: set<Lease>, id: RequestId)
    ensures |leases| == |LeasesOf(leases, id)| + |OtherLeases(leases, {id})|
  {
    SetSplits(leases, LeasesOf(leases, id), OtherLeases(leases, {id}));
  }

  lemma TurnsCount(turns: map<RequestId, TurnRow>, id: RequestId)
    requires id in turns
    ensures |turns| == |turns - {id}| + 1
  {
    assert turns == (turns - {id})[id := turns[id]];
  }

  /** Retiring one request removes exactly the rows its record holds. */
  lemma OneRemoved(db: Db, id: RequestId)
    requires id in db.turns
    ensures RowCounts(db) == Plus(RowCounts(Retire(db, {id})), RecordCounts(RecordOf(db, id)))
  {
    hide Part, Rest, EdgesFrom, OtherEdges, LeasesOf, OtherLeases, RowCounts, RecordCounts;
    var d, r := Retire(db, {id}), RecordOf(db, id);
    TurnsCount(db.turns, id);
    PartCounts(db.tools, id);
    PartCounts(db.models, id);
    PartCounts(db.responses, id);
    PartCounts(db.basis, id);
    EdgesCount(db.provenance, id);
    LeasesCount(db.leases, id);
    AddUp(db, d, r);
  }

  lemma AddUp(db: Db, d: Db, r: Record)
    requires |db.turns| == |d.turns| + 1 && |db.tools| == |d.tools| + |r.tools|
    requires |db.models| == |d.models| + |r.models| && |db.responses| == |d.responses| + |r.responses|
    requires |db.basis| == |d.basis| + |r.basis| && |db.provenance| == |d.provenance| + |r.provenance|
    requires |db.leases| == |d.leases| + |r.leases|
    ensures RowCounts(db) == Plus(RowCounts(d), RecordCounts(r))
  {}

  // Retiring one after another.

  lemma RestThen<K, V>(m: map<(RequestId, K), V>, a: set<RequestId>, b: set<RequestId>)
    ensures Rest(Rest(m, a), b) == Rest(m, a + b)
  {}

  lemma OthersThen(edges: set<(RequestId, MessageId, Kind)>, leases: set<Lease>, a: set<RequestId>, b: set<RequestId>)
    ensures OtherEdges(OtherEdges(edges, a), b) == OtherEdges(edges, a + b)
    ensures OtherLeases(OtherLeases(leases, a), b) == OtherLeases(leases, a + b)
  {}

  lemma BuriedThen(retired: map<RequestId, Tombstone>, turns: map<RequestId, TurnRow>,
                   a: set<RequestId>, b: set<RequestId>)
    ensures Buried(Buried(retired, turns, a), turns - a, b) == Buried(retired, turns, a + b)
    ensures turns - a - b == turns - (a + b)
  {}

  /** Retiring requests one at a time retires them all. */
  lemma RetireThen(db: Db, a: set<RequestId>, b: set<RequestId>)
    ensures Retire(Retire(db, a), b) == Retire(db, a + b)
  {
    hide Rest, OtherEdges, OtherLeases, Buried;
    RestThen(db.tools, a, b);
    RestThen(db.models, a, b);
    RestThen(db.responses, a, b);
    RestThen(db.basis, a, b);
    OthersThen(db.provenance, db.leases, a, b);
    BuriedThen(db.retired, db.turns, a, b);
  }

  lemma RetireNone(db: Db)
    ensures Retire(db, {}) == db
  {}

  lemma PartKept<K, V>(m: map<(RequestId, K), V>, ids: set<RequestId>, id: RequestId)
    requires id !in ids
    ensures Part(Rest(m, ids), id) == Part(m, id)
  {}

  lemma OthersKept(edges: set<(RequestId, MessageId, Kind)>, leases: set<Lease>, ids: set<RequestId>, id: RequestId)
    requires id !in ids
    ensures EdgesFrom(OtherEdges(edges, ids), id) == EdgesFrom(edges, id)
    ensures LeasesOf(OtherLeases(leases, ids), id) == LeasesOf(leases, id)
  {
    forall p ensures p in EdgesFrom(OtherEdges(edges, ids), id) <==> p in EdgesFrom(edges, id) {
      if p in EdgesFrom(edges, id) {
        assert (id, p.0, p.1) in OtherEdges(edges, ids);
      }
    }
  }

  lemma BuriedElsewhere(retired: map<RequestId, Tombstone>, turns: map<RequestId, TurnRow>,
                        ids: set<RequestId>, id: RequestId)
    requires id !in ids
    ensures var all := Buried(retired, turns, ids);
            (id in all <==> id in retired) && (id in retired ==> all[id] == retired[id])
  {}

  /** A request that is not retired keeps every one of its rows. */
  lemma RecordKept(db: Db, ids: set<RequestId>, id: RequestId)
    requires id in db.turns && id !in ids
    ensures id in Retire(db, ids).turns && RecordOf(Retire(db, ids), id) == RecordOf(db, id)
  {
    hide Rest, Part, EdgesFrom, LeasesOf, OtherEdges, OtherLeases, Buried;
    PartKept(db.tools, ids, id);
    PartKept(db.models, ids, id);
    PartKept(db.responses, ids, id);
    PartKept(db.basis, ids, id);
    OthersKept(db.provenance, db.leases, ids, id);
    BuriedElsewhere(db.retired, db.turns, ids, id);
  }

  ghost function Records(db: Db, order: seq<RequestId>): (records: seq<Record>)
    requires forall id :: id in order ==> id in db.turns
  {
    seq(|order|, i requires 0 <= i < |order| => RecordOf(db, order[i]))
  }

  ghost function Ids(order: seq<RequestId>): set<RequestId> {
    set id | id in order
  }

  /** Conservation: the journal loses exactly the rows the dry run counted. */
  lemma {:induction false} RowsRemoved(db: Db, order: seq<RequestId>)
    requires forall i :: 0 <= i < |order| ==> order[i] in db.turns
    requires Distinct(order)
    ensures RowCounts(db) == Plus(RowCounts(Retire(db, Ids(order))), Total(Records(db, order)))
    decreases |order|
  {
    hide Retire, RecordOf, RowCounts, RecordCounts;
    if order == [] {
      assert Ids(order) == {};
      RetireNone(db);
    } else {
      var n := |order| - 1;
      var front, id := order[..n], order[n];
      RowsRemoved(db, front);
      RecordKept(db, Ids(front), id);
      OneRemoved(Retire(db, Ids(front)), id);
      RetireThen(db, Ids(front), {id});
      assert Ids(order) == Ids(front) + {id};
      assert Records(db, order)[..n] == Records(db, front);
    }
  }

  // What applying a plan does.

  ghost function PlannedIds(plan: Plan): set<RequestId> {
    set r | r in plan.records :: r.id
  }

  lemma DistinctOrder(db: Db, ids: set<RequestId>)
    requires forall id :: id in ids ==> id in db.turns
    ensures Distinct(InRowOrder(db, ids))
  {
    var order := InRowOrder(db, ids);
    assert Ids(order) == ids;
    DistinctBySize(order);
  }

  lemma OneMoreDistinct(front: seq<RequestId>, id: RequestId)
    requires Distinct(front) && id !in front
    ensures Distinct(front + [id])
  {}

  lemma IdsStep(front: seq<RequestId>, id: RequestId)
    ensures Ids(front + [id]) == Ids(front) + {id}
    ensures id in Ids(front) <==> id in front
  {}

  lemma {:induction false} DistinctBySize(order: seq<RequestId>)
    ensures |Ids(order)| <= |order|
    ensures |Ids(order)| == |order| ==> Distinct(order)
    decreases |order|
  {
    hide Ids, Distinct;
    if order != [] {
      var n := |order| - 1;
      var front, id := order[..n], order[n];
      assert order == front + [id];
      DistinctBySize(front);
      IdsStep(front, id);
      if id !in front && Distinct(front) {
        OneMoreDistinct(front, id);
      }
    } else {
      NoIds();
    }
  }

  lemma NoIds()
    ensures Ids([]) == {} && Distinct<RequestId>([])
  {}

  /** The plan of a state, spelled out. */
  ghost predicate Plans(plan: Plan, cutoff: int, order: seq<RequestId>, db: Db) {
    && plan.cutoff == cutoff && |plan.records| == |order|
    && forall i :: 0 <= i < |order| ==> order[i] in db.turns && plan.records[i] == RecordOf(db, order[i])
  }

  lemma PlanSpelled(db: Db, cutoff: int)
    ensures Plans(PlanOf(db, cutoff), cutoff, InRowOrder(db, Candidates(db, cutoff)), db)
  {
    hide Candidate, RecordOf;
  }

  lemma SpelledIds(plan: Plan, cutoff: int, order: seq<RequestId>, db: Db)
    requires Plans(plan, cutoff, order, db)
    ensures PlannedIds(plan) == Ids(order)
    ensures forall r :: r in plan.records ==> r.id in db.turns && r == RecordOf(db, r.id)
  {
    hide RecordOf;
    forall id | id in order ensures id in PlannedIds(plan) {
      var i :| 0 <= i < |order| && order[i] == id;
      assert plan.records[i].id == id;
    }
  }

  lemma PlannedAreCandidates(db: Db, cutoff: int)
    ensures PlannedIds(PlanOf(db, cutoff)) == Candidates(db, cutoff)
    ensures |PlanOf(db, cutoff).records| == |Candidates(db, cutoff)|
    ensures forall r :: r in PlanOf(db, cutoff).records ==> r.id in db.turns && r == RecordOf(db, r.id)
  {
    hide Candidate, RecordOf, PlanOf, PlannedIds;
    var order := InRowOrder(db, Candidates(db, cutoff));
    PlanSpelled(db, cutoff);
    SpelledIds(PlanOf(db, cutoff), cutoff, order, db);
    assert Ids(order) == Candidates(db, cutoff);
  }

  /** Applying a plan removes exactly the rows its dry run counted. */
  lemma RemovesWhatWasCounted(db: Db, plan: Plan)
    requires ApplyRetention(db, plan).Ok?
    ensures RowCounts(db) == Plus(RowCounts(ApplyRetention(db, plan).db), Total(plan.records))
  {
    hide RowCounts, Retire, Candidate, RecordOf;
    var ids := Candidates(db, plan.cutoff);
    var order := InRowOrder(db, ids);
    DistinctOrder(db, ids);
    RowsRemoved(db, order);
    assert Ids(order) == ids;
    assert Records(db, order) == plan.records;
  }

  /** Each planned request is replaced by one tombstone with its fingerprint and outcome; every
      other request keeps all its rows; and no evidence, fact, task or clock is touched. */
  lemma LeavesTheRest(db: Db, plan: Plan)
    requires TurnTable(db) && ApplyRetention(db, plan).Ok?
    ensures var d := ApplyRetention(db, plan).db;
            && (forall r :: r in plan.records ==>
                  r.id in d.retired && d.retired[r.id] == Tombstone(r.request, r.status) && r.id !in d.turns)
            && |d.retired| == |db.retired| + |plan.records|
            && (forall id :: id in db.retired ==> id in d.retired && d.retired[id] == db.retired[id])
            && (forall id :: id in db.turns && id !in PlannedIds(plan) ==>
                  id in d.turns && RecordOf(d, id) == RecordOf(db, id))
            && d == db.(turns := d.turns, retired := d.retired, tools := d.tools, models := d.models,
                        responses := d.responses, basis := d.basis, provenance := d.provenance,
                        leases := d.leases)
  {
    hide RecordOf, Candidate, PlanOf, Rest, OtherEdges, OtherLeases;
    PlannedAreCandidates(db, plan.cutoff);
    var ids := Candidates(db, plan.cutoff);
    BuriedCounts(db.retired, db.turns, ids);
    forall id | id in db.turns && id !in ids
      ensures id in Retire(db, ids).turns && RecordOf(Retire(db, ids), id) == RecordOf(db, id)
    {
      RecordKept(db, ids, id);
    }
  }

  lemma BuriedCounts(retired: map<RequestId, Tombstone>, turns: map<RequestId, TurnRow>, ids: set<RequestId>)
    requires forall id :: id in ids ==> id in turns && id !in retired
    ensures |Buried(retired, turns, ids)| == |retired| + |ids|
    ensures forall id :: id in ids ==> Buried(retired, turns, ids)[id] == Tombstone(turns[id].request, turns[id].status)
  {
    SetSplits(Buried(retired, turns, ids).Keys, retired.Keys, ids);
  }

  /** Pending turns and turns with an unresolved tool are never planned, nor are recent ones. */
  lemma Protects(db: Db, cutoff: int, id: RequestId)
    requires id in db.turns
    ensures id in PlannedIds(PlanOf(db, cutoff)) <==>
            && db.turns[id].status != Pending
            && (forall call :: (id, call) in db.tools ==> db.tools[(id, call)].Completed?)
            && db.turns[id].updatedAt < cutoff
  {
    PlannedAreCandidates(db, cutoff);
    if StartedCalls(db, id) == {} {
      forall call | (id, call) in db.tools ensures db.tools[(id, call)].Completed? {
        assert (id, call) !in StartedCalls(db, id);
      }
    } else {
      var k := Pick(StartedCalls(db, id));
      assert k == (id, k.1);
    }
  }

  /** After a plan is applied there is nothing left to retire at the same cutoff, and applying
      the same plan again is refused unless it was empty. */
  lemma NothingLeft(db: Db, plan: Plan)
    requires ApplyRetention(db, plan).Ok?
    ensures PlanOf(ApplyRetention(db, plan).db, plan.cutoff).records == []
    ensures ApplyRetention(ApplyRetention(db, plan).db, plan).Ok? <==> plan.records == []
  {
    hide PlanOf, RecordOf;
    var d := ApplyRetention(db, plan).db;
    var ids := Candidates(db, plan.cutoff);
    forall id | id in d.turns ensures !Candidate(d, plan.cutoff, id) {
      assert id !in ids;
      StartedKept(db, ids, id);
    }
    assert Candidates(d, plan.cutoff) == {};
    PlannedAreCandidates(d, plan.cutoff);
    PlanCutoff(db, plan.cutoff);
    PlanCutoff(d, plan.cutoff);
  }

  lemma PlanCutoff(db: Db, cutoff: int)
    ensures PlanOf(db, cutoff).cutoff == cutoff
  {}

  lemma StartedKept(db: Db, ids: set<RequestId>, id: RequestId)
    requires id !in ids
    ensures StartedCalls(Retire(db, ids), id) == StartedCalls(db, id)
  {}

  lemma SamePlan(a: Plan, b: Plan, cutoff: int, order: seq<RequestId>, other: seq<RequestId>, earlier: Db, db: Db)
    requires Plans(a, cutoff, order, earlier) && Plans(b, cutoff, other, db)
    ensures a == b <==>
            && order == other
            && forall id :: id in order ==>
                id in db.turns && id in earlier.turns && RecordOf(db, id) == RecordOf(earlier, id)
  {
    hide RecordOf;
    if a == b {
      assert |order| == |other|;
      assert forall i :: 0 <= i < |order| ==> order[i] == other[i];
    }
    if order == other && forall id :: id in order ==>
        id in db.turns && id in earlier.turns && RecordOf(db, id) == RecordOf(earlier, id) {
      assert forall i :: 0 <= i < |order| ==> order[i] in order && a.records[i] == b.records[i];
    }
  }

  /** A dry run's plan is accepted later exactly when the same turns qualify, in the same order,
      and no row of any of them has changed. */
  lemma AcceptedIffUnchanged(earlier: Db, db: Db, cutoff: int)
    ensures ApplyRetention(db, PlanOf(earlier, cutoff)).Ok? <==>
            && InRowOrder(db, Candidates(db, cutoff)) == InRowOrder(earlier, Candidates(earlier, cutoff))
            && forall id :: id in Candidates(earlier, cutoff) ==>
                 id in db.turns && RecordOf(db, id) == RecordOf(earlier, id)
  {
    hide RecordOf, Plans, PlanOf, Candidate, Retire;
    PlanSpelled(db, cutoff);
    PlanSpelled(earlier, cutoff);
    PlanCutoff(earlier, cutoff);
    SamePlan(PlanOf(earlier, cutoff), PlanOf(db, cutoff), cutoff, InRowOrder(earlier, Candidates(earlier, cutoff)),
             InRowOrder(db, Candidates(db, cutoff)), earlier, db);
  }

  // What a record holds.

  /** One request's rows are the same in both tables. */
  ghost predicate SameRows<K(!new), V>(a: map<(RequestId, K), V>, b: map<(RequestId, K), V>, id: RequestId) {
    forall k: K :: ((id, k) in a <==> (id, k) in b) && ((id, k) in a ==> a[(id, k)] == b[(id, k)])
  }

  lemma PartIsRows<K(!new), V>(a: map<(RequestId, K), V>, b: map<(RequestId, K), V>, id: RequestId)
    ensures Part(a, id) == Part(b, id) <==> SameRows(a, b, id)
  {
    PartHas(a, id);
    PartHas(b, id);
    if SameRows(a, b, id) {
      assert Part(a, id).Keys == Part(b, id).Keys;
    }
    if Part(a, id) == Part(b, id) {
      forall k: K ensures ((id, k) in a <==> (id, k) in b) && ((id, k) in a ==> a[(id, k)] == b[(id, k)]) {
        assert (id, k) in a <==> k in Part(a, id);
        assert (id, k) in b <==> k in Part(b, id);
      }
    }
  }

  lemma PartHas<K(!new), V>(m: map<(RequestId, K), V>, id: RequestId)
    ensures forall k: K :: k in Part(m, id) <==> (id, k) in m
    ensures forall k: K :: k in Part(m, id) ==> Part(m, id)[k] == m[(id, k)]
  {
    forall k: K ensures k in Part(m, id) <==> (id, k) in m {
      if (id, k) in m {
        assert (id, k).0 == id && (id, k).1 == k;
      }
    }
  }

  /** Two records of a request are equal if and only if every journal row of it is the same: its turn row but
      for the rowid, its tools, model calls, responses and basis, its provenance, leases and tombstone. */
  lemma RecordIsRows(a: Db, b: Db, id: RequestId)
    requires id in a.turns && id in b.turns
    ensures RecordOf(a, id) == RecordOf(b, id) <==>
              && a.turns[id].(rowid := 0) == b.turns[id].(rowid := 0)
              && SameRows(a.tools, b.tools, id) && SameRows(a.models, b.models, id)
              && SameRows(a.responses, b.responses, id) && SameRows(a.basis, b.basis, id)
              && (forall e, k :: (id, e, k) in a.provenance <==> (id, e, k) in b.provenance)
              && (forall l: Lease :: l.request == id ==> (l in a.leases <==> l in b.leases))
              && (id in a.retired <==> id in b.retired) && (id in a.retired ==> a.retired[id] == b.retired[id])
  {
    hide Part, SameRows, EdgesFrom, LeasesOf;
    PartIsRows(a.tools, b.tools, id);
    PartIsRows(a.models, b.models, id);
    PartIsRows(a.responses, b.responses, id);
    PartIsRows(a.basis, b.basis, id);
    EdgesAreRows(a.provenance, b.provenance, id);
    LeasesAreRows(a.leases, b.leases, id);
  }

  lemma EdgesAreRows(a: set<(RequestId, MessageId, Kind)>, b: set<(RequestId, MessageId, Kind)>, id: RequestId)
    ensures EdgesFrom(a, id) == EdgesFrom(b, id) <==> forall e, k :: (id, e, k) in a <==> (id, e, k) in b
  {
    if forall e, k :: (id, e, k) in a <==> (id, e, k) in b {
      forall x ensures x in EdgesFrom(a, id) <==> x in EdgesFrom(b, id) {
        EdgeHas(a, id, x.0, x.1);
        EdgeHas(b, id, x.0, x.1);
      }
    }
    if EdgesFrom(a, id) == EdgesFrom(b, id) {
      forall e, k ensures (id, e, k) in a <==> (id, e, k) in b {
        EdgeHas(a, id, e, k);
        EdgeHas(b, id, e, k);
      }
    }
  }

  lemma EdgeHas(edges: set<(RequestId, MessageId, Kind)>, id: RequestId, e: MessageId, k: Kind)
    ensures (e, k) in EdgesFrom(edges, id) <==> (id, e, k) in edges
  {
    if (id, e, k) in edges {
      var x := (id, e, k);
      assert x in edges && x.0 == id && (x.1, x.2) == (e, k);
    }
  }

  lemma LeasesAreRows(a: set<Lease>, b: set<Lease>, id: RequestId)
    ensures LeasesOf(a, id) == LeasesOf(b, id) <==> forall l: Lease :: l.request == id ==> (l in a <==> l in b)
  {
    assert forall l: Lease :: l in LeasesOf(a, id) <==> l in a && l.request == id;
    assert forall l: Lease :: l in LeasesOf(b, id) <==> l in b && l.request == id;
  }
}
