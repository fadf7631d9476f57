/** The retention pass statement by statement: scan, fingerprint, and the deletes of an apply. */
module RetentionScan {
  import opened Common
  import opened JournalState
  import opened Retention
  import opened JournalRuns
  import opened RowScan
  import opened RetentionPass

  /** What the scan of the turn table has counted so far. */
  datatype Tally = Tally(pending: int, unresolved: int, rows: Counts, tombstones: int, ids: seq<RequestId>)

  function ChildCounts(db: Db, id: RequestId): Counts {
    Counts(0, |Part(db.tools, id)|, |Part(db.models, id)|, |Part(db.responses, id)|, |Part(db.basis, id)|,
           |EdgesFrom(db.provenance, id)|, |LeasesOf(db.leases, id)|)
  }

  /** One row of the scan. */
  function Consider(db: Db, cutoff: int, t: Tally, row: TurnRow): Walk<Tally> {
    var id := row.request.id;
    if row.status == Pending then Walk(t.(pending := t.pending + 1), None)
    else if StartedCalls(db, id) != {} then Walk(t.(unresolved := t.unresolved + 1), None)
    else if !(row.updatedAt < cutoff) then Walk(t, None)
    else
      var counted := Plus(t.rows, ChildCounts(db, id));
      Walk(t.(rows := counted.(turns := counted.turns + 1), tombstones := t.tombstones + 1, ids := t.ids + [id]),
           None)
  }

  function Visitor(db: Db, cutoff: int): (Tally, TurnRow) -> Walk<Tally> {
    (t, row) => Consider(db, cutoff, t, row)
  }

  /** Rows of the turn table, each under its own id, without repetition. */
  ghost predicate TurnRows(db: Db, rows: seq<TurnRow>) {
    && (forall i :: 0 <= i < |rows| ==> rows[i].request.id in db.turns && db.turns[rows[i].request.id] == rows[i])
    && (forall i, j :: 0 <= i < j < |rows| ==> rows[i].rowid < rows[j].rowid)
  }

  ghost function PendingRows(rows: seq<TurnRow>): set<TurnRow> {
    set row | row in rows && row.status == Pending
  }

  ghost function UnresolvedRows(db: Db, rows: seq<TurnRow>): set<TurnRow> {
    set row | row in rows && row.status != Pending && StartedCalls(db, row.request.id) != {}
  }

  ghost function Chosen(db: Db, cutoff: int, rows: seq<TurnRow>): seq<RequestId>
    decreases |rows|
  {
    if rows == [] then []
    else
      var rest := Chosen(db, cutoff, rows[1..]);
      if Candidate(db, cutoff, rows[0].request.id) then [rows[0].request.id] + rest else rest
  }

  ghost function RowIds(rows: seq<TurnRow>): set<RequestId> {
    set row | row in rows :: row.request.id
  }

  lemma RowIdsStep(rows: seq<TurnRow>)
    requires rows != []
    ensures RowIds(rows) == {rows[0].request.id} + RowIds(rows[1..])
  {
    assert rows == [rows[0]] + rows[1..];
  }

  ghost predicate Rising(db: Db, ids: seq<RequestId>) {
    && (forall i :: 0 <= i < |ids| ==> ids[i] in db.turns)
    && (forall i, j :: 0 <= i < j < |ids| ==> db.turns[ids[i]].rowid < db.turns[ids[j]].rowid)
  }

  lemma {:induction false} ChosenAreRows(db: Db, cutoff: int, rows: seq<TurnRow>)
    requires TurnRows(db, rows)
    ensures forall id :: id in Chosen(db, cutoff, rows) <==> Candidate(db, cutoff, id) && id in RowIds(rows)
    ensures Rising(db, Chosen(db, cutoff, rows))
    decreases |rows|
  {
    hide Candidate, RowIds;
    if rows == [] {
      assert RowIds(rows) == {} by { NoRowIds(); }
    } else {
      ChosenAreRows(db, cutoff, rows[1..]);
      RowIdsStep(rows);
      var rest := Chosen(db, cutoff, rows[1..]);
      forall i | 0 <= i < |rest| ensures db.turns[rest[i]].rowid > rows[0].rowid {
        assert rest[i] in rest && rest[i] in RowIds(rows[1..]);
        var row := RowOf(rows[1..], rest[i]);
      }
    }
  }

  lemma NoRowIds()
    ensures RowIds([]) == {}
  {}

  lemma RowOf(rows: seq<TurnRow>, id: RequestId) returns (i: nat)
    requires id in RowIds(rows)
    ensures i < |rows| && rows[i].request.id == id
  {
    var row :| row in rows && row.request.id == id;
    i :| 0 <= i < |rows| && rows[i] == row;
  }

  lemma FirstIsIn(s: seq<RequestId>)
    ensures s == [] || s[0] in s
  {}

  /** Two listings of the same requests in strictly rising rowid order are the same listing. */
  lemma {:induction false} OneRisingOrder(db: Db, a: seq<RequestId>, b: seq<RequestId>)
    requires Rising(db, a) && Rising(db, b) && forall id :: id in a <==> id in b
    ensures a == b
    decreases |a|
  {
    if a == [] {
      FirstIsIn(b);
    } else {
      assert a[0] in a && a[0] in b;
      assert b[0] in b && b[0] in a;
      var i :| 0 <= i < |b| && b[i] == a[0];
      var j :| 0 <= j < |a| && a[j] == b[0];
      assert i == 0 && j == 0;
      forall id ensures id in a[1..] <==> id in b[1..] {
        assert a == [a[0]] + a[1..] && b == [b[0]] + b[1..];
        if id in a[1..] {
          var k :| 0 <= k < |a[1..]| && a[1..][k] == id;
          assert a[k + 1] == id && id != a[0] && id in a && id in b;
        }
        if id in b[1..] {
          var k :| 0 <= k < |b[1..]| && b[1..][k] == id;
          assert b[k + 1] == id && id != b[0] && id in b && id in a;
        }
      }
      OneRisingOrder(db, a[1..], b[1..]);
    }
  }

  // What the scan adds up to.

  lemma {:induction false} TotalStep(first: Record, rest: seq<Record>)
    ensures Total([first] + rest) == Plus(RecordCounts(first), Total(rest))
    decreases |rest|
  {
    hide RecordCounts;
    if rest == [] {
      assert ([first] + rest)[..0] == [];
    } else {
      var n := |rest| - 1;
      TotalStep(first, rest[..n]);
      assert ([first] + rest)[..n + 1] == [first] + rest[..n];
    }
  }

  lemma ChildrenOfRecord(db: Db, id: RequestId)
    requires id in db.turns
    ensures var c := ChildCounts(db, id); c.(turns := c.turns + 1) == RecordCounts(RecordOf(db, id))
  {
    hide Part, EdgesFrom, LeasesOf;
  }

  /** What one row adds to the tally. */
  ghost function Added(db: Db, cutoff: int, t: Tally, row: TurnRow): Tally
    requires row.request.id in db.turns
  {
    var id := row.request.id;
    if Candidate(db, cutoff, id) then
      t.(rows := Plus(t.rows, RecordCounts(RecordOf(db, id))), tombstones := t.tombstones + 1, ids := t.ids + [id])
    else
      t.(pending := t.pending + |PendingRows([row])|, unresolved := t.unresolved + |UnresolvedRows(db, [row])|)
  }

  lemma ConsiderAdds(db: Db, cutoff: int, t: Tally, row: TurnRow)
    requires row.request.id in db.turns && db.turns[row.request.id] == row
    ensures Consider(db, cutoff, t, row) == Walk(Added(db, cutoff, t, row), None)
  {
    hide StartedCalls, ChildCounts, RecordOf, RecordCounts;
    ChildrenOfRecord(db, row.request.id);
    assert PendingRows([row]) == if row.status == Pending then {row} else {};
    assert UnresolvedRows(db, [row])
      == if row.status != Pending && StartedCalls(db, row.request.id) != {} then {row} else {};
  }

  lemma RowSetsStep(db: Db, cutoff: int, row: TurnRow, rest: seq<TurnRow>)
    requires row !in rest
    ensures |PendingRows([row] + rest)| == |PendingRows([row])| + |PendingRows(rest)|
    ensures |UnresolvedRows(db, [row] + rest)| == |UnresolvedRows(db, [row])| + |UnresolvedRows(db, rest)|
    ensures row.request.id in db.turns && db.turns[row.request.id] == row && Candidate(db, cutoff, row.request.id)
            ==> PendingRows([row]) == {} && UnresolvedRows(db, [row]) == {}
  {
    hide StartedCalls;
    SetSplits(PendingRows([row] + rest), PendingRows([row]), PendingRows(rest));
    SetSplits(UnresolvedRows(db, [row] + rest), UnresolvedRows(db, [row]), UnresolvedRows(db, rest));
  }

  /** The tally after the rows, given the tally before. */
  ghost function Scanned(db: Db, cutoff: int, t: Tally, rows: seq<TurnRow>): Tally
    requires TurnRows(db, rows)
  {
    ChosenAreRows(db, cutoff, rows);
    var chosen := Chosen(db, cutoff, rows);
    Tally(t.pending + |PendingRows(rows)|, t.unresolved + |UnresolvedRows(db, rows)|,
          Plus(t.rows, Total(Records(db, chosen))), t.tombstones + |chosen|, t.ids + chosen)
  }

  lemma ScannedStep(db: Db, cutoff: int, t: Tally, rows: seq<TurnRow>)
    requires TurnRows(db, rows) && rows != []
    ensures Scanned(db, cutoff, t, rows) == Scanned(db, cutoff, Added(db, cutoff, t, rows[0]), rows[1..])
  {
    hide Candidate, RecordOf, RecordCounts, PendingRows, UnresolvedRows, Total, Records, StartedCalls;
    var row, rest := rows[0], rows[1..];
    assert rows == [row] + rest && row !in rest;
    RowSetsStep(db, cutoff, row, rest);
    ChosenAreRows(db, cutoff, rows);
    ChosenAreRows(db, cutoff, rest);
    if Candidate(db, cutoff, row.request.id) {
      ChosenTotal(db, row.request.id, Chosen(db, cutoff, rest));
    }
  }

  lemma ChosenTotal(db: Db, id: RequestId, chosen: seq<RequestId>)
    requires id in db.turns && forall x :: x in chosen ==> x in db.turns
    ensures Total(Records(db, [id] + chosen)) == Plus(RecordCounts(RecordOf(db, id)), Total(Records(db, chosen)))
  {
    hide RecordOf, RecordCounts, Total;
    assert Records(db, [id] + chosen) == [RecordOf(db, id)] + Records(db, chosen);
    TotalStep(RecordOf(db, id), Records(db, chosen));
  }

  lemma {:induction false} TallyMeans(db: Db, cutoff: int, rows: seq<TurnRow>, t: Tally)
    requires TurnRows(db, rows)
    ensures Fold(rows, Visitor(db, cutoff), t) == Walk(Scanned(db, cutoff, t, rows), None)
    decreases |rows|
  {
    hide Consider, Added, Scanned, Candidate;
    if rows == [] {
      NothingScanned(db, cutoff, t);
    } else {
      ConsiderAdds(db, cutoff, t, rows[0]);
      ScannedStep(db, cutoff, t, rows);
      TallyMeans(db, cutoff, rows[1..], Added(db, cutoff, t, rows[0]));
    }
  }

  lemma NothingScanned(db: Db, cutoff: int, t: Tally)
    ensures Scanned(db, cutoff, t, []) == t
  {
    assert PendingRows([]) == {} && UnresolvedRows(db, []) == {};
  }

  // The scan of a whole database.

  type Turns = map<RequestId, TurnRow>

  ghost predicate OwnRowids(turns: Turns) {
    && (forall id :: id in turns ==> turns[id].request.id == id)
    && (forall a, b {:trigger turns[a].rowid, turns[b].rowid} ::
          a in turns && b in turns && a != b ==> turns[a].rowid != turns[b].rowid)
  }

  function Everywhere(row: TurnRow): bool {
    true
  }

  /** The turn table by rowid. */
  function ByRowid(turns: Turns): map<int, TurnRow>
    requires OwnRowids(turns)
  {
    map id | id in turns :: turns[id].rowid := turns[id]
  }

  function AllRows(db: Db): seq<TurnRow>
    requires OwnRowids(db.turns)
  {
    RowsOf(ByRowid(db.turns), Matching(ByRowid(db.turns), Everywhere))
  }

  /** `table` holds each turn once, under its rowid. */
  ghost predicate Tabulates(turns: Turns, table: map<int, TurnRow>) {
    && (forall k :: k in table ==> table[k].rowid == k && table[k].request.id in turns
                                   && turns[table[k].request.id] == table[k])
    && (forall id :: id in turns ==> turns[id].rowid in table && table[turns[id].rowid].request.id == id)
  }

  lemma ByRowidTabulates(turns: Turns)
    requires OwnRowids(turns)
    ensures Tabulates(turns, ByRowid(turns))
  {
    var table := ByRowid(turns);
    forall k | k in table
      ensures table[k].rowid == k && table[k].request.id in turns && turns[table[k].request.id] == table[k]
    {
      var id :| id in turns && turns[id].rowid == k;
      assert table[turns[id].rowid] == turns[id];
    }
  }

  /** `rows` lists the table in rowid order. */
  ghost predicate Lists(table: map<int, TurnRow>, rows: seq<TurnRow>, order: seq<int>) {
    && |rows| == |order|
    && (forall i :: 0 <= i < |rows| ==> order[i] in table && rows[i] == table[order[i]])
    && (forall i, j :: 0 <= i < j < |rows| ==> order[i] < order[j])
    && (forall k :: k in table ==> k in order)
  }

  lemma RowsList(table: map<int, TurnRow>)
    ensures var keys := Matching(table, Everywhere);
            Lists(table, RowsOf(table, keys), Ascending(keys))
  {
    var keys := Matching(table, Everywhere);
    assert keys == table.Keys;
    RowsAscend(table, keys);
    var order := Ascending(keys);
    forall i | 0 <= i < |order| ensures order[i] in table {
      assert order[i] in order;
    }
  }

  lemma ListedIds(turns: Turns, table: map<int, TurnRow>, rows: seq<TurnRow>, order: seq<int>)
    requires Tabulates(turns, table) && Lists(table, rows, order)
    ensures RowIds(rows) == turns.Keys
  {
    forall id | id in turns ensures id in RowIds(rows) {
      var k := turns[id].rowid;
      var i :| 0 <= i < |order| && order[i] == k;
      assert rows[i] in rows && rows[i].request.id == id;
    }
    forall row | row in rows ensures row.request.id in turns {
      var i :| 0 <= i < |rows| && rows[i] == row;
    }
  }

  lemma ListedRows(db: Db, table: map<int, TurnRow>, rows: seq<TurnRow>, order: seq<int>)
    requires Tabulates(db.turns, table) && Lists(table, rows, order)
    ensures TurnRows(db, rows)
  {}

  lemma AllRowsAreTurns(db: Db)
    requires OwnRowids(db.turns)
    ensures TurnRows(db, AllRows(db))
    ensures RowIds(AllRows(db)) == db.turns.Keys
  {
    hide Tabulates, Lists, TurnRows, RowIds, OwnRowids, ByRowid;
    var table := ByRowid(db.turns);
    var order := Ascending(Matching(table, Everywhere));
    ByRowidTabulates(db.turns);
    RowsList(table);
    ListedIds(db.turns, table, AllRows(db), order);
    ListedRows(db, table, AllRows(db), order);
  }

  /** What a dry run reports: which turns qualify, in rowid order; how many turns are protected,
      and why; and how many rows of each table an apply will remove. */
  ghost predicate Reports(db: Db, cutoff: int, tally: Tally) {
    && tally.ids == InRowOrder(db, Candidates(db, cutoff))
    && tally.pending == |set row | row in db.turns.Values && row.status == Pending|
    && tally.unresolved == |set row | row in db.turns.Values && row.status != Pending
                                      && StartedCalls(db, row.request.id) != {}|
    && tally.rows == Total(PlanOf(db, cutoff).records)
    && tally.tombstones == |PlanOf(db, cutoff).records|
  }

  const EMPTY_TALLY := Tally(0, 0, NO_ROWS, 0, [])

  /** The dry run. */
  method Scan(db: Db, cutoff: int) returns (tally: Tally)
    requires OwnRowids(db.turns)
    ensures Reports(db, cutoff, tally)
  {
    hide Reports, ByRowid, OwnRowids, Fold, Visitor;
    var walk := EachRow(ByRowid(db.turns), Everywhere, Visitor(db, cutoff), EMPTY_TALLY);
    tally := walk.state;
    AllRowsAreTurns(db);
    TallyMeans(db, cutoff, AllRows(db), EMPTY_TALLY);
    ScanMeans(db, cutoff, AllRows(db));
  }

  lemma ChosenInOrder(db: Db, cutoff: int, rows: seq<TurnRow>)
    requires OwnRowids(db.turns) && TurnRows(db, rows) && RowIds(rows) == db.turns.Keys
    ensures Chosen(db, cutoff, rows) == InRowOrder(db, Candidates(db, cutoff))
  {
    hide StartedCalls, RowIds, TurnRows, Rising, OwnRowids;
    ChosenAreRows(db, cutoff, rows);
    RisingCandidates(db, cutoff);
    OneRisingOrder(db, Chosen(db, cutoff, rows), InRowOrder(db, Candidates(db, cutoff)));
  }

  lemma ScanMeans(db: Db, cutoff: int, rows: seq<TurnRow>)
    requires OwnRowids(db.turns) && TurnRows(db, rows) && RowIds(rows) == db.turns.Keys
    ensures Reports(db, cutoff, Scanned(db, cutoff, EMPTY_TALLY, rows))
  {
    hide StartedCalls, Candidates, Total, PlanOf, RowIds, PendingRows, UnresolvedRows, TurnRows, OwnRowids;
    hide Chosen, Records, Plus;
    ChosenInOrder(db, cutoff, rows);
    PlanRecords(db, cutoff);
    RowValues(db, rows);
    NothingPlus(Total(PlanOf(db, cutoff).records));
  }

  lemma NothingPlus(c: Counts)
    ensures Plus(NO_ROWS, c) == c
  {}

  lemma RisingCandidates(db: Db, cutoff: int)
    requires OwnRowids(db.turns)
    ensures Rising(db, InRowOrder(db, Candidates(db, cutoff)))
  {
    hide Candidate, OwnRowids, Distinct, Rising;
    DistinctOrder(db, Candidates(db, cutoff));
    var order := InRowOrder(db, Candidates(db, cutoff));
    StrictlyRising(db, order);
  }

  lemma StrictlyRising(db: Db, order: seq<RequestId>)
    requires OwnRowids(db.turns) && Distinct(order) && forall id :: id in order ==> id in db.turns
    requires forall i, j :: 0 <= i < j < |order| ==> db.turns[order[i]].rowid <= db.turns[order[j]].rowid
    ensures Rising(db, order)
  {
    forall i | 0 <= i < |order| ensures order[i] in db.turns {
      assert order[i] in order;
    }
  }

  lemma PlanRecords(db: Db, cutoff: int)
    ensures PlanOf(db, cutoff).records == Records(db, InRowOrder(db, Candidates(db, cutoff)))
    ensures |PlanOf(db, cutoff).records| == |InRowOrder(db, Candidates(db, cutoff))|
  {
    hide RecordOf, Candidate;
  }

  lemma RowValues(db: Db, rows: seq<TurnRow>)
    requires TurnRows(db, rows) && RowIds(rows) == db.turns.Keys
    ensures PendingRows(rows) == set row | row in db.turns.Values && row.status == Pending
    ensures UnresolvedRows(db, rows) == set row | row in db.turns.Values && row.status != Pending
                                                  && StartedCalls(db, row.request.id) != {}
  {
    hide StartedCalls;
    forall row ensures row in rows <==> row in db.turns.Values {
      if row in db.turns.Values {
        var id :| id in db.turns && db.turns[id] == row;
        var i := RowOf(rows, id);
        assert rows[i] in rows && rows[i] == db.turns[id];
      }
      if row in rows {
        var i :| 0 <= i < |rows| && rows[i] == row;
      }
    }
  }

  // The apply.

  datatype Table = Responses | Models | Tools | Basis | Provenance | Leases | Turns

  /** The order the deletes run in: a row goes before the row it refers to. */
  const APPLY_ORDER: seq<Table> := [Responses, Models, Tools, Basis, Provenance, Leases, Turns]

  predicate Answered(db: Db, id: RequestId) {
    exists k :: k in db.responses && k.0 == id && k in db.models
  }

  predicate HasChildren(db: Db, id: RequestId) {
    || Part(db.tools, id) != map[] || Part(db.models, id) != map[] || Part(db.basis, id) != map[]
    || EdgesFrom(db.provenance, id) != {} || LeasesOf(db.leases, id) != {}
  }

  /** `DELETE FROM table WHERE request_id=?`, refused when it would orphan a row. */
  function DeleteFrom(db: Db, table: Table, id: RequestId): Result {
    match table
    case Responses => Ok(db.(responses := Rest(db.responses, {id})), NoView)
    case Models => if Answered(db, id) then Err(Storage) else Ok(db.(models := Rest(db.models, {id})), NoView)
    case Tools => Ok(db.(tools := Rest(db.tools, {id})), NoView)
    case Basis => Ok(db.(basis := Rest(db.basis, {id})), NoView)
    case Provenance => Ok(db.(provenance := OtherEdges(db.provenance, {id})), NoView)
    case Leases => Ok(db.(leases := OtherLeases(db.leases, {id})), NoView)
    case Turns => if HasChildren(db, id) then Err(Storage) else Ok(db.(turns := db.turns - {id}), NoView)
  }

  function DeleteAll(db: Db, tables: seq<Table>, id: RequestId): Result
    decreases |tables|
  {
    if tables == [] then Ok(db, NoView)
    else
      var first := DeleteFrom(db, tables[0], id);
      if first.Err? then first else DeleteAll(first.db, tables[1..], id)
  }

  function Erased(db: Db, id: RequestId): Db {
    db.(responses := Rest(db.responses, {id}), models := Rest(db.models, {id}), tools := Rest(db.tools, {id}),
        basis := Rest(db.basis, {id}), provenance := OtherEdges(db.provenance, {id}),
        leases := OtherLeases(db.leases, {id}), turns := db.turns - {id})
  }

  lemma RestHasNone<K, V>(m: map<(RequestId, K), V>, id: RequestId)
    ensures Part(Rest(m, {id}), id) == map[]
  {}

  lemma OthersHaveNone(edges: set<(RequestId, MessageId, Kind)>, leases: set<Lease>, id: RequestId)
    ensures EdgesFrom(OtherEdges(edges, {id}), id) == {} && LeasesOf(OtherLeases(leases, {id}), id) == {}
  {}

  /** No foreign key stops the deletes in this order. */
  lemma OrderRespectsReferences(db: Db, id: RequestId)
    ensures DeleteAll(db, APPLY_ORDER, id) == Ok(Erased(db, id), NoView)
  {
    hide Rest, OtherEdges, OtherLeases, HasChildren;
    AnswersGone(db, id);
    RestHasNone(db.models, id);
    var rest := [Tools, Basis, Provenance, Leases, Turns];
    assert APPLY_ORDER[1..] == [Models] + rest && APPLY_ORDER[1..][1..] == rest;
    RestRespectsReferences(db.(responses := Rest(db.responses, {id}), models := Rest(db.models, {id})), id);
  }

  lemma RestRespectsReferences(db: Db, id: RequestId)
    requires Part(db.models, id) == map[]
    ensures DeleteAll(db, [Tools, Basis, Provenance, Leases, Turns], id)
         == Ok(db.(tools := Rest(db.tools, {id}), basis := Rest(db.basis, {id}),
                   provenance := OtherEdges(db.provenance, {id}), leases := OtherLeases(db.leases, {id}),
                   turns := db.turns - {id}), NoView)
  {
    hide Rest, Part, OtherEdges, OtherLeases, EdgesFrom, LeasesOf;
    RestHasNone(db.tools, id);
    RestHasNone(db.basis, id);
    OthersHaveNone(db.provenance, db.leases, id);
    var rest := [Tools, Basis, Provenance, Leases, Turns];
    assert rest[1..] == [Basis, Provenance, Leases, Turns];
    assert rest[1..][1..] == [Provenance, Leases, Turns];
  }

  lemma AnswersGone(db: Db, id: RequestId)
    ensures !Answered(db.(responses := Rest(db.responses, {id})), id)
  {}

  /** The tables whose rows refer to a turn row. */
  predicate HoldsRows(db: Db, table: Table, id: RequestId) {
    match table
    case Tools => Part(db.tools, id) != map[]
    case Models => Part(db.models, id) != map[]
    case Basis => Part(db.basis, id) != map[]
    case Provenance => EdgesFrom(db.provenance, id) != {}
    case Leases => LeasesOf(db.leases, id) != {}
    case _ => false
  }

  /** Whatever refers to a row has been deleted before it. */
  ghost predicate OrderedFor(db: Db, tables: seq<Table>, id: RequestId) {
    forall i :: 0 <= i < |tables| ==>
      && (tables[i] == Turns ==> forall child :: HoldsRows(db, child, id) ==> child in tables[..i])
      && (tables[i] == Models && Answered(db, id) ==> Responses in tables[..i])
  }

  lemma ChildrenHoldRows(db: Db, id: RequestId)
    ensures HasChildren(db, id) <==> exists child :: HoldsRows(db, child, id)
  {
    hide Part, EdgesFrom, LeasesOf;
    assert HoldsRows(db, Tools, id) || HoldsRows(db, Models, id) || HoldsRows(db, Basis, id)
           || HoldsRows(db, Provenance, id) || HoldsRows(db, Leases, id) || !HasChildren(db, id);
  }

  lemma DeleteKeepsOthers(db: Db, table: Table, id: RequestId)
    requires DeleteFrom(db, table, id).Ok?
    ensures var d := DeleteFrom(db, table, id).db;
            && (forall child :: HoldsRows(d, child, id) <==> HoldsRows(db, child, id) && child != table)
            && (Answered(d, id) <==> Answered(db, id) && table != Responses)
  {
    hide Rest, Part, OtherEdges, OtherLeases, EdgesFrom, LeasesOf, HasChildren;
    RestHasNone(db.tools, id);
    RestHasNone(db.models, id);
    RestHasNone(db.basis, id);
    OthersHaveNone(db.provenance, db.leases, id);
    AnswersGone(db, id);
    NoAnswerWithoutRequest(db, id);
  }

  lemma NoAnswerWithoutRequest(db: Db, id: RequestId)
    ensures !Answered(db.(models := Rest(db.models, {id})), id)
  {}

  lemma OrderStep(db: Db, tables: seq<Table>, id: RequestId, d: Db)
    requires tables != []
    requires tables[0] == Turns ==> !HasChildren(db, id)
    requires tables[0] == Models ==> !Answered(db, id)
    requires forall child :: HoldsRows(d, child, id) <==> HoldsRows(db, child, id) && child != tables[0]
    requires Answered(d, id) <==> Answered(db, id) && tables[0] != Responses
    ensures OrderedFor(db, tables, id) <==> OrderedFor(d, tables[1..], id)
  {
    hide HoldsRows, Answered;
    ChildrenHoldRows(db, id);
    var rest := tables[1..];
    forall i, t | 0 <= i < |rest| ensures t in tables[..i + 1] <==> t == tables[0] || t in rest[..i] {
      assert tables[..i + 1] == [tables[0]] + rest[..i];
    }
    if OrderedFor(d, rest, id) {
      forall i | 0 <= i < |tables|
        ensures tables[i] == Turns ==> forall child :: HoldsRows(db, child, id) ==> child in tables[..i]
        ensures tables[i] == Models && Answered(db, id) ==> Responses in tables[..i]
      {
        if i > 0 { assert rest[i - 1] == tables[i]; }
      }
    }
    if OrderedFor(db, tables, id) {
      forall i | 0 <= i < |rest|
        ensures rest[i] == Turns ==> forall child :: HoldsRows(d, child, id) ==> child in rest[..i]
        ensures rest[i] == Models && Answered(d, id) ==> Responses in rest[..i]
      {
        assert tables[i + 1] == rest[i];
      }
    }
  }

  /** Which orders work, exactly: the deletes of a request go through if and only if every table with a
      row that refers to another is deleted before the one it refers to. */
  lemma {:induction false} OrderDecides(db: Db, tables: seq<Table>, id: RequestId)
    ensures DeleteAll(db, tables, id).Ok? <==> OrderedFor(db, tables, id)
    decreases |tables|
  {
    hide HoldsRows, Answered, HasChildren;
    if tables == [] {
    } else {
      var first := DeleteFrom(db, tables[0], id);
      if first.Ok? {
        DeleteKeepsOthers(db, tables[0], id);
        OrderStep(db, tables, id, first.db);
        OrderDecides(first.db, tables[1..], id);
      } else {
        ChildrenHoldRows(db, id);
        assert tables[..0] == [];
        assert !OrderedFor(db, tables, id);
      }
    }
  }

  predicate Converged(db: Db, id: RequestId) {
    && id !in db.turns && !HasChildren(db, id) && Part(db.responses, id) == map[] && id in db.retired
  }

  lemma RetiredConverges(db: Db, id: RequestId)
    requires id in db.turns
    ensures Retire(db, {id}) == Erased(db.(retired := Buried(db.retired, db.turns, {id})), id)
    ensures Converged(Retire(db, {id}), id)
  {
    hide Rest, Part, OtherEdges, OtherLeases, EdgesFrom, LeasesOf;
    RestHasNone(db.tools, id);
    RestHasNone(db.models, id);
    RestHasNone(db.responses, id);
    RestHasNone(db.basis, id);
    OthersHaveNone(db.provenance, db.leases, id);
  }

  /** One candidate: tombstone, deletes, and the convergence check that always passes. */
  method RetireOne(start: Db, id: RequestId) returns (result: Result)
    requires id in start.turns
    ensures result == Ok(Retire(start, {id}), NoView)
  {
    hide DeleteFrom, Retire, Erased, Converged;
    var db := start.(retired := Buried(start.retired, start.turns, {id}));
    OrderRespectsReferences(db, id);
    RetiredConverges(start, id);
    ghost var all := DeleteAll(db, APPLY_ORDER, id);
    for i := 0 to |APPLY_ORDER|
      invariant DeleteAll(db, APPLY_ORDER[i..], id) == all
    {
      assert APPLY_ORDER[i..][1..] == APPLY_ORDER[i + 1..];
      var deleted := DeleteFrom(db, APPLY_ORDER[i], id);
      if deleted.Err? {
        return deleted;
      }
      db := deleted.db;
    }
    if !Converged(db, id) {
      return Err(Integrity);
    }
    result := Ok(db, NoView);
  }

  /** The loop over the candidates. */
  method CarryOut(start: Db, ids: seq<RequestId>) returns (result: Result)
    requires Distinct(ids) && forall id :: id in ids ==> id in start.turns
    ensures result == Ok(Retire(start, Ids(ids)), NoView)
  {
    hide Retire;
    var db := start;
    RetireNone(start);
    assert Ids(ids[..0]) == {};
    for i := 0 to |ids|
      invariant db == Retire(start, Ids(ids[..i]))
    {
      assert ids[i] in ids && ids[..i + 1] == ids[..i] + [ids[i]];
      assert Ids(ids[..i + 1]) == Ids(ids[..i]) + {ids[i]};
      StillListed(start, ids, i);
      RetireThen(start, Ids(ids[..i]), {ids[i]});
      var one := RetireOne(db, ids[i]);
      if one.Err? {
        return one;
      }
      db := one.db;
    }
    assert ids[..|ids|] == ids;
    result := Ok(db, NoView);
  }

  /** Reading every row of the candidates, in one fixed order. */
  method Fingerprint(db: Db, ids: seq<RequestId>) returns (records: seq<Record>)
    requires forall id :: id in ids ==> id in db.turns
    ensures records == Records(db, ids)
  {
    hide RecordOf;
    records := [];
    for i := 0 to |ids|
      invariant |records| == i
      invariant forall j :: 0 <= j < i ==> records[j] == RecordOf(db, ids[j])
    {
      assert ids[i] in ids;
      records := records + [RecordOf(db, ids[i])];
    }
  }

  /** `ApplyRetention`: the plan is recomputed, compared, and only then carried out. */
  method Apply(start: Db, plan: Plan) returns (result: Result)
    requires OwnRowids(start.turns)
    ensures result == ApplyRetention(start, plan)
  {
    hide Candidate, Retire, RecordOf, OwnRowids, Reports, Records, PlanOf;
    var tally := Scan(start, plan.cutoff);
    ReportedIds(start, plan.cutoff, tally);
    PlanRecords(start, plan.cutoff);
    PlanCutoff(start, plan.cutoff);
    var records := Fingerprint(start, tally.ids);
    if Plan(plan.cutoff, records) != plan {
      return Err(StalePlan);
    }
    result := CarryOut(start, tally.ids);
    assert Ids(tally.ids) == Candidates(start, plan.cutoff);
  }

  lemma ReportedIds(db: Db, cutoff: int, tally: Tally)
    requires Reports(db, cutoff, tally)
    ensures tally.ids == InRowOrder(db, Candidates(db, cutoff)) && Distinct(tally.ids)
  {
    hide Candidate;
    DistinctOrder(db, Candidates(db, cutoff));
  }

  lemma StillListed(db: Db, ids: seq<RequestId>, i: nat)
    requires i < |ids| && Distinct(ids) && ids[i] in db.turns
    ensures ids[i] in Retire(db, Ids(ids[..i])).turns
  {
    hide Rest, OtherEdges, OtherLeases, Buried;
  }
}
