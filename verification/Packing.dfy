/** Packing evidence into a bounded context: greedy admission of atoms, with rollback, under a count
    of the whole payload. */
module Packing {
  import opened Common

  /** A stored message, with its JSON record. A citation names its task and its id. */
  datatype Evidence = Evidence(id: int, task: int, json: string)
  datatype Citation = Citation(task: int, id: int)

  /** A current fact revision and the message it rests on. */
  datatype Fact = Fact(json: string, source: Evidence)

  datatype Payload = Payload(evidence: seq<Evidence>, facts: seq<Fact>, title: Option<string>, snapshot: Option<string>)

  /** What is admitted or left out as a whole. */
  datatype Atom = Title(json: string) | Snapshot(json: string) | FactAtom(fact: Fact) | EvidenceAtom(evidence: Evidence)

  type Counter = Payload -> nat

  const BARE := Payload([], [], None, None)

  function Cite(e: Evidence): Citation {
    Citation(e.task, e.id)
  }

  predicate Packed(p: Payload, id: int) {
    exists i :: 0 <= i < |p.evidence| && p.evidence[i].id == id
  }

  /** A fact brings its evidence with it, unless that is packed already. */
  function With(p: Payload, atom: Atom): Payload {
    match atom
    case Title(json) => p.(title := Some(json))
    case Snapshot(json) => p.(snapshot := Some(json))
    case FactAtom(f) =>
      p.(facts := p.facts + [f], evidence := if Packed(p, f.source.id) then p.evidence else p.evidence + [f.source])
    case EvidenceAtom(e) => p.(evidence := p.evidence + [e])
  }

  datatype Pack = Pack(payload: Payload, omitted: seq<Atom>)

  function Admit(count: Counter, allowance: nat, s: Pack, atom: Atom): Pack {
    var next := With(s.payload, atom);
    if count(next) > allowance then s.(omitted := s.omitted + [atom]) else s.(payload := next)
  }

  function AdmitAll(count: Counter, allowance: nat, s: Pack, atoms: seq<Atom>): Pack
    decreases |atoms|
  {
    if atoms == [] then s
    else Admit(count, allowance, AdmitAll(count, allowance, s, atoms[..|atoms| - 1]), atoms[|atoms| - 1])
  }

  /** Search results and recent messages; each id is considered once, and not if a fact brought it. */
  function AdmitCandidates(count: Counter, allowance: nat, s: Pack, from: seq<Evidence>): Pack
    decreases |from|
  {
    if from == [] then s
    else
      var n := |from| - 1;
      var before := AdmitCandidates(count, allowance, s, from[..n]);
      if Packed(s.payload, from[n].id) || SeenId(from[..n], from[n].id) then before
      else Admit(count, allowance, before, EvidenceAtom(from[n]))
  }

  predicate SeenId(from: seq<Evidence>, id: int) {
    exists i :: 0 <= i < |from| && from[i].id == id
  }

  function Mandatory(title: string, snapshot: string, facts: seq<Fact>): seq<Atom> {
    [Title(title), Snapshot(snapshot)] + FactAtoms(facts)
  }

  function FactAtoms(facts: seq<Fact>): seq<Atom> {
    seq(|facts|, i requires 0 <= i < |facts| => FactAtom(facts[i]))
  }

  function PackAll(count: Counter, allowance: nat, title: string, snapshot: string, facts: seq<Fact>,
                   candidates: seq<Evidence>): Pack
  {
    AdmitCandidates(count, allowance,
                    AdmitAll(count, allowance, Pack(BARE, []), Mandatory(title, snapshot, facts)), candidates)
  }

  // Soundness, for any counter.

  /** No evidence twice, and no fact without its evidence. */
  ghost predicate Sound(p: Payload) {
    && (forall i, j :: 0 <= i < j < |p.evidence| ==> p.evidence[i].id != p.evidence[j].id)
    && (forall i :: 0 <= i < |p.facts| ==> Packed(p, p.facts[i].source.id))
  }

  lemma WithSound(p: Payload, atom: Atom)
    requires Sound(p) && (atom.EvidenceAtom? ==> !Packed(p, atom.evidence.id))
    ensures Sound(With(p, atom))
    ensures forall id :: Packed(p, id) ==> Packed(With(p, atom), id)
  {
    var q := With(p, atom);
    forall id | Packed(p, id) ensures Packed(q, id) {
      var i :| 0 <= i < |p.evidence| && p.evidence[i].id == id;
      assert q.evidence[i].id == id;
    }
    if atom.FactAtom? && !Packed(p, atom.fact.source.id) {
      assert q.evidence[|p.evidence|].id == atom.fact.source.id;
    }
  }

  ghost predicate Fits(count: Counter, allowance: nat, s: Pack) {
    Sound(s.payload) && count(s.payload) <= allowance
  }

  lemma {:induction false} AllSound(count: Counter, allowance: nat, s: Pack, atoms: seq<Atom>)
    requires Fits(count, allowance, s) && forall a :: a in atoms ==> !a.EvidenceAtom?
    ensures Fits(count, allowance, AdmitAll(count, allowance, s, atoms))
    decreases |atoms|
  {
    if atoms == [] {
    } else {
      var n := |atoms| - 1;
      AllSound(count, allowance, s, atoms[..n]);
      WithSound(AdmitAll(count, allowance, s, atoms[..n]).payload, atoms[n]);
    }
  }

  lemma {:induction false} CandidatesSound(count: Counter, allowance: nat, s: Pack, from: seq<Evidence>)
    requires Fits(count, allowance, s)
    ensures var r := AdmitCandidates(count, allowance, s, from);
            && Fits(count, allowance, r)
            && forall id :: Packed(r.payload, id) ==> Packed(s.payload, id) || SeenId(from, id)
    decreases |from|
  {
    if from == [] {
    } else {
      var n := |from| - 1;
      var e := from[n];
      CandidatesSound(count, allowance, s, from[..n]);
      var before := AdmitCandidates(count, allowance, s, from[..n]);
      if !Packed(s.payload, e.id) && !SeenId(from[..n], e.id) {
        WithSound(before.payload, EvidenceAtom(e));
      }
      var r := AdmitCandidates(count, allowance, s, from);
      forall id | Packed(r.payload, id) ensures Packed(s.payload, id) || SeenId(from, id) {
        if !Packed(before.payload, id) {
          assert from[n].id == id;
        } else if SeenId(from[..n], id) {
          var i :| 0 <= i < n && from[..n][i].id == id;
          assert from[i].id == id;
        }
      }
    }
  }

  /** The packed payload fits, repeats no evidence and cites every fact's source; for any counter. */
  lemma PackSound(count: Counter, allowance: nat, title: string, snapshot: string, facts: seq<Fact>,
                  candidates: seq<Evidence>)
    requires count(BARE) <= allowance
    ensures Fits(count, allowance, PackAll(count, allowance, title, snapshot, facts, candidates))
  {
    AllSound(count, allowance, Pack(BARE, []), Mandatory(title, snapshot, facts));
    CandidatesSound(count, allowance,
                    AdmitAll(count, allowance, Pack(BARE, []), Mandatory(title, snapshot, facts)), candidates);
  }

  // Nothing is forgotten: every atom is packed or counted as omitted.

  predicate Has(p: Payload, atom: Atom) {
    match atom
    case Title(json) => p.title == Some(json)
    case Snapshot(json) => p.snapshot == Some(json)
    case FactAtom(f) => f in p.facts
    case EvidenceAtom(e) => Packed(p, e.id)
  }

  ghost predicate Handled(s: Pack, atom: Atom) {
    Has(s.payload, atom) || atom in s.omitted
  }

  lemma AdmitKeeps(count: Counter, allowance: nat, s: Pack, next: Atom, atom: Atom)
    requires Handled(s, atom) && !next.Title? && !next.Snapshot?
    ensures Handled(Admit(count, allowance, s, next), atom)
  {
    var r := Admit(count, allowance, s, next);
    if Has(s.payload, atom) && atom.EvidenceAtom? {
      var i :| 0 <= i < |s.payload.evidence| && s.payload.evidence[i].id == atom.evidence.id;
      assert r.payload.evidence[i].id == atom.evidence.id;
    }
  }

  lemma AdmitHandles(count: Counter, allowance: nat, s: Pack, atom: Atom)
    ensures Handled(Admit(count, allowance, s, atom), atom)
  {
    if atom.EvidenceAtom? {
      var p := With(s.payload, atom);
      assert p.evidence[|s.payload.evidence|].id == atom.evidence.id;
    }
    if atom.FactAtom? {
      var p := With(s.payload, atom);
      assert p.facts[|s.payload.facts|] == atom.fact;
    }
  }

  lemma {:induction false} FactsHandled(count: Counter, allowance: nat, s: Pack, atoms: seq<Atom>, i: nat)
    requires i < |atoms| && forall k :: i < k < |atoms| ==> atoms[k].FactAtom?
    ensures Handled(AdmitAll(count, allowance, s, atoms), atoms[i])
    decreases |atoms|
  {
    var n := |atoms| - 1;
    var before := AdmitAll(count, allowance, s, atoms[..n]);
    if i == n {
      AdmitHandles(count, allowance, before, atoms[n]);
    } else {
      FactsHandled(count, allowance, s, atoms[..n], i);
      AdmitKeeps(count, allowance, before, atoms[n], atoms[i]);
    }
  }

  lemma {:induction false} EarlierHandled(count: Counter, allowance: nat, s: Pack, from: seq<Evidence>, atom: Atom)
    requires Handled(s, atom)
    ensures Handled(AdmitCandidates(count, allowance, s, from), atom)
    decreases |from|
  {
    if from == [] {
    } else {
      var n := |from| - 1;
      EarlierHandled(count, allowance, s, from[..n], atom);
      AdmitKeeps(count, allowance, AdmitCandidates(count, allowance, s, from[..n]), EvidenceAtom(from[n]), atom);
    }
  }

  /** A candidate is packed, or left out under the record that was considered first. */
  ghost predicate CandidateHandled(s: Pack, e: Evidence) {
    Packed(s.payload, e.id) || exists x :: x in s.omitted && x.EvidenceAtom? && x.evidence.id == e.id
  }

  lemma {:induction false} CandidatesHandled(count: Counter, allowance: nat, s: Pack, from: seq<Evidence>, i: nat)
    requires i < |from|
    ensures CandidateHandled(AdmitCandidates(count, allowance, s, from), from[i])
    decreases |from|
  {
    var n := |from| - 1;
    var before := AdmitCandidates(count, allowance, s, from[..n]);
    var after := AdmitCandidates(count, allowance, s, from);
    if Packed(s.payload, from[i].id) {
      EarlierHandled(count, allowance, s, from, EvidenceAtom(from[i]));
    } else if i < n {
      CandidatesHandled(count, allowance, s, from[..n], i);
      if Packed(before.payload, from[i].id) {
        AdmitKeeps(count, allowance, before, EvidenceAtom(from[n]), EvidenceAtom(from[i]));
      } else {
        var x :| x in before.omitted && x.EvidenceAtom? && x.evidence.id == from[i].id;
        assert x in after.omitted;
      }
    } else if SeenId(from[..n], from[n].id) {
      var k :| 0 <= k < n && from[..n][k].id == from[n].id;
      CandidatesHandled(count, allowance, s, from[..n], k);
    } else {
      AdmitHandles(count, allowance, before, EvidenceAtom(from[n]));
    }
  }

  // Maximality, for counters that grow with the payload.

  /** Everything in `p` is in `q`. */
  ghost predicate Included(p: Payload, q: Payload) {
    && multiset(p.evidence) <= multiset(q.evidence) && multiset(p.facts) <= multiset(q.facts)
    && (p.title.Some? ==> q.title == p.title) && (p.snapshot.Some? ==> q.snapshot == p.snapshot)
  }

  ghost predicate Monotone(count: Counter) {
    forall p, q :: Included(p, q) ==> count(p) <= count(q)
  }

  /** A message id names one record. */
  ghost predicate OneRecord(records: set<Evidence>) {
    forall a, b :: a in records && b in records && a.id == b.id ==> a == b
  }

  ghost predicate Among(p: Payload, records: set<Evidence>) {
    forall e :: e in p.evidence ==> e in records
  }

  lemma PackedIffMember(p: Payload, e: Evidence, records: set<Evidence>)
    requires OneRecord(records) && Among(p, records) && e in records
    ensures Packed(p, e.id) <==> e in p.evidence
  {
    if Packed(p, e.id) {
      var i :| 0 <= i < |p.evidence| && p.evidence[i].id == e.id;
      assert p.evidence[i] in p.evidence;
    }
  }

  lemma IncludedWith(p: Payload, q: Payload, atom: Atom, records: set<Evidence>)
    requires Included(p, q) && OneRecord(records) && Among(p, records) && Among(q, records)
    requires atom.FactAtom? ==> atom.fact.source in records
    ensures Included(With(p, atom), With(q, atom))
  {
    hide Packed, OneRecord;
    if atom.FactAtom? {
      PackedIffMember(p, atom.fact.source, records);
      PackedIffMember(q, atom.fact.source, records);
      MemberMultiset(p.evidence, atom.fact.source);
      MemberMultiset(q.evidence, atom.fact.source);
    }
  }

  lemma MemberMultiset(s: seq<Evidence>, e: Evidence)
    ensures e in s <==> multiset(s)[e] >= 1
  {}

  ghost predicate Refused(count: Counter, allowance: nat, s: Pack, records: set<Evidence>) {
    && Among(s.payload, records)
    && forall atom :: atom in s.omitted ==> Sourced(atom, records) && count(With(s.payload, atom)) > allowance
  }

  ghost predicate Sourced(atom: Atom, records: set<Evidence>) {
    && (atom.FactAtom? ==> atom.fact.source in records)
    && (atom.EvidenceAtom? ==> atom.evidence in records)
  }

  /** An atom not yet decided may still be added. */
  lemma AdmitRefuses(count: Counter, allowance: nat, s: Pack, atom: Atom, records: set<Evidence>)
    requires Monotone(count) && OneRecord(records) && Refused(count, allowance, s, records)
    requires Sourced(atom, records)
    requires (atom.Title? ==> s.payload.title.None?) && (atom.Snapshot? ==> s.payload.snapshot.None?)
    ensures Refused(count, allowance, Admit(count, allowance, s, atom), records)
  {
    var r := Admit(count, allowance, s, atom);
    var p, q := s.payload, r.payload;
    if p != q {
      assert Included(p, q);
      assert Among(q, records);
      forall x | x in r.omitted ensures count(With(q, x)) > allowance {
        IncludedWith(p, q, x, records);
      }
    }
  }

  lemma {:induction false} CandidatesRefused(count: Counter, allowance: nat, s: Pack, from: seq<Evidence>,
                                             records: set<Evidence>)
    requires Monotone(count) && OneRecord(records) && Refused(count, allowance, s, records)
    requires forall e :: e in from ==> e in records
    ensures Refused(count, allowance, AdmitCandidates(count, allowance, s, from), records)
    decreases |from|
  {
    hide Monotone, OneRecord, Refused, Admit;
    if from == [] {
    } else {
      var n := |from| - 1;
      CandidatesRefused(count, allowance, s, from[..n], records);
      AdmitRefuses(count, allowance, AdmitCandidates(count, allowance, s, from[..n]), EvidenceAtom(from[n]), records);
    }
  }

  lemma {:induction false} FactsRefused(count: Counter, allowance: nat, s: Pack, atoms: seq<Atom>,
                                        records: set<Evidence>)
    requires Monotone(count) && OneRecord(records) && Refused(count, allowance, s, records)
    requires forall i :: 0 <= i < |atoms| ==> Sourced(atoms[i], records) && atoms[i].FactAtom?
    ensures Refused(count, allowance, AdmitAll(count, allowance, s, atoms), records)
    decreases |atoms|
  {
    hide Monotone, OneRecord, Refused, Admit;
    if atoms == [] {
    } else {
      var n := |atoms| - 1;
      FactsRefused(count, allowance, s, atoms[..n], records);
      AdmitRefuses(count, allowance, AdmitAll(count, allowance, s, atoms[..n]), atoms[n], records);
    }
  }

  lemma {:induction false} AdmitAllSplit(count: Counter, allowance: nat, s: Pack, a: seq<Atom>, b: seq<Atom>)
    ensures AdmitAll(count, allowance, s, a + b) == AdmitAll(count, allowance, AdmitAll(count, allowance, s, a), b)
    decreases |b|
  {
    if b == [] {
      assert a + b == a;
    } else {
      assert (a + b)[..|a + b| - 1] == a + b[..|b| - 1];
      AdmitAllSplit(count, allowance, s, a, b[..|b| - 1]);
    }
  }

  lemma MandatoryAdmits(count: Counter, allowance: nat, title: string, snapshot: string, facts: seq<Fact>)
    ensures var s := Admit(count, allowance, Admit(count, allowance, Pack(BARE, []), Title(title)), Snapshot(snapshot));
            AdmitAll(count, allowance, Pack(BARE, []), Mandatory(title, snapshot, facts))
            == AdmitAll(count, allowance, s, FactAtoms(facts))
  {
    var two := [Title(title), Snapshot(snapshot)];
    AdmitAllSplit(count, allowance, Pack(BARE, []), two, FactAtoms(facts));
    assert two[..1] == [Title(title)] && two[..1][..0] == [];
    assert AdmitAll(count, allowance, Pack(BARE, []), two[..1])
        == Admit(count, allowance, Pack(BARE, []), Title(title));
  }

  /** Maximality: for a counter that grows with the payload, nothing that was left out would still
      have fitted: adding any omitted atom back to the final payload exceeds the allowance. */
  lemma PackMaximal(count: Counter, allowance: nat, title: string, snapshot: string, facts: seq<Fact>,
                    candidates: seq<Evidence>, records: set<Evidence>, atom: Atom)
    requires Monotone(count) && OneRecord(records)
    requires forall f :: f in facts ==> f.source in records
    requires forall e :: e in candidates ==> e in records
    requires atom in PackAll(count, allowance, title, snapshot, facts, candidates).omitted
    ensures count(With(PackAll(count, allowance, title, snapshot, facts, candidates).payload, atom)) > allowance
  {
    hide Monotone, OneRecord;
    var start := Pack(BARE, []);
    MandatoryAdmits(count, allowance, title, snapshot, facts);
    AdmitRefuses(count, allowance, start, Title(title), records);
    var titled := Admit(count, allowance, start, Title(title));
    AdmitRefuses(count, allowance, titled, Snapshot(snapshot), records);
    var s := Admit(count, allowance, titled, Snapshot(snapshot));
    FactsRefused(count, allowance, s, FactAtoms(facts), records);
    CandidatesRefused(count, allowance, AdmitAll(count, allowance, s, FactAtoms(facts)), candidates, records);
  }

  // Turn by turn.

  /** `q` is `p` with exactly the atom more: a fact comes with its source, unless that message is packed. */
  ghost predicate Adds(p: Payload, atom: Atom, q: Payload) {
    match atom
    case Title(json) => q == Payload(p.evidence, p.facts, Some(json), p.snapshot)
    case Snapshot(json) => q == Payload(p.evidence, p.facts, p.title, Some(json))
    case FactAtom(f) =>
      && q.facts == p.facts + [f] && q.title == p.title && q.snapshot == p.snapshot
      && q.evidence == p.evidence + (if Packed(p, f.source.id) then [] else [f.source])
    case EvidenceAtom(e) => q == Payload(p.evidence + [e], p.facts, p.title, p.snapshot)
  }

  /** An atom's turn: it is packed exactly if the payload with it is within the allowance, and otherwise
      noted as omitted. */
  ghost predicate Turn(count: Counter, allowance: nat, s: Pack, atom: Atom, t: Pack) {
    exists q :: Adds(s.payload, atom, q)
                && t == if count(q) <= allowance then Pack(q, s.omitted) else Pack(s.payload, s.omitted + [atom])
  }

  lemma AdmitIsTurn(count: Counter, allowance: nat, s: Pack, atom: Atom)
    ensures Turn(count, allowance, s, atom, Admit(count, allowance, s, atom))
  {
    var q := With(s.payload, atom);
    hide Packed;
    if atom.FactAtom? && Packed(s.payload, atom.fact.source.id) {
      assert s.payload.evidence + [] == s.payload.evidence;
    }
    assert Adds(s.payload, atom, q);
  }

  /** The turns of a context: the title, the snapshot, the facts, and then each candidate whose message is
      not packed and did not come up before, all in their order. */
  ghost predicate Turns(count: Counter, allowance: nat, title: string, snapshot: string, facts: seq<Fact>,
                        candidates: seq<Evidence>, states: seq<Pack>)
  {
    && |states| == 3 + |facts| + |candidates| && states[0] == Pack(BARE, [])
    && Turn(count, allowance, states[0], Title(title), states[1])
    && Turn(count, allowance, states[1], Snapshot(snapshot), states[2])
    && (forall i :: 0 <= i < |facts| ==> Turn(count, allowance, states[2 + i], FactAtom(facts[i]), states[3 + i]))
    && (forall k :: 0 <= k < |candidates| ==>
          CandidateTurn(count, allowance, candidates[..k], candidates[k],
                        states[2 + |facts| + k], states[3 + |facts| + k]))
  }

  ghost predicate CandidateTurn(count: Counter, allowance: nat, earlier: seq<Evidence>, e: Evidence, s: Pack, t: Pack) {
    if Packed(s.payload, e.id) || exists i :: 0 <= i < |earlier| && earlier[i].id == e.id
    then t == s
    else Turn(count, allowance, s, EvidenceAtom(e), t)
  }

  lemma {:induction false} FactTurns(count: Counter, allowance: nat, s: Pack, facts: seq<Fact>)
    returns (states: seq<Pack>)
    ensures |states| == |facts| + 1 && states[0] == s
    ensures states[|facts|] == AdmitAll(count, allowance, s, FactAtoms(facts))
    ensures forall i :: 0 <= i < |facts| ==> Turn(count, allowance, states[i], FactAtom(facts[i]), states[i + 1])
    decreases |facts|
  {
    hide Turn, Admit;
    if facts == [] {
      states := [s];
    } else {
      var n := |facts| - 1;
      var before := FactTurns(count, allowance, s, facts[..n]);
      AdmitIsTurn(count, allowance, before[n], FactAtom(facts[n]));
      assert FactAtoms(facts)[..n] == FactAtoms(facts[..n]);
      states := before + [Admit(count, allowance, before[n], FactAtom(facts[n]))];
      forall i | 0 <= i < |facts| ensures Turn(count, allowance, states[i], FactAtom(facts[i]), states[i + 1]) {
        if i < n { assert facts[..n][i] == facts[i]; }
      }
    }
  }

  lemma {:induction false} CandidateTurns(count: Counter, allowance: nat, s: Pack, from: seq<Evidence>)
    returns (states: seq<Pack>)
    ensures |states| == |from| + 1 && states[0] == s && states[|from|] == AdmitCandidates(count, allowance, s, from)
    ensures forall k :: 0 <= k < |from| ==>
              CandidateTurn(count, allowance, from[..k], from[k], states[k], states[k + 1])
    decreases |from|
  {
    hide Turn, Admit;
    if from == [] {
      states := [s];
    } else {
      var n := |from| - 1;
      var before := CandidateTurns(count, allowance, s, from[..n]);
      AdmitIsTurn(count, allowance, before[n], EvidenceAtom(from[n]));
      PackedOrSeen(count, allowance, s, from, n);
      states := before + [AdmitCandidates(count, allowance, s, from)];
      forall k | 0 <= k < |from| ensures CandidateTurn(count, allowance, from[..k], from[k], states[k], states[k + 1]) {
        if k < n { assert from[..n][..k] == from[..k] && from[..n][k] == from[k]; }
      }
    }
  }

  /** At a candidate's turn its message is packed, or came up before, exactly if the loop passes over it. */
  lemma PackedOrSeen(count: Counter, allowance: nat, s: Pack, from: seq<Evidence>, n: nat)
    requires n < |from|
    ensures var before := AdmitCandidates(count, allowance, s, from[..n]).payload;
            Packed(s.payload, from[n].id) || SeenId(from[..n], from[n].id) <==>
              Packed(before, from[n].id) || SeenId(from[..n], from[n].id)
  {
    PackedGrows(count, allowance, s, from[..n], from[n].id);
  }

  lemma {:induction false} PackedGrows(count: Counter, allowance: nat, s: Pack, from: seq<Evidence>, id: int)
    ensures var r := AdmitCandidates(count, allowance, s, from);
            && (Packed(s.payload, id) ==> Packed(r.payload, id))
            && (Packed(r.payload, id) ==> Packed(s.payload, id) || SeenId(from, id))
    decreases |from|
  {
    if from == [] {
    } else {
      var n := |from| - 1;
      PackedGrows(count, allowance, s, from[..n], id);
      OneMorePacked(AdmitCandidates(count, allowance, s, from[..n]).payload, from[n], id);
      SeenNext(from, n);
      assert from[..n + 1] == from;
      hide Packed, SeenId;
    }
  }

  lemma OneMorePacked(p: Payload, e: Evidence, id: int)
    ensures Packed(With(p, EvidenceAtom(e)), id) <==> Packed(p, id) || id == e.id
  {
    SelectedWith(p, e);
  }

  /** The packing is these turns. */
  lemma PackTurns(count: Counter, allowance: nat, title: string, snapshot: string, facts: seq<Fact>,
                  candidates: seq<Evidence>) returns (states: seq<Pack>)
    ensures Turns(count, allowance, title, snapshot, facts, candidates, states)
    ensures states[|states| - 1] == PackAll(count, allowance, title, snapshot, facts, candidates)
  {
    hide Turn, Admit, AdmitAll, AdmitCandidates, Mandatory, FactAtoms, CandidateTurn;
    var start := Pack(BARE, []);
    var titled := Admit(count, allowance, start, Title(title));
    var s := Admit(count, allowance, titled, Snapshot(snapshot));
    AdmitIsTurn(count, allowance, start, Title(title));
    AdmitIsTurn(count, allowance, titled, Snapshot(snapshot));
    MandatoryAdmits(count, allowance, title, snapshot, facts);
    var a := FactTurns(count, allowance, s, facts);
    var b := CandidateTurns(count, allowance, a[|facts|], candidates);
    states := [start, titled] + a[..|facts|] + b;
    assert forall i :: 0 <= i <= |facts| ==> states[2 + i] == a[i];
    assert forall k :: 0 <= k <= |candidates| ==> states[2 + |facts| + k] == b[k];
  }

  /** Maximality, read off the payload: for a counter that grows with it, no title, snapshot, fact or
      candidate that is not in it would still fit. */
  lemma NothingMoreFits(count: Counter, allowance: nat, title: string, snapshot: string, facts: seq<Fact>,
                        candidates: seq<Evidence>, records: set<Evidence>)
    requires Monotone(count) && OneRecord(records)
    requires forall f :: f in facts ==> f.source in records
    requires forall e :: e in candidates ==> e in records
    ensures var p := PackAll(count, allowance, title, snapshot, facts, candidates).payload;
            && (p.title.None? ==> count(p.(title := Some(title))) > allowance)
            && (p.snapshot.None? ==> count(p.(snapshot := Some(snapshot))) > allowance)
            && (forall f :: f in facts && f !in p.facts ==> count(With(p, FactAtom(f))) > allowance)
            && (forall e :: e in candidates && !Packed(p, e.id) ==>
                  exists x :: x in candidates && x.id == e.id && count(With(p, EvidenceAtom(x))) > allowance)
  {
    hide Monotone, OneRecord;
    var s := PackAll(count, allowance, title, snapshot, facts, candidates);
    var mandatory := AdmitAll(count, allowance, Pack(BARE, []), Mandatory(title, snapshot, facts));
    forall atom | atom in s.omitted ensures count(With(s.payload, atom)) > allowance {
      PackMaximal(count, allowance, title, snapshot, facts, candidates, records, atom);
    }
    MandatoryHandled(count, allowance, title, snapshot, facts, candidates);
    forall e | e in candidates && !Packed(s.payload, e.id)
      ensures exists x :: x in candidates && x.id == e.id && count(With(s.payload, EvidenceAtom(x))) > allowance
    {
      var i :| 0 <= i < |candidates| && candidates[i] == e;
      CandidatesHandled(count, allowance, mandatory, candidates, i);
      var x :| x in s.omitted && x.EvidenceAtom? && x.evidence.id == e.id;
      OmittedAreOffered(count, allowance, title, snapshot, facts, candidates);
    }
  }

  /** The mandatory atoms are packed, or among those left out, in the end. */
  lemma MandatoryHandled(count: Counter, allowance: nat, title: string, snapshot: string, facts: seq<Fact>,
                         candidates: seq<Evidence>)
    ensures var s := PackAll(count, allowance, title, snapshot, facts, candidates);
            && Handled(s, Title(title)) && Handled(s, Snapshot(snapshot))
            && forall f :: f in facts ==> Handled(s, FactAtom(f))
  {
    hide Handled;
    var atoms := Mandatory(title, snapshot, facts);
    var mandatory := AdmitAll(count, allowance, Pack(BARE, []), atoms);
    TitleHandled(count, allowance, title, snapshot, facts);
    FactsHandled(count, allowance, Pack(BARE, []), atoms, 1);
    EarlierHandled(count, allowance, mandatory, candidates, Title(title));
    EarlierHandled(count, allowance, mandatory, candidates, Snapshot(snapshot));
    forall f | f in facts ensures Handled(PackAll(count, allowance, title, snapshot, facts, candidates), FactAtom(f)) {
      var i :| 0 <= i < |facts| && facts[i] == f;
      assert atoms[i + 2] == FactAtom(f);
      FactsHandled(count, allowance, Pack(BARE, []), atoms, i + 2);
      EarlierHandled(count, allowance, mandatory, candidates, FactAtom(f));
    }
  }

  lemma TitleHandled(count: Counter, allowance: nat, title: string, snapshot: string, facts: seq<Fact>)
    ensures Handled(AdmitAll(count, allowance, Pack(BARE, []), Mandatory(title, snapshot, facts)), Title(title))
  {
    var titled := Admit(count, allowance, Pack(BARE, []), Title(title));
    AdmitHandles(count, allowance, Pack(BARE, []), Title(title));
    var s := Admit(count, allowance, titled, Snapshot(snapshot));
    assert Handled(s, Title(title));
    hide Admit, Handled;
    FactsKeepHandled(count, allowance, s, FactAtoms(facts), Title(title));
    MandatoryAdmits(count, allowance, title, snapshot, facts);
  }

  lemma {:induction false} FactsKeepHandled(count: Counter, allowance: nat, s: Pack, atoms: seq<Atom>, atom: Atom)
    requires Handled(s, atom) && forall i :: 0 <= i < |atoms| ==> atoms[i].FactAtom?
    ensures Handled(AdmitAll(count, allowance, s, atoms), atom)
    decreases |atoms|
  {
    hide Handled, Admit;
    if atoms == [] {
    } else {
      var n := |atoms| - 1;
      FactsKeepHandled(count, allowance, s, atoms[..n], atom);
      AdmitKeeps(count, allowance, AdmitAll(count, allowance, s, atoms[..n]), atoms[n], atom);
    }
  }

  ghost predicate Offered(atom: Atom, facts: seq<Fact>, candidates: seq<Evidence>) {
    && (atom.FactAtom? ==> atom.fact in facts) && (atom.EvidenceAtom? ==> atom.evidence in candidates)
  }

  /** Only what was offered is left out. */
  lemma OmittedAreOffered(count: Counter, allowance: nat, title: string, snapshot: string, facts: seq<Fact>,
                          candidates: seq<Evidence>)
    ensures forall x :: x in PackAll(count, allowance, title, snapshot, facts, candidates).omitted ==>
              Offered(x, facts, candidates)
  {
    AtomsOffered(count, allowance, Pack(BARE, []), Mandatory(title, snapshot, facts));
    CandidatesOffered(count, allowance,
                      AdmitAll(count, allowance, Pack(BARE, []), Mandatory(title, snapshot, facts)), candidates);
  }

  lemma {:induction false} AtomsOffered(count: Counter, allowance: nat, s: Pack, atoms: seq<Atom>)
    ensures forall x :: x in AdmitAll(count, allowance, s, atoms).omitted ==> x in s.omitted || x in atoms
    decreases |atoms|
  {
    hide With;
    if atoms == [] {
    } else {
      AtomsOffered(count, allowance, s, atoms[..|atoms| - 1]);
    }
  }

  lemma {:induction false} CandidatesOffered(count: Counter, allowance: nat, s: Pack, from: seq<Evidence>)
    ensures forall x :: x in AdmitCandidates(count, allowance, s, from).omitted ==>
              x in s.omitted || (x.EvidenceAtom? && x.evidence in from)
    decreases |from|
  {
    hide With, Packed, SeenId;
    if from == [] {
    } else {
      CandidatesOffered(count, allowance, s, from[..|from| - 1]);
    }
  }

  // The estimated counter.

  function Join(items: seq<string>): string
    decreases |items|
  {
    if items == [] then "" else if |items| == 1 then items[0] else items[0] + "," + Join(items[1..])
  }

  function Records(evidence: seq<Evidence>): seq<string> {
    seq(|evidence|, i requires 0 <= i < |evidence| => evidence[i].json)
  }

  function FactRecords(facts: seq<Fact>): seq<string> {
    seq(|facts|, i requires 0 <= i < |facts| => facts[i].json)
  }

  function Optional(name: string, value: Option<string>): string {
    if value.None? then "" else ",\"" + name + "\":" + value.value
  }

  /** The quoted-data message: the payload as compact JSON. `task` is the rendered task id. */
  function Render(task: string, p: Payload): string {
    "{\"memory_context\":{\"task_id\":" + task
    + ",\"evidence\":[" + Join(Records(p.evidence)) + "],\"facts\":[" + Join(FactRecords(p.facts)) + "]"
    + Optional("task_title", p.title) + Optional("planner_snapshot", p.snapshot) + "}}"
  }

  /** `ceil(chars/4)` plus framing. */
  function MessageUnits(content: string): (n: nat)
    ensures n >= 4 && 4 * (n - 4) - 4 < |content| <= 4 * (n - 4)
  {
    4 + (|content| + 3) / 4
  }

  /** `estimated_message_units` of the system message, the payload and the query. */
  function Estimated(system: string, task: string, query: string): Counter {
    (p: Payload) => 3 + MessageUnits(system) + MessageUnits(Render(task, p)) + MessageUnits(query)
  }

  /** The sum of the costs of a list's members. */
  function Total<T>(cost: T -> nat, s: seq<T>): nat
    decreases |s|
  {
    if s == [] then 0 else cost(s[0]) + Total(cost, s[1..])
  }

  lemma {:induction false} TotalWithout<T>(cost: T -> nat, s: seq<T>, i: nat)
    requires i < |s|
    ensures Total(cost, s) == cost(s[i]) + Total(cost, s[..i] + s[i + 1..])
    decreases |s|
  {
    var rest := s[..i] + s[i + 1..];
    if i == 0 {
      assert rest == s[1..];
    } else {
      TotalWithout(cost, s[1..], i - 1);
      assert rest[1..] == s[1..][..i - 1] + s[1..][i..];
    }
  }

  lemma RemoveOne<T>(s: seq<T>, i: nat)
    requires i < |s|
    ensures multiset(s[..i] + s[i + 1..]) == multiset(s) - multiset{s[i]}
  {
    assert s == s[..i] + [s[i]] + s[i + 1..];
  }

  lemma Find<T>(b: seq<T>, x: T) returns (i: nat)
    requires multiset(b)[x] > 0
    ensures i < |b| && b[i] == x
  {
    assert x in b;
    i :| 0 <= i < |b| && b[i] == x;
  }

  lemma {:induction false} MoreCostsMore<T>(cost: T -> nat, a: seq<T>, b: seq<T>)
    requires multiset(a) <= multiset(b)
    ensures Total(cost, a) <= Total(cost, b)
    decreases |a|
  {
    if a == [] {
    } else {
      assert multiset(a)[a[0]] > 0;
      var i := Find(b, a[0]);
      TotalWithout(cost, b, i);
      var rest := b[..i] + b[i + 1..];
      StillSubset(a, b, i);
      MoreCostsMore(cost, a[1..], rest);
    }
  }

  lemma StillSubset<T>(a: seq<T>, b: seq<T>, i: nat)
    requires multiset(a) <= multiset(b) && a != [] && i < |b| && b[i] == a[0]
    ensures multiset(a[1..]) <= multiset(b[..i] + b[i + 1..])
  {
    RemoveOne(b, i);
    RemoveOne(a, 0);
    assert a[..0] + a[1..] == a[1..];
  }

  /** A record and the comma that follows it. */
  function EvidenceCost(): Evidence -> nat {
    (e: Evidence) => |e.json| + 1
  }

  function FactCost(): Fact -> nat {
    (f: Fact) => |f.json| + 1
  }

  lemma {:induction false} EvidenceLength(evidence: seq<Evidence>)
    ensures |Join(Records(evidence))| == ListLength(Total(EvidenceCost(), evidence))
    decreases |evidence|
  {
    if evidence == [] {
    } else {
      EvidenceLength(evidence[1..]);
      assert Records(evidence)[1..] == Records(evidence[1..]);
    }
  }

  lemma {:induction false} FactsLength(facts: seq<Fact>)
    ensures |Join(FactRecords(facts))| == ListLength(Total(FactCost(), facts))
    decreases |facts|
  {
    if facts == [] {
    } else {
      FactsLength(facts[1..]);
      assert FactRecords(facts)[1..] == FactRecords(facts[1..]);
    }
  }

  function ListLength(cost: nat): nat {
    if cost == 0 then 0 else cost - 1
  }

  lemma RenderLength(task: string, p: Payload)
    ensures |Render(task, p)| == 56 + |task|
                                + ListLength(Total(EvidenceCost(), p.evidence)) + ListLength(Total(FactCost(), p.facts))
                                + |Optional("task_title", p.title)| + |Optional("planner_snapshot", p.snapshot)|
  {
    EvidenceLength(p.evidence);
    FactsLength(p.facts);
    hide Join, Records, FactRecords, Optional;
  }

  /** The default estimate grows with the payload, so what it leaves out never fits afterwards. */
  lemma EstimatedIsMonotone(system: string, task: string, query: string)
    ensures Monotone(Estimated(system, task, query))
  {
    forall p, q | Included(p, q) ensures Estimated(system, task, query)(p) <= Estimated(system, task, query)(q) {
      RenderLength(task, p);
      RenderLength(task, q);
      MoreCostsMore(EvidenceCost(), p.evidence, q.evidence);
      MoreCostsMore(FactCost(), p.facts, q.facts);
      hide Render;
    }
  }

  /** A counter for which maximality fails: it charges for one piece of evidence on its own. */
  function Moody(): Counter {
    (p: Payload) => if |p.evidence| == 1 && p.evidence[0].id == 1 then 10 else 0
  }

  lemma CustomCounterCanUnderfill()
    ensures var a, b := Evidence(1, 1, "a"), Evidence(2, 1, "b");
            var s := PackAll(Moody(), 5, "", "", [], [a, b]);
            EvidenceAtom(a) in s.omitted && Moody()(With(s.payload, EvidenceAtom(a))) <= 5
  {
    var a, b := Evidence(1, 1, "a"), Evidence(2, 1, "b");
    var s := AdmitAll(Moody(), 5, Pack(BARE, []), Mandatory("", "", []));
    MandatoryAdmits(Moody(), 5, "", "", []);
    assert FactAtoms([]) == [];
    var titled := Admit(Moody(), 5, Pack(BARE, []), Title(""));
    assert titled == Pack(BARE.(title := Some("")), []);
    assert Admit(Moody(), 5, titled, Snapshot("")) == Pack(BARE.(title := Some(""), snapshot := Some("")), []);
    assert s == Pack(BARE.(title := Some(""), snapshot := Some("")), []);
    assert [a][..0] == [] && [a, b][..1] == [a];
    assert With(s.payload, EvidenceAtom(a)).evidence == [a] && With(s.payload, EvidenceAtom(b)).evidence == [b];
    assert AdmitCandidates(Moody(), 5, s, []) == s;
    assert !Packed(s.payload, 1) && !SeenId([], 1);
    assert Moody()(With(s.payload, EvidenceAtom(a))) == 10;
    var one := AdmitCandidates(Moody(), 5, s, [a]);
    assert one == s.(omitted := [EvidenceAtom(a)]);
    var two := AdmitCandidates(Moody(), 5, s, [a, b]);
    assert two.payload.evidence == [b];
  }

  // The loop, in place.

  datatype Package = Package(payload: Payload, used: nat, citations: seq<Citation>, omitted: nat)

  function Citations(evidence: seq<Evidence>): seq<Citation> {
    seq(|evidence|, i requires 0 <= i < |evidence| => Cite(evidence[i]))
  }

  /** The loop's variables, as they follow the pack they stand for. */
  ghost predicate Tracks(s: Pack, payload: Payload, selected: set<int>, citations: seq<Citation>, omitted: nat) {
    && payload == s.payload && omitted == |s.omitted| && citations == Citations(payload.evidence)
    && forall id :: id in selected <==> Packed(payload, id)
  }

  lemma SelectedWith(p: Payload, e: Evidence)
    ensures var q := p.(evidence := p.evidence + [e]);
            && (forall id :: Packed(q, id) <==> Packed(p, id) || id == e.id)
            && Citations(q.evidence) == Citations(p.evidence) + [Cite(e)]
  {
    var q := p.(evidence := p.evidence + [e]);
    assert q.evidence[|p.evidence|] == e;
    forall id | Packed(p, id) ensures Packed(q, id) {
      var i :| 0 <= i < |p.evidence| && p.evidence[i].id == id;
      assert q.evidence[i].id == id;
    }
  }

  /** Pushing a fact with its source, counting, and popping both when they do not fit. */
  method TryFact(count: Counter, allowance: nat, fact: Fact, before: Payload, chosen: set<int>,
                 cites: seq<Citation>, left: nat, ghost s: Pack)
    returns (payload: Payload, selected: set<int>, citations: seq<Citation>, omitted: nat)
    requires Tracks(s, before, chosen, cites, left)
    ensures Tracks(Admit(count, allowance, s, FactAtom(fact)), payload, selected, citations, omitted)
  {
    payload, selected, citations, omitted := before, chosen, cites, left;
    payload := payload.(facts := payload.facts + [fact]);
    var isNew := fact.source.id !in selected;
    if isNew {
      payload := payload.(evidence := payload.evidence + [fact.source]);
    }
    SelectedWith(before, fact.source);
    hide Packed, Citations;
    if count(payload) > allowance {
      payload := payload.(facts := payload.facts[..|payload.facts| - 1]);
      if isNew {
        payload := payload.(evidence := payload.evidence[..|payload.evidence| - 1]);
      }
      omitted := omitted + 1;
      assert payload.facts == before.facts && payload.evidence == before.evidence;
    } else if isNew {
      selected := selected + {fact.source.id};
      citations := citations + [Cite(fact.source)];
    }
  }

  method TryEvidence(count: Counter, allowance: nat, e: Evidence, before: Payload, chosen: set<int>,
                     cites: seq<Citation>, left: nat, ghost s: Pack)
    returns (payload: Payload, selected: set<int>, citations: seq<Citation>, omitted: nat)
    requires Tracks(s, before, chosen, cites, left)
    ensures Tracks(Admit(count, allowance, s, EvidenceAtom(e)), payload, selected, citations, omitted)
  {
    payload, selected, citations, omitted := before, chosen, cites, left;
    payload := payload.(evidence := payload.evidence + [e]);
    SelectedWith(before, e);
    hide Packed, Citations;
    if count(payload) > allowance {
      payload := payload.(evidence := payload.evidence[..|payload.evidence| - 1]);
      omitted := omitted + 1;
      assert payload.evidence == before.evidence;
    } else {
      selected := selected + {e.id};
      citations := citations + [Cite(e)];
    }
  }

  /** Title and snapshot, each set and taken back when it does not fit. */
  method TryOptional(count: Counter, allowance: nat, title: string, snapshot: string)
    returns (payload: Payload, omitted: nat)
    ensures Tracks(AdmitAll(count, allowance, Pack(BARE, []), [Title(title), Snapshot(snapshot)]),
                   payload, {}, [], omitted)
  {
    payload, omitted := BARE, 0;
    var atoms := [Title(title), Snapshot(snapshot)];
    assert atoms[..1] == [Title(title)] && atoms[..1][..0] == [];
    ghost var one := AdmitAll(count, allowance, Pack(BARE, []), atoms[..1]);
    assert AdmitAll(count, allowance, Pack(BARE, []), []) == Pack(BARE, []);
    assert one == Admit(count, allowance, Pack(BARE, []), Title(title));
    payload := payload.(title := Some(title));
    if count(payload) > allowance {
      payload := payload.(title := None);
      omitted := omitted + 1;
    }
    payload := payload.(snapshot := Some(snapshot));
    if count(payload) > allowance {
      payload := payload.(snapshot := None);
      omitted := omitted + 1;
    }
  }

  method TryFacts(count: Counter, allowance: nat, title: string, snapshot: string, facts: seq<Fact>)
    returns (payload: Payload, selected: set<int>, citations: seq<Citation>, omitted: nat)
    ensures Tracks(AdmitAll(count, allowance, Pack(BARE, []), Mandatory(title, snapshot, facts)),
                   payload, selected, citations, omitted)
  {
    payload, omitted := TryOptional(count, allowance, title, snapshot);
    selected, citations := {}, [];
    var atoms := Mandatory(title, snapshot, facts);
    assert atoms[..2] == [Title(title), Snapshot(snapshot)];
    hide Tracks, Admit;
    for i := 0 to |facts|
      invariant Tracks(AdmitAll(count, allowance, Pack(BARE, []), atoms[..i + 2]),
                       payload, selected, citations, omitted)
    {
      assert atoms[i + 2] == FactAtom(facts[i]) && atoms[..i + 3][..i + 2] == atoms[..i + 2];
      ghost var s := AdmitAll(count, allowance, Pack(BARE, []), atoms[..i + 2]);
      payload, selected, citations, omitted :=
        TryFact(count, allowance, facts[i], payload, selected, citations, omitted, s);
    }
    assert atoms[..|facts| + 2] == atoms;
  }

  method TryCandidates(count: Counter, allowance: nat, from: seq<Evidence>, before: Payload, chosen: set<int>,
                       cites: seq<Citation>, left: nat, ghost s: Pack)
    returns (payload: Payload, citations: seq<Citation>, omitted: nat)
    requires Tracks(s, before, chosen, cites, left)
    ensures exists selected ::
              Tracks(AdmitCandidates(count, allowance, s, from), payload, selected, citations, omitted)
  {
    var selected, considered := chosen, chosen;
    payload, citations, omitted := before, cites, left;
    assert from[..0] == [];
    hide Tracks, Admit;
    assert forall id :: id in considered <==> Packed(s.payload, id) || SeenId(from[..0], id) by {
      StartConsidered(s, before, chosen, cites, left);
    }
    for i := 0 to |from|
      invariant Tracks(AdmitCandidates(count, allowance, s, from[..i]), payload, selected, citations, omitted)
      invariant forall id :: id in considered <==> Packed(s.payload, id) || SeenId(from[..i], id)
    {
      assert from[..i + 1][..i] == from[..i] && from[..i + 1][i] == from[i];
      SeenNext(from, i);
      if from[i].id in considered {
        continue;
      }
      considered := considered + {from[i].id};
      payload, selected, citations, omitted :=
        TryEvidence(count, allowance, from[i], payload, selected, citations, omitted,
                    AdmitCandidates(count, allowance, s, from[..i]));
    }
    assert from[..|from|] == from;
  }

  lemma StartConsidered(s: Pack, payload: Payload, selected: set<int>, citations: seq<Citation>, omitted: nat)
    requires Tracks(s, payload, selected, citations, omitted)
    ensures forall id :: id in selected <==> Packed(s.payload, id) || SeenId([], id)
  {}

  lemma SeenNext(from: seq<Evidence>, i: nat)
    requires i < |from|
    ensures forall id :: SeenId(from[..i + 1], id) <==> SeenId(from[..i], id) || id == from[i].id
  {
    forall id ensures SeenId(from[..i + 1], id) <==> SeenId(from[..i], id) || id == from[i].id {
      if SeenId(from[..i], id) {
        var k :| 0 <= k < i && from[..i][k].id == id;
        assert from[..i + 1][k].id == id;
      }
      assert from[..i + 1][i] == from[i];
      if SeenId(from[..i + 1], id) && id != from[i].id {
        var k :| 0 <= k <= i && from[..i + 1][k].id == id;
        assert from[..i][k].id == id;
      }
    }
  }

  /** `TaskMemory.context`: refused only when even the bare envelope does not fit; otherwise the
      returned payload is the counted one, within the allowance, each citation once, and the
      citations are those of the packed evidence in order. */
  method Context(count: Counter, allowance: nat, title: string, snapshot: string, facts: seq<Fact>,
                 candidates: seq<Evidence>)
    returns (package: Option<Package>)
    ensures package.None? <==> count(BARE) > allowance
    ensures package.Some? ==>
              var p := package.value;
              var s := PackAll(count, allowance, title, snapshot, facts, candidates);
              && p.payload == s.payload && p.omitted == |s.omitted|
              && p.used == count(p.payload) <= allowance
              && Sound(p.payload) && p.citations == Citations(p.payload.evidence)
              && exists states :: Turns(count, allowance, title, snapshot, facts, candidates, states)
                                  && states[|states| - 1] == s
  {
    hide Tracks, Turns;
    ghost var states := PackTurns(count, allowance, title, snapshot, facts, candidates);
    if count(BARE) > allowance {
      return None;
    }
    PackSound(count, allowance, title, snapshot, facts, candidates);
    ghost var s := AdmitAll(count, allowance, Pack(BARE, []), Mandatory(title, snapshot, facts));
    var payload, selected, citations, omitted := TryFacts(count, allowance, title, snapshot, facts);
    payload, citations, omitted :=
      TryCandidates(count, allowance, candidates, payload, selected, citations, omitted, s);
    TracksMeans(PackAll(count, allowance, title, snapshot, facts, candidates), payload, citations, omitted);
    package := Some(Package(payload, count(payload), citations, omitted));
  }

  lemma TracksMeans(s: Pack, payload: Payload, citations: seq<Citation>, omitted: nat)
    requires exists selected :: Tracks(s, payload, selected, citations, omitted)
    ensures payload == s.payload && omitted == |s.omitted| && citations == Citations(payload.evidence)
  {}
}
