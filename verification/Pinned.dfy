/** Pinned tasks: the bounded list of pins, and the packing of their evidence into one context. */
module Pinned {
  import opened Common
  import Packing

  type Evidence = Packing.Evidence
  type Fact = Packing.Fact

  // The pins themselves.

  datatype Pin = Pin(task: int, evidence: seq<int>)

  function TasksOf(pins: seq<Pin>): seq<int> {
    seq(|pins|, i requires 0 <= i < |pins| => pins[i].task)
  }

  predicate OnePerTask(pins: seq<Pin>) {
    forall i, j :: 0 <= i < j < |pins| ==> pins[i].task != pins[j].task
  }

  /** The router's ordered map of pins. */
  class Pins {
    var pins: seq<Pin>
    const limit: nat

    constructor (bound: nat)
      requires bound >= 1
      ensures Valid() && pins == [] && limit == bound
    {
      pins, limit := [], bound;
    }

    ghost predicate Valid()
      reads this
    {
      limit >= 1 && |pins| <= limit && OnePerTask(pins)
    }

    /** Updating a pin keeps its place; a new one goes last and evicts the oldest when full. */
    method Put(pin: Pin)
      requires Valid()
      modifies this`pins
      ensures Valid() && pin in pins
      ensures pin.task in TasksOf(old(pins)) ==> TasksOf(pins) == TasksOf(old(pins))
      ensures pin.task !in TasksOf(old(pins)) ==>
                pins == (if |old(pins)| < limit then old(pins) else old(pins)[1..]) + [pin]
      ensures forall p :: p in old(pins) && p.task != pin.task
                && (pin.task in TasksOf(old(pins)) || |old(pins)| < limit)
                ==> p in pins
    {
      for i := 0 to |pins|
        invariant pins == old(pins) && forall k :: 0 <= k < i ==> pins[k].task != pin.task
      {
        if pins[i].task == pin.task {
          ghost var was := pins;
          assert TasksOf(was)[i] == pin.task;
          pins := pins[i := pin];
          assert pins[i] == pin;
          forall p | p in was && p.task != pin.task ensures p in pins {
            var k :| 0 <= k < |was| && was[k] == p;
            assert pins[k] == p;
          }
          assert TasksOf(pins) == TasksOf(was);
          return;
        }
      }
      if |pins| >= limit {
        pins := pins[1..];
      }
      pins := pins + [pin];
      assert pins[|pins| - 1] == pin;
    }
  }

  // What is packed for them.

  /** A pinned task's entry. Once finished, its empty lists are dropped. */
  datatype Item = Item(head: string, facts: seq<Fact>, evidence: seq<Evidence>, finished: bool)
  datatype Payload = Payload(items: seq<Item>, citations: seq<Evidence>)

  /** What memory still has of a pin: its task, if it is still there; its current facts and the
      requested evidence, each with its message if that is still there. */
  datatype Recalled = Recalled(head: Option<string>, facts: seq<Option<Fact>>, evidence: seq<Option<Evidence>>)

  type Counter = Payload -> nat

  datatype Limits = Limits(allowance: nat, facts: nat, evidence: nat)
  datatype State = State(payload: Payload, omitted: nat)

  const BARE := Payload([], [])

  predicate Cited(p: Payload, id: int) {
    HasId(p.citations, id)
  }

  predicate HasId(citations: seq<Evidence>, id: int) {
    exists i :: 0 <= i < |citations| && citations[i].id == id
  }

  function Last(p: Payload): Item
    requires p.items != []
  {
    p.items[|p.items| - 1]
  }

  function WithLast(p: Payload, item: Item): Payload
    requires p.items != []
  {
    p.(items := p.items[..|p.items| - 1] + [item])
  }

  /** Evidence goes under its pin and into the citations. */
  function WithEvidence(p: Payload, e: Evidence): Payload
    requires p.items != []
  {
    WithLast(p, Last(p).(evidence := Last(p).evidence + [e])).(citations := p.citations + [e])
  }

  function WithFact(p: Payload, f: Fact): Payload
    requires p.items != []
  {
    var added := WithLast(p, Last(p).(facts := Last(p).facts + [f]));
    if Cited(p, f.source.id) then added else WithEvidence(added, f.source)
  }

  function Take(count: Counter, limits: Limits, s: State, next: Payload): State {
    if count(next) > limits.allowance then s.(omitted := s.omitted + 1) else s.(payload := next)
  }

  function TakeFact(count: Counter, limits: Limits, s: State, fact: Option<Fact>): State
    requires s.payload.items != []
  {
    if fact.None? then s.(omitted := s.omitted + 1)
    else if !Cited(s.payload, fact.value.source.id) && |Last(s.payload).evidence| >= limits.evidence
    then s.(omitted := s.omitted + 1)
    else Take(count, limits, s, WithFact(s.payload, fact.value))
  }

  function TakeEvidence(count: Counter, limits: Limits, s: State, e: Option<Evidence>): State
    requires s.payload.items != []
  {
    if e.None? then s.(omitted := s.omitted + 1)
    else if Cited(s.payload, e.value.id) then s
    else if |Last(s.payload).evidence| >= limits.evidence then s.(omitted := s.omitted + 1)
    else Take(count, limits, s, WithEvidence(s.payload, e.value))
  }

  function TakeFacts(count: Counter, limits: Limits, s: State, facts: seq<Option<Fact>>): (r: State)
    requires s.payload.items != []
    ensures r.payload.items != []
    decreases |facts|
  {
    if facts == [] then s
    else TakeFact(count, limits, TakeFacts(count, limits, s, facts[..|facts| - 1]), facts[|facts| - 1])
  }

  function TakeAll(count: Counter, limits: Limits, s: State, from: seq<Option<Evidence>>): (r: State)
    requires s.payload.items != []
    ensures r.payload.items != []
    decreases |from|
  {
    if from == [] then s
    else TakeEvidence(count, limits, TakeAll(count, limits, s, from[..|from| - 1]), from[|from| - 1])
  }

  function Finish(p: Payload): Payload
    requires p.items != []
  {
    WithLast(p, Last(p).(finished := true))
  }

  function Capped<T>(s: seq<T>, n: nat): seq<T> {
    if |s| <= n then s else s[..n]
  }

  function TakePin(count: Counter, limits: Limits, s: State, pin: Recalled): State {
    if pin.head.None? then s.(omitted := s.omitted + 1)
    else
      var next := s.payload.(items := s.payload.items + [Item(pin.head.value, [], [], false)]);
      if count(next) > limits.allowance then s.(omitted := s.omitted + 1)
      else
        var facts := TakeFacts(count, limits, s.(payload := next), Capped(pin.facts, limits.facts));
        var all := TakeAll(count, limits, facts, pin.evidence);
        all.(payload := Finish(all.payload))
  }

  function TakePins(count: Counter, limits: Limits, pins: seq<Recalled>): State
    decreases |pins|
  {
    if pins == [] then State(BARE, 0)
    else TakePin(count, limits, TakePins(count, limits, pins[..|pins| - 1]), pins[|pins| - 1])
  }

  // What became of each pin, fact and requested evidence.

  /** The payload while a pin is being packed: its item so far, still unfinished, after what was packed
      for the pins before. */
  function Open(a: Payload, head: string, facts: seq<Fact>, evidence: seq<Evidence>): Payload {
    Payload(a.items + [Item(head, facts, evidence, false)], a.citations + evidence)
  }

  /** At some point in the packing of this item there was no room: for a new message the share was used
      up, or the payload with the addition counted for more than the allowance. */
  ghost predicate NoRoomFor(count: Counter, limits: Limits, a: Payload, item: Item, x: Evidence) {
    exists n: nat ::
      && n <= |item.evidence|
      && NoRoomThen(count, limits, Open(a, item.head, item.facts, item.evidence[..n]), x)
  }

  ghost predicate NoRoomThen(count: Counter, limits: Limits, q: Payload, x: Evidence)
    requires q.items != []
  {
    !Cited(q, x.id) && (|Last(q).evidence| >= limits.evidence || count(WithEvidence(q, x)) > limits.allowance)
  }

  ghost predicate NoRoomForFact(count: Counter, limits: Limits, a: Payload, item: Item, f: Fact) {
    exists m: nat, n: nat ::
      && m <= |item.facts| && n <= |item.evidence|
      && NoFactThen(count, limits, Open(a, item.head, item.facts[..m], item.evidence[..n]), f)
  }

  ghost predicate NoFactThen(count: Counter, limits: Limits, q: Payload, f: Fact)
    requires q.items != []
  {
    || (!Cited(q, f.source.id) && |Last(q).evidence| >= limits.evidence)
    || count(WithFact(q, f)) > limits.allowance
  }

  /** The facts offered, up to the n-th: those at the kept positions are in the item, in order, each with
      its source cited; any other one is gone from memory, or there was no room for it. */
  ghost predicate FactsKept(count: Counter, limits: Limits, a: Payload, offered: seq<Option<Fact>>, n: nat,
                            kept: seq<nat>, item: Item)
  {
    && n <= |offered| && |kept| == |item.facts|
    && (forall i, j :: 0 <= i < j < |kept| ==> kept[i] < kept[j])
    && (forall i :: 0 <= i < |kept| ==> kept[i] < n && offered[kept[i]] == Some(item.facts[i]))
    && (forall i :: 0 <= i < |item.facts| ==> HasId(a.citations + item.evidence, item.facts[i].source.id))
    && (forall k :: 0 <= k < n && k !in kept ==>
          offered[k].None? || NoRoomForFact(count, limits, a, item, offered[k].value))
  }

  /** The requested evidence, up to the n-th: any but the positions left out is cited, here or for an
      earlier pin; a position left out is gone from memory, or there was no room for it. */
  ghost predicate EvidenceKept(count: Counter, limits: Limits, a: Payload, from: seq<Option<Evidence>>, n: nat,
                               left: set<nat>, item: Item)
  {
    && n <= |from| && (forall j :: j in left ==> j < n)
    && (forall j :: 0 <= j < n && j !in left ==> from[j].Some? && HasId(a.citations + item.evidence, from[j].value.id))
    && (forall j :: j in left ==> from[j].None? || NoRoomFor(count, limits, a, item, from[j].value))
  }

  /** Nothing is in the item but the sources of its facts and what was requested. */
  ghost predicate Wanted(item: Item, from: seq<Option<Evidence>>, n: nat)
    requires n <= |from|
  {
    forall e :: e in item.evidence ==> (exists f :: f in item.facts && f.source == e) || Some(e) in from[..n]
  }

  /** The states in the packing of one pin whose item is open: after `m` facts, and `n` of the evidence. */
  ghost predicate Packing1(count: Counter, limits: Limits, a: State, pin: Recalled, m: nat, n: nat,
                           kept: seq<nat>, left: set<nat>, item: Item, s: State)
  {
    var offered := Capped(pin.facts, limits.facts);
    && n <= |pin.evidence|
    && pin.head == Some(item.head) && !item.finished && |item.evidence| <= limits.evidence
    && s.payload == Open(a.payload, item.head, item.facts, item.evidence)
    && FactsKept(count, limits, a.payload, offered, m, kept, item)
    && EvidenceKept(count, limits, a.payload, pin.evidence, n, left, item) && Wanted(item, pin.evidence, n)
    && s.omitted + |kept| == a.omitted + m + |left|
  }

  /** What became of a pin. Without its task in memory, or without room for its bare item, it is counted
      as omitted and nothing else changes. Otherwise it has the next item, and every fact of the first
      `limits.facts` and every piece of requested evidence is packed and cited, or counted. */
  ghost predicate PinTaken(count: Counter, limits: Limits, a: State, pin: Recalled, b: State) {
    if pin.head.None? || count(Open(a.payload, pin.head.value, [], [])) > limits.allowance
    then b == a.(omitted := a.omitted + 1)
    else exists kept, left, item :: PinPacked(count, limits, a, pin, b, kept, left, item)
  }

  ghost predicate PinPacked(count: Counter, limits: Limits, a: State, pin: Recalled, b: State,
                            kept: seq<nat>, left: set<nat>, item: Item)
  {
    && pin.head == Some(item.head) && !item.finished && |item.evidence| <= limits.evidence
    && b.payload.items == a.payload.items + [item.(finished := true)]
    && b.payload.citations == a.payload.citations + item.evidence
    && FactsKept(count, limits, a.payload, Capped(pin.facts, limits.facts), |Capped(pin.facts, limits.facts)|,
                 kept, item)
    && EvidenceKept(count, limits, a.payload, pin.evidence, |pin.evidence|, left, item)
    && Wanted(item, pin.evidence, |pin.evidence|)
    && b.omitted + |kept| == a.omitted + |Capped(pin.facts, limits.facts)| + |left|
  }

  /** The pins are taken one after another, in their order. */
  ghost predicate PinsTaken(count: Counter, limits: Limits, pins: seq<Recalled>, states: seq<State>) {
    && |states| == |pins| + 1 && states[0] == State(BARE, 0)
    && forall i :: 0 <= i < |pins| ==> PinTaken(count, limits, states[i], pins[i], states[i + 1])
  }

  /** The item only grew, so there was no room before and there is none to speak of since. */
  lemma ItemGrew(count: Counter, limits: Limits, a: Payload, item: Item, next: Item)
    requires next.head == item.head && item.evidence <= next.evidence
    ensures item.facts <= next.facts ==>
              forall f :: NoRoomForFact(count, limits, a, item, f) ==> NoRoomForFact(count, limits, a, next, f)
    ensures item.facts == next.facts ==>
              forall x :: NoRoomFor(count, limits, a, item, x) ==> NoRoomFor(count, limits, a, next, x)
    ensures forall id :: HasId(a.citations + item.evidence, id) ==> HasId(a.citations + next.evidence, id)
  {
    hide NoFactThen, NoRoomThen;
    if item.facts <= next.facts {
      forall f | NoRoomForFact(count, limits, a, item, f) ensures NoRoomForFact(count, limits, a, next, f) {
        var m: nat, n: nat :| m <= |item.facts| && n <= |item.evidence|
          && NoFactThen(count, limits, Open(a, item.head, item.facts[..m], item.evidence[..n]), f);
        assert next.facts[..m] == item.facts[..m] && next.evidence[..n] == item.evidence[..n];
      }
    }
    if item.facts == next.facts {
      forall x | NoRoomFor(count, limits, a, item, x) ensures NoRoomFor(count, limits, a, next, x) {
        var n: nat :| n <= |item.evidence|
          && NoRoomThen(count, limits, Open(a, item.head, item.facts, item.evidence[..n]), x);
        assert next.evidence[..n] == item.evidence[..n];
      }
    }
    forall id | HasId(a.citations + item.evidence, id) ensures HasId(a.citations + next.evidence, id) {
      var i :| 0 <= i < |a.citations + item.evidence| && (a.citations + item.evidence)[i].id == id;
      assert (a.citations + next.evidence)[i].id == id;
    }
  }

  lemma OpenItem(a: Payload, item: Item)
    ensures var q := Open(a, item.head, item.facts, item.evidence);
            && q.items != [] && Last(q) == Item(item.head, item.facts, item.evidence, false)
            && q.citations == a.citations + item.evidence
    ensures item.facts[..|item.facts|] == item.facts && item.evidence[..|item.evidence|] == item.evidence
  {}

  lemma OpenWith(a: Payload, item: Item, e: Evidence, f: Fact)
    requires !item.finished
    ensures var q := Open(a, item.head, item.facts, item.evidence);
            && WithEvidence(q, e) == Open(a, item.head, item.facts, item.evidence + [e])
            && WithFact(q, f) == Open(a, item.head, item.facts + [f],
                                      if Cited(q, f.source.id) then item.evidence else item.evidence + [f.source])
  {
    hide Cited;
    var q := Open(a, item.head, item.facts, item.evidence);
    assert q.items[..|q.items| - 1] == a.items;
    assert q.citations + [e] == a.citations + (item.evidence + [e]);
    assert q.citations + [f.source] == a.citations + (item.evidence + [f.source]);
    var added := WithLast(q, Last(q).(facts := Last(q).facts + [f]));
    assert added.items[..|added.items| - 1] == a.items;
  }

  lemma AddedId(citations: seq<Evidence>, evidence: seq<Evidence>, e: Evidence)
    ensures HasId(citations + (evidence + [e]), e.id)
  {
    assert (citations + (evidence + [e]))[|citations| + |evidence|] == e;
  }

  /** One more fact kept. */
  lemma FactKept(count: Counter, limits: Limits, a: Payload, offered: seq<Option<Fact>>, m: nat, kept: seq<nat>,
                 item: Item, next: Item)
    requires FactsKept(count, limits, a, offered, m, kept, item) && m < |offered| && offered[m].Some?
    requires next.head == item.head && item.evidence <= next.evidence
    requires next.facts == item.facts + [offered[m].value]
    requires HasId(a.citations + next.evidence, offered[m].value.source.id)
    ensures FactsKept(count, limits, a, offered, m + 1, kept + [m], next)
  {
    ItemGrew(count, limits, a, item, next);
    hide NoRoomForFact, NoRoomFor, HasId;
    var more := kept + [m];
    assert forall k :: k in more <==> k in kept || k == m;
  }

  /** One more fact not kept. */
  lemma FactNotKept(count: Counter, limits: Limits, a: Payload, offered: seq<Option<Fact>>, m: nat, kept: seq<nat>,
                    item: Item)
    requires FactsKept(count, limits, a, offered, m, kept, item) && m < |offered| && !item.finished
    requires offered[m].None?
             || NoFactThen(count, limits, Open(a, item.head, item.facts, item.evidence), offered[m].value)
    ensures FactsKept(count, limits, a, offered, m + 1, kept, item)
  {
    OpenItem(a, item);
    hide NoFactThen, HasId;
  }

  lemma FactStep(count: Counter, limits: Limits, a: State, pin: Recalled, m: nat, kept: seq<nat>, item: Item, s: State)
    returns (more: seq<nat>, next: Item)
    requires Packing1(count, limits, a, pin, m, 0, kept, {}, item, s)
    requires m < |Capped(pin.facts, limits.facts)| && s.payload.items != []
    ensures Packing1(count, limits, a, pin, m + 1, 0, more, {}, next,
                     TakeFact(count, limits, s, Capped(pin.facts, limits.facts)[m]))
  {
    hide Cited, HasId, WithFact, WithEvidence, WithLast, FactsKept, Wanted;
    var offered := Capped(pin.facts, limits.facts);
    var fact := offered[m];
    OpenItem(a.payload, item);
    more, next := kept, item;
    var after := TakeFact(count, limits, s, fact);
    if fact.None? || NoFactThen(count, limits, s.payload, fact.value) {
      FactNotKept(count, limits, a.payload, offered, m, kept, item);
      assert after == s.(omitted := s.omitted + 1);
    } else {
      var f := fact.value;
      OpenWith(a.payload, item, f.source, f);
      more := kept + [m];
      next := item.(facts := item.facts + [f]);
      if Cited(s.payload, f.source.id) {
        StillCited(a.payload, item, f.source.id);
      } else {
        next := next.(evidence := item.evidence + [f.source]);
        AddedId(a.payload.citations, item.evidence, f.source);
      }
      FactKept(count, limits, a.payload, offered, m, kept, item, next);
      WantedMore(item, next, f, pin.evidence);
      NothingRequested(count, limits, a.payload, pin.evidence, next);
    }
  }

  lemma StillCited(a: Payload, item: Item, id: int)
    requires Cited(Open(a, item.head, item.facts, item.evidence), id)
    ensures HasId(a.citations + item.evidence, id)
  {}

  lemma NothingRequested(count: Counter, limits: Limits, a: Payload, from: seq<Option<Evidence>>, item: Item)
    ensures EvidenceKept(count, limits, a, from, 0, {}, item)
  {}

  lemma WantedMore(item: Item, next: Item, f: Fact, from: seq<Option<Evidence>>)
    requires Wanted(item, from, 0) && next.facts == item.facts + [f]
    requires next.evidence == item.evidence || next.evidence == item.evidence + [f.source]
    ensures Wanted(next, from, 0)
  {
    assert next.facts[|item.facts|] == f;
    forall e | e in next.evidence ensures exists x :: x in next.facts && x.source == e {
      if e in item.evidence {
        var x :| x in item.facts && x.source == e;
        assert x in next.facts;
      } else {
        assert f in next.facts;
      }
    }
  }

  /** One more piece of requested evidence, cited or left out. */
  lemma EvidenceDecided(count: Counter, limits: Limits, a: Payload, from: seq<Option<Evidence>>, n: nat,
                        left: set<nat>, item: Item, next: Item, out: bool)
    requires EvidenceKept(count, limits, a, from, n, left, item) && n < |from| && !item.finished
    requires next.head == item.head && next.facts == item.facts && item.evidence <= next.evidence
    requires out ==> next == item && (from[n].None? || NoRoomFor(count, limits, a, item, from[n].value))
    requires !out ==> from[n].Some? && HasId(a.citations + next.evidence, from[n].value.id)
    ensures EvidenceKept(count, limits, a, from, n + 1, if out then left + {n} else left, next)
    ensures n !in left
  {
    ItemGrew(count, limits, a, item, next);
    hide NoRoomForFact, NoRoomFor, HasId;
  }

  lemma FactsStayKept(count: Counter, limits: Limits, a: Payload, offered: seq<Option<Fact>>, m: nat, kept: seq<nat>,
                      item: Item, next: Item)
    requires FactsKept(count, limits, a, offered, m, kept, item)
    requires next.head == item.head && next.facts == item.facts && item.evidence <= next.evidence
    ensures FactsKept(count, limits, a, offered, m, kept, next)
  {
    ItemGrew(count, limits, a, item, next);
    hide NoRoomForFact, NoRoomFor, HasId;
  }

  lemma WantedStays(item: Item, next: Item, from: seq<Option<Evidence>>, n: nat)
    requires n < |from| && Wanted(item, from, n) && next.facts == item.facts
    requires next.evidence == item.evidence || (from[n].Some? && next.evidence == item.evidence + [from[n].value])
    ensures Wanted(next, from, n + 1)
  {
    assert from[..n + 1] == from[..n] + [from[n]];
  }

  lemma EvidenceStep(count: Counter, limits: Limits, a: State, pin: Recalled, n: nat, kept: seq<nat>, left: set<nat>,
                     item: Item, s: State)
    returns (more: set<nat>, next: Item)
    requires var m := |Capped(pin.facts, limits.facts)|; Packing1(count, limits, a, pin, m, n, kept, left, item, s)
    requires n < |pin.evidence| && s.payload.items != []
    ensures var m := |Capped(pin.facts, limits.facts)|;
            Packing1(count, limits, a, pin, m, n + 1, kept, more, next, TakeEvidence(count, limits, s, pin.evidence[n]))
  {
    hide Cited, HasId, WithFact, WithEvidence, WithLast, FactsKept, EvidenceKept, Wanted;
    var offered := Capped(pin.facts, limits.facts);
    var e := pin.evidence[n];
    OpenItem(a.payload, item);
    next := item;
    var out := e.None? || NoRoomThen(count, limits, s.payload, e.value);
    if out {
      if e.Some? { NoRoomNow(count, limits, a.payload, item, e.value); }
      more := left + {n};
    } else {
      more := left;
      if Cited(s.payload, e.value.id) {
        StillCited(a.payload, item, e.value.id);
      } else {
        OpenWith(a.payload, item, e.value, Packing.Fact("", e.value));
        next := item.(evidence := item.evidence + [e.value]);
        AddedId(a.payload.citations, item.evidence, e.value);
      }
    }
    EvidenceDecided(count, limits, a.payload, pin.evidence, n, left, item, next, out);
    FactsStayKept(count, limits, a.payload, offered, |offered|, kept, item, next);
    WantedStays(item, next, pin.evidence, n);
  }

  lemma NoRoomNow(count: Counter, limits: Limits, a: Payload, item: Item, x: Evidence)
    requires !item.finished && NoRoomThen(count, limits, Open(a, item.head, item.facts, item.evidence), x)
    ensures NoRoomFor(count, limits, a, item, x)
  {
    OpenItem(a, item);
    hide NoRoomThen;
  }

  lemma {:induction false} FactsTaken(count: Counter, limits: Limits, a: State, pin: Recalled, m: nat)
    returns (kept: seq<nat>, item: Item)
    requires pin.head.Some? && m <= |Capped(pin.facts, limits.facts)|
    ensures var begun := State(Open(a.payload, pin.head.value, [], []), a.omitted);
            begun.payload.items != []
            && Packing1(count, limits, a, pin, m, 0, kept, {}, item,
                        TakeFacts(count, limits, begun, Capped(pin.facts, limits.facts)[..m]))
    decreases m
  {
    hide Packing1;
    var offered := Capped(pin.facts, limits.facts);
    var begun := State(Open(a.payload, pin.head.value, [], []), a.omitted);
    if m == 0 {
      kept, item := [], Item(pin.head.value, [], [], false);
      PackingStarts(count, limits, a, pin);
      assert offered[..0] == [];
    } else {
      kept, item := FactsTaken(count, limits, a, pin, m - 1);
      kept, item := FactStep(count, limits, a, pin, m - 1, kept, item,
                             TakeFacts(count, limits, begun, offered[..m - 1]));
      TakeFactsStep(count, limits, begun, offered, m - 1);
    }
  }

  lemma PackingStarts(count: Counter, limits: Limits, a: State, pin: Recalled)
    requires pin.head.Some?
    ensures Packing1(count, limits, a, pin, 0, 0, [], {}, Item(pin.head.value, [], [], false),
                     State(Open(a.payload, pin.head.value, [], []), a.omitted))
  {}

  lemma {:induction false} EvidenceTaken(count: Counter, limits: Limits, a: State, pin: Recalled, n: nat)
    returns (kept: seq<nat>, left: set<nat>, item: Item)
    requires pin.head.Some? && n <= |pin.evidence|
    ensures var begun := State(Open(a.payload, pin.head.value, [], []), a.omitted);
            var offered := Capped(pin.facts, limits.facts);
            begun.payload.items != []
            && Packing1(count, limits, a, pin, |offered|, n, kept, left, item,
                        TakeAll(count, limits, TakeFacts(count, limits, begun, offered), pin.evidence[..n]))
    decreases n
  {
    hide Packing1;
    var begun := State(Open(a.payload, pin.head.value, [], []), a.omitted);
    var offered := Capped(pin.facts, limits.facts);
    var facts := TakeFacts(count, limits, begun, offered);
    if n == 0 {
      kept, item := FactsTaken(count, limits, a, pin, |offered|);
      left := {};
      assert offered[..|offered|] == offered && pin.evidence[..0] == [];
    } else {
      kept, left, item := EvidenceTaken(count, limits, a, pin, n - 1);
      left, item := EvidenceStep(count, limits, a, pin, n - 1, kept, left, item,
                                 TakeAll(count, limits, facts, pin.evidence[..n - 1]));
      TakeAllStep(count, limits, facts, pin.evidence, n - 1);
    }
  }

  /** What the packing of one pin does. */
  lemma PinIsTaken(count: Counter, limits: Limits, a: State, pin: Recalled)
    ensures PinTaken(count, limits, a, pin, TakePin(count, limits, a, pin))
  {
    hide TakeFacts, TakeAll, PinPacked;
    if pin.head.Some? && count(Open(a.payload, pin.head.value, [], [])) <= limits.allowance {
      var kept, left, item := EvidenceTaken(count, limits, a, pin, |pin.evidence|);
      assert pin.evidence[..|pin.evidence|] == pin.evidence;
      var begun := State(Open(a.payload, pin.head.value, [], []), a.omitted);
      BareItem(a.payload, pin.head.value);
      var all := TakeAll(count, limits, TakeFacts(count, limits, begun, Capped(pin.facts, limits.facts)), pin.evidence);
      PackingEnds(count, limits, a, pin, kept, left, item, all);
    } else if pin.head.Some? {
      BareItem(a.payload, pin.head.value);
    }
  }

  lemma BareItem(p: Payload, head: string)
    ensures p.(items := p.items + [Item(head, [], [], false)]) == Open(p, head, [], [])
  {
    assert p.citations + [] == p.citations;
  }

  lemma PackingEnds(count: Counter, limits: Limits, a: State, pin: Recalled, kept: seq<nat>, left: set<nat>, item: Item,
                    s: State)
    requires Packing1(count, limits, a, pin, |Capped(pin.facts, limits.facts)|, |pin.evidence|, kept, left, item, s)
    requires s.payload.items != []
    ensures PinPacked(count, limits, a, pin, s.(payload := Finish(s.payload)), kept, left, item)
  {
    hide FactsKept, EvidenceKept, Wanted;
    OpenItem(a.payload, item);
    assert s.payload.items[..|s.payload.items| - 1] == a.payload.items;
  }

  /** So the pins are taken one after another. */
  lemma {:induction false} PinsAreTaken(count: Counter, limits: Limits, pins: seq<Recalled>)
    returns (states: seq<State>)
    ensures PinsTaken(count, limits, pins, states) && states[|pins|] == TakePins(count, limits, pins)
    decreases |pins|
  {
    hide PinTaken, TakePin;
    if pins == [] {
      states := [State(BARE, 0)];
    } else {
      var n := |pins| - 1;
      var before := PinsAreTaken(count, limits, pins[..n]);
      PinIsTaken(count, limits, before[n], pins[n]);
      states := before + [TakePin(count, limits, before[n], pins[n])];
      forall i | 0 <= i < |pins| ensures PinTaken(count, limits, states[i], pins[i], states[i + 1]) {
        if i < n { assert pins[..n][i] == pins[i]; }
      }
    }
  }

  // The packed payload is well formed, for any counter.

  ghost predicate EachIdOnce(citations: seq<Evidence>) {
    forall i, j :: 0 <= i < j < |citations| ==> citations[i].id != citations[j].id
  }

  ghost predicate Within(items: seq<Item>, share: nat) {
    forall item :: item in items ==> |item.evidence| <= share
  }

  ghost predicate SourcesIn(citations: seq<Evidence>, facts: seq<Fact>) {
    forall f :: f in facts ==> HasId(citations, f.source.id)
  }

  ghost predicate FactsCited(items: seq<Item>, citations: seq<Evidence>) {
    forall item :: item in items ==> SourcesIn(citations, item.facts)
  }

  ghost function AllEvidence(items: seq<Item>): seq<Evidence>
    decreases |items|
  {
    if items == [] then [] else AllEvidence(items[..|items| - 1]) + items[|items| - 1].evidence
  }

  /** The citations, in order, are the evidence of the items; no message is packed twice; no pin has
      more than its share; every packed fact's source is cited. */
  ghost predicate Sound(p: Payload, share: nat) {
    && p.citations == AllEvidence(p.items) && EachIdOnce(p.citations)
    && Within(p.items, share) && FactsCited(p.items, p.citations)
  }

  lemma MoreCited(citations: seq<Evidence>, e: Evidence)
    ensures forall id :: HasId(citations + [e], id) <==> HasId(citations, id) || id == e.id
    ensures forall facts: seq<Fact> :: SourcesIn(citations, facts) ==> SourcesIn(citations + [e], facts)
    ensures EachIdOnce(citations) && !HasId(citations, e.id) ==> EachIdOnce(citations + [e])
  {
    assert (citations + [e])[|citations|] == e;
    forall id | HasId(citations, id) ensures HasId(citations + [e], id) {
      var i :| 0 <= i < |citations| && citations[i].id == id;
      assert (citations + [e])[i].id == id;
    }
  }

  /** Replacing the last item, whose own part is as good as the whole. */
  lemma LastReplaced(items: seq<Item>, item: Item, before: seq<Evidence>, citations: seq<Evidence>, share: nat)
    requires items != [] && Within(items, share) && FactsCited(items, before)
    requires forall facts: seq<Fact> :: SourcesIn(before, facts) ==> SourcesIn(citations, facts)
    requires |item.evidence| <= share && SourcesIn(citations, item.facts)
    ensures var after := items[..|items| - 1] + [item];
            && Within(after, share) && FactsCited(after, citations)
            && AllEvidence(after) == AllEvidence(items[..|items| - 1]) + item.evidence
  {
    hide SourcesIn;
    var after := items[..|items| - 1] + [item];
    assert after[..|after| - 1] == items[..|items| - 1];
    forall x | x in after ensures |x.evidence| <= share && SourcesIn(citations, x.facts) {
      if x != item { assert x in items; }
    }
  }

  lemma EvidenceSound(p: Payload, e: Evidence, share: nat)
    requires p.items != [] && Sound(p, share) && !Cited(p, e.id) && |Last(p).evidence| < share
    ensures Sound(WithEvidence(p, e), share)
  {
    hide EachIdOnce, Within, FactsCited, SourcesIn;
    MoreCited(p.citations, e);
    LastIsSound(p, share);
    LastReplaced(p.items, Last(p).(evidence := Last(p).evidence + [e]), p.citations, p.citations + [e], share);
    assert AllEvidence(p.items) == AllEvidence(p.items[..|p.items| - 1]) + Last(p).evidence;
  }

  lemma LastIsSound(p: Payload, share: nat)
    requires p.items != [] && Sound(p, share)
    ensures |Last(p).evidence| <= share && SourcesIn(p.citations, Last(p).facts)
  {
    assert Last(p) in p.items;
  }

  /** A fact whose source is cited already. */
  lemma FactSound(p: Payload, f: Fact, share: nat)
    requires p.items != [] && Sound(p, share) && Cited(p, f.source.id)
    ensures Sound(WithFact(p, f), share)
  {
    hide EachIdOnce, Within, FactsCited;
    LastIsSound(p, share);
    LastReplaced(p.items, Last(p).(facts := Last(p).facts + [f]), p.citations, p.citations, share);
  }

  /** A fact with its new source is the same payload as the source first and then the fact. */
  lemma FactWithSource(p: Payload, f: Fact, share: nat)
    requires p.items != [] && Sound(p, share) && !Cited(p, f.source.id) && |Last(p).evidence| < share
    ensures Sound(WithFact(p, f), share)
  {
    EvidenceSound(p, f.source, share);
    MoreCited(p.citations, f.source);
    var q := WithEvidence(p, f.source);
    FactSound(q, f, share);
    assert WithFact(p, f).items == WithFact(q, f).items;
  }

  lemma FinishSound(p: Payload, share: nat)
    requires p.items != [] && Sound(p, share)
    ensures Sound(Finish(p), share)
  {
    hide EachIdOnce, Within, FactsCited, SourcesIn;
    LastIsSound(p, share);
    LastReplaced(p.items, Last(p).(finished := true), p.citations, p.citations, share);
    assert AllEvidence(p.items) == AllEvidence(p.items[..|p.items| - 1]) + Last(p).evidence;
  }

  lemma PinSound(p: Payload, head: string, share: nat)
    requires Sound(p, share)
    ensures Sound(p.(items := p.items + [Item(head, [], [], false)]), share)
  {
    hide EachIdOnce, SourcesIn;
    var item := Item(head, [], [], false);
    assert (p.items + [item])[..|p.items|] == p.items;
    assert SourcesIn(p.citations, item.facts) by { NothingToCite(p.citations); }
  }

  lemma NothingToCite(citations: seq<Evidence>)
    ensures SourcesIn(citations, [])
  {}

  lemma {:induction false} FactsSound(count: Counter, limits: Limits, s: State, facts: seq<Option<Fact>>)
    requires s.payload.items != [] && Sound(s.payload, limits.evidence)
    ensures Sound(TakeFacts(count, limits, s, facts).payload, limits.evidence)
    decreases |facts|
  {
    hide Sound, Cited, WithFact;
    if facts == [] {
    } else {
      var n := |facts| - 1;
      FactsSound(count, limits, s, facts[..n]);
      var before := TakeFacts(count, limits, s, facts[..n]);
      if facts[n].Some? && Cited(before.payload, facts[n].value.source.id) {
        FactSound(before.payload, facts[n].value, limits.evidence);
      } else if facts[n].Some? && |Last(before.payload).evidence| < limits.evidence {
        FactWithSource(before.payload, facts[n].value, limits.evidence);
      }
    }
  }

  lemma {:induction false} AllSound(count: Counter, limits: Limits, s: State, from: seq<Option<Evidence>>)
    requires s.payload.items != [] && Sound(s.payload, limits.evidence)
    ensures Sound(TakeAll(count, limits, s, from).payload, limits.evidence)
    decreases |from|
  {
    hide Sound, Cited, WithEvidence;
    if from == [] {
    } else {
      var n := |from| - 1;
      AllSound(count, limits, s, from[..n]);
      var before := TakeAll(count, limits, s, from[..n]);
      if from[n].Some? && !Cited(before.payload, from[n].value.id)
          && |Last(before.payload).evidence| < limits.evidence {
        EvidenceSound(before.payload, from[n].value, limits.evidence);
      }
    }
  }

  /** For any counter, the packed pins cite exactly their evidence, once each, within each share. */
  lemma {:induction false} PinsSound(count: Counter, limits: Limits, pins: seq<Recalled>)
    ensures Sound(TakePins(count, limits, pins).payload, limits.evidence)
    decreases |pins|
  {
    if pins == [] {
    } else {
      hide Sound;
      var n := |pins| - 1;
      var pin := pins[n];
      PinsSound(count, limits, pins[..n]);
      var before := TakePins(count, limits, pins[..n]);
      if pin.head.Some? {
        PinSound(before.payload, pin.head.value, limits.evidence);
        var next := before.payload.(items := before.payload.items + [Item(pin.head.value, [], [], false)]);
        var begun := before.(payload := next);
        FactsSound(count, limits, begun, Capped(pin.facts, limits.facts));
        var facts := TakeFacts(count, limits, begun, Capped(pin.facts, limits.facts));
        AllSound(count, limits, facts, pin.evidence);
        FinishSound(TakeAll(count, limits, facts, pin.evidence).payload, limits.evidence);
      }
    }
  }

  // The final count.

  /** Finishing an item never makes a payload count for more. */
  ghost predicate Settling(count: Counter) {
    forall p: Payload :: p.items != [] ==> count(Finish(p)) <= count(p)
  }

  lemma {:induction false} FactsFit(count: Counter, limits: Limits, s: State, facts: seq<Option<Fact>>)
    requires s.payload.items != [] && count(s.payload) <= limits.allowance
    ensures count(TakeFacts(count, limits, s, facts).payload) <= limits.allowance
    decreases |facts|
  {
    hide WithFact;
    if facts == [] {
    } else {
      FactsFit(count, limits, s, facts[..|facts| - 1]);
    }
  }

  lemma {:induction false} AllFit(count: Counter, limits: Limits, s: State, from: seq<Option<Evidence>>)
    requires s.payload.items != [] && count(s.payload) <= limits.allowance
    ensures count(TakeAll(count, limits, s, from).payload) <= limits.allowance
    decreases |from|
  {
    hide WithEvidence;
    if from == [] {
    } else {
      AllFit(count, limits, s, from[..|from| - 1]);
    }
  }

  /** With a counter that dropping empty lists cannot raise, the final check never fails. */
  lemma {:induction false} PinsFit(count: Counter, limits: Limits, pins: seq<Recalled>)
    requires Settling(count) && count(BARE) <= limits.allowance
    ensures count(TakePins(count, limits, pins).payload) <= limits.allowance
    decreases |pins|
  {
    if pins == [] {
    } else {
      var n := |pins| - 1;
      var pin := pins[n];
      PinsFit(count, limits, pins[..n]);
      var before := TakePins(count, limits, pins[..n]);
      if pin.head.Some? {
        var next := before.payload.(items := before.payload.items + [Item(pin.head.value, [], [], false)]);
        if count(next) <= limits.allowance {
          var s := before.(payload := next);
          FactsFit(count, limits, s, Capped(pin.facts, limits.facts));
          AllFit(count, limits, TakeFacts(count, limits, s, Capped(pin.facts, limits.facts)), pin.evidence);
        }
      }
    }
  }

  // Maximality, for counters that grow with the payload.

  /** Everything of item `x` is in `y`. Where `y` is finished and `x` is not, it has lists to show. */
  ghost predicate ItemIn(x: Item, y: Item) {
    && x.head == y.head && multiset(x.facts) <= multiset(y.facts) && multiset(x.evidence) <= multiset(y.evidence)
    && (y.finished ==> x.finished || (y.facts != [] && y.evidence != []))
  }

  ghost predicate PayloadIn(p: Payload, q: Payload) {
    && |p.items| <= |q.items| && (forall i :: 0 <= i < |p.items| ==> ItemIn(p.items[i], q.items[i]))
    && multiset(p.citations) <= multiset(q.citations)
  }

  ghost predicate Growing(count: Counter) {
    forall p, q :: PayloadIn(p, q) ==> count(p) <= count(q)
  }

  /** The payload with one more message under an item. */
  function WithEvidenceAt(p: Payload, w: nat, e: Evidence): Payload
    requires w < |p.items|
  {
    var item := p.items[w];
    Payload(p.items[w := item.(evidence := item.evidence + [e])], p.citations + [e])
  }

  lemma TakenExtends(count: Counter, limits: Limits, a: State, pin: Recalled, b: State)
    requires PinTaken(count, limits, a, pin, b)
    ensures a.payload.items <= b.payload.items && a.payload.citations <= b.payload.citations
  {
    hide FactsKept, EvidenceKept, Wanted;
  }

  lemma {:induction false} StatesExtend(count: Counter, limits: Limits, pins: seq<Recalled>, states: seq<State>,
                                        i: nat, k: nat)
    requires PinsTaken(count, limits, pins, states) && i <= k <= |pins|
    ensures states[i].payload.items <= states[k].payload.items
    ensures states[i].payload.citations <= states[k].payload.citations
    decreases k
  {
    hide PinTaken;
    if i < k {
      StatesExtend(count, limits, pins, states, i, k - 1);
      TakenExtends(count, limits, states[k - 1], pins[k - 1], states[k]);
    }
  }

  lemma MultisetPrefix<T>(a: seq<T>, b: seq<T>)
    requires a <= b
    ensures multiset(a) <= multiset(b)
  {
    assert b == a + b[|a|..];
  }

  /** What was tried for an item, against the finished payload with the same message added to it. */
  lemma TriedIsIn(a: Payload, item: Item, n: nat, e: Evidence, p: Payload)
    requires n <= |item.evidence| && item.facts != [] && !item.finished
    requires a.items + [item.(finished := true)] <= p.items && a.citations + item.evidence <= p.citations
    ensures PayloadIn(Open(a, item.head, item.facts, item.evidence[..n] + [e]), WithEvidenceAt(p, |a.items|, e))
  {
    var w := |a.items|;
    var tried := Open(a, item.head, item.facts, item.evidence[..n] + [e]);
    var added := WithEvidenceAt(p, w, e);
    MultisetPrefix(item.evidence[..n], item.evidence);
    MultisetPrefix(a.citations + item.evidence[..n], p.citations);
    assert a.citations + (item.evidence[..n] + [e]) == (a.citations + item.evidence[..n]) + [e];
    forall i | 0 <= i < |tried.items| ensures ItemIn(tried.items[i], added.items[i]) {
      if i < w {
        assert added.items[i] == p.items[i] == a.items[i];
      } else {
        assert p.items[w] == item.(finished := true);
      }
    }
  }

  lemma ThereWasNoRoom(count: Counter, limits: Limits, a: Payload, item: Item, e: Evidence, p: Payload)
    requires Growing(count) && item.facts != [] && !item.finished && |item.evidence| < limits.evidence
    requires a.items + [item.(finished := true)] <= p.items && a.citations + item.evidence <= p.citations
    requires NoRoomFor(count, limits, a, item, e)
    ensures count(WithEvidenceAt(p, |a.items|, e)) > limits.allowance
  {
    hide Cited, WithEvidence, Growing;
    var n: nat :| n <= |item.evidence|
                  && NoRoomThen(count, limits, Open(a, item.head, item.facts, item.evidence[..n]), e);
    var tried := item.(evidence := item.evidence[..n]);
    OpenItem(a, tried);
    OpenWith(a, tried, e, Packing.Fact("", e));
    TriedIsIn(a, item, n, e, p);
    Grown(count, Open(a, item.head, item.facts, item.evidence[..n] + [e]), WithEvidenceAt(p, |a.items|, e));
  }

  lemma Grown(count: Counter, p: Payload, q: Payload)
    requires Growing(count) && PayloadIn(p, q)
    ensures count(p) <= count(q)
  {}

  /** Maximality: for a counter that grows with the payload, requested evidence of an admitted pin that is
      on record and not cited in the final payload would not fit there either, unless the pin's share is
      used up, or the pin shows no fact, so that its facts list was dropped when it was finished. */
  lemma PinsMaximal(count: Counter, limits: Limits, pins: seq<Recalled>, states: seq<State>, i: nat, j: nat)
    requires Growing(count) && PinsTaken(count, limits, pins, states)
    requires i < |pins| && |states[i + 1].payload.items| > |states[i].payload.items|
    requires j < |pins[i].evidence| && pins[i].evidence[j].Some?
    ensures var p, w, e := states[|pins|].payload, |states[i].payload.items|, pins[i].evidence[j].value;
            && w < |p.items|
            && (!Cited(p, e.id) && |p.items[w].evidence| < limits.evidence && p.items[w].facts != [] ==>
                  count(WithEvidenceAt(p, w, e)) > limits.allowance)
  {
    hide Growing, FactsKept, Wanted, NoRoomFor, PinsTaken;
    TakenAt(count, limits, pins, states, i);
    var a, b, pin := states[i], states[i + 1], pins[i];
    StatesExtend(count, limits, pins, states, i + 1, |pins|);
    var kept, left, item :| PinPacked(count, limits, a, pin, b, kept, left, item);
    var p, e := states[|pins|].payload, pin.evidence[j].value;
    if j in left {
      if |item.evidence| < limits.evidence && item.facts != [] {
        ThereWasNoRoom(count, limits, a.payload, item, e, p);
      }
    } else {
      CitedStays(a.payload.citations + item.evidence, p, e.id);
    }
  }

  lemma TakenAt(count: Counter, limits: Limits, pins: seq<Recalled>, states: seq<State>, i: nat)
    requires PinsTaken(count, limits, pins, states) && i < |pins|
    ensures |states| == |pins| + 1 && PinTaken(count, limits, states[i], pins[i], states[i + 1])
  {}

  lemma CitedStays(citations: seq<Evidence>, p: Payload, id: int)
    requires HasId(citations, id) && citations <= p.citations
    ensures Cited(p, id)
  {
    var k :| 0 <= k < |citations| && citations[k].id == id;
    assert p.citations[k].id == id;
  }

  /** Without a fact to show, maximality can fail: finishing the item drops its empty lists, and makes room
      for what was refused. `Fields` counts the lists and messages of the first item. */
  function Fields(): Counter {
    (p: Payload) =>
      if p.items == [] then 0
      else ListCount(p.items[0].facts, p.items[0].finished) + ListCount(p.items[0].evidence, p.items[0].finished)
           + |p.items[0].evidence|
  }

  function ListCount<T>(list: seq<T>, finished: bool): nat {
    if finished && |list| == 0 then 0 else 1
  }

  lemma FieldsGrows()
    ensures Growing(Fields())
  {
    forall p, q | PayloadIn(p, q) ensures Fields()(p) <= Fields()(q) {
      if p.items != [] {
        var x, y := p.items[0], q.items[0];
        assert ItemIn(x, y);
        assert |multiset(x.evidence)| == |x.evidence| && |multiset(y.evidence)| == |y.evidence|;
        MultisetSize(multiset(x.evidence), multiset(y.evidence));
        MultisetSize(multiset(x.facts), multiset(y.facts));
        assert |multiset(x.facts)| == |x.facts| && |multiset(y.facts)| == |y.facts|;
      }
    }
  }

  lemma MultisetSize<T>(a: multiset<T>, b: multiset<T>)
    requires a <= b
    ensures |a| <= |b|
  {
    assert b == a + (b - a);
  }

  /** The counter grows, and yet the one message that was left out would have fitted in the end. */
  lemma FinishingMakesRoom(e: Evidence)
    ensures Growing(Fields())
    ensures var s := TakePins(Fields(), Limits(2, 8, 4), [Recalled(Some("h"), [], [Some(e)])]);
            && s.omitted == 1 && |s.payload.items| == 1 && !Cited(s.payload, e.id)
            && Fields()(WithEvidenceAt(s.payload, 0, e)) <= 2
  {
    FieldsGrows();
    hide Growing;
    var limits, pin := Limits(2, 8, 4), Recalled(Some("h"), [], [Some(e)]);
    var begun := State(Open(BARE, "h", [], []), 0);
    BareItem(BARE, "h");
    assert [pin][..0] == [] && TakePins(Fields(), limits, []) == State(BARE, 0);
    assert Capped(pin.facts, 8) == [] && TakeFacts(Fields(), limits, begun, []) == begun;
    var item := Item("h", [], [], false);
    OpenItem(BARE, item);
    OpenWith(BARE, item, e, Packing.Fact("", e));
    assert Fields()(Open(BARE, "h", [], [e])) == 3;
    assert [Some(e)][..0] == [] && TakeAll(Fields(), limits, begun, []) == begun;
    assert TakeAll(Fields(), limits, begun, [Some(e)]) == State(begun.payload, 1);
    assert begun.payload.items[..0] == [];
    assert Finish(begun.payload).items == [item.(finished := true)];
  }

  // The default counter.

  function ListField(name: string, items: seq<string>, finished: bool): string {
    if finished && items == [] then "" else ",\"" + name + "\":[" + Packing.Join(items) + "]"
  }

  /** `head` is the rendered task id, title and snapshot. */
  function RenderItem(item: Item): string {
    "{" + item.head + ListField("facts", Packing.FactRecords(item.facts), item.finished)
    + ListField("evidence", Packing.Records(item.evidence), item.finished) + "}"
  }

  function RenderItems(items: seq<Item>): seq<string> {
    seq(|items|, i requires 0 <= i < |items| => RenderItem(items[i]))
  }

  function Spelled(cite: Evidence -> string, citations: seq<Evidence>): seq<string> {
    seq(|citations|, i requires 0 <= i < |citations| => "\"" + cite(citations[i]) + "\"")
  }

  /** `tail` is the caller's own pinned input, if any. */
  function Render(cite: Evidence -> string, tail: string, p: Payload): string {
    "{\"memory_context\":{\"memory_route\":\"pinned\",\"pinned\":[" + Packing.Join(RenderItems(p.items))
    + "],\"evidence\":[],\"facts\":[],\"citations\":[" + Packing.Join(Spelled(cite, p.citations)) + "]" + tail + "}}"
  }

  function Estimated(system: string, cite: Evidence -> string, tail: string, query: string): Counter {
    (p: Payload) => 3 + Packing.MessageUnits(system) + Packing.MessageUnits(Render(cite, tail, p))
        + Packing.MessageUnits(query)
  }

  lemma {:induction false} ShorterLast(front: seq<string>, a: string, b: string)
    requires |a| <= |b|
    ensures |Packing.Join(front + [a])| <= |Packing.Join(front + [b])|
    decreases |front|
  {
    if front == [] {
    } else {
      ShorterLast(front[1..], a, b);
      assert (front + [a])[1..] == front[1..] + [a] && (front + [b])[1..] == front[1..] + [b];
    }
  }

  lemma FinishedIsShorter(item: Item)
    ensures |RenderItem(item.(finished := true))| <= |RenderItem(item)|
  {
    hide Packing.Join, Packing.Records, Packing.FactRecords;
  }

  /** The final budget error is unreachable with the default counter. */
  lemma EstimatedSettles(system: string, cite: Evidence -> string, tail: string, query: string)
    ensures Settling(Estimated(system, cite, tail, query))
  {
    forall p: Payload | p.items != []
      ensures Estimated(system, cite, tail, query)(Finish(p)) <= Estimated(system, cite, tail, query)(p)
    {
      FinishedRenders(cite, tail, p);
      hide Render;
    }
  }

  lemma RenderedLast(items: seq<Item>, item: Item)
    requires items != []
    ensures RenderItems(items[..|items| - 1] + [item]) == RenderItems(items[..|items| - 1]) + [RenderItem(item)]
  {
    hide RenderItem;
  }

  lemma FinishedRenders(cite: Evidence -> string, tail: string, p: Payload)
    requires p.items != []
    ensures |Render(cite, tail, Finish(p))| <= |Render(cite, tail, p)|
  {
    var front := RenderItems(p.items[..|p.items| - 1]);
    FinishedIsShorter(Last(p));
    ShorterLast(front, RenderItem(Last(p).(finished := true)), RenderItem(Last(p)));
    RenderedLast(p.items, Last(p));
    RenderedLast(p.items, Last(p).(finished := true));
    assert p.items == p.items[..|p.items| - 1] + [Last(p)];
    hide Packing.Join, RenderItem, RenderItems, Spelled;
  }

  function CitationCost(cite: Evidence -> string): Evidence -> nat {
    (e: Evidence) => |cite(e)| + 3
  }

  lemma {:induction false} SpelledLength(cite: Evidence -> string, citations: seq<Evidence>)
    ensures |Packing.Join(Spelled(cite, citations))| == Packing.ListLength(Packing.Total(CitationCost(cite), citations))
    decreases |citations|
  {
    if citations == [] {
    } else {
      SpelledLength(cite, citations[1..]);
      assert Spelled(cite, citations)[1..] == Spelled(cite, citations[1..]);
    }
  }

  lemma {:induction false} JoinLonger(a: seq<string>, b: seq<string>)
    requires |a| <= |b| && forall i :: 0 <= i < |a| ==> |a[i]| <= |b[i]|
    ensures |Packing.Join(a)| <= |Packing.Join(b)|
    decreases |a|
  {
    if a == [] {
    } else {
      assert forall i :: 0 <= i < |a[1..]| ==> a[1..][i] == a[i + 1] && b[1..][i] == b[i + 1];
      JoinLonger(a[1..], b[1..]);
    }
  }

  lemma ItemLonger(x: Item, y: Item)
    requires ItemIn(x, y)
    ensures |RenderItem(x)| <= |RenderItem(y)|
  {
    Packing.FactsLength(x.facts);
    Packing.FactsLength(y.facts);
    Packing.EvidenceLength(x.evidence);
    Packing.EvidenceLength(y.evidence);
    Packing.MoreCostsMore(Packing.FactCost(), x.facts, y.facts);
    Packing.MoreCostsMore(Packing.EvidenceCost(), x.evidence, y.evidence);
    assert x.facts != [] ==> y.facts != [] by { SomeMember(x.facts, y.facts); }
    assert x.evidence != [] ==> y.evidence != [] by { SomeMember(x.evidence, y.evidence); }
    assert |Packing.FactRecords(x.facts)| == |x.facts| && |Packing.FactRecords(y.facts)| == |y.facts|;
    assert |Packing.Records(x.evidence)| == |x.evidence| && |Packing.Records(y.evidence)| == |y.evidence|;
    ListLonger("facts", Packing.FactRecords(x.facts), x.finished, Packing.FactRecords(y.facts), y.finished);
    ListLonger("evidence", Packing.Records(x.evidence), x.finished, Packing.Records(y.evidence), y.finished);
    hide Packing.Join, Packing.Records, Packing.FactRecords, ListField;
  }

  lemma SomeMember<T>(a: seq<T>, b: seq<T>)
    requires multiset(a) <= multiset(b)
    ensures a != [] ==> b != []
  {
    if a != [] {
      assert multiset(a)[a[0]] > 0;
    }
  }

  lemma ListLonger(name: string, a: seq<string>, done: bool, b: seq<string>, alsoDone: bool)
    requires |Packing.Join(a)| <= |Packing.Join(b)| && (a != [] ==> b != []) && (alsoDone ==> done || b != [])
    ensures |ListField(name, a, done)| <= |ListField(name, b, alsoDone)|
  {
    hide Packing.Join;
  }

  /** The default counter grows with the payload, so the maximality above applies to it. */
  lemma EstimatedGrows(system: string, cite: Evidence -> string, tail: string, query: string)
    ensures Growing(Estimated(system, cite, tail, query))
  {
    forall p, q | PayloadIn(p, q)
      ensures Estimated(system, cite, tail, query)(p) <= Estimated(system, cite, tail, query)(q)
    {
      RenderLonger(cite, tail, p, q);
      hide Render;
    }
  }

  lemma RenderLonger(cite: Evidence -> string, tail: string, p: Payload, q: Payload)
    requires PayloadIn(p, q)
    ensures |Render(cite, tail, p)| <= |Render(cite, tail, q)|
  {
    hide RenderItem, Packing.Join, Spelled, ItemIn;
    forall i | 0 <= i < |p.items| ensures |RenderItems(p.items)[i]| <= |RenderItems(q.items)[i]| {
      ItemLonger(p.items[i], q.items[i]);
    }
    JoinLonger(RenderItems(p.items), RenderItems(q.items));
    SpelledLength(cite, p.citations);
    SpelledLength(cite, q.citations);
    Packing.MoreCostsMore(CitationCost(cite), p.citations, q.citations);
    hide RenderItems, Packing.Total;
  }

  /** A counter that charges for finished items makes the final check fail. */
  function Late(): Counter {
    (p: Payload) => if p.items != [] && p.items[0].finished then 10 else 0
  }

  lemma CustomCounterCanFailLate()
    ensures Late()(BARE) <= 5
    ensures Late()(TakePins(Late(), Limits(5, 8, 4), [Recalled(Some("h"), [], [])]).payload) > 5
  {
    var pins := [Recalled(Some("h"), [], [])];
    var limits := Limits(5, 8, 4);
    assert pins[..0] == [];
    var item := Item("h", [], [], false);
    var next := BARE.(items := BARE.items + [item]);
    assert next.items == [item];
    assert Late()(next) == 0;
    var s := State(next, 0);
    assert TakePins(Late(), limits, []) == State(BARE, 0);
    assert Capped(pins[0].facts, 8) == [];
    assert TakeFacts(Late(), limits, s, []) == s;
    assert TakeAll(Late(), limits, s, []) == s;
    assert Finish(next).items == [item.(finished := true)];
    assert TakePin(Late(), limits, State(BARE, 0), pins[0]) == State(Finish(next), 0);
  }

  // The loops, in place.

  datatype Outcome = OverBudget | FailedLate | Packed(payload: Payload, used: nat, omitted: nat)

  lemma TakeFactsStep(count: Counter, limits: Limits, s: State, facts: seq<Option<Fact>>, i: nat)
    requires i < |facts| && s.payload.items != []
    ensures TakeFacts(count, limits, s, facts[..i + 1])
         == TakeFact(count, limits, TakeFacts(count, limits, s, facts[..i]), facts[i])
  {
    assert facts[..i + 1][..i] == facts[..i];
  }

  lemma TakeAllStep(count: Counter, limits: Limits, s: State, from: seq<Option<Evidence>>, i: nat)
    requires i < |from| && s.payload.items != []
    ensures TakeAll(count, limits, s, from[..i + 1])
         == TakeEvidence(count, limits, TakeAll(count, limits, s, from[..i]), from[i])
  {
    assert from[..i + 1][..i] == from[..i];
  }

  lemma TakePinsStep(count: Counter, limits: Limits, pins: seq<Recalled>, i: nat)
    requires i < |pins|
    ensures TakePins(count, limits, pins[..i + 1])
              == TakePin(count, limits, TakePins(count, limits, pins[..i]), pins[i])
  {
    assert pins[..i + 1][..i] == pins[..i];
  }

  method PackFacts(count: Counter, limits: Limits, start: State, facts: seq<Option<Fact>>) returns (s: State)
    requires start.payload.items != []
    ensures s == TakeFacts(count, limits, start, Capped(facts, limits.facts))
  {
    hide TakeFact;
    var kept := Capped(facts, limits.facts);
    s := start;
    assert kept[..0] == [];
    for i := 0 to |kept|
      invariant s.payload.items != [] && s == TakeFacts(count, limits, start, kept[..i])
    {
      TakeFactsStep(count, limits, start, kept, i);
      s := TryFact(count, limits, s, kept[i]);
    }
    assert kept[..|kept|] == kept;
  }

  /** Pushed, counted, and popped again when it does not fit. */
  method TryFact(count: Counter, limits: Limits, start: State, fact: Option<Fact>) returns (s: State)
    requires start.payload.items != []
    ensures s == TakeFact(count, limits, start, fact)
  {
    if fact.None? {
      return start.(omitted := start.omitted + 1);
    }
    var f := fact.value;
    var isNew := !Cited(start.payload, f.source.id);
    var item := Last(start.payload);
    if isNew && |item.evidence| >= limits.evidence {
      return start.(omitted := start.omitted + 1);
    }
    var citations := start.payload.citations;
    item := item.(facts := item.facts + [f]);
    if isNew {
      item := item.(evidence := item.evidence + [f.source]);
      citations := citations + [f.source];
    }
    var next := WithLast(start.payload, item).(citations := citations);
    FactIs(start.payload, f, next);
    hide WithFact, WithLast, Last;
    if count(next) > limits.allowance {
      return start.(omitted := start.omitted + 1);
    }
    s := start.(payload := next);
  }

  lemma FactIs(p: Payload, f: Fact, next: Payload)
    requires p.items != []
    requires var item := Last(p).(facts := Last(p).facts + [f]);
             next == if Cited(p, f.source.id) then WithLast(p, item)
                     else WithLast(p, item.(evidence := item.evidence + [f.source]))
                            .(citations := p.citations + [f.source])
    ensures next == WithFact(p, f)
  {
    hide Cited;
    assert WithFact(p, f).items == next.items;
  }

  method PackEvidence(count: Counter, limits: Limits, start: State, from: seq<Option<Evidence>>) returns (s: State)
    requires start.payload.items != []
    ensures s == TakeAll(count, limits, start, from)
  {
    hide Cited, WithEvidence;
    s := start;
    assert from[..0] == [];
    for i := 0 to |from|
      invariant s.payload.items != [] && s == TakeAll(count, limits, start, from[..i])
    {
      TakeAllStep(count, limits, start, from, i);
      ghost var before := s;
      if from[i].None? {
        s := s.(omitted := s.omitted + 1);
      } else if !Cited(s.payload, from[i].value.id) {
        if |Last(s.payload).evidence| >= limits.evidence {
          s := s.(omitted := s.omitted + 1);
        } else {
          var next := WithEvidence(s.payload, from[i].value);
          if count(next) > limits.allowance {
            s := s.(omitted := s.omitted + 1);
          } else {
            s := s.(payload := next);
          }
        }
      }
      assert s == TakeEvidence(count, limits, before, from[i]);
    }
    assert from[..|from|] == from;
  }

  method PackPin(count: Counter, limits: Limits, start: State, pin: Recalled) returns (s: State)
    ensures s == TakePin(count, limits, start, pin)
  {
    if pin.head.None? {
      return start.(omitted := start.omitted + 1);
    }
    s := start.(payload := start.payload.(items := start.payload.items + [Item(pin.head.value, [], [], false)]));
    if count(s.payload) > limits.allowance {
      return start.(omitted := start.omitted + 1);
    }
    s := PackFacts(count, limits, s, pin.facts);
    s := PackEvidence(count, limits, s, pin.evidence);
    s := s.(payload := Finish(s.payload));
  }

  /** `_pinned_context`: the bare envelope must fit; the final check can only fail for a counter that
      charges more once empty lists are dropped. */
  method PinnedContext(count: Counter, limits: Limits, pins: seq<Recalled>) returns (outcome: Outcome)
    ensures outcome.OverBudget? <==> count(BARE) > limits.allowance
    ensures Settling(count) ==> !outcome.FailedLate?
    ensures outcome.Packed? ==>
              && outcome.payload == TakePins(count, limits, pins).payload
              && outcome.omitted == TakePins(count, limits, pins).omitted
              && outcome.used == count(outcome.payload) <= limits.allowance
              && Sound(outcome.payload, limits.evidence)
              && exists states :: PinsTaken(count, limits, pins, states)
                                  && states[|pins|] == State(outcome.payload, outcome.omitted)
  {
    hide Sound, Settling, PinsTaken;
    if count(BARE) > limits.allowance {
      return OverBudget;
    }
    var s := State(BARE, 0);
    assert pins[..0] == [];
    for i := 0 to |pins|
      invariant s == TakePins(count, limits, pins[..i])
    {
      TakePinsStep(count, limits, pins, i);
      s := PackPin(count, limits, s, pins[i]);
    }
    assert pins[..|pins|] == pins;
    PinsSound(count, limits, pins);
    ghost var states := PinsAreTaken(count, limits, pins);
    assert Settling(count) ==> count(s.payload) <= limits.allowance by {
      if Settling(count) { PinsFit(count, limits, pins); }
    }
    if count(s.payload) > limits.allowance {
      return FailedLate;
    }
    outcome := Packed(s.payload, count(s.payload), s.omitted);
  }
}
