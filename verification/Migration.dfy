/** Importing legacy paths as tasks, parents before children. */
module Migration {
  import opened Common

  type Path = string

  /** What each legacy path depends on, in the order recorded. */
  type Records = map<Path, seq<Path>>

  /** A created task: the legacy path it stands for, and the ids of its parents. Ids count from one. */
  datatype Task = Task(path: Path, parents: seq<nat>)

  // Cycles and missing parents.

  ghost predicate NamesUnknown(records: Records) {
    exists p :: p in records && HasUnknown(records, p)
  }

  ghost predicate HasUnknown(records: Records, p: Path)
    requires p in records
  {
    exists d :: d in records[p] && d !in records
  }

  /** Each path of the walk depends on the next. */
  ghost predicate Walk(records: Records, walk: seq<Path>) {
    && (forall i :: 0 <= i < |walk| ==> walk[i] in records)
    && (forall i :: 0 <= i < |walk| - 1 ==> walk[i + 1] in records[walk[i]])
  }

  /** A walk of at least one step back to where it started. */
  ghost predicate Cycle(records: Records, walk: seq<Path>) {
    Walk(records, walk) && |walk| >= 2 && walk[0] == walk[|walk| - 1]
  }

  ghost predicate Cyclic(records: Records) {
    exists walk :: Cycle(records, walk)
  }

  // A good order leaves no room for either.

  ghost predicate ParentsFirst(records: Records, order: seq<Path>) {
    && (forall i :: 0 <= i < |order| ==> order[i] in records)
    && Distinct(order)
    && (forall i, d :: 0 <= i < |order| && d in records[order[i]] ==> Before(order, d, i))
  }

  ghost predicate Before(order: seq<Path>, d: Path, i: nat) {
    exists j :: 0 <= j < i && j < |order| && order[j] == d
  }

  lemma {:induction false} WalksGoBack(records: Records, order: seq<Path>, walk: seq<Path>, i: nat, j: nat)
    returns (k: nat)
    requires ParentsFirst(records, order) && Walk(records, walk) && |walk| >= 2
    requires i < |order| && order[i] == walk[0] && 0 < j < |walk|
    ensures k < i && order[k] == walk[j]
    decreases j
  {
    if j == 1 {
      assert Before(order, walk[1], i);
      k :| 0 <= k < i && order[k] == walk[1];
    } else {
      var m := WalksGoBack(records, order, walk, i, j - 1);
      assert walk[j] in records[walk[j - 1]];
      assert Before(order, walk[j], m);
      k :| 0 <= k < m && order[k] == walk[j];
    }
  }

  lemma OrderRulesOutCycles(records: Records, order: seq<Path>)
    requires ParentsFirst(records, order) && forall p :: p in records ==> p in order
    ensures !Cyclic(records) && !NamesUnknown(records)
  {
    forall walk | Walk(records, walk) && |walk| >= 2 ensures walk[0] != walk[|walk| - 1] {
      assert walk[0] in records;
      var i :| 0 <= i < |order| && order[i] == walk[0];
      var k := WalksGoBack(records, order, walk, i, |walk| - 1);
    }
    forall p, d | p in records && d in records[p] ensures d in records {
      var i :| 0 <= i < |order| && order[i] == p;
      assert Before(order, d, i);
    }
  }

  // No ready path means a cycle or a missing parent.

  /** Every path of `stuck` depends on some path of `stuck`. */
  ghost predicate Stuck(records: Records, stuck: set<Path>) {
    stuck != {} && forall p :: p in stuck ==> p in records && Onward(records, p, stuck)
  }

  ghost predicate Onward(records: Records, p: Path, to: set<Path>)
    requires p in records
  {
    exists d :: d in records[p] && d in to
  }

  lemma {:induction false} LongWalk(records: Records, stuck: set<Path>, n: nat) returns (walk: seq<Path>)
    requires Stuck(records, stuck) && n >= 1
    ensures |walk| == n && Walk(records, walk) && forall i :: 0 <= i < n ==> walk[i] in stuck
    decreases n
  {
    if n == 1 {
      var p := Pick(stuck);
      walk := [p];
    } else {
      var shorter := LongWalk(records, stuck, n - 1);
      var last := shorter[n - 2];
      assert last in stuck && Onward(records, last, stuck);
      var d :| d in records[last] && d in stuck;
      walk := shorter + [d];
    }
  }

  lemma {:induction false} Repeats(walk: seq<Path>, all: set<Path>) returns (i: nat, j: nat)
    requires |walk| > |all| && forall k :: 0 <= k < |walk| ==> walk[k] in all
    ensures i < j < |walk| && walk[i] == walk[j]
    decreases |walk|
  {
    var n := |walk| - 1;
    var last := walk[n];
    if k :| 0 <= k < n && walk[k] == last {
      i, j := k, n;
    } else {
      assert forall k :: 0 <= k < n ==> walk[..n][k] == walk[k];
      i, j := Repeats(walk[..n], all - {last});
    }
  }

  lemma LoopIsCycle(records: Records, walk: seq<Path>, i: nat, j: nat)
    requires Walk(records, walk) && i < j < |walk| && walk[i] == walk[j]
    ensures Cycle(records, walk[i..j + 1])
  {
    var round := walk[i..j + 1];
    forall k | 0 <= k < |round| ensures round[k] == walk[i + k] {}
  }

  lemma StuckIsCyclic(records: Records, stuck: set<Path>)
    requires Stuck(records, stuck)
    ensures Cyclic(records)
  {
    hide Stuck, Walk, Cycle;
    var walk := LongWalk(records, stuck, |stuck| + 1);
    var i, j := Repeats(walk, stuck);
    LoopIsCycle(records, walk, i, j);
  }

  ghost predicate Blocked(records: Records, p: Path, done: set<Path>)
    requires p in records
  {
    exists d :: d in records[p] && d !in done
  }

  /** A blocked path with known parents has one that is not done either. */
  lemma BlockedGoesOn(records: Records, done: set<Path>, stuck: set<Path>, p: Path)
    requires p in records && Blocked(records, p, done) && !NamesUnknown(records)
    requires stuck == set q | q in records && q !in done
    ensures Onward(records, p, stuck)
  {
    var d :| d in records[p] && d !in done;
    assert !HasUnknown(records, p);
  }

  lemma NothingReady(records: Records, done: set<Path>)
    requires forall p :: p in records && p !in done ==> Blocked(records, p, done)
    requires exists p :: p in records && p !in done
    ensures Cyclic(records) || NamesUnknown(records)
  {
    hide Cyclic, Blocked, NamesUnknown;
    if !NamesUnknown(records) {
      BlockedAreStuck(records, done);
      StuckIsCyclic(records, set p | p in records && p !in done);
    }
  }

  lemma BlockedAreStuck(records: Records, done: set<Path>)
    requires forall p :: p in records && p !in done ==> Blocked(records, p, done)
    requires exists p :: p in records && p !in done
    requires !NamesUnknown(records)
    ensures Stuck(records, set p | p in records && p !in done)
  {
    hide NamesUnknown, Blocked, Onward;
    var stuck := set p | p in records && p !in done;
    forall p | p in stuck ensures Onward(records, p, stuck) {
      BlockedGoesOn(records, done, stuck, p);
    }
    var some :| some in records && some !in done;
    assert some in stuck;
  }

  // `sorted(ready)`.

  predicate LexLe(a: string, b: string)
    decreases |a|
  {
    if a == "" then true
    else if b == "" then false
    else a[0] < b[0] || (a[0] == b[0] && LexLe(a[1..], b[1..]))
  }

  lemma {:induction false} LexTotal(a: string, b: string)
    ensures LexLe(a, b) || LexLe(b, a)
    decreases |a|
  {
    if a != "" && b != "" { LexTotal(a[1..], b[1..]); }
  }

  lemma {:induction false} LexThen(a: string, b: string, c: string)
    requires LexLe(a, b) && LexLe(b, c)
    ensures LexLe(a, c)
    decreases |a|
  {
    if a != "" && a[0] == b[0] && b[0] == c[0] { LexThen(a[1..], b[1..], c[1..]); }
  }

  /** `m` is a member that no other precedes. */
  ghost predicate First(s: set<Path>, m: Path) {
    m in s && forall x :: x in s ==> LexLe(m, x)
  }

  lemma {:induction false} FirstOf(s: set<Path>) returns (m: Path)
    requires s != {}
    ensures First(s, m)
    decreases |s|
  {
    hide First, LexLe;
    var a := Pick(s);
    if s - {a} == {} {
      OnlyOne(s, a);
      m := a;
    } else {
      var rest := FirstOf(s - {a});
      LexTotal(a, rest);
      m := if LexLe(a, rest) then a else rest;
      FirstOfTwo(s, a, rest);
    }
  }

  lemma OnlyOne(s: set<Path>, a: Path)
    requires a in s && s - {a} == {}
    ensures First(s, a)
  {
    LexTotal(a, a);
    forall x | x in s ensures x == a {
      assert x !in s - {a};
    }
    hide LexLe;
  }

  lemma FirstOfTwo(s: set<Path>, a: Path, m: Path)
    requires a in s && First(s - {a}, m) && (LexLe(a, m) || LexLe(m, a))
    ensures First(s, if LexLe(a, m) then a else m)
  {
    LexTotal(a, a);
    forall x | x in s && x != a && LexLe(a, m) ensures LexLe(a, x) {
      assert x in s - {a};
      LexThen(a, m, x);
    }
    hide LexLe;
  }

  method Sorted(s: set<Path>) returns (order: seq<Path>)
    ensures forall p :: p in order <==> p in s
    ensures forall i, j :: 0 <= i < j < |order| ==> order[i] != order[j] && LexLe(order[i], order[j])
  {
    order := [];
    var left := s;
    while left != {}
      invariant left <= s && forall p :: p in order <==> p in s && p !in left
      invariant forall i, p :: 0 <= i < |order| && p in left ==> LexLe(order[i], p)
      invariant forall i, j :: 0 <= i < j < |order| ==> order[i] != order[j] && LexLe(order[i], order[j])
      decreases |left|
    {
      ghost var least := FirstOf(left);
      var first :| first in left && forall x :: x in left ==> LexLe(first, x);
      order := order + [first];
      left := left - {first};
    }
  }

  // The loop.

  /** The ids of already mapped parents, in the order recorded. */
  function MappedIds(mapping: map<Path, nat>, deps: seq<Path>): seq<nat>
    requires forall d :: d in deps ==> d in mapping
  {
    seq(|deps|, i requires 0 <= i < |deps| => assert deps[i] in deps; mapping[deps[i]])
  }

  function Paths(tasks: seq<Task>): seq<Path> {
    seq(|tasks|, i requires 0 <= i < |tasks| => tasks[i].path)
  }

  /** Tasks created so far, each once, parents first, and the mapping from paths to their ids. */
  ghost predicate Created(records: Records, tasks: seq<Task>, mapping: map<Path, nat>) {
    && ParentsFirst(records, Paths(tasks))
    && (forall p :: p in mapping <==> p in Paths(tasks))
    && (forall i :: 0 <= i < |tasks| ==>
        tasks[i].path in mapping && mapping[tasks[i].path] == i + 1 && Linked(records, tasks[i], mapping))
  }

  /** A task's parents are the tasks its path depends on. */
  ghost predicate Linked(records: Records, task: Task, mapping: map<Path, nat>) {
    && task.path in records
    && (forall d :: d in records[task.path] ==> d in mapping)
    && task.parents == MappedIds(mapping, records[task.path])
  }

  lemma CreateOne(records: Records, tasks: seq<Task>, mapping: map<Path, nat>, p: Path)
    requires Created(records, tasks, mapping) && p in records && p !in mapping
    requires forall d :: d in records[p] ==> d in mapping
    ensures Created(records, tasks + [Task(p, MappedIds(mapping, records[p]))], mapping[p := |tasks| + 1])
  {
    var more, wider := tasks + [Task(p, MappedIds(mapping, records[p]))], mapping[p := |tasks| + 1];
    var earlier, order := Paths(tasks), Paths(more);
    assert order == earlier + [p];
    forall i, d | 0 <= i < |order| && d in records[order[i]] ensures Before(order, d, i) {
      if i < |earlier| {
        assert order[i] == earlier[i] && Before(earlier, d, i);
        var j :| 0 <= j < i && j < |earlier| && earlier[j] == d;
        assert order[j] == d;
      } else {
        assert d in earlier;
        var j :| 0 <= j < |earlier| && earlier[j] == d;
        assert order[j] == d;
      }
    }
    forall i | 0 <= i < |more|
      ensures more[i].path in wider && wider[more[i].path] == i + 1 && Linked(records, more[i], wider)
    {
      if i < |tasks| {
        assert earlier[i] == tasks[i].path && tasks[i].path in earlier;
        assert Linked(records, tasks[i], mapping);
      }
    }
  }

  predicate IsReady(records: Records, p: Path, mapping: map<Path, nat>)
    requires p in records
  {
    forall d :: d in records[p] ==> d in mapping
  }

  function Ready(records: Records, pending: set<Path>, mapping: map<Path, nat>): set<Path>
    requires pending <= records.Keys
  {
    set p | p in pending && IsReady(records, p, mapping)
  }

  /** The dependency loop of `migrate_v02`. It ends; on success every path has one task, created after
      its parents and linked to exactly them; and it fails exactly when the dependencies contain a
      cycle or name a path that is not there. */
  method Migrate(records: Records) returns (tasks: Option<seq<Task>>, mapping: map<Path, nat>)
    ensures tasks.None? <==> Cyclic(records) || NamesUnknown(records)
    ensures tasks.Some? ==> Created(records, tasks.value, mapping) && mapping.Keys == records.Keys
  {
    hide Created, Cyclic, NamesUnknown, Ready;
    var pending := records.Keys;
    var created: seq<Task> := [];
    mapping := map[];
    NothingCreated(records);
    while pending != {}
      invariant Created(records, created, mapping)
      invariant pending == records.Keys - mapping.Keys && mapping.Keys <= records.Keys
      decreases |pending|
    {
      var ready := Ready(records, pending, mapping);
      RoundReady(records, mapping, pending);
      if ready == {} {
        return None, mapping;
      }
      created, mapping := CreateReady(records, ready, created, mapping);
      pending := pending - ready;
    }
    AllCreated(records, created, mapping);
    tasks := Some(created);
  }

  lemma RoundReady(records: Records, mapping: map<Path, nat>, pending: set<Path>)
    requires pending == records.Keys - mapping.Keys && pending != {}
    ensures var ready := Ready(records, pending, mapping);
            && (forall p :: p in ready ==> p in records && p !in mapping && IsReady(records, p, mapping))
            && ready <= pending
            && (ready == {} ==> Cyclic(records) || NamesUnknown(records))
            && (ready != {} ==> |pending - ready| < |pending|)
  {
    hide Cyclic, NamesUnknown, IsReady;
    var ready := Ready(records, pending, mapping);
    if ready == {} {
      forall p | p in pending ensures !IsReady(records, p, mapping) {
        assert p !in ready;
      }
      NoneReady(records, mapping, pending);
    } else {
      FewerPending(pending, ready);
    }
  }

  lemma NothingCreated(records: Records)
    ensures Created(records, [], map[])
  {}

  lemma AllCreated(records: Records, tasks: seq<Task>, mapping: map<Path, nat>)
    requires Created(records, tasks, mapping) && mapping.Keys == records.Keys
    ensures !Cyclic(records) && !NamesUnknown(records)
  {
    OrderRulesOutCycles(records, Paths(tasks));
  }

  lemma NoneReady(records: Records, mapping: map<Path, nat>, pending: set<Path>)
    requires pending == records.Keys - mapping.Keys && pending != {}
    requires forall p :: p in pending ==> !IsReady(records, p, mapping)
    ensures Cyclic(records) || NamesUnknown(records)
  {
    var some := Pick(pending);
    forall p | p in records && p !in mapping.Keys ensures Blocked(records, p, mapping.Keys) {
      assert p in pending;
    }
    NothingReady(records, mapping.Keys);
  }

  lemma FewerPending(pending: set<Path>, ready: set<Path>)
    requires ready <= pending && ready != {}
    ensures |pending - ready| < |pending|
  {
    assert pending == ready + (pending - ready);
  }

  /** One round: the ready paths, in sorted order. */
  method CreateReady(records: Records, ready: set<Path>, before: seq<Task>, known: map<Path, nat>)
    returns (created: seq<Task>, mapping: map<Path, nat>)
    requires Created(records, before, known)
    requires forall p :: p in ready ==> p in records && p !in known && IsReady(records, p, known)
    ensures Created(records, created, mapping) && mapping.Keys == known.Keys + ready
  {
    var order := Sorted(ready);
    created, mapping := before, known;
    hide Created;
    for i := 0 to |order|
      invariant Created(records, created, mapping)
      invariant forall p :: p in mapping <==> p in known || p in order[..i]
    {
      var p := order[i];
      assert p in order && p in ready;
      assert p !in order[..i];
      assert order[..i + 1] == order[..i] + [p];
      CreateOne(records, created, mapping, p);
      created := created + [Task(p, MappedIds(mapping, records[p]))];
      mapping := mapping[p := |created|];
    }
    assert order[..|order|] == order;
  }
}
