/** The keyset cursor that maintenance passes read tables with: one row per query, each query
    starting after the last rowid seen. */
module RowScan {
  import opened Common

  lemma {:induction false} LeastExists(keys: set<int>)
    requires keys != {}
    ensures exists m :: m in keys && forall k :: k in keys ==> m <= k
    decreases |keys|
  {
    var a := Pick(keys);
    var rest := keys - {a};
    assert forall k :: k in keys ==> k in rest || k == a;
    if rest != {} {
      LeastExists(rest);
      var m :| m in rest && forall k :: k in rest ==> m <= k;
      var least := if m <= a then m else a;
      assert least in keys && forall k :: k in keys ==> least <= k;
    } else {
      assert a in keys && forall k :: k in keys ==> a <= k;
    }
  }

  /** `ORDER BY rowid LIMIT 1`. */
  function Least(keys: set<int>): (m: int)
    requires keys != {}
    ensures m in keys && forall k :: k in keys ==> m <= k
  {
    LeastExists(keys);
    var m :| m in keys && forall k :: k in keys ==> m <= k;
    m
  }

  /** All of `keys`, each once, in ascending order. */
  function Ascending(keys: set<int>): (order: seq<int>)
    ensures forall k :: k in order <==> k in keys
    ensures |order| == |keys|
    ensures forall i, j :: 0 <= i < j < |order| ==> order[i] < order[j]
    decreases |keys|
  {
    if keys == {} then [] else [Least(keys)] + Ascending(keys - {Least(keys)})
  }

  /** Rowids matching the fixed condition. */
  function Matching<R>(table: map<int, R>, where: R -> bool): set<int> {
    set k | k in table && where(table[k])
  }

  /** `AND rowid > ?`. */
  function After(keys: set<int>, last: int): set<int> {
    set k | k in keys && k > last
  }

  /** The rows of `keys` in rowid order. */
  function RowsOf<R>(table: map<int, R>, keys: set<int>): (rows: seq<R>)
    requires keys <= table.Keys
    ensures |rows| == |keys|
    decreases |keys|
  {
    if keys == {} then []
    else
      var k := Least(keys);
      [table[k]] + RowsOf(table, keys - {k})
  }

  lemma {:induction false} RowsAscend<R>(table: map<int, R>, keys: set<int>)
    requires keys <= table.Keys
    ensures forall i :: 0 <= i < |keys| ==> RowsOf(table, keys)[i] == table[Ascending(keys)[i]]
    decreases |keys|
  {
    if keys == {} {
    } else {
      RowsAscend(table, keys - {Least(keys)});
    }
  }

  /** What the visitor has made of the rows so far, and the error that stopped it. */
  datatype Walk<S> = Walk(state: S, failed: Option<string>)

  /** The visitor applied to the rows in order, up to its first error. */
  function Fold<R, S>(rows: seq<R>, visit: (S, R) -> Walk<S>, state: S): Walk<S>
    decreases |rows|
  {
    if rows == [] then Walk(state, None)
    else
      var seen := visit(state, rows[0]);
      if seen.failed.Some? then seen else Fold(rows[1..], visit, seen.state)
  }

  lemma RowsStep<R>(table: map<int, R>, keys: set<int>)
    requires keys <= table.Keys && keys != {}
    ensures var k := Least(keys);
            && After(keys, k) == keys - {k}
            && RowsOf(table, keys)[0] == table[k]
            && RowsOf(table, keys)[1..] == RowsOf(table, After(keys, k))
  {
    assert forall k :: k in After(keys, Least(keys)) <==> k in keys - {Least(keys)};
  }

  /** Whatever their sign, the matching rows are visited once each in rowid order, and the loop
      ends; an error from the visitor stops it there. */
  method EachRow<R, S>(table: map<int, R>, where: R -> bool, visit: (S, R) -> Walk<S>, start: S)
    returns (walk: Walk<S>)
    ensures walk == Fold(RowsOf(table, Matching(table, where)), visit, start)
  {
    hide RowsOf;
    var last, first := 0, true;
    var state := start;
    ghost var left := Matching(table, where);
    while true
      invariant left <= table.Keys
      invariant left == if first then Matching(table, where) else After(Matching(table, where), last)
      invariant Fold(RowsOf(table, left), visit, state)
             == Fold(RowsOf(table, Matching(table, where)), visit, start)
      decreases |left|
    {
      var rows := Matching(table, where);
      if !first {
        rows := After(rows, last);
      }
      if rows == {} {
        return Walk(state, None);
      }
      RowsStep(table, rows);
      last := Least(rows);
      first := false;
      left := After(rows, last);
      assert After(Matching(table, where), last) == left;
      var seen := visit(state, table[last]);
      if seen.failed.Some? {
        return seen;
      }
      state := seen.state;
    }
  }
}
