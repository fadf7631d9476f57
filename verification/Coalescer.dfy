/** Joining the streaming fragments of a transcript into whole messages. */
module Coalescer {
  import opened Common

  /** Fragments of one step or one tool call share a group; any other line is on its own. */
  datatype Group = Own | Shared(name: string)
  datatype Role = User | Assistant | Tool

  /** A line of the file: nothing on it, not yet valid JSON, an event without text, or a fragment. */
  datatype Line = Blank | Torn | Silent | Says(role: Role, text: string, group: Group)

  datatype Key = Alone(line: nat) | Joint(name: string)
  datatype Fragment = Fragment(line: nat, role: Role, text: string, key: Key)
  datatype Row = Row(first: nat, last: nat, role: Role, key: Key, text: string)

  function KeyOf(group: Group, line: nat): Key {
    match group
    case Own => Alone(line)
    case Shared(name) => Joint(name)
  }

  /** The fragments after line `start`, up to the first line that is not valid JSON. Lines are
      numbered from one. */
  function Events(wire: seq<Line>, start: nat, from: nat): (fragments: seq<Fragment>)
    requires from <= |wire|
    ensures forall i :: 0 <= i < |fragments| ==> start < fragments[i].line && from < fragments[i].line <= |wire|
    ensures forall i, j :: 0 <= i < j < |fragments| ==> fragments[i].line < fragments[j].line
    decreases |wire| - from
  {
    if from == |wire| then []
    else if from + 1 <= start then Events(wire, start, from + 1)
    else
      match wire[from]
      case Torn => []
      case Says(role, text, group) =>
        [Fragment(from + 1, role, text, KeyOf(group, from + 1))] + Events(wire, start, from + 1)
      case _ => Events(wire, start, from + 1)
  }

  predicate SameMessage(a: Fragment, b: Fragment) {
    a.role == b.role && a.key == b.key
  }

  /** The fragments of one message: the longest prefix of one role and key. */
  function RunLength(fs: seq<Fragment>): (n: nat)
    requires fs != []
    ensures 1 <= n <= |fs|
    ensures forall i :: 0 <= i < n ==> SameMessage(fs[0], fs[i])
    ensures n < |fs| ==> !SameMessage(fs[0], fs[n])
  {
    RunFrom(fs, 1)
  }

  function RunFrom(fs: seq<Fragment>, n: nat): (m: nat)
    requires 1 <= n <= |fs| && forall i :: 0 <= i < n ==> SameMessage(fs[0], fs[i])
    ensures n <= m <= |fs| && forall i :: 0 <= i < m ==> SameMessage(fs[0], fs[i])
    ensures m < |fs| ==> !SameMessage(fs[0], fs[m])
    decreases |fs| - n
  {
    if n < |fs| && SameMessage(fs[0], fs[n]) then RunFrom(fs, n + 1) else n
  }

  function Texts(fs: seq<Fragment>): string
    decreases |fs|
  {
    if fs == [] then "" else fs[0].text + Texts(fs[1..])
  }

  function Join(fs: seq<Fragment>): Row
    requires fs != []
  {
    Row(fs[0].line, fs[|fs| - 1].line, fs[0].role, fs[0].key, Texts(fs))
  }

  /** The messages of a list of fragments: one row for each maximal run. */
  function Rows(fs: seq<Fragment>): seq<Row>
    decreases |fs|
  {
    if fs == [] then []
    else [Join(fs[..RunLength(fs)])] + Rows(fs[RunLength(fs)..])
  }

  function Joined(rows: seq<Row>): string
    decreases |rows|
  {
    if rows == [] then "" else rows[0].text + Joined(rows[1..])
  }

  ghost predicate Ordered(fs: seq<Fragment>) {
    forall i, j :: 0 <= i < j < |fs| ==> fs[i].line < fs[j].line
  }

  // What the rows are.

  lemma {:induction false} TextsSplit(a: seq<Fragment>, b: seq<Fragment>)
    ensures Texts(a + b) == Texts(a) + Texts(b)
    decreases |a|
  {
    if a == [] {
      assert a + b == b;
    } else {
      assert (a + b)[1..] == a[1..] + b;
      TextsSplit(a[1..], b);
    }
  }

  /** No text is lost, repeated or reordered. */
  lemma {:induction false} TextPreserved(fs: seq<Fragment>)
    ensures Joined(Rows(fs)) == Texts(fs)
    decreases |fs|
  {
    if fs == [] {
    } else {
      var n := RunLength(fs);
      TextPreserved(fs[n..]);
      TextsSplit(fs[..n], fs[n..]);
      assert fs[..n] + fs[n..] == fs;
    }
  }

  /** Line ranges increase and do not overlap, and neighbours are different messages. */
  ghost predicate Separate(rows: seq<Row>) {
    && (forall i :: 0 <= i < |rows| ==> rows[i].first <= rows[i].last)
    && (forall i, j :: 0 <= i < j < |rows| ==> rows[i].last < rows[j].first)
    && (forall i :: 0 <= i < |rows| - 1 ==> rows[i].role != rows[i + 1].role || rows[i].key != rows[i + 1].key)
  }

  lemma SeparateStep(first: Row, rest: seq<Row>)
    requires Separate(rest) && first.first <= first.last
    requires forall j :: 0 <= j < |rest| ==> first.last < rest[j].first
    requires rest != [] ==> first.role != rest[0].role || first.key != rest[0].key
    ensures Separate([first] + rest)
  {}

  lemma RowsHead(fs: seq<Fragment>)
    requires fs != []
    ensures Rows(fs) != [] && Rows(fs)[0].role == fs[0].role && Rows(fs)[0].key == fs[0].key
  {}

  /** The rows of a transcript are separate, and none starts before its first fragment. */
  lemma {:induction false} RowsSeparate(fs: seq<Fragment>)
    requires Ordered(fs)
    ensures Separate(Rows(fs))
    ensures forall i :: 0 <= i < |Rows(fs)| ==> fs != [] && fs[0].line <= Rows(fs)[i].first
    decreases |fs|
  {
    hide Separate;
    if fs == [] {
      assert Separate([]) by { NothingSeparate(); }
    } else {
      var n := RunLength(fs);
      RowsSeparate(fs[n..]);
      if n < |fs| { RowsHead(fs[n..]); }
      SeparateStep(Join(fs[..n]), Rows(fs[n..]));
    }
  }

  lemma NothingSeparate()
    ensures Separate([])
  {}

  /** The fragments after a line. */
  function Beyond(fs: seq<Fragment>, line: nat): seq<Fragment>
    decreases |fs|
  {
    if fs == [] then []
    else if fs[0].line > line then [fs[0]] + Beyond(fs[1..], line)
    else Beyond(fs[1..], line)
  }

  lemma {:induction false} BeyondDrops(fs: seq<Fragment>, n: nat)
    requires Ordered(fs) && 1 <= n <= |fs|
    ensures Beyond(fs, fs[n - 1].line) == fs[n..]
    decreases |fs|
  {
    if n > 1 {
      BeyondDrops(fs[1..], n - 1);
    } else {
      BeyondAll(fs[1..], fs[0].line);
    }
  }

  lemma {:induction false} BeyondAll(fs: seq<Fragment>, line: nat)
    requires forall i :: 0 <= i < |fs| ==> fs[i].line > line
    ensures Beyond(fs, line) == fs
    decreases |fs|
  {
    if fs == [] {
    } else {
      BeyondAll(fs[1..], line);
    }
  }

  lemma {:induction false} BeyondPrefix(a: seq<Fragment>, b: seq<Fragment>, line: nat)
    requires forall i :: 0 <= i < |a| ==> a[i].line <= line
    ensures Beyond(a + b, line) == Beyond(b, line)
    decreases |a|
  {
    if a == [] {
      assert a + b == b;
    } else {
      assert (a + b)[1..] == a[1..] + b;
      BeyondPrefix(a[1..], b, line);
    }
  }

  lemma RowsStep(fs: seq<Fragment>)
    requires Ordered(fs) && fs != []
    ensures var n := RunLength(fs);
            && Rows(fs)[0].last == fs[n - 1].line && Rows(fs)[1..] == Rows(fs[n..]) && |Rows(fs)| == 1 + |Rows(fs[n..])|
            && Ordered(fs[n..]) && forall k :: 0 <= k < n ==> fs[k].line <= fs[n - 1].line
  {}

  lemma RowAfter(fs: seq<Fragment>, i: nat)
    requires Ordered(fs) && i < |Rows(fs)|
    ensures fs != [] && Rows(fs)[i].last >= fs[0].line
  {
    RowsSeparate(fs);
  }

  /** Safe cut: scanning again from the last line of any row yields exactly the rows after it. */
  lemma {:induction false} SafeCut(fs: seq<Fragment>, i: nat)
    requires Ordered(fs) && i < |Rows(fs)|
    ensures Rows(Beyond(fs, Rows(fs)[i].last)) == Rows(fs)[i + 1..]
    decreases |fs|
  {
    RowAfter(fs, i);
    RowsStep(fs);
    hide Rows, RunLength, Ordered, Beyond;
    var n := RunLength(fs);
    if i == 0 {
      BeyondDrops(fs, n);
    } else {
      SafeCut(fs[n..], i - 1);
      LaterRow(fs, i);
      LaterCut(fs, n, Rows(fs)[i].last);
    }
  }

  lemma LaterRow(fs: seq<Fragment>, i: nat)
    requires Ordered(fs) && 0 < i < |Rows(fs)|
    ensures var rest := fs[RunLength(fs)..];
            && rest != [] && Rows(fs)[i] == Rows(rest)[i - 1] && Rows(fs)[i + 1..] == Rows(rest)[i..]
            && rest[0].line <= Rows(fs)[i].last
  {
    RowsStep(fs);
    hide Rows, RunLength, Ordered;
    var rest := fs[RunLength(fs)..];
    RowAfter(rest, i - 1);
    assert Rows(fs)[1..][i - 1] == Rows(fs)[i];
    assert Rows(fs)[1..][i..] == Rows(fs)[i + 1..];
  }

  lemma LaterCut(fs: seq<Fragment>, n: nat, line: nat)
    requires Ordered(fs) && n < |fs| && fs[n].line <= line
    ensures Beyond(fs, line) == Beyond(fs[n..], line)
  {
    hide Beyond;
    OrderedHead(fs, n);
    assert fs == fs[..n] + fs[n..];
    BeyondPrefix(fs[..n], fs[n..], line);
  }

  lemma OrderedHead(fs: seq<Fragment>, n: nat)
    requires Ordered(fs) && n < |fs|
    ensures forall i :: 0 <= i < n ==> fs[i].line <= fs[n].line
  {}

  /** A scan that starts after a line is the scan of the fragments beyond it. */
  lemma {:induction false} EventsBeyond(wire: seq<Line>, start: nat, from: nat)
    requires from <= |wire| && forall k :: from <= k < start && k < |wire| ==> wire[k] != Torn
    ensures Events(wire, start, from) == Beyond(Events(wire, 0, from), start)
    decreases |wire| - from
  {
    if from == |wire| || wire[from] == Torn {
    } else {
      EventsBeyond(wire, start, from + 1);
    }
  }

  /** Nothing up to a fragment's line stopped the parser. */
  lemma {:induction false} ParsedUpTo(wire: seq<Line>, from: nat, i: nat)
    requires from <= |wire| && i < |Events(wire, 0, from)|
    ensures forall k :: from <= k < Events(wire, 0, from)[i].line ==> wire[k] != Torn
    decreases |wire| - from
  {
    var rest := Events(wire, 0, from + 1);
    if wire[from].Says? {
      if i > 0 { ParsedUpTo(wire, from + 1, i - 1); }
    } else {
      ParsedUpTo(wire, from + 1, i);
    }
  }

  /** Cutting a pass after any row loses nothing and repeats nothing: the next pass, which skips the
      lines up to the cut unread, yields exactly the remaining rows of the full scan. */
  lemma ResumedScan(wire: seq<Line>, i: nat)
    requires i < |Rows(Events(wire, 0, 0))|
    ensures var rows := Rows(Events(wire, 0, 0)); Rows(Events(wire, rows[i].last, 0)) == rows[i + 1..]
  {
    var fs := Events(wire, 0, 0);
    var cut := Rows(fs)[i].last;
    SafeCut(fs, i);
    var k := LastFragment(fs, i);
    ParsedUpTo(wire, 0, k);
    EventsBeyond(wire, cut, 0);
  }

  lemma {:induction false} LastFragment(fs: seq<Fragment>, i: nat) returns (k: nat)
    requires i < |Rows(fs)|
    ensures k < |fs| && fs[k].line == Rows(fs)[i].last
    decreases |fs|
  {
    var n := RunLength(fs);
    if i == 0 {
      k := n - 1;
    } else {
      k := LastFragment(fs[n..], i - 1);
      k := k + n;
    }
  }

  // The generator.

  datatype Buffer = Nothing | Holding(role: Role, key: Key)

  /** What the buffer holds after the fragments up to `i`, the first `open` of them flushed. */
  ghost predicate Buffered(fs: seq<Fragment>, open: nat, i: nat, buffer: Buffer, parts: string, first: nat, last: nat) {
    && open <= i <= |fs| && (buffer == Nothing <==> open == i)
    && (buffer.Holding? ==>
          && buffer == Holding(fs[open].role, fs[open].key) && first == fs[open].line && last == fs[i - 1].line
          && parts == Texts(fs[open..i]) && forall k :: open <= k < i ==> SameMessage(fs[open], fs[k]))
  }

  lemma Flushed(fs: seq<Fragment>, open: nat, i: nat, buffer: Buffer, parts: string, first: nat, last: nat)
    requires Buffered(fs, open, i, buffer, parts, first, last) && buffer.Holding?
    requires i < |fs| ==> buffer != Holding(fs[i].role, fs[i].key)
    ensures Rows(fs[open..]) == [Row(first, last, buffer.role, buffer.key, parts)] + Rows(fs[i..])
  {
    hide Rows, Texts;
    var run := fs[open..];
    assert run[..i - open] == fs[open..i] && run[i - open..] == fs[i..];
    RowClosed(run, i - open);
  }

  lemma RowClosed(fs: seq<Fragment>, n: nat)
    requires 1 <= n <= |fs| && forall k :: 0 <= k < n ==> SameMessage(fs[0], fs[k])
    requires n < |fs| ==> !SameMessage(fs[0], fs[n])
    ensures Rows(fs) == [Join(fs[..n])] + Rows(fs[n..])
  {
    assert RunLength(fs) == n;
  }

  lemma OneText(f: Fragment)
    ensures Texts([]) == "" && Texts([f]) == f.text
  {
    assert [f][1..] == [];
  }

  /** `iter_wire_coalesced`. */
  method Coalesce(fs: seq<Fragment>) returns (rows: seq<Row>)
    ensures rows == Rows(fs)
  {
    hide Rows, Texts;
    rows := [];
    var buffer, parts, first, last := Nothing, "", 0, 0;
    ghost var open: nat := 0;
    assert fs[0..] == fs;
    for i := 0 to |fs|
      invariant Buffered(fs, open, i, buffer, parts, first, last)
      invariant rows + Rows(fs[open..]) == Rows(fs)
    {
      var f := fs[i];
      OneText(f);
      if buffer != Holding(f.role, f.key) {
        if buffer.Holding? {
          Flushed(fs, open, i, buffer, parts, first, last);
          rows := rows + [Row(first, last, buffer.role, buffer.key, parts)];
        }
        open := i;
        buffer, parts, first := Holding(f.role, f.key), "", f.line;
        assert fs[i..i] == [];
      }
      TextsSplit(fs[open..i], [f]);
      assert fs[open..i + 1] == fs[open..i] + [f];
      parts := parts + f.text;
      last := f.line;
    }
    NoRows();
    if buffer.Holding? {
      Flushed(fs, open, |fs|, buffer, parts, first, last);
      assert fs[|fs|..] == [];
      rows := rows + [Row(first, last, buffer.role, buffer.key, parts)];
    }
  }

  lemma NoRows()
    ensures Rows([]) == []
  {}
}
