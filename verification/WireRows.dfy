/** The rows of a transcript, read off the lines of its file. */
module WireRows {
  import opened Common
  import opened Coalescer

  /** Line `l`, numbered from one, says something, and a pass that starts after line `start` gets to it. */
  predicate Said(wire: seq<Line>, start: nat, l: nat) {
    start < l <= |wire| && wire[l - 1].Says? && forall k :: start <= k < l ==> wire[k] != Torn
  }

  /** The two lines are parts of one message: of one role, and under one shared name. A line of its own,
      such as a prompt, is part of no other message. */
  predicate OneMessage(wire: seq<Line>, a: nat, b: nat) {
    && 1 <= a <= |wire| && 1 <= b <= |wire|
    && var x, y := wire[a - 1], wire[b - 1];
    && x.Says? && y.Says? && x.role == y.role
    && x.group.Shared? && y.group.Shared? && x.group.name == y.group.name
  }

  /** Two lines that say something, with nothing said in between. */
  ghost predicate Neighbours(wire: seq<Line>, start: nat, a: nat, b: nat) {
    a < b && Said(wire, start, a) && Said(wire, start, b) && forall l :: a < l < b ==> !Said(wire, start, l)
  }

  predicate Within(row: Row, l: nat) {
    row.first <= l <= row.last
  }

  /** What the lines after `from` up to `to` say, put together. */
  function Speech(wire: seq<Line>, from: nat, to: nat): string
    requires to <= |wire|
    decreases if from < to then to - from else 0
  {
    if from >= to then ""
    else (if wire[from].Says? then wire[from].text else "") + Speech(wire, from + 1, to)
  }

  /** A row is the text of the lines from its first to its last, which say something and have its role. */
  ghost predicate RowOf(wire: seq<Line>, start: nat, row: Row) {
    && Said(wire, start, row.first) && Said(wire, start, row.last) && row.first <= row.last
    && (forall l :: Within(row, l) && Said(wire, start, l) ==> wire[l - 1].role == row.role)
    && row.text == Speech(wire, row.first - 1, row.last)
  }

  /** The rows of a file, in order: every line that says something is in exactly one, and neighbours are in
      one row exactly if they are parts of one message. */
  ghost predicate RowsOf(wire: seq<Line>, start: nat, rows: seq<Row>) {
    && (forall i :: 0 <= i < |rows| ==> RowOf(wire, start, rows[i]))
    && (forall i, j :: 0 <= i < j < |rows| ==> rows[i].last < rows[j].first)
    && (forall l :: Said(wire, start, l) ==> exists i :: 0 <= i < |rows| && Within(rows[i], l))
    && (forall a, b, i :: Neighbours(wire, start, a, b) && 0 <= i < |rows| ==> Joined(wire, rows[i], a, b))
  }

  /** A row with the first of two neighbours has the other exactly if they are parts of one message. */
  ghost predicate Joined(wire: seq<Line>, row: Row, a: nat, b: nat) {
    Within(row, a) ==> (Within(row, b) <==> OneMessage(wire, a, b))
  }

  // The fragments are the lines that say something.

  /** A fragment is its line, under the line's own number or the shared name. */
  predicate FragmentOf(wire: seq<Line>, f: Fragment) {
    && 1 <= f.line <= |wire| && wire[f.line - 1].Says?
    && f.role == wire[f.line - 1].role && f.text == wire[f.line - 1].text
    && f.key == (if wire[f.line - 1].group.Shared? then Joint(wire[f.line - 1].group.name) else Alone(f.line))
  }

  lemma {:induction false} EventsAreSaid(wire: seq<Line>, start: nat, from: nat)
    requires from <= |wire|
    ensures forall f :: f in Events(wire, start, from) ==>
              FragmentOf(wire, f) && from < f.line && start < f.line
              && forall k :: from <= k < f.line && start <= k ==> wire[k] != Torn
    decreases |wire| - from
  {
    if from == |wire| {
    } else {
      EventsAreSaid(wire, start, from + 1);
    }
  }

  lemma {:induction false} SaidIsEvent(wire: seq<Line>, start: nat, from: nat, l: nat) returns (i: nat)
    requires from < l <= |wire| && start < l && wire[l - 1].Says?
    requires forall k :: from <= k < l && start <= k ==> wire[k] != Torn
    ensures i < |Events(wire, start, from)| && Events(wire, start, from)[i].line == l
    decreases |wire| - from
  {
    if from + 1 == l {
      i := 0;
    } else {
      i := SaidIsEvent(wire, start, from + 1, l);
      if from + 1 > start && wire[from].Says? {
        i := i + 1;
      }
    }
  }

  lemma EventIsSaid(wire: seq<Line>, start: nat, i: nat)
    requires i < |Events(wire, start, 0)|
    ensures Said(wire, start, Events(wire, start, 0)[i].line) && FragmentOf(wire, Events(wire, start, 0)[i])
  {
    EventsAreSaid(wire, start, 0);
    var f := Events(wire, start, 0)[i];
    assert f in Events(wire, start, 0);
  }

  /** The fragments from the i-th on are those of the lines from its own on. */
  lemma {:induction false} EventsFrom(wire: seq<Line>, start: nat, from: nat, i: nat)
    requires from <= |wire| && i < |Events(wire, start, from)|
    ensures Events(wire, start, from)[i].line >= 1
    ensures Events(wire, start, Events(wire, start, from)[i].line - 1) == Events(wire, start, from)[i..]
    decreases |wire| - from
  {
    hide Events;
    EventsHead(wire, start, from);
    var fs, rest := Events(wire, start, from), Events(wire, start, from + 1);
    if fs == rest {
      EventsFrom(wire, start, from + 1, i);
    } else if i > 0 {
      EventsFrom(wire, start, from + 1, i - 1);
      assert fs[i] == rest[i - 1] && fs[i..] == rest[i - 1..];
    }
  }

  lemma EventsHead(wire: seq<Line>, start: nat, from: nat)
    requires from <= |wire| && Events(wire, start, from) != []
    ensures from < |wire|
    ensures var fs, rest := Events(wire, start, from), Events(wire, start, from + 1);
            fs == rest || (fs[0].line == from + 1 && fs == [fs[0]] + rest)
  {}

  /** The texts of the first `n` fragments after a line are what is said up to the last of them. */
  lemma {:induction false} TextsAreSpeech(wire: seq<Line>, start: nat, from: nat, n: nat)
    requires start <= from <= |wire| && 0 < n <= |Events(wire, start, from)|
    ensures Texts(Events(wire, start, from)[..n]) == Speech(wire, from, Events(wire, start, from)[n - 1].line)
    decreases |wire| - from
  {
    hide Events, Texts, Speech;
    EventsNext(wire, start, from);
    var fs, rest := Events(wire, start, from), Events(wire, start, from + 1);
    SpeechStep(wire, from, fs[n - 1].line);
    if !wire[from].Says? {
      TextsAreSpeech(wire, start, from + 1, n);
    } else {
      assert fs[..n] == [fs[0]] + rest[..n - 1];
      TextsStep(fs[0], rest[..n - 1]);
      if n == 1 {
        SpeechOfNothing(wire, from + 1, fs[0].line);
      } else {
        TextsAreSpeech(wire, start, from + 1, n - 1);
      }
    }
  }

  lemma EventsNext(wire: seq<Line>, start: nat, from: nat)
    requires start <= from <= |wire| && Events(wire, start, from) != []
    ensures from < |wire|
    ensures var fs, rest := Events(wire, start, from), Events(wire, start, from + 1);
            && (if wire[from].Says? then fs[0].line == from + 1 && fs[0].text == wire[from].text && fs == [fs[0]] + rest
                else fs == rest)
            && forall i :: 0 <= i < |fs| ==> from < fs[i].line <= |wire|
  {}

  lemma SpeechStep(wire: seq<Line>, from: nat, to: nat)
    requires from < to <= |wire|
    ensures Speech(wire, from, to) == (if wire[from].Says? then wire[from].text else "") + Speech(wire, from + 1, to)
  {}

  lemma SpeechOfNothing(wire: seq<Line>, from: nat, to: nat)
    requires to <= |wire| && from >= to
    ensures Speech(wire, from, to) == ""
  {}

  lemma TextsStep(f: Fragment, rest: seq<Fragment>)
    ensures Texts([f] + rest) == f.text + Texts(rest) && Texts([]) == ""
  {
    assert ([f] + rest)[1..] == rest;
  }

  // The rows are runs of fragments.

  /** The r-th row joins the fragments from the i-th up to, not including, the j-th: a longest run. */
  ghost predicate RunOf(fs: seq<Fragment>, r: nat, i: nat, j: nat) {
    && r < |Rows(fs)| && i < j <= |fs| && Rows(fs)[r] == Join(fs[i..j])
    && (forall k :: i <= k < j ==> SameMessage(fs[i], fs[k]))
    && (j < |fs| ==> !SameMessage(fs[i], fs[j]))
  }

  lemma {:induction false} RunOfRow(fs: seq<Fragment>, r: nat) returns (i: nat, j: nat)
    requires r < |Rows(fs)|
    ensures RunOf(fs, r, i, j)
    decreases |fs|
  {
    hide Rows, RunOf, RunLength;
    SomeFragment(fs);
    FirstRun(fs);
    var n := RunLength(fs);
    if r == 0 {
      i, j := 0, n;
    } else {
      i, j := RunOfRow(fs[n..], r - 1);
      LaterRun(fs, r - 1, i, j);
      i, j := n + i, n + j;
    }
  }

  lemma SomeFragment(fs: seq<Fragment>)
    ensures Rows(fs) != [] ==> fs != []
  {}

  lemma FirstRun(fs: seq<Fragment>)
    requires fs != []
    ensures RunOf(fs, 0, 0, RunLength(fs)) && |Rows(fs)| == 1 + |Rows(fs[RunLength(fs)..])|
  {}

  lemma LaterRun(fs: seq<Fragment>, r: nat, i: nat, j: nat)
    requires fs != [] && RunOf(fs[RunLength(fs)..], r, i, j)
    ensures RunOf(fs, r + 1, RunLength(fs) + i, RunLength(fs) + j)
  {
    hide Rows, RunLength, Join, SameMessage;
    RowsTail(fs);
    var n := RunLength(fs);
    var rest := fs[n..];
    assert rest[i..j] == fs[n + i..n + j] && rest[i] == fs[n + i] && (j < |rest| ==> rest[j] == fs[n + j]);
    forall k | n + i <= k < n + j ensures SameMessage(fs[n + i], fs[k]) {
      assert rest[k - n] == fs[k] && rest[i] == fs[n + i];
    }
  }

  lemma RowsTail(fs: seq<Fragment>)
    requires fs != []
    ensures Rows(fs) == [Join(fs[..RunLength(fs)])] + Rows(fs[RunLength(fs)..])
  {}

  lemma {:induction false} RowOfFragment(fs: seq<Fragment>, k: nat) returns (r: nat, i: nat, j: nat)
    requires k < |fs|
    ensures RunOf(fs, r, i, j) && i <= k < j
    decreases |fs|
  {
    hide Rows, RunOf, RunLength;
    FirstRun(fs);
    var n := RunLength(fs);
    if k < n {
      r, i, j := 0, 0, n;
    } else {
      r, i, j := RowOfFragment(fs[n..], k - n);
      LaterRun(fs, r, i, j);
      r, i, j := r + 1, n + i, n + j;
    }
  }

  lemma OneKey(wire: seq<Line>, f: Fragment, g: Fragment)
    requires FragmentOf(wire, f) && FragmentOf(wire, g) && f.line != g.line
    ensures SameMessage(f, g) <==> OneMessage(wire, f.line, g.line)
  {}

  /** Each row is the text of its lines. */
  lemma RowIs(wire: seq<Line>, start: nat, r: nat)
    requires r < |Rows(Events(wire, start, 0))|
    ensures RowOf(wire, start, Rows(Events(wire, start, 0))[r])
  {
    hide Rows, Events, Speech, Texts;
    var fs := Events(wire, start, 0);
    var i, j := RunOfRow(fs, r);
    var row := Rows(fs)[r];
    EventIsSaid(wire, start, i);
    EventIsSaid(wire, start, j - 1);
    assert fs[i..j][0] == fs[i] && fs[i..j][|fs[i..j]| - 1] == fs[j - 1];
    RowSpeech(wire, start, i, j);
    forall l | Within(row, l) && Said(wire, start, l) ensures wire[l - 1].role == row.role {
      var k := SaidIsEvent(wire, start, 0, l);
      EventIsSaid(wire, start, k);
      assert i <= k < j;
    }
  }

  lemma RowSpeech(wire: seq<Line>, start: nat, i: nat, j: nat)
    requires i < j <= |Events(wire, start, 0)|
    ensures var fs := Events(wire, start, 0);
            1 <= fs[i].line && Texts(fs[i..j]) == Speech(wire, fs[i].line - 1, fs[j - 1].line)
  {
    hide Events, Texts, Speech;
    var fs := Events(wire, start, 0);
    EventsFrom(wire, start, 0, i);
    EventIsSaid(wire, start, i);
    var rest := Events(wire, start, fs[i].line - 1);
    assert rest[..j - i] == fs[i..j] && rest[j - i - 1] == fs[j - 1];
    TextsAreSpeech(wire, start, fs[i].line - 1, j - i);
  }

  lemma LineInRow(wire: seq<Line>, start: nat, l: nat) returns (r: nat)
    requires Said(wire, start, l)
    ensures r < |Rows(Events(wire, start, 0))| && Within(Rows(Events(wire, start, 0))[r], l)
  {
    hide Rows, Events, Texts;
    var fs := Events(wire, start, 0);
    var k := SaidIsEvent(wire, start, 0, l);
    var i, j;
    r, i, j := RowOfFragment(fs, k);
    assert fs[i..j][0] == fs[i] && fs[i..j][|fs[i..j]| - 1] == fs[j - 1];
  }

  /** Neighbours are consecutive fragments, in one row exactly if they are parts of one message. */
  lemma NeighboursJoin(wire: seq<Line>, start: nat, a: nat, b: nat, r: nat)
    requires Neighbours(wire, start, a, b) && r < |Rows(Events(wire, start, 0))|
    requires Within(Rows(Events(wire, start, 0))[r], a)
    ensures Joined(wire, Rows(Events(wire, start, 0))[r], a, b)
  {
    hide Rows, Events, Texts, OneMessage;
    var fs := Events(wire, start, 0);
    var i, j := RunOfRow(fs, r);
    assert fs[i..j][0] == fs[i] && fs[i..j][|fs[i..j]| - 1] == fs[j - 1];
    var k := SaidIsEvent(wire, start, 0, a);
    var next := SaidIsEvent(wire, start, 0, b);
    EventIsSaid(wire, start, k);
    EventIsSaid(wire, start, next);
    OneKey(wire, fs[k], fs[next]);
    assert i <= k < j;
    if k + 1 < next {
      EventIsSaid(wire, start, k + 1);
    }
  }

  /** The rows of a pass are exactly the messages of the lines it reads. */
  lemma RowsAreMessages(wire: seq<Line>, start: nat)
    ensures RowsOf(wire, start, Rows(Events(wire, start, 0)))
  {
    hide Rows, Events, RowOf, OneMessage, Said, Speech;
    var rows := Rows(Events(wire, start, 0));
    forall i | 0 <= i < |rows| ensures RowOf(wire, start, rows[i]) {
      RowIs(wire, start, i);
    }
    RowsSeparate(Events(wire, start, 0));
    forall l | Said(wire, start, l) ensures exists i :: 0 <= i < |rows| && Within(rows[i], l) {
      var r := LineInRow(wire, start, l);
    }
    forall a, b, i | Neighbours(wire, start, a, b) && 0 <= i < |rows| ensures Joined(wire, rows[i], a, b) {
      if Within(rows[i], a) {
        NeighboursJoin(wire, start, a, b, i);
      }
    }
  }

  /** Of two neighbours, one within the lines and one possibly not: both are exactly if they are parts of
      one message. */
  ghost predicate Closed(wire: seq<Line>, first: nat, last: nat, a: nat, b: nat) {
    && (first <= a <= last ==> (b <= last <==> OneMessage(wire, a, b)))
    && (first <= b <= last ==> (first <= a <==> OneMessage(wire, a, b)))
  }

  /** The lines from `first` to `last` are a message, neither more nor less, of this role and text. */
  ghost predicate WholeMessage(wire: seq<Line>, start: nat, first: nat, last: nat, role: Role, text: string) {
    && Said(wire, start, first) && Said(wire, start, last) && first <= last
    && text == Speech(wire, first - 1, last)
    && (forall l :: first <= l <= last && Said(wire, start, l) ==> wire[l - 1].role == role)
    && (forall a: nat, b: nat :: Neighbours(wire, start, a, b) ==> Closed(wire, first, last, a, b))
  }

  lemma RowsAreWhole(wire: seq<Line>, start: nat, rows: seq<Row>, i: nat)
    requires RowsOf(wire, start, rows) && i < |rows|
    ensures WholeMessage(wire, start, rows[i].first, rows[i].last, rows[i].role, rows[i].text)
  {
    hide RowsOf, Neighbours, Closed, Speech;
    var row := rows[i];
    AreRows(wire, start, rows, i);
    forall a: nat, b: nat | Neighbours(wire, start, a, b) ensures Closed(wire, row.first, row.last, a, b) {
      NeighboursClosed(wire, start, rows, i, a, b);
    }
  }

  lemma AreRows(wire: seq<Line>, start: nat, rows: seq<Row>, i: nat)
    requires RowsOf(wire, start, rows) && i < |rows|
    ensures RowOf(wire, start, rows[i])
  {
    hide RowOf, Joined, Neighbours, Said;
  }

  lemma NeighboursClosed(wire: seq<Line>, start: nat, rows: seq<Row>, i: nat, a: nat, b: nat)
    requires RowsOf(wire, start, rows) && i < |rows| && Neighbours(wire, start, a, b)
    ensures Closed(wire, rows[i].first, rows[i].last, a, b)
  {
    hide RowOf, OneMessage;
    assert Said(wire, start, a) && a < b;
    hide Said, Neighbours;
    assert Joined(wire, rows[i], a, b);
    var k: nat :| k < |rows| && Within(rows[k], a);
    assert Joined(wire, rows[k], a, b);
  }

  /** A prompt, or any line on its own, is a row by itself. */
  lemma OwnLineAlone(wire: seq<Line>, start: nat, l: nat) returns (r: nat)
    requires Said(wire, start, l) && wire[l - 1].group.Own?
    ensures var rows := Rows(Events(wire, start, 0));
            && r < |rows| && rows[r].first == rows[r].last == l
            && rows[r].role == wire[l - 1].role && rows[r].text == wire[l - 1].text
  {
    hide Rows, Events, Texts;
    var fs := Events(wire, start, 0);
    var k := SaidIsEvent(wire, start, 0, l);
    EventIsSaid(wire, start, k);
    var i, j;
    r, i, j := RowOfFragment(fs, k);
    EventIsSaid(wire, start, i);
    EventIsSaid(wire, start, j - 1);
    assert SameMessage(fs[i], fs[k]) && SameMessage(fs[i], fs[j - 1]);
    assert i == k && j - 1 == k;
    assert fs[i..j] == [fs[k]];
    OneText(fs[k]);
  }
}
