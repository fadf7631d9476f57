/** Ingesting a growing transcript with a resumable cursor, and healing it by repeated passes. */
module Ingest {
  import opened Common
  import opened Coalescer
  import opened WireRows

  const MAX_MESSAGE_CHARS: nat := 4000
  const TOOL_MAX_CHARS: nat := 4000
  const MAX_ROWS: nat := 500
  const PARSER_VERSION: int := 2
  const MAX_HEAL_PASSES: nat := 64

  /** A digest is injective, so it is modelled as the content it was taken of. */
  type Digest = string

  function TrimLeft(text: string): string
    decreases |text|
  {
    if text != "" && PythonSpace(text[0]) then TrimLeft(text[1..]) else text
  }

  function TrimRight(text: string): string
    decreases |text|
  {
    if text != "" && PythonSpace(text[|text| - 1]) then TrimRight(text[..|text| - 1]) else text
  }

  /** `_prepare_text`: redact, strip, cap; nothing is left of an empty message. */
  function Prepare(redact: string -> string, row: Row): Option<Digest> {
    var content := TrimRight(TrimLeft(redact(row.text)));
    var limit := if row.role == Tool then TOOL_MAX_CHARS else MAX_MESSAGE_CHARS;
    if content == "" then None
    else if |content| > limit then Some(content[..limit])
    else Some(content)
  }

  /** Only white space from `i` up to `j`. */
  predicate Spaces(text: string, i: nat, j: nat)
    requires i <= j <= |text|
  {
    forall k :: i <= k < j ==> PythonSpace(text[k])
  }

  /** The text without the white space around it, of which something is left, cut at 4000 characters. */
  ghost predicate Stripped(text: string, content: string) {
    exists i: nat, j: nat :: i < j <= |text| && StrippedAt(text, i, j, content)
  }

  ghost predicate StrippedAt(text: string, i: nat, j: nat, content: string)
    requires i < j <= |text|
  {
    && Spaces(text, 0, i) && Spaces(text, j, |text|) && !PythonSpace(text[i]) && !PythonSpace(text[j - 1])
    && content == text[i..if j - i > 4000 then i + 4000 else j]
  }

  lemma {:induction false} LeftTrimmed(text: string) returns (i: nat)
    ensures i <= |text| && TrimLeft(text) == text[i..] && Spaces(text, 0, i)
    ensures i < |text| ==> !PythonSpace(text[i])
    decreases |text|
  {
    i := 0;
    if text != "" && PythonSpace(text[0]) {
      i := LeftTrimmed(text[1..]);
      assert forall k :: 1 <= k < i + 1 ==> text[k] == text[1..][k - 1];
      i := i + 1;
    }
  }

  lemma {:induction false} RightTrimmed(text: string) returns (j: nat)
    ensures j <= |text| && TrimRight(text) == text[..j] && Spaces(text, j, |text|)
    ensures j > 0 ==> !PythonSpace(text[j - 1])
    decreases |text|
  {
    j := |text|;
    if text != "" && PythonSpace(text[|text| - 1]) {
      var front := text[..|text| - 1];
      j := RightTrimmed(front);
      assert forall k :: j <= k < |front| ==> text[k] == front[k];
    }
  }

  /** What is prepared of a row: nothing of one that redacts to white space, and otherwise the redacted
      text without the white space around it, up to 4000 characters. */
  lemma PrepareMeans(redact: string -> string, row: Row)
    ensures var text, prepared := redact(row.text), Prepare(redact, row);
            if prepared.None? then Spaces(text, 0, |text|) else Stripped(text, prepared.value)
  {
    var text := redact(row.text);
    var i := LeftTrimmed(text);
    var rest := text[i..];
    var j := RightTrimmed(rest);
    var left := rest[..j];
    assert rest == "" || rest[0] == text[i];
    if j > 0 {
      assert left == text[i..i + j] && rest[0] == text[i] && rest[j - 1] == text[i + j - 1];
      forall k | i + j <= k < |text| ensures PythonSpace(text[k]) {
        assert rest[k - i] == text[k];
      }
      assert |left| > 4000 ==> left[..4000] == text[i..i + 4000];
      assert StrippedAt(text, i, i + j, Prepare(redact, row).value);
    }
  }

  datatype Marker = Marker(mtime: Option<int>, size: Option<int>, head: Option<string>)

  /** A recorded cursor: absent, a bare line number, or an entry with the file's marker. */
  datatype Cursor =
    | NoCursor
    | Bare(line: nat)
    | Full(line: nat, marker: Marker, complete: Option<bool>, parser: Option<int>)

  datatype Start = Unchanged(line: nat) | From(line: nat, reset: bool)

  /** Where a pass starts, and whether it starts over. */
  function StartOf(cursor: Cursor, marker: Marker, rebuild: bool): Start {
    if rebuild then From(0, true)
    else
      match cursor
      case NoCursor => From(0, false)
      case Bare(line) => From(0, line > 0)
      case Full(line, seen, flag, parser) =>
        if line == 0 then From(0, false)
        else if parser != Some(PARSER_VERSION) then From(0, true)
        else
          var complete := if flag.Some? then flag.value else !(seen.size.Some? && seen.head.Some?);
          var sameSize := seen.size.None? || seen.size == marker.size;
          var untouched := seen.mtime.Some? && seen.mtime == marker.mtime && sameSize;
          var longer := seen.size.Some? && marker.size.Some? && marker.size.value > seen.size.value;
          var sameHead := seen.head.Some? && seen.head == marker.head;
          if complete && untouched then Unchanged(line)
          else if sameHead && (longer || untouched) then From(line, false)
          else From(0, true)
  }

  /** A cursor whose line the current parser wrote. */
  predicate Stamped(cursor: Cursor) {
    cursor.Full? && cursor.line > 0 && cursor.parser == Some(2)
  }

  /** A pass never trusts a cursor any other parser wrote. */
  lemma OnlyStampedCursorsResume(cursor: Cursor, marker: Marker, rebuild: bool)
    ensures var start := StartOf(cursor, marker, rebuild);
            (start.Unchanged? || start.line > 0) ==> Stamped(cursor) && start.line == cursor.line
  {}

  /** The file has the recorded time, and the recorded size if there is one. */
  predicate Untouched(seen: Marker, marker: Marker) {
    seen.mtime.Some? && seen.mtime == marker.mtime && (seen.size.None? || seen.size == marker.size)
  }

  /** The file begins as it did, and has become longer or was not touched. */
  predicate Continues(seen: Marker, marker: Marker) {
    && seen.head.Some? && seen.head == marker.head
    && (Untouched(seen, marker)
        || (seen.size.Some? && marker.size.Some? && marker.size.value > seen.size.value))
  }

  /** The pass that wrote the cursor read the whole file; an older entry says so by having no full marker. */
  predicate ReadAll(cursor: Cursor) {
    cursor.Full? && if cursor.complete.Some? then cursor.complete.value
                    else cursor.marker.size.None? || cursor.marker.head.None?
  }

  /** What a pass does about the recorded cursor, exactly. It is skipped for a file that was read to its end
      and not touched since; it goes on from the cursor in a file that was only continued; and it starts at
      line zero in all other cases, over again if a line had been recorded. */
  lemma StartDecides(cursor: Cursor, marker: Marker, rebuild: bool)
    ensures var start := StartOf(cursor, marker, rebuild);
            var trusted := !rebuild && Stamped(cursor);
            && (start.Unchanged? <==> trusted && ReadAll(cursor) && Untouched(cursor.marker, marker))
            && (start.From? && start.line > 0 <==>
                 trusted && !start.Unchanged? && Continues(cursor.marker, marker))
            && (start.Unchanged? || start.line > 0 ==> start.line == cursor.line)
            && (start.From? && start.line > 0 ==> !start.reset)
            && (start.From? && start.line == 0 ==>
                 (start.reset <==> rebuild || (!cursor.NoCursor? && cursor.line > 0)))
  {}

  datatype Stored = Stored(first: nat, last: nat, role: Role, content: string)
  datatype New = New(row: Row, content: Digest)

  function Contents(rows: seq<Stored>): set<Digest> {
    set r | r in rows :: r.content
  }

  function InWindow(window: seq<Digest>): set<Digest> {
    set d | d in window
  }

  /** The rows of a scan that are not known yet. */
  function NewOnes(redact: string -> string, rows: seq<Row>, known: set<Digest>): seq<New>
    decreases |rows|
  {
    if rows == [] then []
    else
      var front := NewOnes(redact, rows[..|rows| - 1], known);
      var row := rows[|rows| - 1];
      var prepared := Prepare(redact, row);
      if prepared.None? || prepared.value in known then front else front + [New(row, prepared.value)]
  }

  /** The part of the file a parser can read. */
  function Parsed(wire: seq<Line>): (p: seq<Line>)
    ensures p <= wire && Torn !in p
    ensures |p| < |wire| ==> wire[|p|] == Torn
    decreases |wire|
  {
    if wire == [] || wire[0] == Torn then [] else [wire[0]] + Parsed(wire[1..])
  }

  /** Lines are only ever added, or completed at the end. */
  predicate Grows(a: seq<Line>, b: seq<Line>) {
    Parsed(a) <= Parsed(b)
  }

  /** The content lines of a file. */
  predicate HasContent(wire: seq<Line>, line: nat) {
    1 <= line <= |Parsed(wire)| && Parsed(wire)[line - 1].Says?
  }

  lemma ParsedBefore(wire: seq<Line>, n: nat)
    requires n <= |wire|
    ensures (forall k :: 0 <= k < n ==> wire[k] != Torn) <==> n <= |Parsed(wire)|
  {
    var p := Parsed(wire);
    assert forall k :: 0 <= k < |p| ==> wire[k] == p[k] && p[k] in p;
  }

  /** Every content line beyond the start of a scan gives a fragment. */
  lemma {:induction false} LineHasFragment(wire: seq<Line>, start: nat, from: nat, line: nat) returns (i: nat)
    requires from < line <= |wire| && start < line && wire[line - 1].Says?
    requires forall k :: 0 <= k < line ==> wire[k] != Torn
    ensures i < |Events(wire, start, from)| && Events(wire, start, from)[i].line == line
    decreases |wire| - from
  {
    i := 0;
    if from + 1 == line {
    } else {
      i := LineHasFragment(wire, start, from + 1, line);
      if from + 1 > start && wire[from].Says? {
        i := i + 1;
      }
    }
  }

  /** A fragment's line is within the readable part, if the scan started within it. */
  lemma {:induction false} FragmentParsed(wire: seq<Line>, start: nat, from: nat, i: nat, k: nat)
    requires from <= |wire| && i < |Events(wire, start, from)| && from <= k < Events(wire, start, from)[i].line
    requires forall j :: 0 <= j < start && j < |wire| ==> wire[j] != Torn
    ensures wire[k] != Torn
    decreases |wire| - from
  {
    if k == from {
    } else {
      if from + 1 > start && wire[from].Says? {
        if i > 0 { FragmentParsed(wire, start, from + 1, i - 1, k); }
      } else {
        FragmentParsed(wire, start, from + 1, i, k);
      }
    }
  }

  /** Each fragment is within the line range of the row it was joined into. */
  lemma {:induction false} FragmentInRow(fs: seq<Fragment>, i: nat) returns (r: nat)
    requires Ordered(fs) && i < |fs|
    ensures r < |Rows(fs)| && Rows(fs)[r].first <= fs[i].line <= Rows(fs)[r].last
    decreases |fs|
  {
    var n := RunLength(fs);
    if i < n {
      r := 0;
    } else {
      r := FragmentInRow(fs[n..], i - n);
      r := r + 1;
    }
  }

  // What a scan has looked at.

  /** A row some pass scanned, what it prepared to, and whether that was in the hash window then. */
  datatype Scanned = Scanned(first: nat, last: nat, digest: Option<Digest>, windowed: bool)

  /** The row is stored, or was in the window when it was scanned, or had nothing to store. */
  predicate Accounted(s: Scanned, stored: set<Digest>) {
    s.digest.None? || s.windowed || s.digest.value in stored
  }

  ghost predicate Covers(scans: set<Scanned>, wire: seq<Line>, line: nat) {
    forall l: nat :: HasContent(wire, l) && l <= line ==> exists s :: s in scans && s.first <= l <= s.last
  }

  ghost function ScansOf(redact: string -> string, rows: seq<Row>, window: seq<Digest>): set<Scanned> {
    set r | r in rows :: Scanned(r.first, r.last, Prepare(redact, r),
                                 Prepare(redact, r).Some? && Prepare(redact, r).value in window)
  }

  /** The rows of the readable lines after `start`, up to the n-th row, cover the lines they span. */
  lemma ScanCovers(redact: string -> string, wire: seq<Line>, start: nat, n: nat, window: seq<Digest>, line: nat)
    requires start <= |Parsed(wire)|
    requires var rows := Rows(Events(wire, start, 0));
             n <= |rows| && (n == |rows| || line <= if n == 0 then start else rows[n - 1].last)
    ensures var rows := Rows(Events(wire, start, 0));
            forall l: nat :: HasContent(wire, l) && start < l <= line ==>
              exists s :: s in ScansOf(redact, rows[..n], window) && s.first <= l <= s.last
  {
    var fs := Events(wire, start, 0);
    var rows := Rows(fs);
    forall l: nat | HasContent(wire, l) && start < l <= line
      ensures exists s :: s in ScansOf(redact, rows[..n], window) && s.first <= l <= s.last
    {
      ParsedBefore(wire, l);
      assert wire[l - 1] == Parsed(wire)[l - 1];
      var i := LineHasFragment(wire, start, 0, l);
      var r := FragmentInRow(fs, i);
      RowsSeparate(fs);
      assert r < n;
      var row := rows[..n][r];
      assert row in rows[..n];
      var s := Scanned(row.first, row.last, Prepare(redact, row),
                       Prepare(redact, row).Some? && Prepare(redact, row).value in window);
      assert s in ScansOf(redact, rows[..n], window);
    }
  }

  /** The last line of a scanned row is readable. */
  lemma RowParsed(wire: seq<Line>, start: nat, i: nat)
    requires start <= |Parsed(wire)| && i < |Rows(Events(wire, start, 0))|
    ensures Rows(Events(wire, start, 0))[i].last <= |Parsed(wire)|
    ensures Rows(Events(wire, start, 0))[i].last > start
  {
    var fs := Events(wire, start, 0);
    var k := LastFragment(fs, i);
    ParsedBefore(wire, start);
    forall j | 0 <= j < fs[k].line ensures wire[j] != Torn {
      FragmentParsed(wire, start, 0, k, j);
    }
    ParsedBefore(wire, fs[k].line);
  }

  /** Coverage survives growth of the file and of the history. */
  lemma CoversStays(a: set<Scanned>, b: set<Scanned>, wire: seq<Line>, grown: seq<Line>, line: nat)
    requires a <= b && Grows(wire, grown) && line <= |Parsed(wire)| && Covers(a, wire, line)
    ensures Covers(b, grown, line)
  {
    forall l: nat | HasContent(grown, l) && l <= line ensures exists s :: s in b && s.first <= l <= s.last {
      assert HasContent(wire, l);
      var s :| s in a && s.first <= l <= s.last;
      assert s in b;
    }
  }

  ghost predicate IsNew(entries: seq<New>, digest: Digest) {
    exists e :: e in entries && e.content == digest
  }

  /** New entries are unknown prepared rows, and every prepared row is known or new. */
  ghost predicate Exact(redact: string -> string, rows: seq<Row>, known: set<Digest>, entries: seq<New>) {
    && (forall e :: e in entries ==> e.row in rows && Prepare(redact, e.row) == Some(e.content) && e.content !in known)
    && (forall r :: r in rows && Prepare(redact, r).Some? ==>
          Prepare(redact, r).value in known || IsNew(entries, Prepare(redact, r).value))
  }

  lemma OneMoreNew(entries: seq<New>, e: New)
    ensures forall d :: IsNew(entries + [e], d) <==> IsNew(entries, d) || d == e.content
  {
    assert e in entries + [e];
    forall d | IsNew(entries, d) ensures IsNew(entries + [e], d) {
      var x :| x in entries && x.content == d;
      assert x in entries + [e];
    }
  }

  lemma ExactStep(redact: string -> string, rows: seq<Row>, known: set<Digest>, entries: seq<New>, row: Row)
    requires Exact(redact, rows, known, entries)
    ensures var prepared := Prepare(redact, row);
            Exact(redact, rows + [row], known,
                  if prepared.None? || prepared.value in known then entries else entries + [New(row, prepared.value)])
  {
    hide Prepare, IsNew;
    var prepared := Prepare(redact, row);
    if prepared.Some? && prepared.value !in known {
      OneMoreNew(entries, New(row, prepared.value));
    }
  }

  lemma {:induction false} NewOnesExact(redact: string -> string, rows: seq<Row>, known: set<Digest>)
    ensures Exact(redact, rows, known, NewOnes(redact, rows, known))
    decreases |rows|
  {
    hide Prepare, Exact;
    if rows == [] {
      NothingExact(redact, known);
    } else {
      var n := |rows| - 1;
      NewOnesExact(redact, rows[..n], known);
      ExactStep(redact, rows[..n], known, NewOnes(redact, rows[..n], known), rows[n]);
      assert rows == rows[..n] + [rows[n]];
    }
  }

  lemma NothingExact(redact: string -> string, known: set<Digest>)
    ensures Exact(redact, [], known, [])
  {}

  lemma NewOnesStep(redact: string -> string, rows: seq<Row>, n: nat, known: set<Digest>)
    requires n < |rows|
    ensures var prepared := Prepare(redact, rows[n]);
            NewOnes(redact, rows[..n + 1], known) == NewOnes(redact, rows[..n], known)
              + if prepared.None? || prepared.value in known then [] else [New(rows[n], prepared.value)]
  {
    assert rows[..n + 1][..n] == rows[..n];
  }

  /** Every row of the scan is accounted for once its new content is stored. */
  lemma ScanAccounted(redact: string -> string, rows: seq<Row>, window: seq<Digest>, stored: set<Digest>,
                      after: set<Digest>)
    requires forall e :: e in NewOnes(redact, rows, InWindow(window) + stored) ==> e.content in after
    requires stored <= after
    ensures forall s :: s in ScansOf(redact, rows, window) ==> Accounted(s, after)
  {
    hide Prepare;
    NewOnesExact(redact, rows, InWindow(window) + stored);
  }

  /** The digests of everything in the file. */
  ghost function WireDigests(redact: string -> string, wire: seq<Line>): set<Digest> {
    set r | r in Rows(Events(wire, 0, 0)) && Prepare(redact, r).Some? :: Prepare(redact, r).value
  }

  // What a pass adds.

  /** The newest digests, as many as the window keeps. */
  function Trimmed(cap: nat, window: seq<Digest>): seq<Digest> {
    if |window| > cap then window[|window| - cap..] else window
  }

  ghost function DigestsOf(entries: seq<New>): seq<Digest> {
    seq(|entries|, i requires 0 <= i < |entries| => entries[i].content)
  }

  function StoredOf(entries: seq<New>): seq<Stored> {
    seq(|entries|, i requires 0 <= i < |entries| =>
      Stored(entries[i].row.first, entries[i].row.last, entries[i].row.role, entries[i].content))
  }

  /** The rows a scan of the file from `start` goes through. */
  ghost function FileRows(file: seq<Line>, start: nat): seq<Row> {
    Rows(Events(file, start, 0))
  }

  /** What the scan of a pass knows: the window, and on a reset the rows stored for the path. */
  ghost function KnownTo(window: seq<Digest>, rows: seq<Stored>, reset: bool): set<Digest> {
    InWindow(window) + if reset then Contents(rows) else {}
  }

  /** A pass over these rows of the file: the unknown ones are stored in order, the window slides over
      them, and the history gets one record for each row with what it prepared to and whether the window
      held it. */
  ghost predicate Wrote(redact: string -> string, cap: nat, scanned: seq<Row>, reset: bool,
                        before: seq<Stored>, window: seq<Digest>, scans: set<Scanned>,
                        after: seq<Stored>, slid: seq<Digest>, history: set<Scanned>)
  {
    var found := NewOnes(redact, scanned, KnownTo(window, before, reset));
    && after == before + StoredOf(found)
    && slid == Trimmed(cap, window + DigestsOf(found))
    && history == scans + ScansOf(redact, scanned, window)
  }

  /** The stored row is a whole message of the file, prepared. */
  ghost predicate MessageStored(redact: string -> string, wire: seq<Line>, start: nat, s: Stored) {
    exists text :: WholeMessage(wire, start, s.first, s.last, s.role, text) && Stripped(redact(text), s.content)
  }

  /** The record is of a whole message of the file, and of what it prepares to. */
  ghost predicate MessageScanned(redact: string -> string, wire: seq<Line>, start: nat, s: Scanned) {
    exists role, text :: WholeMessage(wire, start, s.first, s.last, role, text) && PreparesTo(redact(text), s.digest)
  }

  ghost predicate PreparesTo(text: string, digest: Option<Digest>) {
    if digest.None? then Spaces(text, 0, |text|) else Stripped(text, digest.value)
  }

  /** What a pass adds, read off the lines of the file: each added row is a whole message, in the order of
      the lines, and so is each message its history has a new record of. */
  ghost predicate AddsMessages(redact: string -> string, wire: seq<Line>, start: nat, before: seq<Stored>,
                               after: seq<Stored>, scans: set<Scanned>, history: set<Scanned>)
  {
    && (forall i :: |before| <= i < |after| ==> MessageStored(redact, wire, start, after[i]))
    && (forall i, j :: |before| <= i < j < |after| ==> after[i].last < after[j].first)
    && (forall s :: s in history && s !in scans ==> MessageScanned(redact, wire, start, s))
  }

  ghost predicate InLineOrder(entries: seq<New>) {
    forall i, j :: 0 <= i < j < |entries| ==> entries[i].row.last < entries[j].row.first
  }

  lemma {:induction false} NewInOrder(redact: string -> string, rows: seq<Row>, known: set<Digest>)
    requires forall i, j :: 0 <= i < j < |rows| ==> rows[i].last < rows[j].first
    ensures InLineOrder(NewOnes(redact, rows, known))
    decreases |rows|
  {
    hide Prepare;
    if rows != [] {
      var n := |rows| - 1;
      NewInOrder(redact, rows[..n], known);
      NewOnesExact(redact, rows[..n], known);
      var front := NewOnes(redact, rows[..n], known);
      forall i | 0 <= i < |front| ensures front[i].row.last < rows[n].first {
        assert front[i] in front;
        var k :| 0 <= k < n && rows[..n][k] == front[i].row;
      }
    }
  }

  lemma RowIsMessage(redact: string -> string, wire: seq<Line>, start: nat, row: Row)
    requires row in FileRows(wire, start)
    ensures WholeMessage(wire, start, row.first, row.last, row.role, row.text)
    ensures PreparesTo(redact(row.text), Prepare(redact, row))
  {
    hide Rows, Events, RowsOf, WholeMessage, Prepare, Stripped;
    RowsAreMessages(wire, start);
    var rows := FileRows(wire, start);
    var i :| 0 <= i < |rows| && rows[i] == row;
    RowsAreWhole(wire, start, rows, i);
    PrepareMeans(redact, row);
  }

  /** What a pass adds is messages of the file, from what it scanned. */
  lemma PassAddsMessages(redact: string -> string, cap: nat, wire: seq<Line>, start: nat, n: nat, reset: bool,
                         before: seq<Stored>, window: seq<Digest>, scans: set<Scanned>,
                         after: seq<Stored>, slid: seq<Digest>, history: set<Scanned>)
    requires n <= |FileRows(wire, start)|
    requires Wrote(redact, cap, FileRows(wire, start)[..n], reset, before, window, scans, after, slid, history)
    ensures AddsMessages(redact, wire, start, before, after, scans, history)
  {
    hide Rows, Events, WholeMessage, Prepare, NewOnes, Stripped, PreparesTo, KnownTo, Trimmed, MessageScanned;
    hide MessageStored;
    var rows := FileRows(wire, start)[..n];
    var found := NewOnes(redact, rows, KnownTo(window, before, reset));
    RowsSeparate(Events(wire, start, 0));
    NewInOrder(redact, rows, KnownTo(window, before, reset));
    forall i | |before| <= i < |after| ensures MessageStored(redact, wire, start, after[i]) {
      EntryIsMessage(redact, wire, start, n, KnownTo(window, before, reset), i - |before|);
    }
    ScansAreMessages(redact, wire, start, n, window);
    hide ScansOf;
  }

  lemma EntryIsMessage(redact: string -> string, wire: seq<Line>, start: nat, n: nat, known: set<Digest>, i: nat)
    requires n <= |FileRows(wire, start)| && i < |NewOnes(redact, FileRows(wire, start)[..n], known)|
    ensures var e := NewOnes(redact, FileRows(wire, start)[..n], known)[i];
            MessageStored(redact, wire, start, Stored(e.row.first, e.row.last, e.row.role, e.content))
  {
    hide Rows, Events, WholeMessage, Prepare, NewOnes, Stripped, PreparesTo;
    var rows := FileRows(wire, start)[..n];
    var e := NewOnes(redact, rows, known)[i];
    NewOnesExact(redact, rows, known);
    assert e in NewOnes(redact, rows, known);
    RowIsMessage(redact, wire, start, e.row);
    PreparedIsStripped(redact(e.row.text), e.content);
  }

  lemma ScansAreMessages(redact: string -> string, wire: seq<Line>, start: nat, n: nat, window: seq<Digest>)
    requires n <= |FileRows(wire, start)|
    ensures forall s :: s in ScansOf(redact, FileRows(wire, start)[..n], window) ==>
              MessageScanned(redact, wire, start, s)
  {
    hide Rows, Events, WholeMessage, Prepare, PreparesTo;
    var rows := FileRows(wire, start)[..n];
    forall s | s in ScansOf(redact, rows, window) ensures MessageScanned(redact, wire, start, s) {
      var row :| row in rows && s.first == row.first && s.last == row.last && s.digest == Prepare(redact, row);
      RowIsMessage(redact, wire, start, row);
    }
  }

  lemma PreparedIsStripped(text: string, content: string)
    requires PreparesTo(text, Some(content))
    ensures Stripped(text, content)
  {}

  /** Where a scan ends: at the first point where the deadline has passed, the five hundredth new row was
      found, or no row is left. */
  ghost predicate EndsAt(redact: string -> string, rows: seq<Row>, n: nat, known: set<Digest>, time: Option<nat>)
    requires n <= |rows|
  {
    var found := |NewOnes(redact, rows[..n], known)|;
    && found <= 500 && (time.Some? ==> n <= time.value)
    && (forall m :: 0 <= m < n ==> |NewOnes(redact, rows[..m], known)| < 500)
    && (n < |rows| ==> found == 500 || time == Some(n))
  }

  /** The contents of the rows that came later. */
  ghost function Added(before: seq<Stored>, after: seq<Stored>): seq<Digest>
    requires |before| <= |after|
  {
    seq(|after| - |before|, i requires 0 <= i < |after| - |before| => after[|before| + i].content)
  }

  /** Rows are only added, none of them already in the window, and the window slides over them. */
  ghost predicate Slides(cap: nat, window: seq<Digest>, before: seq<Stored>, slid: seq<Digest>, after: seq<Stored>) {
    && before <= after && slid == Trimmed(cap, window + Added(before, after))
    && forall d :: d in Added(before, after) ==> d !in window
  }

  /** Nothing that was stored is stored again. */
  ghost predicate Rescans(before: seq<Stored>, after: seq<Stored>) {
    |before| <= |after| && forall d :: d in Added(before, after) ==> d !in Contents(before)
  }

  /** Rows of a scan whose content is not stored. */
  ghost function Unstored(redact: string -> string, rows: seq<Row>, stored: set<Digest>): nat
    decreases |rows|
  {
    if rows == [] then 0
    else
      var row := rows[|rows| - 1];
      Unstored(redact, rows[..|rows| - 1], stored)
      + if Prepare(redact, row).Some? && Prepare(redact, row).value !in stored then 1 else 0
  }

  ghost function AllUnstored(redact: string -> string, wire: seq<Line>, rows: seq<Stored>): nat {
    Unstored(redact, Rows(Events(wire, 0, 0)), Contents(rows))
  }

  /** A rebuild adds only what the file says, uses up a row of the file for each row it adds, and learns
      a digest if it adds any. */
  ghost predicate Rebuilds(redact: string -> string, wire: seq<Line>, before: seq<Stored>, after: seq<Stored>,
                           added: nat) {
    && |before| <= |after| && (forall d :: d in Added(before, after) ==> d in WireDigests(redact, wire))
    && added + AllUnstored(redact, wire, after) <= AllUnstored(redact, wire, before)
    && (added > 0 ==> LearnsFrom(redact, wire, before, after))
  }

  datatype Status = IsUnchanged | Clean | Ingested | WouldIngest
  datatype Report = Report(status: Status, scannedTo: nat, added: nat, reset: bool)

  class Store {
    const redact: string -> string
    const hashCap: nat
    var window: seq<Digest>
    var cursor: Cursor
    var evidence: Option<nat>
    var rows: seq<Stored>
    ghost var wire: seq<Line>
    ghost var scans: set<Scanned>

    /** The file as it was when the cursor was written. */
    ghost var stamped: seq<Line>

    /** No hole below a stamped cursor: every content line at or below it lies in a row that some
        pass scanned, and every scanned row is stored, was in the window then, or was empty. Below
        a complete one there is the whole file it was written for. */
    ghost predicate Valid()
      reads this
    {
      && hashCap >= 1 && |window| <= hashCap
      && (forall s :: s in scans ==> Accounted(s, Contents(rows)))
      && (Stamped(cursor) ==> cursor.line <= |Parsed(wire)| && Covers(scans, wire, cursor.line))
      && (Stamped(cursor) && cursor.complete == Some(true) ==> Covers(scans, stamped, |Parsed(stamped)|))
    }

    /** Whatever was recorded before: a cursor of an older parser, the shared window, the rows stored for
        this path. Without evidence to anchor it to, no state was ever recorded. The history starts here. */
    constructor (redaction: string -> string, cap: nat, found: Cursor, hashes: seq<Digest>,
                 anchor: Option<nat>, kept: seq<Stored>)
      requires cap >= 1 && !Stamped(found)
      requires anchor.None? ==> found == NoCursor && hashes == [] && kept == []
      ensures Valid() && cursor == found && rows == kept && evidence == anchor && wire == [] && scans == {}
      ensures redact == redaction && hashCap == cap && window == Trimmed(cap, hashes)
    {
      redact, hashCap := redaction, cap;
      window, cursor, evidence, rows := Trimmed(cap, hashes), found, anchor, kept;
      wire, scans, stamped := [], {}, [];
    }

    /** A prompt or another path of the task puts a digest into the shared window, with its own evidence. */
    method Share(digest: Digest, anchor: nat)
      requires Valid()
      modifies this`window, this`evidence
      ensures Valid() && window == Trimmed(hashCap, old(window) + [digest]) && evidence == Some(anchor)
    {
      window, evidence := Trimmed(hashCap, window + [digest]), Some(anchor);
    }

    /** Other paths push this path's cursor out of the bounded map. */
    method ForgetCursor()
      requires Valid()
      modifies this`cursor
      ensures Valid() && cursor == NoCursor
    {
      cursor := NoCursor;
    }

    /** The scan loop: stops at the deadline, and after the five hundredth new row. */
    method Scan(scanned: seq<Row>, known: set<Digest>, time: Option<nat>)
      returns (entries: seq<New>, n: nat, stopped: bool)
      ensures n <= |scanned| && entries == NewOnes(redact, scanned[..n], known)
      ensures EndsAt(redact, scanned, n, known, time)
      ensures stopped <==> n < |scanned| || |entries| == MAX_ROWS
    {
      hide Prepare, NewOnes;
      entries, n, stopped := [], 0, false;
      assert NewOnes(redact, scanned[..0], known) == [] by { NothingNew(redact, scanned, known); }
      while n < |scanned|
        invariant 0 <= n <= |scanned| && !stopped && |entries| < MAX_ROWS
        invariant entries == NewOnes(redact, scanned[..n], known) && (time.Some? ==> n <= time.value)
        invariant forall m :: 0 <= m < n ==> |NewOnes(redact, scanned[..m], known)| < MAX_ROWS
      {
        if time.Some? && n >= time.value {
          stopped := true;
          break;
        }
        NewOnesStep(redact, scanned, n, known);
        var prepared := Prepare(redact, scanned[n]);
        n := n + 1;
        if prepared.None? || prepared.value in known {
          continue;
        }
        entries := entries + [New(scanned[n - 1], prepared.value)];
        if |entries| >= MAX_ROWS {
          stopped := true;
          break;
        }
      }
    }

    /** The writes of a pass. */
    method Append(entries: seq<New>)
      requires hashCap >= 1 && |window| <= hashCap
      modifies this`rows, this`window, this`evidence
      ensures rows == old(rows) + StoredOf(entries)
      ensures window == Trimmed(hashCap, old(window) + DigestsOf(entries))
      ensures entries == [] ==> evidence == old(evidence)
      ensures entries != [] ==> evidence.Some?
    {
      NothingStored(rows, window, hashCap);
      assert entries[..0] == [];
      hide Trimmed, DigestsOf, StoredOf;
      for i := 0 to |entries|
        invariant rows == old(rows) + StoredOf(entries[..i])
        invariant window == Trimmed(hashCap, old(window) + DigestsOf(entries[..i]))
        invariant i == 0 ==> evidence == old(evidence)
        invariant i > 0 ==> evidence.Some?
      {
        var e := entries[i];
        EntryStep(entries, i, old(rows), old(window), hashCap);
        rows := rows + [Stored(e.row.first, e.row.last, e.row.role, e.content)];
        window := Trimmed(hashCap, window + [e.content]);
        evidence := Some(|rows|);
      }
      assert entries[..|entries|] == entries;
    }

    /** `ingest_transcript`: one pass over a file that has only grown since the last one. It scans the
        first `n` rows of the file from where it starts, and its writes and its history are theirs. */
    method Pass(file: seq<Line>, marker: Marker, rebuild: bool, write: bool, time: Option<nat>)
      returns (report: Report, ghost n: nat)
      requires Valid() && Grows(wire, file)
      modifies this
      ensures Valid() && wire == file && Slides(hashCap, old(window), old(rows), window, rows)
      ensures var start := StartOf(old(cursor), marker, rebuild);
              && (report.status == IsUnchanged <==> start.Unchanged?)
              && (start.From? ==>
                    && report.reset == start.reset
                    && Reported(redact, FileRows(file, start.line), start, n, old(rows), old(window), time, report)
                    && (write ==>
                          && Wrote(redact, hashCap, FileRows(file, start.line)[..n], start.reset,
                                   old(rows), old(window), old(scans), rows, window, scans)
                          && (if n > 0 && evidence.Some?
                              then stamped == file && cursor == Ended(n, FileRows(file, start.line), report, marker)
                              else stamped == old(stamped) && cursor == old(cursor))))
      ensures write && report.status != IsUnchanged ==>
                AddsMessages(redact, file, StartOf(old(cursor), marker, rebuild).line,
                             old(rows), rows, old(scans), scans)
      ensures !write || report.status == IsUnchanged ==>
                && rows == old(rows) && cursor == old(cursor) && window == old(window) && evidence == old(evidence)
                && scans == old(scans) && stamped == old(stamped)
      ensures report.status == IsUnchanged && file == old(stamped) &&
              old(cursor).Full? && old(cursor).complete == Some(true) ==>
                Covers(scans, file, |Parsed(file)|)
      ensures !rebuild && Trusted(old(cursor), marker) && old(cursor).line > 0 && marker.mtime.Some? ==>
                report.status == IsUnchanged
      ensures write ==> report.added == |rows| - |old(rows)|
      ensures report.reset && write ==> Rescans(old(rows), rows)
      ensures rebuild && write ==> Rebuilds(redact, file, old(rows), rows, report.added)
      ensures rebuild && write && time.None? && report.added < MAX_ROWS ==>
                Missing(redact, file, rows) == Missing(redact, file, old(rows)) * InWindow(old(window))
      ensures rebuild && write && OnceEach(redact, FileRows(file, 0)) ==> Distinct(Added(old(rows), rows))
      ensures rebuild && write && report.added == 0 && time.None? && evidence.Some? && FileRows(file, 0) != [] ==>
                Trusted(cursor, marker) && cursor.line > 0
    {
      hide StartOf, Parsed, Covers, Accounted, Missing, Rebuilds, Rescans, Reported, Wrote, FileRows, Slides;
      hide Ended, OnceEach, Added, AddsMessages;
      n := 0;
      OnlyStampedCursorsResume(cursor, marker, rebuild);
      var decision := StartOf(cursor, marker, rebuild);
      if Stamped(cursor) { CoversStays(scans, scans, wire, file, cursor.line); GrownLength(wire, file, cursor.line); }
      wire := file;
      RebuildStart(cursor, marker);
      TrustedIsUnchanged(cursor, marker);
      ResetStartsOver(cursor, marker, rebuild);
      NothingSlides(hashCap, window, rows);
      if decision.Unchanged? {
        return Report(IsUnchanged, decision.line, 0, false), 0;
      }
      ghost var before, oldWindow := rows, window;
      report, n := Advance(file, decision.line, decision.reset, marker, write, time);
      if write {
        PassAddsMessages(redact, hashCap, file, decision.line, n, decision.reset, before, oldWindow, old(scans),
                         rows, window, scans);
        PassMeans(redact, hashCap, file, decision, n, before, oldWindow, old(scans), rows, window, scans, time, report);
        if decision.reset && report.added == 0 && time.None? && evidence.Some? && FileRows(file, 0) != [] {
          EndedTrusted(redact, file, n, before, oldWindow, report, marker);
        }
      }
    }

    /** The scan of a pass from its start, and its writes. */
    method Advance(file: seq<Line>, start: nat, reset: bool, marker: Marker, write: bool, time: Option<nat>)
      returns (report: Report, ghost n: nat)
      requires Valid() && wire == file && start <= |Parsed(wire)| && (start > 0 ==> Covers(scans, wire, start))
      requires reset ==> start == 0
      modifies this`rows, this`window, this`evidence, this`cursor, this`scans, this`stamped
      ensures Valid() && report.status != IsUnchanged && report.reset == reset
      ensures Reported(redact, FileRows(file, start), From(start, reset), n, old(rows), old(window), time, report)
      ensures n <= |FileRows(file, start)|
      ensures write ==>
                Wrote(redact, hashCap, FileRows(file, start)[..n], reset,
                      old(rows), old(window), old(scans), rows, window, scans)
      ensures write ==>
                if n > 0 && evidence.Some?
                then stamped == file && cursor == Ended(n, FileRows(file, start), report, marker)
                else stamped == old(stamped) && cursor == old(cursor)
      ensures !write ==>
                && rows == old(rows) && cursor == old(cursor) && window == old(window) && evidence == old(evidence)
                && scans == old(scans) && stamped == old(stamped)
    {
      hide Prepare, NewOnes, Parsed, Covers, Accounted, CoveredBetween, ScansOf, Rows, Events, Contents;
      var stored := if reset then Contents(rows) else {};
      var known := InWindow(window) + stored;
      var scanned := Coalesce(Events(file, start, 0));
      var entries, end, stopped := Scan(scanned, known, time);
      n := end;
      var scannedTo := if end == 0 then start else scanned[end - 1].last;
      ScanFacts(redact, wire, start, end, window, scannedTo);
      if end > 0 { LastLine(wire, start, end); }
      assert !stopped ==> scanned[..end] == scanned;
      if !write {
        return Report(if entries != [] then WouldIngest else Clean, scannedTo, |entries|, reset), end;
      }
      if entries == [] && scannedTo <= start {
        report := Report(Clean, scannedTo, 0, reset);
        NothingScanned(redact, hashCap, scanned[..end], reset, rows, window, scans);
      } else {
        Save(start, scanned[..end], entries, reset, marker, scannedTo, !stopped);
        report := Report(if entries != [] then Ingested else Clean, scannedTo, |entries|, reset);
      }
    }

    /** The batch that commits a pass: its rows, then the cursor. Without any evidence to anchor the
        state to, the cursor is not recorded. */
    method Save(start: nat, scanned: seq<Row>, entries: seq<New>, reset: bool, marker: Marker,
                scannedTo: nat, complete: bool)
      requires Valid() && scannedTo <= |Parsed(wire)|
      requires entries == NewOnes(redact, scanned, KnownTo(window, rows, reset))
      requires start > 0 ==> Covers(scans, wire, start)
      requires CoveredBetween(ScansOf(redact, scanned, window), wire, start, scannedTo)
      requires complete ==> CoveredBetween(ScansOf(redact, scanned, window), wire, start, |Parsed(wire)|)
      modifies this`rows, this`window, this`evidence, this`cursor, this`scans, this`stamped
      ensures Valid()
      ensures Wrote(redact, hashCap, scanned, reset, old(rows), old(window), old(scans), rows, window, scans)
      ensures cursor == if scannedTo > start && evidence.Some?
                        then Full(scannedTo, marker, Some(complete), Some(PARSER_VERSION)) else old(cursor)
      ensures stamped == if scannedTo > start && evidence.Some? then wire else old(stamped)
    {
      hide Prepare, NewOnes, Parsed, Covers, Accounted, CoveredBetween, ScansOf, Contents, DigestsOf, StoredOf, Trimmed;
      ghost var before, oldWindow, history := rows, window, scans;
      Append(entries);
      TrimmedLength(hashCap, oldWindow + DigestsOf(entries));
      StoredContents(before, entries);
      HistoryKept(scans, Contents(before), Contents(rows));
      ScanAccounted(redact, scanned, oldWindow, if reset then Contents(before) else {}, Contents(rows));
      ghost var recent := ScansOf(redact, scanned, oldWindow);
      scans := scans + recent;
      if Stamped(cursor) {
        CoversStays(history, scans, wire, wire, cursor.line);
        if cursor.complete == Some(true) { CoversStays(history, scans, stamped, stamped, |Parsed(stamped)|); }
      }
      if scannedTo > start && evidence.Some? {
        CoveredMore(recent, scans, wire, start, scannedTo);
        CoveredTo(history, scans, wire, start, scannedTo);
        if complete {
          CoveredMore(recent, scans, wire, start, |Parsed(wire)|);
          CoveredTo(history, scans, wire, start, |Parsed(wire)|);
        }
        stamped := wire;
        cursor := Full(scannedTo, marker, Some(complete), Some(PARSER_VERSION));
      }
    }

    /** `run_heal` for one wire: rebuild until a pass adds nothing. */
    method Heal(file: seq<Line>, marker: Marker) returns (status: Healing, passes: nat, added: nat)
      requires Valid() && Grows(wire, file)
      modifies this
      ensures Valid() && wire == file && old(rows) <= rows && added == |rows| - |old(rows)|
      ensures status == Healed ==> HealedTo(redact, hashCap, file, old(rows), old(window), rows)
      ensures status == Healed && evidence.Some? && FileRows(file, 0) != [] ==> Trusted(cursor, marker)
      ensures status == Incomplete ==>
                passes == 64 && |Missing(redact, file, old(rows))| >= 64
      ensures passes <= |Missing(redact, file, old(rows))| + 1
      ensures added <= |FileRows(file, 0)|
    {
      hide LearnsFrom, Missing, Parsed, Slides, AllUnstored, Distinct, Heals, HealedTo, OnceEach, FileRows;
      hide Added, Rescans, Rebuilds, Trusted, Reported, Wrote, Ended, Covers, Accounted;
      added, passes := 0, 0;
      ghost var missing, unstored := |Missing(redact, file, rows)|, AllUnstored(redact, file, rows);
      ghost var first, window0 := rows, window;
      HealsAtFirst(redact, file, rows, window, hashCap);
      while true
        invariant Valid() && Grows(wire, file) && old(rows) <= rows && added == |rows| - |old(rows)|
        invariant passes + |Missing(redact, file, rows)| <= missing
        invariant added + AllUnstored(redact, file, rows) <= unstored
        invariant passes < MAX_HEAL_PASSES
        invariant Heals(redact, file, hashCap, first, window0, rows, window)
        decreases |Missing(redact, file, rows)|
      {
        ghost var before, windowBefore := rows, window;
        var report, n := Pass(file, marker, true, true, None);
        GrowsItself(file);
        SlidesMeans(hashCap, windowBefore, before, window, rows);
        HealsStep(redact, file, hashCap, first, window0, before, windowBefore, rows, window, report.added);
        added := added + report.added;
        passes := passes + 1;
        if report.added == 0 {
          UnstoredBound(redact, file, first);
          HealedMeans(redact, file, hashCap, first, window0, rows, window);
          return Healed, passes, added;
        }
        RebuildsMeans(redact, file, before, rows, report.added);
        MissingShrinks(redact, file, before, rows);
        if passes >= MAX_HEAL_PASSES {
          UnstoredBound(redact, file, first);
          return Incomplete, passes, added;
        }
      }
    }
  }

  /** The part of an earlier window that `added` newer digests have not pushed out. */
  ghost function Surviving(cap: nat, window: seq<Digest>, added: nat): seq<Digest> {
    var pushed := |window| + added - cap;
    if pushed <= 0 then window else if pushed <= |window| then window[pushed..] else []
  }

  /** Between two passes of a heal: the window is the first one with the added rows slid in, and what
      was missing and is still in it is missing still. */
  ghost predicate Hidden(redact: string -> string, wire: seq<Line>, cap: nat, first: seq<Stored>, window0: seq<Digest>,
                         rows: seq<Stored>, window: seq<Digest>)
  {
    && first <= rows && window == Trimmed(cap, window0 + Added(first, rows))
    && Missing(redact, wire, first) * InWindow(Surviving(cap, window0, |rows| - |first|)) !! Contents(rows)
  }

  lemma HiddenAtFirst(redact: string -> string, wire: seq<Line>, first: seq<Stored>, window: seq<Digest>, cap: nat)
    requires |window| <= cap
    ensures Hidden(redact, wire, cap, first, window, first, window)
  {
    hide WireDigests;
    assert window + Added(first, first) == window;
  }

  lemma AddedThen(a: seq<Stored>, b: seq<Stored>, c: seq<Stored>)
    requires a <= b <= c
    ensures Added(a, c) == Added(a, b) + Added(b, c)
  {}

  lemma TrimmedThen(cap: nat, w: seq<Digest>, more: seq<Digest>)
    ensures Trimmed(cap, Trimmed(cap, w) + more) == Trimmed(cap, w + more)
  {}

  /** What survives of the first window is in every window of the heal. */
  lemma SurvivorsInWindow(cap: nat, window0: seq<Digest>, log: seq<Digest>)
    ensures InWindow(Surviving(cap, window0, |log|)) <= InWindow(Trimmed(cap, window0 + log))
    ensures forall d :: d in Trimmed(cap, window0 + log) ==> d in Surviving(cap, window0, |log|) || d in log
  {
    var all := window0 + log;
    var pushed := |all| - cap;
    if pushed > 0 {
      if pushed <= |window0| {
        assert all[pushed..] == window0[pushed..] + log;
      } else {
        assert all[pushed..] == log[pushed - |window0|..];
      }
    }
  }

  lemma FewerSurvive(cap: nat, window: seq<Digest>, a: nat, b: nat)
    requires a <= b
    ensures InWindow(Surviving(cap, window, b)) <= InWindow(Surviving(cap, window, a))
    ensures InWindow(Surviving(cap, window, b)) <= InWindow(window)
    ensures |window| + b <= cap ==> Surviving(cap, window, b) == window
  {}

  lemma HiddenStays(redact: string -> string, wire: seq<Line>, cap: nat, first: seq<Stored>, window0: seq<Digest>,
                    before: seq<Stored>, windowBefore: seq<Digest>, rows: seq<Stored>, window: seq<Digest>)
    requires Hidden(redact, wire, cap, first, window0, before, windowBefore)
    requires Slides(cap, windowBefore, before, window, rows)
    ensures Hidden(redact, wire, cap, first, window0, rows, window)
  {
    hide WireDigests, Contents, Missing, Trimmed, Surviving, Added;
    AddedThen(first, before, rows);
    TrimmedThen(cap, window0 + Added(first, before), Added(before, rows));
    assert (window0 + Added(first, before)) + Added(before, rows) == window0 + Added(first, rows);
    AddedLength(first, before);
    SurvivorsInWindow(cap, window0, Added(first, before));
    FewerSurvive(cap, window0, |before| - |first|, |rows| - |first|);
    ContentsAdded(before, rows);
  }

  /** At the end, everything missing is in the window, hence in what survived of the first one. */
  lemma HiddenIsMissing(redact: string -> string, wire: seq<Line>, cap: nat, first: seq<Stored>, window0: seq<Digest>,
                        rows: seq<Stored>, window: seq<Digest>)
    requires Hidden(redact, wire, cap, first, window0, rows, window)
    requires Missing(redact, wire, rows) <= InWindow(window)
    ensures Missing(redact, wire, rows)
              == Missing(redact, wire, first) * InWindow(Surviving(cap, window0, |rows| - |first|))
    ensures InWindow(Surviving(cap, window0, |rows| - |first|)) <= InWindow(window0)
    ensures |window0| + |rows| - |first| <= cap ==> Surviving(cap, window0, |rows| - |first|) == window0
  {
    hide WireDigests, Contents, Trimmed, Surviving, Added;
    AddedLength(first, rows);
    SurvivorsInWindow(cap, window0, Added(first, rows));
    FewerSurvive(cap, window0, 0, |rows| - |first|);
    FewerSurvive(cap, window0, |rows| - |first|, |rows| - |first|);
    ContentsAdded(first, rows);
  }

  /** However many fewer than all the missing digests are added, more of them than that are out of what
      is then left of the window: so the digests added push those in the window out in time. */
  ghost predicate PushesOut(cap: nat, window: seq<Digest>, missing: set<Digest>) {
    forall k: nat :: k < |missing| ==> |missing - InWindow(Surviving(cap, window, k))| > k
  }

  /** What a heal that ended by itself left: exactly what was missing at the start and in that part of
      the window which the added rows did not push out. So the file is stored if nothing missing was in
      the window, and only if, as long as the window has room for the rows of the file. With a window of
      any size, and rows that are all different, it is stored exactly if the window lets go in time. */
  ghost predicate HealedTo(redact: string -> string, cap: nat, wire: seq<Line>, first: seq<Stored>,
                           window0: seq<Digest>, rows: seq<Stored>)
  {
    var missing, left := Missing(redact, wire, first), Missing(redact, wire, rows);
    && first <= rows && |rows| - |first| <= |FileRows(wire, 0)|
    && left == missing * InWindow(Surviving(cap, window0, |rows| - |first|))
    && (missing !! InWindow(window0) ==> left == {})
    && (|window0| + |FileRows(wire, 0)| <= cap ==> (left == {} <==> missing !! InWindow(window0)))
    && (OnceEach(redact, FileRows(wire, 0)) ==> (left == {} <==> PushesOut(cap, window0, missing)))
  }

  /** Between two passes of a heal, for a file whose rows are all different: what was added was missing
      and out of the window when it was added, and it stops at the first point where no more is. */
  ghost predicate Learnt(cap: nat, window0: seq<Digest>, missing: set<Digest>, log: seq<Digest>) {
    && Distinct(log) && InWindow(log) <= missing && InWindow(log) !! InWindow(Surviving(cap, window0, |log|))
    && forall k: nat :: |missing - InWindow(Surviving(cap, window0, k))| <= k ==> |log| <= k
  }

  lemma LearntAtFirst(cap: nat, window0: seq<Digest>, missing: set<Digest>, rows: seq<Stored>)
    ensures Learnt(cap, window0, missing, Added(rows, rows))
  {}

  lemma LearntStep(cap: nat, window0: seq<Digest>, missing: set<Digest>, log: seq<Digest>, more: seq<Digest>)
    requires Learnt(cap, window0, missing, log) && Distinct(more) && InWindow(more) <= missing
    requires InWindow(more) !! InWindow(log) && InWindow(more) !! InWindow(Surviving(cap, window0, |log|))
    ensures Learnt(cap, window0, missing, log + more)
  {
    hide Surviving;
    var all := log + more;
    DistinctBoth(log, more);
    FewerSurvive(cap, window0, |log|, |all|);
    forall k: nat | |missing - InWindow(Surviving(cap, window0, k))| <= k ensures |all| <= k {
      FewerSurvive(cap, window0, |log|, k);
      SizeOfDistinct(all);
      SubsetSize(InWindow(all), missing - InWindow(Surviving(cap, window0, k)));
    }
  }

  lemma DistinctBoth(a: seq<Digest>, b: seq<Digest>)
    requires Distinct(a) && Distinct(b) && InWindow(a) !! InWindow(b)
    ensures Distinct(a + b) && InWindow(a + b) == InWindow(a) + InWindow(b)
  {
    forall i, j | 0 <= i < j < |a + b| ensures (a + b)[i] != (a + b)[j] {
      if i < |a| <= j {
        assert a[i] in InWindow(a) && b[j - |a|] in InWindow(b);
      }
    }
  }

  lemma {:induction false} SizeOfDistinct(a: seq<Digest>)
    requires Distinct(a)
    ensures |InWindow(a)| == |a|
  {
    if a != [] {
      var front, last := a[..|a| - 1], a[|a| - 1];
      SizeOfDistinct(front);
      assert a == front + [last];
      assert InWindow(a) == InWindow(front) + {last};
    }
  }

  lemma LearntMore(redact: string -> string, wire: seq<Line>, cap: nat, first: seq<Stored>, window0: seq<Digest>,
                   before: seq<Stored>, windowBefore: seq<Digest>, rows: seq<Stored>, window: seq<Digest>, added: nat)
    requires Hidden(redact, wire, cap, first, window0, before, windowBefore)
    requires Slides(cap, windowBefore, before, window, rows)
    requires Rescans(before, rows) && Rebuilds(redact, wire, before, rows, added) && Distinct(Added(before, rows))
    requires Learnt(cap, window0, Missing(redact, wire, first), Added(first, before))
    ensures Learnt(cap, window0, Missing(redact, wire, first), Added(first, rows))
  {
    hide WireDigests, Contents, Trimmed, Surviving, Added, Learnt, Distinct, AllUnstored, LearnsFrom;
    AddedThen(first, before, rows);
    ContentsAdded(first, before);
    AddedLength(first, before);
    SurvivorsInWindow(cap, window0, Added(first, before));
    LearntStep(cap, window0, Missing(redact, wire, first), Added(first, before), Added(before, rows));
  }

  lemma LearntAll(redact: string -> string, wire: seq<Line>, cap: nat, first: seq<Stored>, window0: seq<Digest>,
                  rows: seq<Stored>)
    requires first <= rows && Learnt(cap, window0, Missing(redact, wire, first), Added(first, rows))
    requires Missing(redact, wire, rows)
               == Missing(redact, wire, first) * InWindow(Surviving(cap, window0, |rows| - |first|))
    ensures Missing(redact, wire, rows) == {} <==> PushesOut(cap, window0, Missing(redact, wire, first))
  {
    hide WireDigests, Contents, Surviving, Added, Learnt;
    var missing, log := Missing(redact, wire, first), Added(first, rows);
    AddedLength(first, rows);
    ContentsAdded(first, rows);
    AllOrStuck(cap, window0, missing, log, Missing(redact, wire, rows));
  }

  /** Nothing is left exactly if the additions never got stuck. */
  lemma AllOrStuck(cap: nat, window0: seq<Digest>, missing: set<Digest>, log: seq<Digest>, left: set<Digest>)
    requires Learnt(cap, window0, missing, log)
    requires left == missing - InWindow(log) && left == missing * InWindow(Surviving(cap, window0, |log|))
    ensures left == {} <==> PushesOut(cap, window0, missing)
  {
    hide Surviving;
    SizeOfDistinct(log);
    var out := missing - InWindow(Surviving(cap, window0, |log|));
    forall d | d in out ensures d in InWindow(log) {
      assert d !in left;
    }
    assert out == InWindow(log);
    if PushesOut(cap, window0, missing) {
      SubsetSize(InWindow(log), missing);
      assert |log| >= |missing|;
      SameSize(InWindow(log), missing);
    }
    if left == {} {
      NothingLeft(missing, InWindow(log));
      SubsetSize(missing, InWindow(log));
    }
  }

  lemma NothingLeft(b: set<Digest>, a: set<Digest>)
    requires b - a == {}
    ensures b <= a
  {
    forall d | d in b ensures d in a {
      assert d !in b - a;
    }
  }

  lemma SameSize(a: set<Digest>, b: set<Digest>)
    requires a <= b && |a| >= |b|
    ensures a == b
  {
    if b - a == {} {
      NothingLeft(b, a);
    } else {
      var d := Pick(b - a);
      SmallerSet(a, b, d);
    }
  }

  /** What holds between two passes of a heal. */
  ghost predicate Heals(redact: string -> string, wire: seq<Line>, cap: nat, first: seq<Stored>, window0: seq<Digest>,
                        rows: seq<Stored>, window: seq<Digest>)
  {
    && Hidden(redact, wire, cap, first, window0, rows, window)
    && (OnceEach(redact, FileRows(wire, 0)) ==> Learnt(cap, window0, Missing(redact, wire, first), Added(first, rows)))
  }

  lemma HealsAtFirst(redact: string -> string, wire: seq<Line>, first: seq<Stored>, window: seq<Digest>, cap: nat)
    requires |window| <= cap
    ensures Heals(redact, wire, cap, first, window, first, window)
  {
    hide Hidden, Learnt, Missing, FileRows, OnceEach;
    HiddenAtFirst(redact, wire, first, window, cap);
    LearntAtFirst(cap, window, Missing(redact, wire, first), first);
  }

  lemma HealsStep(redact: string -> string, wire: seq<Line>, cap: nat, first: seq<Stored>, window0: seq<Digest>,
                  before: seq<Stored>, windowBefore: seq<Digest>, rows: seq<Stored>, window: seq<Digest>, added: nat)
    requires Heals(redact, wire, cap, first, window0, before, windowBefore)
    requires Slides(cap, windowBefore, before, window, rows)
    requires Rescans(before, rows) && Rebuilds(redact, wire, before, rows, added)
    requires OnceEach(redact, FileRows(wire, 0)) ==> Distinct(Added(before, rows))
    ensures Heals(redact, wire, cap, first, window0, rows, window)
  {
    hide Slides, Learnt, Missing, FileRows, OnceEach, Rescans, Rebuilds, Trimmed, Surviving, Distinct;
    HiddenStays(redact, wire, cap, first, window0, before, windowBefore, rows, window);
    if OnceEach(redact, FileRows(wire, 0)) {
      LearntMore(redact, wire, cap, first, window0, before, windowBefore, rows, window, added);
    }
  }

  lemma HealedMeans(redact: string -> string, wire: seq<Line>, cap: nat, first: seq<Stored>, window0: seq<Digest>,
                    rows: seq<Stored>, window: seq<Digest>)
    requires Heals(redact, wire, cap, first, window0, rows, window) && Missing(redact, wire, rows) <= InWindow(window)
    requires |rows| - |first| <= |FileRows(wire, 0)|
    ensures HealedTo(redact, cap, wire, first, window0, rows)
  {
    hide Learnt, Missing, FileRows, OnceEach, Surviving, PushesOut;
    HiddenIsMissing(redact, wire, cap, first, window0, rows, window);
    MeetsNothing(Missing(redact, wire, first), InWindow(window0));
    if OnceEach(redact, FileRows(wire, 0)) {
      LearntAll(redact, wire, cap, first, window0, rows);
    }
  }

  lemma RebuildsMeans(redact: string -> string, wire: seq<Line>, before: seq<Stored>, after: seq<Stored>, added: nat)
    requires Rebuilds(redact, wire, before, after, added)
    ensures added + AllUnstored(redact, wire, after) <= AllUnstored(redact, wire, before)
    ensures added > 0 ==> LearnsFrom(redact, wire, before, after)
  {}

  lemma MeetsNothing(a: set<Digest>, b: set<Digest>)
    ensures a * b == {} <==> a !! b
  {
    assert a * b == {} ==> forall x :: x in a ==> x !in b by {
      forall x | x in a && x in b ensures x in a * b {}
    }
  }

  lemma UnstoredBound(redact: string -> string, wire: seq<Line>, rows: seq<Stored>)
    ensures AllUnstored(redact, wire, rows) <= |FileRows(wire, 0)|
  {
    UnstoredAtMost(redact, Rows(Events(wire, 0, 0)), Contents(rows));
  }

  lemma {:induction false} UnstoredAtMost(redact: string -> string, rows: seq<Row>, stored: set<Digest>)
    ensures Unstored(redact, rows, stored) <= |rows|
    decreases |rows|
  {
    hide Prepare;
    if rows == [] {
    } else {
      UnstoredAtMost(redact, rows[..|rows| - 1], stored);
    }
  }

  // What a pass reports.

  /** The report of a scan that went through the first `n` rows. */
  ghost predicate Reported(redact: string -> string, rows: seq<Row>, start: Start, n: nat, before: seq<Stored>,
                           window: seq<Digest>, time: Option<nat>, report: Report)
    requires start.From?
  {
    && n <= |rows|
    && report.added == |NewOnes(redact, rows[..n], KnownTo(window, before, start.reset))|
    && EndsAt(redact, rows, n, KnownTo(window, before, start.reset), time)
    && report.scannedTo == (if n == 0 then start.line else rows[n - 1].last)
  }

  /** The cursor after a scan: complete if it went through all rows and was not cut by the cap. */
  ghost function Ended(n: nat, rows: seq<Row>, report: Report, marker: Marker): Cursor {
    Full(report.scannedTo, marker, Some(n == |rows| && report.added < MAX_ROWS), Some(PARSER_VERSION))
  }

  /** The prepared contents of the rows are all different. */
  ghost predicate OnceEach(redact: string -> string, rows: seq<Row>) {
    forall i, j :: 0 <= i < j < |rows| && Prepare(redact, rows[i]).Some? ==>
        Prepare(redact, rows[i]) != Prepare(redact, rows[j])
  }

  lemma EndedTrusted(redact: string -> string, file: seq<Line>, n: nat, before: seq<Stored>, window: seq<Digest>,
                     report: Report, marker: Marker)
    requires Reported(redact, FileRows(file, 0), From(0, true), n, before, window, None, report)
    requires report.added == 0 && FileRows(file, 0) != []
    ensures n > 0 && Trusted(Ended(n, FileRows(file, 0), report, marker), marker)
    ensures Ended(n, FileRows(file, 0), report, marker).line > 0
  {
    hide NewOnes, Rows, Events;
    LastLine(file, 0, n);
  }

  /** What a pass that wrote has done, from what it scanned. */
  lemma PassMeans(redact: string -> string, cap: nat, file: seq<Line>, start: Start, n: nat, before: seq<Stored>,
                  window: seq<Digest>, scans: set<Scanned>, after: seq<Stored>, slid: seq<Digest>,
                  history: set<Scanned>, time: Option<nat>, report: Report)
    requires start.From? && (start.reset ==> start.line == 0)
    requires Reported(redact, FileRows(file, start.line), start, n, before, window, time, report)
    requires Wrote(redact, cap, FileRows(file, start.line)[..n], start.reset,
                   before, window, scans, after, slid, history)
    ensures Slides(cap, window, before, slid, after) && report.added == |after| - |before|
    ensures start.reset ==> Rescans(before, after) && Rebuilds(redact, file, before, after, report.added)
    ensures start.reset && time.None? && report.added < MAX_ROWS ==>
              Missing(redact, file, after) == Missing(redact, file, before) * InWindow(window)
    ensures start.reset && OnceEach(redact, FileRows(file, 0)) ==> Distinct(Added(before, after))
  {
    hide NewOnes, Rows, Events, Contents, Rescans, Rebuilds, Missing, Prepare, StoredOf, DigestsOf, Added;
    hide Trimmed, ScansOf, OnceEach;
    var rows := FileRows(file, start.line);
    var known := KnownTo(window, before, start.reset);
    var found := NewOnes(redact, rows[..n], known);
    StoredContents(before, found);
    DigestsAreContents(found);
    NewAreUnknown(redact, rows[..n], known, window, found);
    if start.reset {
      Rebuilt(redact, file, before, window, after, n);
      if time.None? && report.added < MAX_ROWS {
        assert rows[..n] == rows;
        FullyScanned(redact, file, before, window, after);
      }
      if OnceEach(redact, rows) {
        FoundOnce(redact, rows, n, known);
      }
    }
  }

  /** Different rows give different new entries. */
  lemma {:induction false} FoundOnce(redact: string -> string, rows: seq<Row>, n: nat, known: set<Digest>)
    requires n <= |rows| && OnceEach(redact, rows)
    ensures Distinct(DigestsOf(NewOnes(redact, rows[..n], known)))
    decreases n
  {
    hide Prepare, NewOnes, DigestsOf, Distinct, OnceEach;
    if n == 0 {
      NothingNew(redact, rows, known);
      NothingDistinct();
    } else {
      FoundOnce(redact, rows, n - 1, known);
      NewOnesStep(redact, rows, n - 1, known);
      var front := NewOnes(redact, rows[..n - 1], known);
      var prepared := Prepare(redact, rows[n - 1]);
      if prepared.Some? && prepared.value !in known {
        NotFoundBefore(redact, rows, n - 1, known);
        DigestsAppend(front, New(rows[n - 1], prepared.value));
        OneMoreDistinct(DigestsOf(front), prepared.value);
      } else {
        assert NewOnes(redact, rows[..n], known) == front;
      }
    }
  }

  lemma NothingDistinct()
    ensures Distinct(DigestsOf([]))
  {}

  lemma OneMoreDistinct(digests: seq<Digest>, digest: Digest)
    requires Distinct(digests) && digest !in digests
    ensures Distinct(digests + [digest])
  {}

  lemma NotFoundBefore(redact: string -> string, rows: seq<Row>, i: nat, known: set<Digest>)
    requires i < |rows| && OnceEach(redact, rows) && Prepare(redact, rows[i]).Some?
    ensures Prepare(redact, rows[i]).value !in DigestsOf(NewOnes(redact, rows[..i], known))
  {
    hide Prepare, NewOnes, DigestsOf;
    var entries := NewOnes(redact, rows[..i], known);
    NewOnesExact(redact, rows[..i], known);
    forall e | e in entries ensures e.content != Prepare(redact, rows[i]).value {
      var k :| 0 <= k < i && rows[..i][k] == e.row;
      assert rows[k] == e.row;
    }
    DigestsAreContents(entries);
  }

  lemma DigestsAppend(front: seq<New>, e: New)
    ensures DigestsOf(front + [e]) == DigestsOf(front) + [e.content]
  {}

  lemma NothingScanned(redact: string -> string, cap: nat, scanned: seq<Row>, reset: bool, rows: seq<Stored>,
                       window: seq<Digest>, scans: set<Scanned>)
    requires scanned == [] && |window| <= cap
    ensures Wrote(redact, cap, scanned, reset, rows, window, scans, rows, window, scans)
  {
    assert ScansOf(redact, [], window) == {};
    NothingStored(rows, window, cap);
  }

  // The steps of `Append` and of a rebuild.

  lemma NothingStored(rows: seq<Stored>, window: seq<Digest>, cap: nat)
    requires |window| <= cap
    ensures rows + StoredOf([]) == rows && Trimmed(cap, window + DigestsOf([])) == window
  {
    assert window + DigestsOf([]) == window;
  }

  lemma EntryStep(entries: seq<New>, i: nat, before: seq<Stored>, window: seq<Digest>, cap: nat)
    requires i < |entries| && cap >= 1
    ensures var e := entries[i];
            && before + StoredOf(entries[..i + 1])
               == before + StoredOf(entries[..i]) + [Stored(e.row.first, e.row.last, e.row.role, e.content)]
            && Trimmed(cap, window + DigestsOf(entries[..i + 1]))
               == Trimmed(cap, Trimmed(cap, window + DigestsOf(entries[..i])) + [e.content])
  {
    var e := entries[i];
    DigestsStep(entries, i);
    TrimmedStep(cap, window + DigestsOf(entries[..i]), e.content);
    assert window + (DigestsOf(entries[..i]) + [e.content]) == (window + DigestsOf(entries[..i])) + [e.content];
    assert StoredOf(entries[..i + 1])
        == StoredOf(entries[..i]) + [Stored(e.row.first, e.row.last, e.row.role, e.content)];
  }

  lemma TrimmedLength(cap: nat, window: seq<Digest>)
    ensures |Trimmed(cap, window)| <= cap
  {}

  /** The contents of the stored entries. */
  lemma StoredContents(before: seq<Stored>, entries: seq<New>)
    ensures var after := before + StoredOf(entries);
            && before <= after && |after| == |before| + |entries| && Added(before, after) == DigestsOf(entries)
            && Contents(before) <= Contents(after)
            && forall e :: e in entries ==> e.content in Contents(after)
  {
    var after := before + StoredOf(entries);
    assert Added(before, after) == DigestsOf(entries);
    DigestsAreContents(entries);
    ContentsAdded(before, after);
  }

  lemma DigestsStep(entries: seq<New>, i: nat)
    requires i < |entries|
    ensures DigestsOf(entries[..i + 1]) == DigestsOf(entries[..i]) + [entries[i].content]
  {}

  lemma TrimmedStep(cap: nat, all: seq<Digest>, digest: Digest)
    requires cap >= 1
    ensures Trimmed(cap, Trimmed(cap, all) + [digest]) == Trimmed(cap, all + [digest])
  {}

  lemma AddedLength(before: seq<Stored>, after: seq<Stored>)
    requires |before| <= |after|
    ensures |Added(before, after)| == |after| - |before|
    ensures |after| == |before| && before <= after ==> after == before
  {}

  lemma SlidesMeans(cap: nat, window: seq<Digest>, before: seq<Stored>, slid: seq<Digest>, after: seq<Stored>)
    requires Slides(cap, window, before, slid, after) && |window| <= cap
    ensures before <= after && |Added(before, after)| == |after| - |before|
    ensures |after| == |before| ==> after == before && slid == window
  {
    if |after| == |before| {
      assert window + Added(before, after) == window;
    }
  }

  lemma NothingSlides(cap: nat, window: seq<Digest>, rows: seq<Stored>)
    requires |window| <= cap
    ensures Slides(cap, window, rows, window, rows) && Trimmed(cap, window) == window
  {
    assert window + Added(rows, rows) == window;
  }

  lemma ContentsAdded(before: seq<Stored>, after: seq<Stored>)
    requires before <= after
    ensures forall d :: d in Contents(after) <==> d in Contents(before) || d in Added(before, after)
  {
    forall d | d in Contents(after) ensures d in Contents(before) || d in Added(before, after) {
      var r :| r in after && r.content == d;
      var i :| 0 <= i < |after| && after[i] == r;
      if i < |before| {
        assert before[i] in before;
      } else {
        assert Added(before, after)[i - |before|] == d;
      }
    }
    forall d | d in Contents(before) ensures d in Contents(after) {
      var r :| r in before && r.content == d;
      assert r in after;
    }
    forall d | d in Added(before, after) ensures d in Contents(after) {
      var i :| 0 <= i < |Added(before, after)| && Added(before, after)[i] == d;
      assert after[|before| + i] in after;
    }
  }

  lemma DigestsAreContents(entries: seq<New>)
    ensures forall e :: e in entries ==> e.content in DigestsOf(entries)
    ensures forall d :: d in DigestsOf(entries) ==> exists e :: e in entries && e.content == d
    ensures |DigestsOf(entries)| == |entries|
  {
    forall e | e in entries ensures e.content in DigestsOf(entries) {
      var i :| 0 <= i < |entries| && entries[i] == e;
      assert DigestsOf(entries)[i] == e.content;
    }
    forall d | d in DigestsOf(entries) ensures exists e :: e in entries && e.content == d {
      var i :| 0 <= i < |entries| && DigestsOf(entries)[i] == d;
      assert entries[i] in entries;
    }
  }

  lemma NewAreUnknown(redact: string -> string, scanned: seq<Row>, known: set<Digest>, window: seq<Digest>,
                      entries: seq<New>)
    requires entries == NewOnes(redact, scanned, known) && InWindow(window) <= known
    ensures forall d :: d in DigestsOf(entries) ==> d !in window && d !in known
  {
    hide Prepare, NewOnes, DigestsOf;
    NewOnesExact(redact, scanned, known);
    DigestsAreContents(entries);
    forall d | d in DigestsOf(entries) ensures d !in window && d !in known {
      var e :| e in entries && e.content == d;
    }
  }

  /** Each new entry uses up a row of the scan whose content was not stored. */
  lemma {:induction false} EntriesUseRows(redact: string -> string, rows: seq<Row>, n: nat, known: set<Digest>,
                                          before: set<Digest>, after: set<Digest>, m: nat)
    requires n <= |rows| && m <= |rows| && before <= known && before <= after
    requires forall e :: e in NewOnes(redact, rows[..n], known) ==> e.content in after
    ensures |NewOnes(redact, rows[..if m < n then m else n], known)|
              + Unstored(redact, rows[..m], after) <= Unstored(redact, rows[..m], before)
    decreases m
  {
    hide Prepare;
    if m == 0 {
    } else {
      EntriesUseRows(redact, rows, n, known, before, after, m - 1);
      assert rows[..m][..m - 1] == rows[..m - 1];
      if m <= n {
        NewOnesStep(redact, rows, m - 1, known);
        EntryIsNew(redact, rows, n, m - 1, known);
      }
    }
  }

  /** An unknown row of the scanned part is among the new ones. */
  lemma EntryIsNew(redact: string -> string, rows: seq<Row>, n: nat, i: nat, known: set<Digest>)
    requires i < n <= |rows|
    ensures Prepare(redact, rows[i]).Some? && Prepare(redact, rows[i]).value !in known ==>
              exists e :: e in NewOnes(redact, rows[..n], known) && e.content == Prepare(redact, rows[i]).value
  {
    hide Prepare;
    NewOnesExact(redact, rows[..n], known);
    assert rows[..n][i] == rows[i];
    assert rows[i] in rows[..n];
  }

  lemma NewInFile(redact: string -> string, wire: seq<Line>, n: nat, known: set<Digest>)
    requires n <= |Rows(Events(wire, 0, 0))|
    ensures forall d :: d in DigestsOf(NewOnes(redact, Rows(Events(wire, 0, 0))[..n], known)) ==>
              d in WireDigests(redact, wire)
  {
    hide Prepare, NewOnes, DigestsOf, Rows, Events;
    var rows := Rows(Events(wire, 0, 0));
    var entries := NewOnes(redact, rows[..n], known);
    NewOnesExact(redact, rows[..n], known);
    DigestsAreContents(entries);
    forall d | d in DigestsOf(entries) ensures d in WireDigests(redact, wire) {
      var e :| e in entries && e.content == d;
      assert e.row in rows;
    }
  }

  /** What a rebuild has done, from what its scan collected. */
  lemma Rebuilt(redact: string -> string, wire: seq<Line>, before: seq<Stored>, window: seq<Digest>,
                after: seq<Stored>, n: nat)
    requires n <= |Rows(Events(wire, 0, 0))| && before <= after
    requires Added(before, after)
               == DigestsOf(NewOnes(redact, Rows(Events(wire, 0, 0))[..n], InWindow(window) + Contents(before)))
    ensures Rescans(before, after)
    ensures Rebuilds(redact, wire, before, after, |after| - |before|)
  {
    hide Prepare, NewOnes, DigestsOf, Added, Rows, Events, Unstored, LearnsFrom;
    var rows := Rows(Events(wire, 0, 0));
    var known := InWindow(window) + Contents(before);
    var entries := NewOnes(redact, rows[..n], known);
    NewAreUnknown(redact, rows[..n], known, window, entries);
    ContentsAdded(before, after);
    DigestsAreContents(entries);
    NewInFile(redact, wire, n, known);
    AddedLength(before, after);
    assert rows[..|rows|] == rows;
    EntriesUseRows(redact, rows, n, known, Contents(before), Contents(after), |rows|);
    if entries != [] {
      Learned(redact, wire, before, after, n, known);
    }
  }

  /** A scan of the whole file leaves missing exactly what the window hid. */
  lemma FullyScanned(redact: string -> string, wire: seq<Line>, before: seq<Stored>, window: seq<Digest>,
                     after: seq<Stored>)
    requires before <= after
    requires Added(before, after)
               == DigestsOf(NewOnes(redact, Rows(Events(wire, 0, 0)), InWindow(window) + Contents(before)))
    ensures Missing(redact, wire, after) == Missing(redact, wire, before) * InWindow(window)
  {
    hide Prepare, NewOnes, DigestsOf, Added, Rows, Events;
    var rows := Rows(Events(wire, 0, 0));
    var known := InWindow(window) + Contents(before);
    var entries := NewOnes(redact, rows, known);
    NewOnesExact(redact, rows, known);
    NewAreUnknown(redact, rows, known, window, entries);
    ContentsAdded(before, after);
    DigestsAreContents(entries);
    forall d | d in WireDigests(redact, wire) ensures d in known || d in DigestsOf(entries) {
      var r :| r in rows && Prepare(redact, r) == Some(d);
    }
  }

  /** A wire of one prompt whose digest another path left in the window: the heal reports success and
      the prompt is not stored for this path. */
  method WindowHides(redact: string -> string, marker: Marker) returns (store: Store, status: Healing)
    requires redact("a") == "a"
    ensures status == Healed && Missing(store.redact, [Says(User, "a", Own)], store.rows) == {"a"}
  {
    store := new Store(redact, 1000, NoCursor, ["a"], Some(1), []);
    var wire := [Says(User, "a", Own)];
    OnePrompt(redact);
    var passes, added;
    status, passes, added := store.Heal(wire, marker);
  }

  datatype Healing = Healed | Incomplete

  /** The state the next pass over an unchanged file will trust without reading it. */
  predicate Trusted(cursor: Cursor, marker: Marker) {
    cursor.Full? && cursor.marker == marker && cursor.complete == Some(true) && cursor.parser == Some(PARSER_VERSION)
  }

  lemma TrustedIsUnchanged(cursor: Cursor, marker: Marker)
    ensures Trusted(cursor, marker) && marker.mtime.Some? && cursor.line > 0 ==>
              StartOf(cursor, marker, false) == Unchanged(cursor.line)
  {}

  ghost function Missing(redact: string -> string, wire: seq<Line>, rows: seq<Stored>): set<Digest> {
    WireDigests(redact, wire) - Contents(rows)
  }

  /** Every pass that adds a row strictly shrinks what is left to store. */
  lemma MissingShrinks(redact: string -> string, wire: seq<Line>, before: seq<Stored>, after: seq<Stored>)
    requires before <= after && LearnsFrom(redact, wire, before, after)
    ensures |Missing(redact, wire, after)| < |Missing(redact, wire, before)|
  {
    hide WireDigests;
    var d :| d in WireDigests(redact, wire) && d !in Contents(before) && d in Contents(after);
    forall x | x in Contents(before) ensures x in Contents(after) {
      var r :| r in before && r.content == x;
      assert r in after;
    }
    SmallerSet(Missing(redact, wire, after), Missing(redact, wire, before), d);
  }

  lemma SmallerSet(a: set<Digest>, b: set<Digest>, d: Digest)
    requires a <= b && d in b && d !in a
    ensures |a| < |b|
  {
    SubsetSize(a, b - {d});
  }

  lemma {:induction false} SubsetSize(a: set<Digest>, b: set<Digest>)
    requires a <= b
    ensures |a| <= |b|
    decreases |a|
  {
    if a == {} {
    } else {
      var x := Pick(a);
      SubsetSize(a - {x}, b - {x});
    }
  }

  lemma GrowsItself(wire: seq<Line>)
    ensures Grows(wire, wire)
  {}

  lemma LastLine(wire: seq<Line>, start: nat, n: nat)
    requires start <= |Parsed(wire)| && 0 < n <= |Rows(Events(wire, start, 0))|
    ensures Rows(Events(wire, start, 0))[n - 1].last > start
  {
    RowParsed(wire, start, n - 1);
  }

  lemma OnePrompt(redact: string -> string)
    requires redact("a") == "a"
    ensures var wire := [Says(User, "a", Own)];
            WireDigests(redact, wire) == {"a"} && |Rows(Events(wire, 0, 0))| == 1 && Grows([], wire)
            && Trimmed(1000, ["a"]) == ["a"]
  {
    var wire := [Says(User, "a", Own)];
    var f := Fragment(1, User, "a", Alone(1));
    assert Events(wire, 0, 1) == [];
    assert Events(wire, 0, 0) == [f];
    OneText(f);
    RowClosed([f], 1);
    var row := Row(1, 1, User, Alone(1), "a");
    assert [f][..1] == [f] && [f][1..] == [];
    assert Rows([f]) == [row];
    assert TrimLeft("a") == "a" && TrimRight("a") == "a";
    assert Prepare(redact, row) == Some("a");
    assert row in Rows(Events(wire, 0, 0));
  }

  lemma GrownLength(a: seq<Line>, b: seq<Line>, n: nat)
    requires Grows(a, b) && n <= |Parsed(a)|
    ensures n <= |Parsed(b)|
  {}

  lemma ResetStartsOver(cursor: Cursor, marker: Marker, rebuild: bool)
    ensures var start := StartOf(cursor, marker, rebuild); start.From? && start.reset ==> start.line == 0
  {}

  lemma RebuildStart(cursor: Cursor, marker: Marker)
    ensures StartOf(cursor, marker, true) == From(0, true)
  {}

  /** A pass that appends stores some digest of the file that was not stored. */
  ghost predicate LearnsFrom(redact: string -> string, wire: seq<Line>, before: seq<Stored>, after: seq<Stored>) {
    exists d :: d in WireDigests(redact, wire) && d !in Contents(before) && d in Contents(after)
  }

  lemma ScanFacts(redact: string -> string, wire: seq<Line>, start: nat, n: nat, window: seq<Digest>, line: nat)
    requires start <= |Parsed(wire)|
    requires var rows := Rows(Events(wire, start, 0)); n <= |rows| && line == if n == 0 then start else rows[n - 1].last
    ensures line <= |Parsed(wire)|
    ensures CoveredBetween(ScansOf(redact, Rows(Events(wire, start, 0))[..n], window), wire, start, line)
    ensures n == |Rows(Events(wire, start, 0))| ==>
              CoveredBetween(ScansOf(redact, Rows(Events(wire, start, 0)), window), wire, start, |Parsed(wire)|)
  {
    hide Parsed, ScansOf, Rows, Events, HasContent;
    ScanCovers(redact, wire, start, n, window, line);
    if n == |Rows(Events(wire, start, 0))| {
      ScanCovers(redact, wire, start, n, window, |Parsed(wire)|);
      assert Rows(Events(wire, start, 0))[..n] == Rows(Events(wire, start, 0));
    }
    if n > 0 { RowParsed(wire, start, n - 1); }
  }

  ghost predicate CoveredBetween(scans: set<Scanned>, wire: seq<Line>, start: nat, line: nat) {
    forall l: nat :: HasContent(wire, l) && start < l <= line ==> exists s :: s in scans && s.first <= l <= s.last
  }

  /** The first new entry of a rebuild is a digest of the file that was not stored. */
  lemma Learned(redact: string -> string, wire: seq<Line>, before: seq<Stored>, after: seq<Stored>,
                n: nat, known: set<Digest>)
    requires n <= |Rows(Events(wire, 0, 0))| && Contents(before) <= known
    requires var entries := NewOnes(redact, Rows(Events(wire, 0, 0))[..n], known);
             entries != [] && forall e :: e in entries ==> e.content in Contents(after)
    ensures LearnsFrom(redact, wire, before, after)
  {
    hide Prepare;
    var rows := Rows(Events(wire, 0, 0));
    var entries := NewOnes(redact, rows[..n], known);
    NewOnesExact(redact, rows[..n], known);
    var e := entries[0];
    assert e in entries && e.row in rows;
    assert e.content in WireDigests(redact, wire);
  }

  lemma HistoryKept(scans: set<Scanned>, before: set<Digest>, after: set<Digest>)
    requires before <= after && forall s :: s in scans ==> Accounted(s, before)
    ensures forall s :: s in scans ==> Accounted(s, after)
  {}

  /** What was covered up to the start, and what this scan covered, together. */
  lemma CoveredTo(a: set<Scanned>, b: set<Scanned>, wire: seq<Line>, start: nat, line: nat)
    requires start > 0 ==> Covers(a, wire, start)
    requires a <= b && CoveredBetween(b, wire, start, line)
    ensures Covers(b, wire, line)
  {
    forall l: nat | HasContent(wire, l) && l <= line ensures exists s :: s in b && s.first <= l <= s.last {
      if l <= start {
        var s :| s in a && s.first <= l <= s.last;
        assert s in b;
      }
    }
  }

  lemma CoveredMore(a: set<Scanned>, b: set<Scanned>, wire: seq<Line>, start: nat, line: nat)
    requires a <= b && CoveredBetween(a, wire, start, line)
    ensures CoveredBetween(b, wire, start, line)
  {
    forall l: nat | HasContent(wire, l) && start < l <= line ensures exists s :: s in b && s.first <= l <= s.last {
      var s :| s in a && s.first <= l <= s.last;
      assert s in b;
    }
  }

  lemma NothingNew(redact: string -> string, rows: seq<Row>, known: set<Digest>)
    ensures NewOnes(redact, rows[..0], known) == []
  {}
}
