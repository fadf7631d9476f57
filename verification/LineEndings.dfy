/** Making embedded SQL independent of how it was checked out: carriage returns are dropped from its
    layout and its comments, and kept in its literals. */
module LineEndings {

  // Where the piece at the start of a text ends.

  /** The rest of a literal after its opening quote; a doubled quote stays inside. */
  function LiteralTail(s: string): (n: nat)
    ensures n <= |s|
    decreases |s|
  {
    if s == "" then 0
    else if s[0] != '\'' then 1 + LiteralTail(s[1..])
    else if |s| > 1 && s[1] == '\'' then 2 + LiteralTail(s[2..])
    else 1
  }

  /** Up to and including the first line feed. */
  function LineTail(s: string): (n: nat)
    ensures n <= |s|
    decreases |s|
  {
    if s == "" then 0 else if s[0] == '\n' then 1 else 1 + LineTail(s[1..])
  }

  /** Up to and including the first star and slash. */
  function BlockTail(s: string): (n: nat)
    ensures n <= |s|
    decreases |s|
  {
    if |s| < 2 then |s| else if s[0] == '*' && s[1] == '/' then 2 else 1 + BlockTail(s[1..])
  }

  predicate Opens(s: string) {
    || (s != "" && s[0] == '\'')
    || (|s| >= 2 && s[0] == '-' && s[1] == '-')
    || (|s| >= 2 && s[0] == '/' && s[1] == '*')
  }

  /** Up to the next literal or comment. */
  function PlainTail(s: string): (n: nat)
    ensures n <= |s|
    decreases |s|
  {
    if s == "" || Opens(s) then 0 else 1 + PlainTail(s[1..])
  }

  datatype Kind = Literal | LineComment | BlockComment | Plain

  function KindOf(s: string): Kind
    requires s != ""
  {
    if s[0] == '\'' then Literal
    else if |s| >= 2 && s[0] == '-' && s[1] == '-' then LineComment
    else if |s| >= 2 && s[0] == '/' && s[1] == '*' then BlockComment
    else Plain
  }

  /** A block comment is closed by the first star and slash after its own slash, so that a slash, a
      star and a slash are a whole comment. */
  function PieceEnd(s: string): (n: nat)
    requires s != ""
    ensures 1 <= n <= |s|
  {
    match KindOf(s)
    case Literal => 1 + LiteralTail(s[1..])
    case LineComment => 1 + LineTail(s[1..])
    case BlockComment => 1 + BlockTail(s[1..])
    case Plain => 1 + PlainTail(s[1..])
  }

  datatype Piece = Piece(kind: Kind, text: string)

  function Pieces(s: string): seq<Piece>
    decreases |s|
  {
    if s == "" then []
    else [Piece(KindOf(s), s[..PieceEnd(s)])] + Pieces(s[PieceEnd(s)..])
  }

  function Texts(pieces: seq<Piece>): string
    decreases |pieces|
  {
    if pieces == [] then "" else pieces[0].text + Texts(pieces[1..])
  }

  // Line endings.

  function DropReturnBeforeFeed(s: string): string
    decreases |s|
  {
    if s == "" then ""
    else if |s| >= 2 && s[0] == '\r' && s[1] == '\n' then "\n" + DropReturnBeforeFeed(s[2..])
    else [s[0]] + DropReturnBeforeFeed(s[1..])
  }

  function ReturnToFeed(s: string): string
    decreases |s|
  {
    if s == "" then "" else [if s[0] == '\r' then '\n' else s[0]] + ReturnToFeed(s[1..])
  }

  /** `lfNewlines`: two replacements, one after the other. */
  function LfNewlines(s: string): string {
    ReturnToFeed(DropReturnBeforeFeed(s))
  }

  /** The same in one pass: a return and feed, or a lone return, becomes a feed. */
  function Lf(s: string): string
    decreases |s|
  {
    if s == "" then ""
    else if s[0] != '\r' then [s[0]] + Lf(s[1..])
    else if |s| >= 2 && s[1] == '\n' then "\n" + Lf(s[2..])
    else "\n" + Lf(s[1..])
  }

  lemma {:induction false} OnePassIsTwo(s: string)
    ensures LfNewlines(s) == Lf(s)
    decreases |s|
  {
    if s == "" {
    } else {
      if |s| >= 2 && s[0] == '\r' && s[1] == '\n' {
        OnePassIsTwo(s[2..]);
        assert ("\n" + DropReturnBeforeFeed(s[2..]))[1..] == DropReturnBeforeFeed(s[2..]);
      } else {
        OnePassIsTwo(s[1..]);
        assert ([s[0]] + DropReturnBeforeFeed(s[1..]))[1..] == DropReturnBeforeFeed(s[1..]);
      }
    }
  }

  function Fixed(p: Piece): Piece {
    if p.kind == Literal then p else Piece(p.kind, Lf(p.text))
  }

  function FixedAll(pieces: seq<Piece>): seq<Piece> {
    seq(|pieces|, i requires 0 <= i < |pieces| => Fixed(pieces[i]))
  }

  /** `lineEndingsToLF`. */
  function ToLf(s: string): string
    decreases |s|
  {
    if s == "" then "" else Fixed(Piece(KindOf(s), s[..PieceEnd(s)])).text + ToLf(s[PieceEnd(s)..])
  }

  /** Checking out with line feeds turned into returns and feeds. */
  function Crlf(s: string): string
    decreases |s|
  {
    if s == "" then "" else (if s[0] == '\n' then "\r\n" else [s[0]]) + Crlf(s[1..])
  }

  // What the conversion does, piece by piece.

  lemma {:induction false} LfHasNoReturn(s: string)
    ensures '\r' !in Lf(s)
    decreases |s|
  {
    if s == "" {
    } else {
      if s[0] == '\r' && |s| >= 2 && s[1] == '\n' {
        LfHasNoReturn(s[2..]);
      } else {
        LfHasNoReturn(s[1..]);
      }
    }
  }

  lemma {:induction false} PiecesCover(s: string)
    ensures Texts(Pieces(s)) == s
    decreases |s|
  {
    if s == "" {
    } else {
      PiecesCover(s[PieceEnd(s)..]);
    }
  }

  /** A literal is copied byte for byte; no carriage return is left in any other piece. */
  predicate FixedRight(before: Piece, after: Piece) {
    && after.kind == before.kind
    && (before.kind == Literal ==> after.text == before.text)
    && (before.kind != Literal ==> '\r' !in after.text)
  }

  lemma FixIsRight(p: Piece)
    ensures FixedRight(p, Fixed(p))
  {
    LfHasNoReturn(p.text);
  }

  lemma {:induction false} FixedTexts(s: string)
    ensures ToLf(s) == Texts(FixedAll(Pieces(s)))
    decreases |s|
  {
    hide PieceEnd, KindOf, Fixed;
    if s == "" {
    } else {
      var rest := s[PieceEnd(s)..];
      FixedTexts(rest);
      assert FixedAll(Pieces(s)) == [Fixed(Pieces(s)[0])] + FixedAll(Pieces(rest));
    }
  }

  /** The text is cut into pieces that cover it, and the result is those pieces in the same order,
      each of them right: carriage returns survive in literals only. */
  lemma PieceByPiece(s: string)
    ensures Texts(Pieces(s)) == s && ToLf(s) == Texts(FixedAll(Pieces(s)))
    ensures forall i :: 0 <= i < |Pieces(s)| ==> FixedRight(Pieces(s)[i], FixedAll(Pieces(s))[i])
  {
    hide FixedRight, Fixed;
    PiecesCover(s);
    FixedTexts(s);
    forall i | 0 <= i < |Pieces(s)| ensures FixedRight(Pieces(s)[i], FixedAll(Pieces(s))[i]) {
      FixIsRight(Pieces(s)[i]);
    }
  }

  // What a piece is, read off the text.

  /** Only whole pairs of quotes. */
  predicate Paired(s: string)
    decreases |s|
  {
    || s == ""
    || (s[0] != '\'' && Paired(s[1..]))
    || (|s| >= 2 && s[0] == '\'' && s[1] == '\'' && Paired(s[2..]))
  }

  /** A literal or a comment begins at position `k`. */
  predicate Begins(s: string, k: nat) {
    && k < |s|
    && (|| s[k] == '\''
        || (k + 1 < |s| && s[k] == '-' && s[k + 1] == '-')
        || (k + 1 < |s| && s[k] == '/' && s[k + 1] == '*'))
  }

  predicate ClosesAt(s: string, k: nat) {
    k + 1 < |s| && s[k] == '*' && s[k + 1] == '/'
  }

  /** The text `t` is a piece of its kind where `r` follows it. A literal goes on to the first quote that is
      not doubled, a line comment to the end of its line, a block comment to the first star and slash after
      its own slash, and anything else to where a literal or comment begins; or each to the end. */
  predicate WellCut(kind: Kind, t: string, r: string) {
    match kind
    case Literal =>
      && t != "" && t[0] == '\''
      && (|| (r == "" && Paired(t[1..]))
          || (|t| >= 2 && t[|t| - 1] == '\'' && Paired(t[1..|t| - 1]) && (r == "" || r[0] != '\'')))
    case LineComment =>
      && |t| >= 2 && t[0] == '-' && t[1] == '-' && (forall k :: 0 <= k < |t| - 1 ==> t[k] != '\n')
      && (r == "" || t[|t| - 1] == '\n')
    case BlockComment =>
      && |t| >= 2 && t[0] == '/' && t[1] == '*' && (forall k :: 1 <= k < |t| - 2 ==> !ClosesAt(t, k))
      && (r == "" || (|t| >= 3 && ClosesAt(t, |t| - 2)))
    case Plain =>
      && t != "" && (forall k :: 0 <= k < |t| ==> !Begins(t + r, k)) && (r == "" || Begins(t + r, |t|))
  }

  lemma {:induction false} LiteralCut(s: string)
    ensures var n := LiteralTail(s);
            || (n == |s| && Paired(s))
            || (n >= 1 && s[n - 1] == '\'' && Paired(s[..n - 1]) && (n == |s| || s[n] != '\''))
    decreases |s|
  {
    var n := LiteralTail(s);
    if s == "" {
    } else if s[0] != '\'' {
      LiteralCut(s[1..]);
      if n >= 2 { assert s[..n - 1][0] == s[0] && s[..n - 1][1..] == s[1..][..n - 2]; }
    } else if |s| > 1 && s[1] == '\'' {
      LiteralCut(s[2..]);
      if n >= 3 { assert s[..n - 1][0] == s[0] && s[..n - 1][1] == s[1] && s[..n - 1][2..] == s[2..][..n - 3]; }
    } else {
      assert s[..0] == "";
    }
  }

  lemma {:induction false} LineCut(s: string)
    ensures var n := LineTail(s);
            && (forall k :: 0 <= k < n - 1 ==> s[k] != '\n')
            && (n == |s| || (n >= 1 && s[n - 1] == '\n'))
    decreases |s|
  {
    if s != "" && s[0] != '\n' {
      LineCut(s[1..]);
    }
  }

  lemma {:induction false} BlockCut(s: string)
    ensures var n := BlockTail(s);
            && (forall k :: 0 <= k < n - 2 ==> !ClosesAt(s, k))
            && (n == |s| || (n >= 2 && ClosesAt(s, n - 2)))
    decreases |s|
  {
    if |s| >= 2 && !(s[0] == '*' && s[1] == '/') {
      BlockCut(s[1..]);
      var n := BlockTail(s);
      forall k | 0 <= k < n - 2 ensures !ClosesAt(s, k) {
        if k > 0 { assert !ClosesAt(s[1..], k - 1); }
      }
      assert n >= 3 ==> (ClosesAt(s[1..], n - 3) <==> ClosesAt(s, n - 2));
    }
  }

  lemma {:induction false} PlainCut(s: string)
    ensures var n := PlainTail(s);
            && (forall k :: 0 <= k < n ==> !Begins(s, k)) && (n == |s| || Begins(s, n))
    decreases |s|
  {
    if s != "" && !Opens(s) {
      PlainCut(s[1..]);
      forall k | 0 <= k < PlainTail(s) ensures !Begins(s, k) {
        if k > 0 { assert !Begins(s[1..], k - 1); }
      }
      assert Begins(s[1..], PlainTail(s) - 1) <==> Begins(s, PlainTail(s));
    }
  }

  lemma FirstLiteral(s: string, n: nat)
    requires s != "" && KindOf(s) == Literal && n == 1 + LiteralTail(s[1..])
    ensures WellCut(Literal, s[..n], s[n..])
  {
    LiteralCut(s[1..]);
    var t := s[..n];
    assert t[1..] == s[1..][..n - 1];
    if n >= 2 {
      assert t[1..n - 1] == s[1..][..n - 2] && t[n - 1] == s[1..][n - 2];
    }
    if n == |s| { assert s[1..][..n - 1] == s[1..]; }
  }

  lemma FirstLine(s: string, n: nat)
    requires s != "" && KindOf(s) == LineComment && n == 1 + LineTail(s[1..])
    ensures WellCut(LineComment, s[..n], s[n..])
  {
    LineCut(s[1..]);
    forall k | 0 <= k < n - 1 ensures s[k] != '\n' {
      if k > 0 { assert s[k] == s[1..][k - 1]; }
    }
    assert LineTail(s[1..]) >= 1;
    assert n < |s| ==> s[n - 1] == s[1..][n - 2];
  }

  lemma FirstBlock(s: string, n: nat)
    requires s != "" && KindOf(s) == BlockComment && n == 1 + BlockTail(s[1..])
    ensures WellCut(BlockComment, s[..n], s[n..])
  {
    BlockCut(s[1..]);
    var t := s[..n];
    assert BlockTail(s[1..]) >= 1;
    forall k | 1 <= k < n - 2 ensures !ClosesAt(t, k) {
      assert !ClosesAt(s[1..], k - 1);
    }
    if n < |s| {
      assert ClosesAt(s[1..], n - 3);
      assert t[n - 2] == s[1..][n - 3] && t[n - 1] == s[1..][n - 2];
    }
  }

  lemma FirstPlain(s: string, n: nat)
    requires s != "" && KindOf(s) == Plain && n == 1 + PlainTail(s[1..])
    ensures WellCut(Plain, s[..n], s[n..])
  {
    PlainCut(s[1..]);
    assert s[..n] + s[n..] == s;
    forall k | 0 <= k < n ensures !Begins(s, k) {
      if k > 0 { assert !Begins(s[1..], k - 1); }
    }
    if n < |s| {
      assert Begins(s[1..], n - 1);
    }
  }

  /** The piece at the start of a text is well cut. */
  lemma FirstPieceCut(s: string)
    requires s != ""
    ensures WellCut(KindOf(s), s[..PieceEnd(s)], s[PieceEnd(s)..])
  {
    hide WellCut;
    match KindOf(s)
    case Literal => FirstLiteral(s, PieceEnd(s));
    case LineComment => FirstLine(s, PieceEnd(s));
    case BlockComment => FirstBlock(s, PieceEnd(s));
    case Plain => FirstPlain(s, PieceEnd(s));
  }

  /** Every piece of a text is well cut where the later pieces follow it. */
  lemma {:induction false} PiecesAreCut(s: string, i: nat)
    requires i < |Pieces(s)|
    ensures WellCut(Pieces(s)[i].kind, Pieces(s)[i].text, Texts(Pieces(s)[i + 1..]))
    decreases i
  {
    hide PieceEnd, KindOf, WellCut;
    var rest := s[PieceEnd(s)..];
    PiecesCover(rest);
    assert Pieces(s)[1..] == Pieces(rest);
    if i == 0 {
      FirstPieceCut(s);
    } else {
      PiecesAreCut(rest, i - 1);
      assert Pieces(s)[i + 1..] == Pieces(rest)[i..];
    }
  }

  // What is converted, position by position.

  /** The feeds that follow a return, among the first `n` characters. */
  function Pairs(s: string, n: nat): (p: nat)
    requires n <= |s|
    ensures p <= n && (n > 0 ==> p < n)
  {
    if n < 2 then 0 else Pairs(s, n - 1) + if s[n - 1] == '\n' && s[n - 2] == '\r' then 1 else 0
  }

  lemma LfHead(s: string)
    requires s != ""
    ensures var pair := |s| >= 2 && s[0] == '\r' && s[1] == '\n';
            Lf(s) == [if s[0] == '\r' then '\n' else s[0]] + Lf(if pair then s[2..] else s[1..])
  {}

  lemma LfOfOne(c: char)
    ensures Lf([c]) == [if c == '\r' then '\n' else c] && Lf("") == ""
  {
    assert [c][1..] == "";
  }

  lemma {:induction false} LfOfLast(t: string, c: char)
    ensures Lf(t + [c]) == if c == '\n' && t != "" && t[|t| - 1] == '\r' then Lf(t)
                           else Lf(t) + [if c == '\r' then '\n' else c]
    decreases |t|
  {
    hide Lf;
    var s := t + [c];
    LfOfOne(c);
    if t == "" {
      assert s == [c];
    } else {
      LfHead(s);
      LfHead(t);
      if t[0] == '\r' && |t| >= 2 && t[1] == '\n' {
        LfOfLast(t[2..], c);
        assert s[2..] == t[2..] + [c];
      } else if |t| >= 2 {
        LfOfLast(t[1..], c);
        assert s[1..] == t[1..] + [c];
      } else {
        assert t[1..] == "" && s[1..] == [c] && s[2..] == "";
      }
    }
  }

  /** A return and feed becomes a feed, a lone return becomes a feed, and every other character stays: each
      at its place, moved forward by the pairs before it. */
  lemma {:induction false} LfAt(s: string, n: nat, i: nat)
    requires i < n <= |s| && !(i > 0 && s[i] == '\n' && s[i - 1] == '\r')
    ensures var out := Lf(s[..n]);
            && |out| == n - Pairs(s, n) && i - Pairs(s, i) < |out|
            && out[i - Pairs(s, i)] == if s[i] == '\r' then '\n' else s[i]
    decreases n
  {
    LfLength(s, n - 1);
    assert s[..n] == s[..n - 1] + [s[n - 1]];
    LfOfLast(s[..n - 1], s[n - 1]);
    if i < n - 1 {
      LfAt(s, n - 1, i);
    }
  }

  lemma {:induction false} LfLength(s: string, n: nat)
    requires n <= |s|
    ensures |Lf(s[..n])| == n - Pairs(s, n)
    decreases n
  {
    if n == 0 {
    } else {
      LfLength(s, n - 1);
      assert s[..n] == s[..n - 1] + [s[n - 1]];
      LfOfLast(s[..n - 1], s[n - 1]);
    }
  }

  lemma {:induction false} LfWithoutReturn(s: string)
    requires '\r' !in s
    ensures Lf(s) == s
    decreases |s|
  {
    if s == "" {
    } else {
      assert forall c :: c in s[1..] ==> c in s;
      LfWithoutReturn(s[1..]);
    }
  }

  /** Without a carriage return there is nothing to do, which is the early exit. */
  lemma {:induction false} NothingToDo(s: string)
    requires '\r' !in s
    ensures ToLf(s) == s
    decreases |s|
  {
    if s == "" {
    } else {
      var n := PieceEnd(s);
      LfWithoutReturn(s[..n]);
      NothingToDo(s[n..]);
      assert s == s[..n] + s[n..];
    }
  }

  // Checkout independence.

  lemma {:induction false} CrlfSplit(a: string, b: string)
    ensures Crlf(a + b) == Crlf(a) + Crlf(b)
    decreases |a|
  {
    if a == "" {
      assert a + b == b;
    } else {
      assert (a + b)[1..] == a[1..] + b;
      CrlfSplit(a[1..], b);
    }
  }

  lemma {:induction false} CrlfUndone(s: string)
    requires '\r' !in s
    ensures Lf(Crlf(s)) == s
    decreases |s|
  {
    if s == "" {
    } else {
      assert s == [s[0]] + s[1..];
      CrlfUndone(s[1..]);
      CrlfStep(s);
      assert s[0] != '\r';
      UndoneStep(Crlf(s), s[0], Crlf(s[1..]));
    }
  }

  lemma UndoneStep(t: string, c: char, rest: string)
    requires c != '\r' && t == (if c == '\n' then "\r\n" else [c]) + rest
    ensures Lf(t) == [c] + Lf(rest)
  {
    if c == '\n' {
      assert t[2..] == rest;
    } else {
      assert t[1..] == rest;
    }
  }

  lemma {:induction false} CrlfPlain(s: string)
    requires '\n' !in s
    ensures Crlf(s) == s
    decreases |s|
  {
    if s == "" {
    } else {
      assert forall c :: c in s[1..] ==> c in s;
      CrlfPlain(s[1..]);
    }
  }

  /** No line break inside a literal, as this scanner cuts it. */
  ghost predicate LiteralsOnOneLine(s: string)
    decreases |s|
  {
    s != "" ==>
      && (KindOf(s) == Literal ==> '\n' !in s[..PieceEnd(s)])
      && LiteralsOnOneLine(s[PieceEnd(s)..])
  }

  /** The first characters that decide how a text opens are the same after a checkout. */
  lemma CrlfHead(s: string)
    ensures Crlf(s) == "" <==> s == ""
    ensures s != "" ==> Crlf(s)[0] == if s[0] == '\n' then '\r' else s[0]
    ensures Opens(Crlf(s)) <==> Opens(s)
    ensures s != "" ==> KindOf(Crlf(s)) == KindOf(s)
  {
    if |s| >= 2 {
      assert Crlf(s[1..]) != "" && Crlf(s[1..])[0] == if s[1] == '\n' then '\r' else s[1];
    }
  }

  lemma CrlfStep(s: string)
    requires s != ""
    ensures Crlf(s) == Crlf([s[0]]) + Crlf(s[1..])
    ensures Crlf(s) == (if s[0] == '\n' then "\r\n" else [s[0]]) + Crlf(s[1..])
    ensures s[0] != '\n' ==> Crlf(s)[1..] == Crlf(s[1..])
    ensures s[0] == '\n' ==> Crlf(s)[1..] == "\n" + Crlf(s[1..]) && Crlf(s)[1..][1..] == Crlf(s[1..])
    ensures |Crlf(s)| == (if s[0] == '\n' then 2 else 1) + |Crlf(s[1..])|
  {
    OneCrlf(s[0]);
    var head := if s[0] == '\n' then "\r\n" else [s[0]];
    var rest := Crlf(s[1..]);
    assert Crlf(s) == head + rest;
    hide Crlf;
    if s[0] == '\n' {
      assert (head + rest)[1..] == "\n" + rest && ("\n" + rest)[1..] == rest;
    } else {
      assert (head + rest)[1..] == rest;
    }
  }

  lemma OneCrlf(c: char)
    ensures Crlf([c]) == if c == '\n' then "\r\n" else [c]
  {
    assert [c][1..] == "";
  }

  lemma LiteralStep(s: string)
    requires s != "" && s[0] != '\''
    ensures LiteralTail(s) == 1 + LiteralTail(s[1..])
  {}

  lemma {:induction false} LiteralTailCrlf(s: string)
    ensures LiteralTail(Crlf(s)) == |Crlf(s[..LiteralTail(s)])|
    decreases |s|
  {
    var n := LiteralTail(s);
    if s == "" {
    } else {
      CrlfStep(s);
      if s[0] != '\'' {
        LiteralTailCrlf(s[1..]);
        CrlfStep(s[..n]);
        assert s[..n][1..] == s[1..][..n - 1];
        LiteralStep(Crlf(s));
        if s[0] == '\n' { LiteralStep(Crlf(s)[1..]); }
      } else if |s| > 1 && s[1] == '\'' {
        CrlfStep(s[1..]);
        LiteralTailCrlf(s[2..]);
        CrlfStep(s[..n]);
        CrlfStep(s[..n][1..]);
        assert s[..n][1..][1..] == s[2..][..n - 2];
        assert Crlf(s)[2..] == Crlf(s)[1..][1..];
      } else {
        CrlfHead(s[1..]);
        assert s[..1] == [s[0]] && [s[0]][1..] == "";
      }
    }
  }

  lemma {:induction false} LineTailCrlf(s: string)
    ensures LineTail(Crlf(s)) == |Crlf(s[..LineTail(s)])|
    decreases |s|
  {
    if s == "" {
    } else {
      if s[0] == '\n' {
        assert Crlf(s)[1..][0] == '\n';
        assert s[..1][1..] == "";
      } else {
        LineTailCrlf(s[1..]);
        assert Crlf(s)[1..] == Crlf(s[1..]);
        assert s[..LineTail(s)][1..] == s[1..][..LineTail(s) - 1];
      }
    }
  }

  lemma {:induction false} BlockTailCrlf(s: string)
    requires '\r' !in s
    ensures BlockTail(Crlf(s)) == |Crlf(s[..BlockTail(s)])|
    decreases |s|
  {
    var n := BlockTail(s);
    if |s| >= 2 {
      assert forall c :: c in s[1..] ==> c in s;
      CrlfHead(s[1..]);
      if s[0] == '*' && s[1] == '/' {
        assert s[..2][1..] == "/" && "/"[1..] == "";
        assert Crlf(s)[1..] == Crlf(s[1..]);
      } else {
        BlockTailCrlf(s[1..]);
        assert s[..n][1..] == s[1..][..n - 1];
        if s[0] == '\n' {
          assert Crlf(s)[1..] == "\n" + Crlf(s[1..]);
          assert Crlf(s)[1..][1..] == Crlf(s[1..]);
        } else {
          assert Crlf(s)[1..] == Crlf(s[1..]);
        }
      }
    } else if |s| == 1 {
      assert s[..1] == s && s[1..] == "";
    }
  }

  lemma {:induction false} PlainTailCrlf(s: string)
    ensures PlainTail(Crlf(s)) == |Crlf(s[..PlainTail(s)])|
    decreases |s|
  {
    CrlfHead(s);
    if s == "" || Opens(s) {
    } else {
      PlainTailCrlf(s[1..]);
      assert s[..PlainTail(s)][1..] == s[1..][..PlainTail(s) - 1];
      if s[0] == '\n' {
        assert Crlf(s)[1..] == "\n" + Crlf(s[1..]);
        assert Crlf(s)[1..][1..] == Crlf(s[1..]);
      } else {
        assert Crlf(s)[1..] == Crlf(s[1..]);
      }
    }
  }

  /** A checkout moves the end of a piece to the end of its image. */
  lemma PieceEndCrlf(s: string)
    requires s != "" && '\r' !in s
    ensures PieceEnd(Crlf(s)) == |Crlf(s[..PieceEnd(s)])|
  {
    CrlfHead(s);
    CrlfStep(s);
    var n := PieceEnd(s);
    CrlfStep(s[..n]);
    assert s[..n][1..] == s[1..][..n - 1];
    if s[0] == '\n' {
      FeedStartsPlain(s);
      PlainTailCrlf(s[1..]);
    } else {
      match KindOf(s)
      case Literal => LiteralTailCrlf(s[1..]);
      case LineComment => LineTailCrlf(s[1..]);
      case BlockComment =>
        assert forall c :: c in s[1..] ==> c in s;
        BlockTailCrlf(s[1..]);
      case Plain => PlainTailCrlf(s[1..]);
    }
  }

  lemma FeedStartsPlain(s: string)
    requires s != "" && s[0] == '\n'
    ensures KindOf(s) == Plain && PlainTail(Crlf(s)[1..]) == 1 + PlainTail(Crlf(s[1..]))
  {
    assert Crlf(s)[1..] == "\n" + Crlf(s[1..]);
    assert Crlf(s)[1..][1..] == Crlf(s[1..]);
  }

  /** The pieces of a checkout are the checkouts of the pieces. */
  lemma CheckoutPiece(s: string)
    requires s != "" && '\r' !in s
    ensures var n := PieceEnd(s);
            && Crlf(s) != "" && KindOf(Crlf(s)) == KindOf(s) && PieceEnd(Crlf(s)) == |Crlf(s[..n])|
            && Crlf(s)[..|Crlf(s[..n])|] == Crlf(s[..n]) && Crlf(s)[|Crlf(s[..n])|..] == Crlf(s[n..])
            && '\r' !in s[..n] && '\r' !in s[n..]
  {
    var n := PieceEnd(s);
    assert s == s[..n] + s[n..];
    CrlfSplit(s[..n], s[n..]);
    CrlfHead(s);
    PieceEndCrlf(s);
  }

  lemma {:induction false} Restored(s: string)
    requires '\r' !in s && LiteralsOnOneLine(s)
    ensures ToLf(Crlf(s)) == s
    decreases |s|
  {
    if s == "" {
    } else {
      var n := PieceEnd(s);
      var piece, rest := s[..n], s[n..];
      assert s == piece + rest;
      CheckoutPiece(s);
      Restored(rest);
      if KindOf(s) == Literal { CrlfPlain(piece); } else { CrlfUndone(piece); }
    }
  }

  /** A line feed comes back as a return and a feed. */
  lemma {:induction false} FeedGivesReturn(s: string)
    requires '\r' !in s
    ensures '\r' in Crlf(s) <==> '\n' in s
    decreases |s|
  {
    if s == "" {
    } else {
      assert s == [s[0]] + s[1..];
      FeedGivesReturn(s[1..]);
      CrlfStep(s);
      assert [s[0]][1..] == "";
      assert s[0] == '\n' ==> Crlf([s[0]])[0] == '\r';
    }
  }

  /** A checkout puts a return into a literal exactly where a line was broken inside one. */
  lemma {:induction false} BrokenLiterals(s: string)
    requires '\r' !in s
    ensures LiteralsPlain(Crlf(s)) <==> LiteralsOnOneLine(s)
    decreases |s|
  {
    hide PieceEnd, KindOf;
    if s == "" {
    } else {
      CheckoutPiece(s);
      FeedGivesReturn(s[..PieceEnd(s)]);
      BrokenLiterals(s[PieceEnd(s)..]);
    }
  }

  /** Checkout independence, exactly: a script without carriage returns is given back after a checkout
      that turns its line feeds into returns and feeds if and only if no literal breaks a line. */
  lemma CheckoutIndependent(s: string)
    requires '\r' !in s
    ensures ToLf(Crlf(s)) == s <==> LiteralsOnOneLine(s)
  {
    if LiteralsOnOneLine(s) {
      Restored(s);
    } else {
      BrokenLiterals(s);
      NothingLeft(Crlf(s));
    }
  }

  /** A literal over two lines is a script that is not given back. */
  lemma BrokenLiteralDiffers()
    ensures ToLf(Crlf("'\n'")) != "'\n'"
  {
    var s := "'\n'";
    assert s[1..] == "\n'" && s[1..][1..] == "'" && "'"[1..] == "";
    assert LiteralTail("'") == 1 && LiteralTail("\n'") == 2;
    assert s[..PieceEnd(s)][1] == '\n';
    CheckoutIndependent(s);
  }

  // Converting twice.

  function Image(c: char): char {
    if c == '\r' then '\n' else c
  }

  /** `u` starts the way a conversion of `v` does. */
  predicate HeadAgrees(u: string, v: string) {
    (u == "" <==> v == "") && (v != "" ==> u[0] == Image(v[0]))
  }

  predicate BreakFirst(t: string) {
    |t| >= 2 && t[0] == '\r' && t[1] == '\n'
  }

  /** The text without its first character, or without its first line ending. */
  function Later(t: string): string
    requires t != ""
  {
    if BreakFirst(t) then t[2..] else t[1..]
  }

  lemma LfStep(t: string, out: string)
    requires t != ""
    ensures var u := Lf(t) + out;
            u != "" && u[0] == Image(t[0]) && u[1..] == Lf(Later(t)) + out && |Lf(t)| == 1 + |Lf(Later(t))|
  {
    var c := Image(t[0]);
    assert Lf(t) == [c] + Lf(Later(t));
    hide Lf;
    assert Lf(t) + out == [c] + (Lf(Later(t)) + out);
  }

  lemma Appended(t: string, rest: string)
    requires t != ""
    ensures (t + rest)[0] == t[0] && (t + rest)[1..] == t[1..] + rest
    ensures |t| >= 2 ==> (t + rest)[1] == t[1] && (t + rest)[1..][1..] == t[2..] + rest
  {}

  lemma LfHeads(t: string, rest: string, out: string)
    requires HeadAgrees(out, rest)
    ensures HeadAgrees(Lf(t) + out, t + rest)
  {
    if t == "" {
      assert Lf(t) + out == out && t + rest == rest;
    } else {
      LfStep(t, out);
    }
  }

  lemma SecondAgrees(t: string, rest: string, out: string)
    requires HeadAgrees(out, rest) && t != "" && t[0] != '\r'
    ensures HeadAgrees((Lf(t) + out)[1..], (t + rest)[1..])
  {
    LfStep(t, out);
    Appended(t, rest);
    LfHeads(t[1..], rest, out);
  }

  /** A converted text opens a literal or comment exactly when the text did. */
  lemma OpensAgrees(t: string, rest: string, out: string)
    requires HeadAgrees(out, rest) && t != ""
    ensures Opens(Lf(t) + out) <==> Opens(t + rest)
    ensures KindOf(Lf(t) + out) == KindOf(t + rest)
  {
    LfStep(t, out);
    Appended(t, rest);
    var u, v := Lf(t) + out, t + rest;
    if t[0] != '\r' {
      SecondAgrees(t, rest, out);
      HeadsOpen(u, v);
    }
  }

  lemma HeadsOpen(u: string, v: string)
    requires u != "" && v != "" && u[0] == v[0] && HeadAgrees(u[1..], v[1..])
    ensures Opens(u) <==> Opens(v)
    ensures KindOf(u) == KindOf(v)
  {
    if |u| >= 2 {
      assert u[1..][0] == u[1] && v[1..][0] == v[1];
    }
  }

  lemma PlainStep(v: string)
    requires v != "" && !Opens(v)
    ensures PlainTail(v) == 1 + PlainTail(v[1..])
  {}

  lemma {:induction false} PlainStays(t: string, rest: string, out: string)
    requires PlainTail(t + rest) == |t| && HeadAgrees(out, rest) && (Opens(rest) ==> Opens(out))
    ensures PlainTail(Lf(t) + out) == |Lf(t)|
    decreases |t|
  {
    if t == "" {
      assert t + rest == rest && Lf(t) + out == out;
    } else {
      OpensAgrees(t, rest, out);
      Appended(t, rest);
      LfStep(t, out);
      PlainStep(t + rest);
      if BreakFirst(t) { PlainStep((t + rest)[1..]); }
      PlainStep(Lf(t) + out);
      hide Lf, Opens, PlainTail;
      PlainStays(Later(t), rest, out);
    }
  }

  predicate Closes(s: string) {
    |s| >= 2 && s[0] == '*' && s[1] == '/'
  }

  lemma TailStep(s: string)
    requires s != "" && !Closes(s)
    ensures BlockTail(s) == 1 + BlockTail(s[1..])
  {}

  /** A converted text closes a comment exactly when the text did. */
  lemma ClosesAgrees(t: string, rest: string, out: string)
    requires HeadAgrees(out, rest) && t != ""
    ensures Closes(Lf(t) + out) <==> Closes(t + rest)
  {
    LfStep(t, out);
    Appended(t, rest);
    var u, v := Lf(t) + out, t + rest;
    if t[0] != '\r' {
      SecondAgrees(t, rest, out);
      if |u| >= 2 { assert u[1] == u[1..][0] && v[1] == v[1..][0]; }
    }
  }

  lemma {:induction false} BlockStays(t: string, rest: string, out: string)
    requires BlockTail(t + rest) == |t| && HeadAgrees(out, rest)
    ensures BlockTail(Lf(t) + out) == |Lf(t)|
    decreases |t|
  {
    if t == "" {
      assert t + rest == rest && Lf(t) + out == out;
    } else {
      Appended(t, rest);
      LfStep(t, out);
      ClosesAgrees(t, rest, out);
      if Closes(t + rest) {
        assert |t| == 2;
        LfStep(t[1..], out);
        assert t[2..] == "";
      } else {
        TailStep(t + rest);
        if BreakFirst(t) { TailStep((t + rest)[1..]); }
        TailStep(Lf(t) + out);
        hide Lf, Closes, BlockTail;
        BlockStays(Later(t), rest, out);
      }
    }
  }

  /** Every carriage return is followed by a line feed. */
  ghost predicate NoLoneReturn(t: string) {
    forall i :: 0 <= i < |t| && t[i] == '\r' ==> i + 1 < |t| && t[i + 1] == '\n'
  }

  lemma LfOfBreak(t: string, out: string)
    requires t == "\r\n"
    ensures Lf(t) == "\n" && LineTail(Lf(t) + out) == 1
  {
    assert t[2..] == "";
    assert Lf(t) == "\n";
  }

  lemma {:induction false} LineStays(t: string, rest: string, out: string)
    requires LineTail(t + rest) == |t| && NoLoneReturn(t) && (rest == "" ==> out == "")
    ensures LineTail(Lf(t) + out) == |Lf(t)|
    decreases |t|
  {
    if t == "" {
      assert t + rest == rest && Lf(t) + out == out;
    } else {
      Appended(t, rest);
      LfStep(t, out);
      if t[0] == '\r' {
        assert BreakFirst(t) && (t + rest)[1..][0] == '\n';
        assert |t| == 2 && t[2..] == "";
        hide LineTail, NoLoneReturn;
        LfOfBreak(t, out);
      } else if t[0] == '\n' {
        assert t[1..] == "";
      } else {
        assert forall i :: 0 <= i < |t[1..]| ==> t[1..][i] == t[i + 1];
        LineStays(t[1..], rest, out);
      }
    }
  }

  lemma {:induction false} LiteralStays(t: string, rest: string, out: string)
    requires LiteralTail(t + rest) == |t| && HeadAgrees(out, rest)
    ensures LiteralTail(t + out) == |t|
    decreases |t|
  {
    if t == "" {
      assert t + rest == rest && t + out == out;
    } else if t[0] != '\'' {
      assert (t + rest)[1..] == t[1..] + rest && (t + out)[1..] == t[1..] + out;
      LiteralStays(t[1..], rest, out);
    } else if |t + rest| > 1 && (t + rest)[1] == '\'' {
      assert (t + rest)[2..] == t[2..] + rest && (t + out)[2..] == t[2..] + out;
      LiteralStays(t[2..], rest, out);
    }
  }

  /** No line comment has a carriage return that does not belong to a line ending. */
  ghost predicate CommentsBreakWhole(s: string)
    decreases |s|
  {
    s != "" ==>
      && (KindOf(s) == LineComment ==> NoLoneReturn(s[..PieceEnd(s)]))
      && CommentsBreakWhole(s[PieceEnd(s)..])
  }

  /** Converting a piece keeps its kind and moves its end to the end of the converted piece. */
  lemma PieceStays(s: string, out: string)
    requires s != "" && (KindOf(s) == LineComment ==> NoLoneReturn(s[..PieceEnd(s)]))
    requires HeadAgrees(out, s[PieceEnd(s)..]) && (Opens(s[PieceEnd(s)..]) ==> Opens(out))
    ensures var fixed := Fixed(Piece(KindOf(s), s[..PieceEnd(s)])).text;
            && fixed != "" && KindOf(fixed + out) == KindOf(s) && PieceEnd(fixed + out) == |fixed|
            && HeadAgrees(fixed + out, s)
  {
    var n := PieceEnd(s);
    var t, rest := s[..n], s[n..];
    assert s == t + rest && s[1..] == t[1..] + rest;
    if KindOf(s) == Literal {
      LiteralStays(t[1..], rest, out);
      assert (t + out)[1..] == t[1..] + out;
    } else {
      LfHeads(t, rest, out);
      OpensAgrees(t, rest, out);
      LfStep(t, out);
      if t[0] == '\r' {
        ReturnFirst(t, rest, out);
      } else {
        LaterTailStays(s, out);
      }
    }
  }

  /** The part of a piece after its first character, when that is not a carriage return. */
  lemma LaterTailStays(s: string, out: string)
    requires s != "" && KindOf(s) != Literal && s[0] != '\r'
    requires KindOf(s) == LineComment ==> NoLoneReturn(s[..PieceEnd(s)])
    requires HeadAgrees(out, s[PieceEnd(s)..]) && (Opens(s[PieceEnd(s)..]) ==> Opens(out))
    requires KindOf(Lf(s[..PieceEnd(s)]) + out) == KindOf(s)
    ensures PieceEnd(Lf(s[..PieceEnd(s)]) + out) == |Lf(s[..PieceEnd(s)])|
  {
    var n := PieceEnd(s);
    var t, rest := s[..n], s[n..];
    assert s == t + rest && s[1..] == t[1..] + rest;
    LfStep(t, out);
    match KindOf(s)
    case LineComment =>
      assert forall i :: 0 <= i < |t[1..]| ==> t[1..][i] == t[i + 1];
      LineStays(t[1..], rest, out);
    case BlockComment => BlockStays(t[1..], rest, out);
    case Plain => PlainStays(t[1..], rest, out);
  }

  /** Layout that starts with a carriage return. */
  lemma ReturnFirst(t: string, rest: string, out: string)
    requires t != "" && t[0] == '\r' && PlainTail(t[1..] + rest) == |t| - 1
    requires HeadAgrees(out, rest) && (Opens(rest) ==> Opens(out))
    ensures Lf(t) != "" && KindOf(Lf(t) + out) == Plain && PieceEnd(Lf(t) + out) == |Lf(t)|
  {
    LfStep(t, out);
    if BreakFirst(t) {
      Appended(t[1..], rest);
      PlainStep(t[1..] + rest);
    }
    hide Lf, PlainTail;
    PlainStays(Later(t), rest, out);
  }

  lemma {:induction false} LfTwice(s: string)
    ensures Lf(Lf(s)) == Lf(s)
  {
    LfHasNoReturn(s);
    LfWithoutReturn(Lf(s));
  }

  /** With whole line breaks in line comments, a second conversion cuts the same pieces. */
  lemma {:induction false} SamePieces(s: string)
    requires CommentsBreakWhole(s)
    ensures ToLf(ToLf(s)) == ToLf(s)
    ensures HeadAgrees(ToLf(s), s) && (Opens(s) ==> Opens(ToLf(s)))
    decreases |s|
  {
    if s == "" {
    } else {
      var n := PieceEnd(s);
      var out, fixed := ToLf(s[n..]), Fixed(Piece(KindOf(s), s[..n])).text;
      SamePieces(s[n..]);
      PieceStays(s, out);
      LfTwice(s[..n]);
      assert (fixed + out)[..|fixed|] == fixed && (fixed + out)[|fixed|..] == out;
      KindOpens(s);
      KindOpens(fixed + out);
    }
  }

  lemma KindOpens(s: string)
    requires s != ""
    ensures Opens(s) <==> KindOf(s) != Plain
  {}

  /** No literal holds a carriage return. */
  ghost predicate LiteralsPlain(s: string)
    decreases |s|
  {
    s != "" ==>
      && (KindOf(s) == Literal ==> '\r' !in s[..PieceEnd(s)])
      && LiteralsPlain(s[PieceEnd(s)..])
  }

  /** Nothing is left to convert exactly when no literal holds a carriage return; converting again
      then changes nothing, whatever the comments. */
  lemma {:induction false} NothingLeft(s: string)
    ensures LiteralsPlain(s) <==> '\r' !in ToLf(s)
    ensures LiteralsPlain(s) ==> ToLf(ToLf(s)) == ToLf(s)
    decreases |s|
  {
    hide PieceEnd, KindOf;
    if s == "" {
    } else {
      NothingLeft(s[PieceEnd(s)..]);
      LfHasNoReturn(s[..PieceEnd(s)]);
    }
    if '\r' !in ToLf(s) { NothingToDo(ToLf(s)); }
  }

  /** Idempotence: if no line comment has a lone carriage return, or no literal has any, converting
      twice is converting once. */
  lemma Idempotent(s: string)
    requires CommentsBreakWhole(s) || LiteralsPlain(s)
    ensures ToLf(ToLf(s)) == ToLf(s)
  {
    if CommentsBreakWhole(s) {
      SamePieces(s);
    } else {
      NothingLeft(s);
    }
  }

  /** The condition is not needed: what follows the lone return may be cut the same all the same. */
  lemma LoneReturnCanBeHarmless()
    ensures var s := "--\rx\n" + "'\r'";
            !CommentsBreakWhole(s) && !LiteralsPlain(s) && ToLf(ToLf(s)) == ToLf(s)
  {
    var c, rest := "--\rx\n", "'\r'";
    var s := c + rest;
    HarmlessEnd(rest);
    assert s[..5] == c && s[5..] == rest;
    HarmlessLiteral(rest);
    HarmlessComment();
    HarmlessAgain(rest);
    assert c[2] == '\r' && c[3] == 'x';
    hide PieceEnd, LineTail, LiteralTail;
    assert ToLf(s) == "--\nx\n" + rest;
  }

  lemma HarmlessLiteral(rest: string)
    requires rest == "'\r'"
    ensures rest != "" && !LiteralsPlain(rest) && ToLf(rest) == rest
  {
    ShortLiteral('\r');
    ShortLiteralEnd('\r');
    assert rest[1] == '\r' && rest[..3] == rest;
  }

  lemma HarmlessEnd(rest: string)
    ensures PieceEnd("--\rx\n" + rest) == 5
  {
    var s := "--\rx\n" + rest;
    assert s[1..] == "-\rx\n" + rest && s[1..][1..] == "\rx\n" + rest && s[1..][1..][1..] == "x\n" + rest;
    assert s[1..][1..][1..][1..] == "\n" + rest;
    assert LineTail("\n" + rest) == 1;
    assert LineTail("x\n" + rest) == 2;
    assert LineTail("\rx\n" + rest) == 3;
    assert LineTail("-\rx\n" + rest) == 4;
  }

  lemma HarmlessComment()
    ensures Lf("--\rx\n") == "--\nx\n"
  {
    LfWithoutReturn("x\n");
    assert "\rx\n"[1..] == "x\n" && "-\rx\n"[1..] == "\rx\n" && "--\rx\n"[1..] == "-\rx\n";
    assert Lf("\rx\n") == "\nx\n";
    assert Lf("-\rx\n") == "-\nx\n";
  }

  /** Read again, the comment is shorter and its rest is layout. */
  lemma HarmlessAgain(rest: string)
    requires rest == "'\r'"
    ensures ToLf("--\nx\n" + rest) == "--\nx\n" + rest
  {
    var t := "x\n" + rest;
    ShortComment(t);
    assert "--\n" + t == "--\nx\n" + rest;
    HarmlessLayout(rest);
  }

  lemma HarmlessLayout(rest: string)
    requires rest == "'\r'"
    ensures ToLf("x\n" + rest) == "x\n" + rest
  {
    var layout := "x\n";
    var t := layout + rest;
    assert t[1..] == "\n" + rest && t[1..][1..] == rest;
    assert PlainTail(rest) == 0;
    assert PlainTail("\n" + rest) == 1;
    assert PieceEnd(t) == 2 && t[..2] == layout && t[2..] == rest;
    LfWithoutReturn(layout);
    ShortLiteral('\r');
  }

  lemma ShortLiteralEnd(c: char)
    requires c != '\''
    ensures PieceEnd(['\'', c, '\'']) == 3
  {
    var s := ['\'', c, '\''];
    assert s[1..] == [c, '\''] && s[1..][1..] == "'";
    assert LiteralTail("'") == 1 && LiteralTail([c, '\'']) == 2;
  }

  /** Lone carriage returns inside a line comment are the exception: the comment then ends earlier
      the second time, and what followed it is read as code. */
  lemma LoneReturnInComment()
    ensures var s := "--\r'\n" + "'\r'"; ToLf(ToLf(s)) != ToLf(s)
  {
    var rest := "'\n" + "'\r'";
    LoneOnce();
    ShortComment(rest);
    LoneRest();
    assert ("--\n" + rest)[3..] == rest && ("--\n" + ToLf(rest))[3..] == ToLf(rest);
    assert rest[3] == '\r' && ToLf(rest)[3] == '\n';
  }

  /** The first conversion sees a comment and a literal; the second a shorter comment, another literal,
      layout, and an open literal. */
  lemma LoneOnce()
    ensures ToLf("--\r'\n" + "'\r'") == "--\n" + ("'\n" + "'\r'")
  {
    LongComment("'\r'");
    ShortLiteral('\r');
    hide ToLf;
    assert "--\n'\n" == "--\n" + "'\n";
  }

  lemma LongComment(rest: string)
    ensures ToLf("--\r'\n" + rest) == "--\n'\n" + ToLf(rest)
  {
    var c := "--\r'\n";
    var s := c + rest;
    assert s[1..] == "-\r'\n" + rest && s[1..][1..] == "\r'\n" + rest && s[1..][1..][1..] == "'\n" + rest;
    assert s[1..][1..][1..][1..] == "\n" + rest;
    assert LineTail("\n" + rest) == 1;
    assert LineTail("'\n" + rest) == 2;
    assert LineTail("\r'\n" + rest) == 3;
    assert LineTail("-\r'\n" + rest) == 4;
    assert PieceEnd(s) == 5 && s[..5] == c && s[5..] == rest;
    LongCommentText();
  }

  lemma LongCommentText()
    ensures Lf("--\r'\n") == "--\n'\n"
  {
    LfWithoutReturn("'\n");
    assert "\r'\n"[1..] == "'\n" && "-\r'\n"[1..] == "\r'\n" && "--\r'\n"[1..] == "-\r'\n";
    assert Lf("\r'\n") == "\n'\n";
    assert Lf("-\r'\n") == "-\n'\n";
  }

  lemma ShortComment(rest: string)
    ensures ToLf("--\n" + rest) == "--\n" + ToLf(rest)
  {
    var c := "--\n";
    var s := c + rest;
    assert s[1..] == "-\n" + rest && s[1..][1..] == "\n" + rest;
    assert LineTail("\n" + rest) == 1;
    assert LineTail("-\n" + rest) == 2;
    assert PieceEnd(s) == 3 && s[..3] == c && s[3..] == rest;
    LfWithoutReturn(c);
  }

  lemma LoneRest()
    ensures ToLf("'\n" + "'\r'") == "'\n'\n'"
  {
    var s := "'\n" + "'\r'";
    assert s == "'\n'\r'";
    assert s[1..] == "\n'\r'" && s[1..][1..] == "'\r'";
    assert LiteralTail("'\r'") == 1 && LiteralTail("\n'\r'") == 2;
    assert PieceEnd(s) == 3 && s[..3] == "'\n'" && s[3..] == "\r'";
    OpenLiteral();
  }

  lemma OpenLiteral()
    ensures ToLf("\r'") == "\n'"
  {
    var t := "\r'";
    assert t[1..] == "'" && PlainTail("'") == 0 && PieceEnd(t) == 1 && t[..1] == "\r";
    assert Lf("\r") == "\n" by { assert "\r"[1..] == ""; }
    assert "'"[1..] == "" && PieceEnd("'") == 1 && "'"[..1] == "'";
    assert ToLf("'") == "'";
  }

  lemma ShortLiteral(c: char)
    requires c != '\''
    ensures ToLf(['\'', c, '\'']) == ['\'', c, '\'']
  {
    var s := ['\'', c, '\''];
    assert s[1..] == [c, '\''] && s[1..][1..] == "'";
    assert LiteralTail("'") == 1 && LiteralTail([c, '\'']) == 2;
    assert PieceEnd(s) == 3 && s[..3] == s && s[3..] == "";
  }

  // The loops, as written.

  /** `literalEnd`. */
  method LiteralEnd(sql: string) returns (end: nat)
    requires sql != "" && KindOf(sql) == Literal
    ensures end == PieceEnd(sql)
  {
    var i := 1;
    while i < |sql|
      invariant 1 <= i <= |sql| && i + LiteralTail(sql[i..]) == PieceEnd(sql)
    {
      if sql[i] != '\'' {
        i := i + 1;
        continue;
      }
      if i + 1 < |sql| && sql[i + 1] == '\'' {
        assert sql[i..][2..] == sql[i + 2..];
        i := i + 2;
        continue;
      }
      return i + 1;
    }
    end := |sql|;
  }

  /** `lineCommentEnd`. */
  method LineCommentEnd(sql: string) returns (end: nat)
    requires sql != "" && KindOf(sql) == LineComment
    ensures end == PieceEnd(sql)
  {
    var i := 1;
    while i < |sql| && sql[i] != '\n'
      invariant 1 <= i <= |sql| && i + LineTail(sql[i..]) == PieceEnd(sql)
    {
      i := i + 1;
    }
    end := if i < |sql| then i + 1 else |sql|;
  }

  /** `blockCommentEnd`: the search for the end starts at the comment's own slash, which cannot match. */
  method BlockCommentEnd(sql: string) returns (end: nat)
    requires sql != "" && KindOf(sql) == BlockComment
    ensures end == PieceEnd(sql)
  {
    var i := 0;
    TailStep(sql);
    while i + 1 < |sql| && !(sql[i] == '*' && sql[i + 1] == '/')
      invariant 0 <= i < |sql| && i + BlockTail(sql[i..]) == PieceEnd(sql)
    {
      assert sql[i..][1..] == sql[i + 1..];
      i := i + 1;
    }
    end := if i + 1 < |sql| then i + 2 else |sql|;
  }

  /** The default case of the scan. */
  method PlainEnd(sql: string) returns (end: nat)
    requires sql != "" && KindOf(sql) == Plain
    ensures end == PieceEnd(sql)
  {
    end := 1;
    while end < |sql| && !Opens(sql[end..])
      invariant 1 <= end <= |sql| && end + PlainTail(sql[end..]) == PieceEnd(sql)
    {
      assert sql[end..][1..] == sql[end + 1..];
      end := end + 1;
    }
  }

  /** The cases of the scan. */
  method EndOfPiece(sql: string) returns (end: nat)
    requires sql != ""
    ensures end == PieceEnd(sql)
  {
    hide PieceEnd;
    match KindOf(sql) {
      case Literal => end := LiteralEnd(sql);
      case LineComment => end := LineCommentEnd(sql);
      case BlockComment => end := BlockCommentEnd(sql);
      case Plain => end := PlainEnd(sql);
    }
  }

  /** `lineEndingsToLF`. */
  method LineEndingsToLF(sql: string) returns (out: string)
    ensures out == ToLf(sql)
  {
    hide PieceEnd, Fixed, KindOf, ToLf;
    if '\r' !in sql {
      NothingToDo(sql);
      return sql;
    }
    out := "";
    var i := 0;
    while i < |sql|
      invariant 0 <= i <= |sql| && out + ToLf(sql[i..]) == ToLf(sql)
    {
      var rest := sql[i..];
      var end := EndOfPiece(rest);
      ToLfStep(rest);
      var piece := if KindOf(rest) == Literal then rest[..end] else LfNewlines(rest[..end]);
      assert out + (piece + ToLf(rest[end..])) == (out + piece) + ToLf(rest[end..]);
      out := out + piece;
      assert rest[end..] == sql[i + end..];
      i := i + end;
    }
    assert sql[i..] == "" && ToLf("") == "" by { NothingToDo(""); }
  }

  lemma ToLfStep(s: string)
    requires s != ""
    ensures ToLf(s) == (if KindOf(s) == Literal then s[..PieceEnd(s)] else LfNewlines(s[..PieceEnd(s)]))
                       + ToLf(s[PieceEnd(s)..])
  {
    PieceIs(s);
  }

  lemma PieceIs(s: string)
    requires s != ""
    ensures Fixed(Piece(KindOf(s), s[..PieceEnd(s)])).text
         == if KindOf(s) == Literal then s[..PieceEnd(s)] else LfNewlines(s[..PieceEnd(s)])
  {
    OnePassIsTwo(s[..PieceEnd(s)]);
  }
}
