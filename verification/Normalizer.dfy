/** Whitespace normalization of text, after its Unicode NFKC step. */
module Normalizer {

  // ----- characters -----

  /** The characters that make up gaps. */
  predicate IsBlank(c: char) { c == '\n' || c == ' ' || c == '\t' }

  /** The zero-width and byte-order-mark characters that are removed. */
  predicate IsDropped(c: char) {
    c == '\U{200B}' || c == '\U{200C}' || c == '\U{200D}' || c == '\U{FEFF}' || c == '\U{2060}'
  }

  /** The Unicode property White_Space, by which `str::trim` goes. */
  predicate IsWhiteSpace(c: char) {
    || '\t' <= c <= '\r' || c == ' ' || c == '\U{0085}' || c == '\U{00A0}' || c == '\U{1680}'
    || '\U{2000}' <= c <= '\U{200A}' || c == '\U{2028}' || c == '\U{2029}' || c == '\U{202F}' || c == '\U{205F}' || c == '\U{3000}'
  }

  // ----- texts as gaps and visible characters -----

  /** A visible character and the gap before it. */
  datatype Piece = Piece(gap: string, ch: char)

  datatype Text = Text(pieces: seq<Piece>, tail: string)

  function Parse(s: string): Text {
    if s == [] then Text([], [])
    else
      WithChar(Parse(s[..|s| - 1]), s[|s| - 1])
  }

  function Spelled(pieces: seq<Piece>): string {
    if pieces == [] then []
    else
      var last := pieces[|pieces| - 1];
      Spelled(pieces[..|pieces| - 1]) + last.gap + [last.ch]
  }

  function Unparse(t: Text): string { Spelled(t.pieces) + t.tail }

  ghost predicate AllBlank(gap: string) { forall c :: c in gap ==> IsBlank(c) }

  ghost predicate IsText(t: Text) {
    && (forall p :: p in t.pieces ==> AllBlank(p.gap) && !IsBlank(p.ch))
    && AllBlank(t.tail)
  }

  /** Reading one more character: t becomes WithChar(t, c). */
  function WithChar(t: Text, c: char): Text {
    if IsBlank(c) then Text(t.pieces, t.tail + [c]) else Text(t.pieces + [Piece(t.tail, c)], [])
  }

  lemma WithCharAppends(t: Text, c: char)
    ensures Unparse(WithChar(t, c)) == Unparse(t) + [c]
    ensures IsText(t) ==> IsText(WithChar(t, c))
  {
    if IsBlank(c) {
      assert Spelled(t.pieces) + (t.tail + [c]) == Spelled(t.pieces) + t.tail + [c];
    } else {
      assert (t.pieces + [Piece(t.tail, c)])[..|t.pieces|] == t.pieces;
    }
  }

  lemma {:induction false} UnparseParse(s: string)
    ensures IsText(Parse(s)) && Unparse(Parse(s)) == s
  {
    hide IsText, Unparse;
    if s != [] {
      var front, c := s[..|s| - 1], s[|s| - 1];
      assert s == front + [c];
      UnparseParse(front);
      WithCharAppends(Parse(front), c);
    } else {
      EmptyText();
    }
  }

  lemma EmptyText()
    ensures IsText(Text([], [])) && Unparse(Text([], [])) == []
  {
  }

  /** Every text but the empty one ends in some character. */
  lemma LastChar(t: Text) returns (before: Text, c: char)
    requires IsText(t) && (t.pieces != [] || t.tail != [])
    ensures IsText(before) && t == WithChar(before, c)
    ensures |before.pieces| < |t.pieces| || (|before.pieces| == |t.pieces| && |before.tail| < |t.tail|)
  {
    if t.tail != [] {
      before, c := Text(t.pieces, t.tail[..|t.tail| - 1]), t.tail[|t.tail| - 1];
      assert t.tail == before.tail + [c] && c in t.tail;
    } else {
      var last := t.pieces[|t.pieces| - 1];
      before, c := Text(t.pieces[..|t.pieces| - 1], last.gap), last.ch;
      assert t.pieces == before.pieces + [last] && last in t.pieces;
    }
  }

  lemma {:induction false} ParseUnparse(t: Text)
    requires IsText(t)
    ensures Parse(Unparse(t)) == t
    decreases |t.pieces|, |t.tail|
  {
    hide IsText, Unparse;
    if t.pieces != [] || t.tail != [] {
      var before, c := LastChar(t);
      ParseUnparse(before);
      WithCharAppends(before, c);
      var s := Unparse(t);
      assert s[..|s| - 1] == Unparse(before);
    } else {
      EmptyText();
    }
  }

  // ----- what becomes of gaps -----

  function Newlines(gap: string): nat { multiset(gap)['\n'] }

  function LineBreaks(k: nat): string { if k == 0 then "" else if k == 1 then "\n" else "\n\n" }

  /** One blank line at most; without newlines, one space inside the text and nothing at its ends. */
  function TidyGap(gap: string, inner: bool): string {
    if Newlines(gap) > 0 then LineBreaks(Newlines(gap))
    else if gap != [] && inner then " "
    else ""
  }

  function TidyPieces(pieces: seq<Piece>): seq<Piece> {
    seq(|pieces|, i requires 0 <= i < |pieces| => Piece(TidyGap(pieces[i].gap, i > 0), pieces[i].ch))
  }

  function Tidy(t: Text): Text { Text(TidyPieces(t.pieces), TidyGap(t.tail, false)) }

  /** Every gap on its own, every visible character as it is. */
  function Collapsed(s: string): string { Unparse(Tidy(Parse(s))) }

  // ----- the streaming form -----

  /** Trims trailing spaces of the line, writes it and then `newlineCount` newlines. */
  method FlushLine(out: string, line: string, newlineCount: nat) returns (out': string, line': string)
    ensures line' == [] && out' == out + Stripped(line) + seq(newlineCount, _ => '\n')
  {
    line' := line;
    while line' != [] && line'[|line'| - 1] == ' '
      invariant Stripped(line') == Stripped(line)
    {
      line' := line'[..|line'| - 1];
    }
    out' := out;
    if line' != [] {
      out' := out' + line';
    }
    line' := [];
    for i := 0 to newlineCount
      invariant out' == out + Stripped(line) + seq(i, _ => '\n')
    {
      out' := out' + ['\n'];
    }
  }

  function Stripped(line: string): string {
    if line != [] && line[|line| - 1] == ' ' then Stripped(line[..|line| - 1]) else line
  }

  /** What the loop has in hand after reading a text t. */
  ghost predicate Streamed(t: Text, out: string, line: string, newlineRun: nat, prevWasSpace: bool) {
    && newlineRun == Newlines(t.tail)
    && (prevWasSpace <==> t.pieces != [] && t.tail != [] && newlineRun == 0)
    && (line == [] <==> t.pieces == [] || newlineRun > 0)
    && (prevWasSpace ==> line[|line| - 1] == ' ' && out + line == Spelled(TidyPieces(t.pieces)) + " ")
    && (!prevWasSpace ==> out + line == Spelled(TidyPieces(t.pieces)))
    && Stripped(line) == (if prevWasSpace then line[..|line| - 1] else line)
  }

  method CollapseWhitespace(s: string) returns (out: string)
    ensures out == Collapsed(s)
  {
    hide Streamed, Spelled, TidyPieces, TidyGap, Stripped, Newlines;
    out := "";
    var prevWasSpace := false;
    var newlineRun: nat := 0;
    var lineBuf := "";
    StreamStart();
    for i := 0 to |s|
      invariant Streamed(Parse(s[..i]), out, lineBuf, newlineRun, prevWasSpace)
    {
      var ch := s[i];
      ghost var t := Parse(s[..i]);
      assert s[..i + 1][..i] == s[..i];
      if ch == '\n' {
        StreamNewline(t, out, lineBuf, newlineRun, prevWasSpace);
        out, lineBuf := FlushLine(out, lineBuf, 0);
        newlineRun := newlineRun + 1;
        prevWasSpace := false;
      } else if ch == ' ' || ch == '\t' {
        StreamBlank(t, out, lineBuf, newlineRun, prevWasSpace, ch);
        if !prevWasSpace && lineBuf != [] {
          lineBuf := lineBuf + [' '];
          prevWasSpace := true;
        }
      } else {
        StreamVisible(t, out, lineBuf, newlineRun, prevWasSpace, ch);
        if newlineRun > 0 {
          var n := if newlineRun >= 3 then 2 else newlineRun;
          out := PushNewlines(out, n);
          newlineRun := 0;
        }
        prevWasSpace := false;
        lineBuf := lineBuf + [ch];
      }
    }
    assert s[..|s|] == s;
    StreamEnd(Parse(s), out, lineBuf, newlineRun, prevWasSpace);
    if newlineRun > 0 {
      var n := if newlineRun >= 3 then 2 else newlineRun;
      out, lineBuf := FlushLine(out, lineBuf, n);
    } else {
      out, lineBuf := FlushLine(out, lineBuf, 0);
    }
  }

  method PushNewlines(out: string, n: nat) returns (out': string)
    ensures out' == out + seq(n, _ => '\n')
  {
    out' := out;
    for k := 0 to n
      invariant out' == out + seq(k, _ => '\n')
    {
      out' := out' + ['\n'];
    }
  }

  lemma StreamStart()
    ensures Streamed(Parse([]), "", "", 0, false)
  {
  }

  lemma StreamedStripped(t: Text, out: string, line: string, newlineRun: nat, prevWasSpace: bool)
    requires Streamed(t, out, line, newlineRun, prevWasSpace)
    ensures out + Stripped(line) == Spelled(TidyPieces(t.pieces))
  {
    if prevWasSpace {
      var tidy := Spelled(TidyPieces(t.pieces));
      assert (out + line)[..|out + line| - 1] == out + line[..|line| - 1];
      assert (tidy + " ")[..|tidy|] == tidy;
    }
  }

  lemma StreamNewline(t: Text, out: string, line: string, newlineRun: nat, prevWasSpace: bool)
    requires Streamed(t, out, line, newlineRun, prevWasSpace)
    ensures Streamed(Text(t.pieces, t.tail + ['\n']), out + Stripped(line) + seq(0, _ => '\n'), [], newlineRun + 1, false)
  {
    StreamedStripped(t, out, line, newlineRun, prevWasSpace);
    assert out + Stripped(line) + seq(0, _ => '\n') == Spelled(TidyPieces(t.pieces));
  }

  lemma StreamBlank(t: Text, out: string, line: string, newlineRun: nat, prevWasSpace: bool, c: char)
    requires Streamed(t, out, line, newlineRun, prevWasSpace) && (c == ' ' || c == '\t')
    ensures if !prevWasSpace && line != []
            then Streamed(Text(t.pieces, t.tail + [c]), out, line + [' '], newlineRun, true)
            else Streamed(Text(t.pieces, t.tail + [c]), out, line, newlineRun, prevWasSpace)
  {
    hide TidyPieces, Spelled;
    if !prevWasSpace && line != [] {
      assert out + (line + [' ']) == out + line + [' '];
      assert (line + [' '])[..|line|] == line;
    }
  }

  lemma StreamVisible(t: Text, out: string, line: string, newlineRun: nat, prevWasSpace: bool, c: char)
    requires Streamed(t, out, line, newlineRun, prevWasSpace) && !IsBlank(c)
    ensures var n := if newlineRun >= 3 then 2 else newlineRun;
            var out' := if newlineRun > 0 then out + seq(n, _ => '\n') else out;
            Streamed(Text(t.pieces + [Piece(t.tail, c)], []), out', line + [c], 0, false)
  {
    TidySnoc(t.pieces, Piece(t.tail, c));
    hide TidyPieces, Spelled;
    var tidy := Spelled(TidyPieces(t.pieces));
    if newlineRun > 0 {
      var n := if newlineRun >= 3 then 2 else newlineRun;
      assert LineBreaks(newlineRun) == seq(n, _ => '\n');
      assert out + seq(n, _ => '\n') + [c] == tidy + TidyGap(t.tail, t.pieces != []) + [c];
    } else {
      assert out + (line + [c]) == out + line + [c];
      assert out + line == tidy + TidyGap(t.tail, t.pieces != []);
    }
  }

  lemma StreamEnd(t: Text, out: string, line: string, newlineRun: nat, prevWasSpace: bool)
    requires Streamed(t, out, line, newlineRun, prevWasSpace)
    ensures var n := if newlineRun >= 3 then 2 else newlineRun;
            out + Stripped(line) + seq(n, _ => '\n') == Unparse(Tidy(t))
  {
    var n := if newlineRun >= 3 then 2 else newlineRun;
    StreamedStripped(t, out, line, newlineRun, prevWasSpace);
    assert TidyGap(t.tail, false) == seq(n, _ => '\n');
  }

  lemma TidySnoc(pieces: seq<Piece>, p: Piece)
    ensures TidyPieces(pieces + [p]) == TidyPieces(pieces) + [Piece(TidyGap(p.gap, pieces != []), p.ch)]
    ensures Spelled(TidyPieces(pieces + [p])) == Spelled(TidyPieces(pieces)) + TidyGap(p.gap, pieces != []) + [p.ch]
  {
    var tidy := TidyPieces(pieces + [p]);
    assert tidy == TidyPieces(pieces) + [Piece(TidyGap(p.gap, pieces != []), p.ch)];
    assert tidy[..|tidy| - 1] == TidyPieces(pieces);
  }

  // ----- clean texts -----

  /** No tab; a space only after a visible character; a newline neither after a space nor after two newlines. */
  predicate CleanAt(s: string, i: nat)
    requires i < |s|
  {
    && s[i] != '\t'
    && (s[i] == ' ' ==> i > 0 && !IsBlank(s[i - 1]))
    && (s[i] == '\n' ==> !(i > 0 && s[i - 1] == ' ') && !(i > 1 && s[i - 1] == '\n' && s[i - 2] == '\n'))
  }

  ghost predicate CleanSoFar(s: string) { forall i :: 0 <= i < |s| ==> CleanAt(s, i) }

  /** No tab, no double, leading or trailing space, no space beside a newline, no three newlines in a row. */
  ghost predicate Clean(s: string) { CleanSoFar(s) && (s != [] ==> s[|s| - 1] != ' ') }

  ghost predicate TidySoFar(t: Text) {
    TidyPieces(t.pieces) == t.pieces && TidyGap(t.tail, t.pieces != []) == t.tail
  }

  lemma CleanSnoc(s: string, c: char)
    ensures CleanSoFar(s + [c]) <==> CleanSoFar(s) && CleanAt(s + [c], |s|)
  {
    forall i | 0 <= i < |s| ensures CleanAt(s + [c], i) <==> CleanAt(s, i) {
    }
  }

  /** The parse of s ends the way s does. */
  ghost predicate EndsAlike(t: Text, s: string) {
    && (t.pieces == [] ==> s == t.tail)
    && (t.pieces != [] ==> |s| > |t.tail| && !IsBlank(s[|s| - |t.tail| - 1]) && s[|s| - |t.tail|..] == t.tail)
  }

  lemma {:induction false} ParseEnd(s: string)
    ensures EndsAlike(Parse(s), s) && AllBlank(Parse(s).tail)
  {
    if s != [] {
      hide EndsAlike;
      var front, c := s[..|s| - 1], s[|s| - 1];
      assert s == front + [c];
      ParseEnd(front);
      EndSnoc(Parse(front), front, c);
    } else {
      assert EndsAlike(Text([], []), []);
    }
  }

  lemma EndSnoc(t: Text, s: string, c: char)
    requires EndsAlike(t, s) && AllBlank(t.tail)
    ensures EndsAlike(WithChar(t, c), s + [c]) && AllBlank(WithChar(t, c).tail)
  {
    var s', u := s + [c], WithChar(t, c);
    if IsBlank(c) && t.pieces != [] {
      assert s'[|s'| - |u.tail|..] == s[|s| - |t.tail|..] + [c];
    }
  }

  /** A blank at the end is clean by the two characters before it. */
  lemma CleanBlank(s: string, c: char)
    requires IsBlank(c)
    ensures CleanAt(s + [c], |s|) <==>
              && c != '\t'
              && (c == ' ' ==> s != [] && !IsBlank(s[|s| - 1]))
              && (c == '\n' ==> !(s != [] && s[|s| - 1] == ' ') && !(|s| > 1 && s[|s| - 1] == '\n' && s[|s| - 2] == '\n'))
  {
    var s' := s + [c];
    assert s'[|s|] == c;
    if s != [] {
      assert s'[|s| - 1] == s[|s| - 1];
    }
    if |s| > 1 {
      assert s'[|s| - 2] == s[|s| - 2];
    }
  }

  lemma TailSnocNone(t: Text, s: string, c: char)
    requires EndsAlike(t, s) && t.tail == [] && IsBlank(c)
    ensures CleanAt(s + [c], |s|) <==> TidyGap([c], t.pieces != []) == [c]
  {
    hide TidyGap, CleanAt;
    CleanBlank(s, c);
    TidyGapShort([c], t.pieces != []);
  }

  lemma TailSnocOne(t: Text, s: string, c: char)
    requires s != [] && EndsAlike(t, s) && t.tail == [s[|s| - 1]] && IsBlank(c)
    requires s[|s| - 1] == ' ' || s[|s| - 1] == '\n'
    ensures CleanAt(s + [c], |s|) <==> TidyGap(t.tail + [c], t.pieces != []) == t.tail + [c]
  {
    hide TidyGap, CleanAt;
    CleanBlank(s, c);
    assert t.tail + [c] == [s[|s| - 1], c];
    TidyGapShort([s[|s| - 1], c], t.pieces != []);
  }

  lemma TailSnocTwo(t: Text, s: string, c: char)
    requires |s| > 1 && s[|s| - 1] == '\n' && s[|s| - 2] == '\n' && t.tail == "\n\n" && IsBlank(c)
    ensures CleanAt(s + [c], |s|) <==> TidyGap(t.tail + [c], t.pieces != []) == t.tail + [c]
  {
    hide TidyGap, CleanAt;
    CleanBlank(s, c);
    assert |t.tail + [c]| == 3;
    TidyGapShort(t.tail + [c], t.pieces != []);
  }

  /** Appending a blank keeps a tidy tail tidy exactly when it keeps a clean text clean. */
  lemma TailSnoc(t: Text, s: string, c: char)
    requires EndsAlike(t, s) && AllBlank(t.tail) && IsBlank(c)
    requires TidyGap(t.tail, t.pieces != []) == t.tail
    ensures CleanAt(s + [c], |s|) <==> TidyGap(t.tail + [c], t.pieces != []) == t.tail + [c]
  {
    hide TidyGap, CleanAt, IsBlank, AllBlank;
    TidyGapShort(t.tail, t.pieces != []);
    if |t.tail| == 0 {
      assert t.tail + [c] == [c];
      TailSnocNone(t, s, c);
    } else {
      assert s[|s| - 1] == t.tail[|t.tail| - 1];
      if |t.tail| == 1 {
        assert t.tail == [t.tail[0]];
        TailSnocOne(t, s, c);
      } else {
        assert s[|s| - 2] == t.tail[0];
        TailSnocTwo(t, s, c);
      }
    }
  }

  /** The tidy gaps. */
  lemma TidyGapShort(gap: string, inner: bool)
    ensures TidyGap(gap, inner) == gap <==> gap == "" || (inner && gap == " ") || gap == "\n" || gap == "\n\n"
  {
  }

  lemma TidyGapBroken(gap: string, inner: bool, c: char)
    requires AllBlank(gap) && TidyGap(gap, inner) != gap
    ensures TidyGap(gap + [c], inner) != gap + [c]
  {
    TidyGapShort(gap, inner);
    TidyGapShort(gap + [c], inner);
    assert gap == (gap + [c])[..|gap|];
  }

  lemma EmptyIsClean()
    ensures CleanSoFar([]) && TidySoFar(Text([], []))
  {
  }

  lemma VisibleIsClean(s: string, c: char)
    requires !IsBlank(c)
    ensures CleanAt(s + [c], |s|)
  {
  }

  lemma TidyPiecesSnoc(pieces: seq<Piece>, p: Piece)
    ensures TidyPieces(pieces + [p]) == pieces + [p] <==> TidyPieces(pieces) == pieces && TidyGap(p.gap, pieces != []) == p.gap
    ensures TidyGap([], true) == []
  {
    var q := Piece(TidyGap(p.gap, pieces != []), p.ch);
    TidySnoc(pieces, p);
    if TidyPieces(pieces + [p]) == pieces + [p] {
      assert (TidyPieces(pieces) + [q])[..|pieces|] == TidyPieces(pieces);
      assert (pieces + [p])[..|pieces|] == pieces;
      assert (TidyPieces(pieces) + [q])[|pieces|] == q;
    }
  }

  lemma {:induction false} CleanIsTidySoFar(s: string)
    ensures CleanSoFar(s) <==> TidySoFar(Parse(s))
  {
    hide TidyGap, TidyPieces, EndsAlike, CleanSoFar, CleanAt;
    if s != [] {
      var front, c := s[..|s| - 1], s[|s| - 1];
      var t := Parse(front);
      assert s == front + [c];
      CleanIsTidySoFar(front);
      CleanSnoc(front, c);
      ParseEnd(front);
      if IsBlank(c) {
        if TidySoFar(t) {
          TailSnoc(t, front, c);
        } else if TidyGap(t.tail, t.pieces != []) != t.tail {
          TidyGapBroken(t.tail, t.pieces != [], c);
        }
      } else {
        VisibleIsClean(front, c);
        TidyPiecesSnoc(t.pieces, Piece(t.tail, c));
      }
    } else {
      EmptyIsClean();
    }
  }

  lemma TidyGapAgain(gap: string, inner: bool)
    ensures AllBlank(TidyGap(gap, inner)) && TidyGap(TidyGap(gap, inner), inner) == TidyGap(gap, inner)
  {
    TidyGapShort(TidyGap(gap, inner), inner);
  }

  lemma TidyPiecesAgain(pieces: seq<Piece>)
    requires forall p :: p in pieces ==> !IsBlank(p.ch)
    ensures TidyPieces(TidyPieces(pieces)) == TidyPieces(pieces)
    ensures forall p :: p in TidyPieces(pieces) ==> AllBlank(p.gap) && !IsBlank(p.ch)
  {
    hide TidyGap, IsBlank, AllBlank;
    forall i | 0 <= i < |pieces|
      ensures !IsBlank(pieces[i].ch) && AllBlank(TidyPieces(pieces)[i].gap)
              && TidyPieces(TidyPieces(pieces))[i] == TidyPieces(pieces)[i]
    {
      assert pieces[i] in pieces;
      TidyGapAgain(pieces[i].gap, i > 0);
    }
  }

  lemma TidyIsText(t: Text)
    requires IsText(t)
    ensures IsText(Tidy(t)) && Tidy(Tidy(t)) == Tidy(t)
  {
    TidyGapAgain(t.tail, false);
    TidyPiecesAgain(t.pieces);
  }

  lemma ParseCollapsed(s: string)
    ensures Parse(Collapsed(s)) == Tidy(Parse(s))
  {
    UnparseParse(s);
    TidyIsText(Parse(s));
    ParseUnparse(Tidy(Parse(s)));
  }

  lemma FixedIffTidy(s: string)
    ensures Collapsed(s) == s <==> Tidy(Parse(s)) == Parse(s)
  {
    hide Parse, Tidy, Unparse;
    UnparseParse(s);
    ParseCollapsed(s);
  }

  /** A text that is tidy so far is tidy unless it ends in a space. */
  lemma TidyIffNoSpaceAtEnd(t: Text, s: string)
    requires EndsAlike(t, s)
    ensures Tidy(t) == t <==> TidySoFar(t) && (s != [] ==> s[|s| - 1] != ' ')
  {
    hide TidyGap, TidyPieces;
    TidyGapShort(t.tail, t.pieces != []);
    TidyGapShort(t.tail, false);
    if t.tail != [] {
      assert s[|s| - 1] == t.tail[|t.tail| - 1];
    }
  }

  /** Collapsing leaves exactly the clean texts alone. */
  lemma FixedIffClean(s: string)
    ensures Collapsed(s) == s <==> Clean(s)
  {
    hide Parse, Tidy, TidySoFar, CleanSoFar, Collapsed, EndsAlike;
    FixedIffTidy(s);
    CleanIsTidySoFar(s);
    ParseEnd(s);
    TidyIffNoSpaceAtEnd(Parse(s), s);
  }

  /** The result of collapsing is clean. */
  lemma CollapsedIsClean(s: string)
    ensures Clean(Collapsed(s)) && Collapsed(Collapsed(s)) == Collapsed(s)
  {
    UnparseParse(s);
    TidyIsText(Parse(s));
    ParseCollapsed(s);
    FixedIffClean(Collapsed(s));
  }

  /** Gaps that are worth the same: as many newlines up to two, and without newlines both or neither empty. */
  ghost predicate SameGap(g: string, h: string, inner: bool) {
    && (Newlines(g) == Newlines(h) || (Newlines(g) >= 2 && Newlines(h) >= 2))
    && (Newlines(g) == 0 && inner ==> (g == [] <==> h == []))
  }

  lemma SameGapIsSameTidyGap(g: string, h: string, inner: bool)
    ensures SameGap(g, h, inner) <==> TidyGap(g, inner) == TidyGap(h, inner)
  {
  }

  /** Two texts collapse alike exactly when they have the same visible characters with gaps worth the same between them. */
  lemma CollapseAlike(s: string, s': string)
    ensures Collapsed(s) == Collapsed(s') <==>
              var t, t' := Parse(s), Parse(s');
              && |t.pieces| == |t'.pieces| && SameGap(t.tail, t'.tail, false)
              && forall i :: 0 <= i < |t.pieces| ==> t.pieces[i].ch == t'.pieces[i].ch && SameGap(t.pieces[i].gap, t'.pieces[i].gap, i > 0)
  {
    hide Parse, TidyGap, SameGap, Newlines;
    var t, t' := Parse(s), Parse(s');
    ParseCollapsed(s);
    ParseCollapsed(s');
    assert Collapsed(s) == Collapsed(s') <==> Tidy(t) == Tidy(t');
    SameGapIsSameTidyGap(t.tail, t'.tail, false);
    if |t.pieces| == |t'.pieces| {
      forall i | 0 <= i < |t.pieces|
        ensures TidyPieces(t.pieces)[i] == TidyPieces(t'.pieces)[i]
                <==> t.pieces[i].ch == t'.pieces[i].ch && SameGap(t.pieces[i].gap, t'.pieces[i].gap, i > 0)
      {
        SameGapIsSameTidyGap(t.pieces[i].gap, t'.pieces[i].gap, i > 0);
      }
    }
  }

  // ----- what is kept -----

  function Filter(keep: char -> bool, s: string): string {
    if s == [] then []
    else Filter(keep, s[..|s| - 1]) + (if keep(s[|s| - 1]) then [s[|s| - 1]] else [])
  }

  lemma {:induction false} FilterConcat(keep: char -> bool, a: string, b: string)
    ensures Filter(keep, a + b) == Filter(keep, a) + Filter(keep, b)
  {
    if b == [] {
      assert a + b == a;
    } else {
      assert (a + b)[..|a + b| - 1] == a + b[..|b| - 1];
      FilterConcat(keep, a, b[..|b| - 1]);
    }
  }

  lemma {:induction false} FilterNone(keep: char -> bool, s: string)
    requires forall c :: c in s ==> !keep(c)
    ensures Filter(keep, s) == []
  {
    if s != [] {
      FilterNone(keep, s[..|s| - 1]);
    }
  }

  lemma {:induction false} PiecesKeep(keep: char -> bool, pieces: seq<Piece>)
    requires forall c :: IsBlank(c) ==> !keep(c)
    requires forall p :: p in pieces ==> AllBlank(p.gap)
    ensures Filter(keep, Spelled(TidyPieces(pieces))) == Filter(keep, Spelled(pieces))
  {
    if pieces == [] {
      assert TidyPieces(pieces) == [];
    } else {
      hide Filter, Spelled, TidyPieces, TidyGap, AllBlank;
      var front, last := pieces[..|pieces| - 1], pieces[|pieces| - 1];
      assert pieces == front + [last] && last in pieces;
      PiecesKeep(keep, front);
      TidyGapAgain(last.gap, front != []);
      calc {
        Filter(keep, Spelled(TidyPieces(pieces)));
        { TidySnoc(front, last); }
        Filter(keep, Spelled(TidyPieces(front)) + TidyGap(last.gap, front != []) + [last.ch]);
        { KeepPiece(keep, Spelled(TidyPieces(front)), TidyGap(last.gap, front != []), last.ch); }
        Filter(keep, Spelled(TidyPieces(front))) + Filter(keep, [last.ch]);
        Filter(keep, Spelled(front)) + Filter(keep, [last.ch]);
        { KeepPiece(keep, Spelled(front), last.gap, last.ch); }
        Filter(keep, Spelled(front) + last.gap + [last.ch]);
        { SpelledSnoc(front, last); }
        Filter(keep, Spelled(pieces));
      }
    }
  }

  lemma SpelledSnoc(pieces: seq<Piece>, p: Piece)
    ensures Spelled(pieces + [p]) == Spelled(pieces) + p.gap + [p.ch]
  {
    assert (pieces + [p])[..|pieces|] == pieces;
  }

  lemma KeepPiece(keep: char -> bool, text: string, gap: string, c: char)
    requires forall c :: IsBlank(c) ==> !keep(c)
    requires AllBlank(gap)
    ensures Filter(keep, text + gap + [c]) == Filter(keep, text) + Filter(keep, [c])
  {
    FilterNone(keep, gap);
    FilterConcat(keep, text, gap);
    FilterConcat(keep, text + gap, [c]);
  }

  /** Collapsing keeps all other characters, in order. */
  lemma CollapseKeeps(keep: char -> bool, s: string)
    requires forall c :: IsBlank(c) ==> !keep(c)
    ensures Filter(keep, Collapsed(s)) == Filter(keep, s)
  {
    hide Filter, Spelled, TidyPieces, Parse;
    var t := Parse(s);
    UnparseParse(s);
    PiecesKeep(keep, t.pieces);
    TidyGapAgain(t.tail, false);
    hide TidyGap, IsBlank;
    FilterNone(keep, t.tail);
    FilterNone(keep, TidyGap(t.tail, false));
    FilterConcat(keep, Spelled(t.pieces), t.tail);
    FilterConcat(keep, Spelled(TidyPieces(t.pieces)), TidyGap(t.tail, false));
  }

  // ----- the whole of normalization -----

  /** CR becomes LF, a non-breaking space a space, zero-width characters nothing. */
  function MappedChar(c: char): string {
    if c == '\r' then "\n"
    else if c == '\U{00A0}' then " "
    else if IsDropped(c) then ""
    else [c]
  }

  function Mapped(s: string): string {
    if s == [] then [] else Mapped(s[..|s| - 1]) + MappedChar(s[|s| - 1])
  }

  function TrimStart(s: string): string {
    if s != [] && IsWhiteSpace(s[0]) then TrimStart(s[1..]) else s
  }

  function TrimEnd(s: string): string {
    if s != [] && IsWhiteSpace(s[|s| - 1]) then TrimEnd(s[..|s| - 1]) else s
  }

  function Trim(s: string): string { TrimEnd(TrimStart(s)) }

  function Normalized(s: string): string { Trim(Collapsed(Mapped(s))) }

  /** `nfkc` is the input in normalization form KC. */
  method Normalize(nfkc: string) returns (text: string)
    ensures text == Normalized(nfkc)
  {
    var mapped := "";
    for i := 0 to |nfkc|
      invariant mapped == Mapped(nfkc[..i])
    {
      var ch := nfkc[i];
      assert nfkc[..i + 1][..i] == nfkc[..i];
      if ch == '\r' {
        mapped := mapped + ['\n'];
      } else if ch == '\U{00A0}' {
        mapped := mapped + [' '];
      } else if IsDropped(ch) {
      } else {
        mapped := mapped + [ch];
      }
    }
    assert nfkc[..|nfkc|] == nfkc;
    var collapsed := CollapseWhitespace(mapped);
    text := Trim(collapsed);
  }

  /** Characters that the mapping leaves as they are. */
  predicate IsPlain(c: char) { c != '\r' && c != '\U{00A0}' && !IsDropped(c) }

  ghost predicate EndsSolid(s: string) { s != [] ==> !IsWhiteSpace(s[0]) && !IsWhiteSpace(s[|s| - 1]) }

  /** The texts that normalization is meant to produce. */
  ghost predicate IsNormal(s: string) { Clean(s) && EndsSolid(s) && forall c :: c in s ==> IsPlain(c) }

  lemma {:induction false} MappedIsPlain(s: string)
    ensures forall c :: c in Mapped(s) ==> IsPlain(c)
    ensures (forall c :: c in s ==> IsPlain(c)) ==> Mapped(s) == s
  {
    if s != [] {
      hide MappedChar, IsPlain;
      var front, c := s[..|s| - 1], s[|s| - 1];
      assert s == front + [c];
      MappedIsPlain(front);
      MappedCharIsPlain(c);
      assert c in s && forall x :: x in front ==> x in s;
    }
  }

  lemma MappedCharIsPlain(c: char)
    ensures forall x :: x in MappedChar(c) ==> IsPlain(x)
    ensures IsPlain(c) ==> MappedChar(c) == [c]
  {
  }

  lemma {:induction false} TrimStartSuffix(s: string) returns (i: nat)
    ensures i <= |s| && TrimStart(s) == s[i..] && (forall c :: c in s[..i] ==> IsWhiteSpace(c))
    ensures i < |s| ==> !IsWhiteSpace(s[i])
  {
    hide IsWhiteSpace;
    i := 0;
    if s != [] && IsWhiteSpace(s[0]) {
      var rest := s[1..];
      var j := TrimStartSuffix(rest);
      i := j + 1;
      assert s[i..] == rest[j..];
      assert s[..i] == [s[0]] + rest[..j];
      assert j < |rest| ==> s[i] == rest[j];
    }
  }

  lemma {:induction false} TrimEndPrefix(s: string) returns (j: nat)
    ensures j <= |s| && TrimEnd(s) == s[..j] && (forall c :: c in s[j..] ==> IsWhiteSpace(c))
    ensures j > 0 ==> !IsWhiteSpace(s[j - 1])
  {
    hide IsWhiteSpace;
    j := |s|;
    if s != [] && IsWhiteSpace(s[|s| - 1]) {
      var front := s[..|s| - 1];
      j := TrimEndPrefix(front);
      assert s[..j] == front[..j];
      assert s[j..] == front[j..] + [s[|s| - 1]];
      assert j > 0 ==> s[j - 1] == front[j - 1];
    }
  }

  /** Trimming cuts white space off both ends, all of it. */
  lemma TrimParts(s: string) returns (i: nat, j: nat)
    ensures i <= j <= |s| && Trim(s) == s[i..j] && EndsSolid(Trim(s))
    ensures (forall c :: c in s[..i] ==> IsWhiteSpace(c)) && (forall c :: c in s[j..] ==> IsWhiteSpace(c))
  {
    i := TrimStartSuffix(s);
    var k := TrimEndPrefix(s[i..]);
    j := i + k;
    assert s[j..] == s[i..][k..];
  }

  lemma CleanPart(s: string, i: nat, j: nat)
    requires Clean(s) && i <= j <= |s| && EndsSolid(s[i..j])
    ensures Clean(s[i..j])
  {
    var t := s[i..j];
    forall k | 0 <= k < |t| ensures CleanAt(t, k) {
      assert CleanAt(s, i + k);
    }
  }

  /** Normalization produces normal texts. */
  lemma NormalizedIsNormal(s: string)
    ensures IsNormal(Normalized(s))
  {
    assert IsPlain(' ') && IsPlain('\n');
    hide Mapped, Collapsed, Clean, EndsSolid, IsPlain, IsWhiteSpace, Trim;
    var mapped := Mapped(s);
    var collapsed := Collapsed(mapped);
    MappedIsPlain(s);
    CollapsedIsClean(mapped);
    var i, j := TrimParts(collapsed);
    CleanPart(collapsed, i, j);
    forall c | c in Normalized(s) ensures IsPlain(c) {
      assert c in collapsed;
      CollapsedChars(mapped, c);
    }
  }

  /** Collapsing brings in no character other than a space or a newline. */
  lemma CollapsedChars(s: string, c: char)
    requires c in Collapsed(s)
    ensures c in s || c == ' ' || c == '\n'
  {
    if c != ' ' && c != '\n' {
      CollapsedIsClean(s);
      var k :| 0 <= k < |Collapsed(s)| && Collapsed(s)[k] == c;
      assert CleanAt(Collapsed(s), k);
      var only := (x: char) => x == c;
      CollapseKeeps(only, s);
      FilterSome(only, Collapsed(s), c);
      FilterSome(only, s, c);
    }
  }

  lemma {:induction false} FilterSome(keep: char -> bool, s: string, c: char)
    requires keep(c)
    ensures c in Filter(keep, s) <==> c in s
  {
    if s != [] {
      assert s == s[..|s| - 1] + [s[|s| - 1]];
      FilterSome(keep, s[..|s| - 1], c);
    }
  }

  /** It leaves exactly the normal texts alone. */
  lemma NormalizedFixedPoints(s: string)
    ensures Normalized(s) == s <==> IsNormal(s)
  {
    if IsNormal(s) {
      MappedIsPlain(s);
      FixedIffClean(s);
      assert TrimStart(s) == s && TrimEnd(s) == s;
    }
    NormalizedIsNormal(s);
  }

  lemma NormalizedIdempotent(s: string)
    ensures Normalized(Normalized(s)) == Normalized(s)
  {
    NormalizedIsNormal(s);
    NormalizedFixedPoints(Normalized(s));
  }

  /** Characters that carry text. */
  predicate IsSolid(c: char) { !IsWhiteSpace(c) && !IsDropped(c) }

  lemma MappedCharKeeps(c: char)
    ensures Filter(IsSolid, MappedChar(c)) == Filter(IsSolid, [c])
  {
    assert IsSolid('\n') == IsSolid('\r') == IsSolid(' ') == IsSolid('\U{00A0}') == false;
    FilterOne('\n');
    FilterOne(' ');
    FilterOne(c);
  }

  lemma FilterOne(c: char)
    ensures Filter(IsSolid, [c]) == if IsSolid(c) then [c] else []
  {
    assert [c][..0] == [];
    assert Filter(IsSolid, []) == [];
  }

  lemma {:induction false} MappedKeeps(s: string)
    ensures Filter(IsSolid, Mapped(s)) == Filter(IsSolid, s)
  {
    hide Filter, IsSolid, MappedChar;
    if s != [] {
      var front, c := s[..|s| - 1], s[|s| - 1];
      assert s == front + [c];
      MappedKeeps(front);
      MappedCharKeeps(c);
      FilterConcat(IsSolid, Mapped(front), MappedChar(c));
      FilterConcat(IsSolid, front, [c]);
    }
  }

  lemma TrimKeeps(s: string)
    ensures Filter(IsSolid, Trim(s)) == Filter(IsSolid, s)
  {
    hide Filter, Trim, EndsSolid, IsWhiteSpace;
    var i, j := TrimParts(s);
    assert s == s[..i] + s[i..j] + s[j..];
    FilterConcat(IsSolid, s[..i] + s[i..j], s[j..]);
    FilterConcat(IsSolid, s[..i], s[i..j]);
    FilterNone(IsSolid, s[..i]);
    FilterNone(IsSolid, s[j..]);
  }

  /** All characters that carry text are kept, in order. */
  lemma NormalizedKeepsText(s: string)
    ensures Filter(IsSolid, Normalized(s)) == Filter(IsSolid, s)
  {
    hide Filter, Mapped, Collapsed, Trim;
    MappedKeeps(s);
    CollapseKeeps(IsSolid, Mapped(s));
    TrimKeeps(Collapsed(Mapped(s)));
  }

  lemma {:induction false} FilterFilter(p: char -> bool, q: char -> bool, s: string)
    requires forall c :: p(c) ==> q(c)
    ensures Filter(p, Filter(q, s)) == Filter(p, s)
  {
    if s != [] {
      var front, c := s[..|s| - 1], s[|s| - 1];
      FilterFilter(p, q, front);
      FilterConcat(p, Filter(q, front), if q(c) then [c] else []);
      FilterSingle(p, c);
    }
  }

  lemma FilterSingle(p: char -> bool, c: char)
    ensures Filter(p, [c]) == (if p(c) then [c] else []) && Filter(p, []) == []
  {
    assert [c][..0] == [];
  }

  /** Printable ASCII characters other than the space, and whatever comes after the ideographic space but for U+FEFF. */
  predicate IsOrdinary(c: char) { '!' <= c <= '~' || (c > '\U{3000}' && c != '\U{FEFF}') }

  /** They survive, all of them and in order. */
  lemma OrdinarySurvives(s: string)
    ensures Filter(IsOrdinary, Normalized(s)) == Filter(IsOrdinary, s)
  {
    hide Normalized, Filter;
    NormalizedKeepsText(s);
    FilterFilter(IsOrdinary, IsSolid, Normalized(s));
    FilterFilter(IsOrdinary, IsSolid, s);
  }

  /** What never occurs in a result, and not at its ends. */
  lemma NeverOccurs(s: string, i: nat)
    requires i < |Normalized(s)|
    ensures Normalized(s)[i] !in {'\U{200B}', '\U{200C}', '\U{200D}', '\U{FEFF}', '\U{2060}', '\U{00A0}', '\r', '\t'}
    ensures i == 0 || i == |Normalized(s)| - 1 ==>
              && Normalized(s)[i] !in {' ', '\n', '\U{0085}', '\U{1680}', '\U{2028}', '\U{2029}', '\U{202F}', '\U{205F}', '\U{3000}'}
              && !('\U{2000}' <= Normalized(s)[i] <= '\U{200A}') && !('\t' <= Normalized(s)[i] <= '\r')
  {
    hide Normalized;
    NormalizedIsNormal(s);
    assert CleanAt(Normalized(s), i) && Normalized(s)[i] in Normalized(s);
  }

  // ----- line endings -----

  lemma {:induction false} MappedConcat(a: string, b: string)
    ensures Mapped(a + b) == Mapped(a) + Mapped(b)
  {
    if b == [] {
      assert a + b == a;
    } else {
      assert (a + b)[..|a + b| - 1] == a + b[..|b| - 1];
      MappedConcat(a, b[..|b| - 1]);
    }
  }

  lemma MappedLineEnds()
    ensures Mapped("\r\n") == Mapped("\n\n")
  {
    assert "\r\n"[..1] == "\r" && "\n\n"[..1] == "\n";
    assert "\r"[..0] == "\n"[..0];
  }

  /** CR LF counts as two newlines, so it is worth a blank line. */
  lemma CrLfIsTwoNewlines(a: string, b: string)
    ensures Normalized(a + "\r\n" + b) == Normalized(a + "\n\n" + b)
  {
    hide Mapped, Collapsed, Trim;
    MappedConcat(a, "\r\n");
    MappedConcat(a, "\n\n");
    MappedConcat(a + "\r\n", b);
    MappedConcat(a + "\n\n", b);
    MappedLineEnds();
  }

  /** A non-breaking space is a space, and a lone CR a newline, in any context. */
  lemma NbspAndCr(a: string, b: string)
    ensures Normalized(a + "\U{00A0}" + b) == Normalized(a + " " + b)
    ensures IsNormal(a + " " + b) ==> Normalized(a + "\U{00A0}" + b) == a + " " + b
    ensures Normalized(a + "\r" + b) == Normalized(a + "\n" + b)
  {
    NormalizedFixedPoints(a + " " + b);
    hide Mapped, Collapsed, Trim, IsNormal;
    MappedConcat(a, "\U{00A0}");
    MappedConcat(a, " ");
    MappedConcat(a, "\r");
    MappedConcat(a, "\n");
    MappedConcat(a + "\U{00A0}", b);
    MappedConcat(a + " ", b);
    MappedConcat(a + "\r", b);
    MappedConcat(a + "\n", b);
    MappedOne('\U{00A0}');
    MappedOne(' ');
    MappedOne('\r');
    MappedOne('\n');
  }

  lemma MappedOne(c: char)
    ensures Mapped([c]) == MappedChar(c)
  {
    assert [c][..0] == [];
  }

  lemma CleanEnds(s: string)
    requires |s| > 1 && s[0] == 'a' && s[|s| - 1] == 'b' && forall i :: 0 < i < |s| - 1 ==> s[i] == '\n'
    requires |s| <= 4
    ensures IsNormal(s)
  {
    forall i | 0 <= i < |s| ensures CleanAt(s, i) {
    }
  }

  /** Unlike a single LF. */
  lemma CrLfIsNotLf()
    ensures Normalized("a\r\nb") == "a\n\nb" && Normalized("a\nb") == "a\nb"
  {
    hide Normalized, IsNormal;
    CleanEnds("a\n\nb");
    CleanEnds("a\nb");
    NormalizedFixedPoints("a\n\nb");
    NormalizedFixedPoints("a\nb");
    CrLfIsTwoNewlines("a", "b");
    assert "a" + "\r\n" + "b" == "a\r\nb" && "a" + "\n\n" + "b" == "a\n\nb";
  }
}
