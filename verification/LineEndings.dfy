/** When a CR LF normalizes like an LF: exactly unless it is the only line break between two words. */
module LineEndings {
  import opened Normalizer

  // ----- parsing a concatenation -----

  /** The parse of a text followed by another: the tail of the first joins the first gap of the second. */
  function Merge(t: Text, u: Text): Text {
    if u.pieces == [] then Text(t.pieces, t.tail + u.tail)
    else Text(t.pieces + [Piece(t.tail + u.pieces[0].gap, u.pieces[0].ch)] + u.pieces[1..], u.tail)
  }

  lemma MergeWithChar(t: Text, u: Text, c: char)
    ensures Merge(t, WithChar(u, c)) == WithChar(Merge(t, u), c)
  {
    if !IsBlank(c) {
      var p := Piece(u.tail, c);
      if u.pieces != [] {
        assert (u.pieces + [p])[1..] == u.pieces[1..] + [p];
      }
    }
  }

  lemma {:induction false} ParseConcat(a: string, b: string)
    ensures Parse(a + b) == Merge(Parse(a), Parse(b))
  {
    hide Merge;
    if b == [] {
      assert a + b == a;
      MergeNothing(Parse(a));
    } else {
      var front, c := b[..|b| - 1], b[|b| - 1];
      assert (a + b)[..|a + b| - 1] == a + front;
      ParseConcat(a, front);
      MergeWithChar(Parse(a), Parse(front), c);
    }
  }

  lemma MergeNothing(t: Text)
    ensures Merge(t, Text([], [])) == t
  {
  }

  // ----- what stands before and after a break -----

  /** The gap at the end of a text, and the one at its start. */
  function TailGap(s: string): string { Parse(s).tail }

  function HeadGap(s: string): string {
    if Parse(s).pieces == [] then Parse(s).tail else Parse(s).pieces[0].gap
  }

  function TidyInner(pieces: seq<Piece>): string {
    if pieces == [] then []
    else
      var last := pieces[|pieces| - 1];
      TidyInner(pieces[..|pieces| - 1]) + TidyGap(last.gap, true) + [last.ch]
  }

  /** What a text leaves before a break, and after one. */
  function Before(s: string): string { Spelled(TidyPieces(Parse(s).pieces)) }

  function After(s: string): string {
    var t := Parse(s);
    if t.pieces == [] then [] else [t.pieces[0].ch] + TidyInner(t.pieces[1..]) + TidyGap(t.tail, false)
  }

  lemma {:induction false} TidyConcat(p: seq<Piece>, q: seq<Piece>)
    requires p != []
    ensures Spelled(TidyPieces(p + q)) == Spelled(TidyPieces(p)) + TidyInner(q)
  {
    hide Spelled, TidyPieces, TidyGap;
    if q == [] {
      assert p + q == p;
    } else {
      var front, last := q[..|q| - 1], q[|q| - 1];
      assert p + q == (p + front) + [last];
      TidyConcat(p, front);
      TidySnoc(p + front, last);
    }
  }

  lemma NewlinesConcat(g: string, h: string)
    ensures Newlines(g + h) == Newlines(g) + Newlines(h)
  {
  }

  /** A break of one newline or more between two texts: all newlines of the gap around it count together. */
  lemma CollapsedAround(a: string, m: string, b: string)
    requires AllBlank(m) && Newlines(m) > 0
    ensures Collapsed(a + m + b)
            == Before(a) + LineBreaks(Newlines(TailGap(a)) + Newlines(m) + Newlines(HeadGap(b))) + After(b)
  {
    hide Spelled, TidyPieces, TidyInner, Newlines, AllBlank, LineBreaks, Parse;
    var t, u := Parse(a), Parse(b);
    BlankParse(m);
    ParseConcat(a, m);
    ParseConcat(a + m, b);
    var gap := t.tail + m + HeadGap(b);
    NewlinesConcat(t.tail, m);
    NewlinesConcat(t.tail + m, HeadGap(b));
    if u.pieces != [] {
      var p := Piece(gap, u.pieces[0].ch);
      TidySnoc(t.pieces, p);
      TidyConcat(t.pieces + [p], u.pieces[1..]);
    }
  }

  lemma {:induction false} BlankParse(m: string)
    requires AllBlank(m)
    ensures Parse(m) == Text([], m)
  {
    if m != [] {
      var front, c := m[..|m| - 1], m[|m| - 1];
      assert c in m && m == front + [c];
      BlankParse(front);
    }
  }

  // ----- one gap between two texts -----

  predicate IsGap(g: string) { forall c :: c in g ==> c == ' ' || c == '\t' || c == '\n' }

  /** A clean text that neither begins nor ends with a blank. */
  ghost predicate IsCleanWord(s: string) { Clean(s) && s != [] && !IsBlank(s[0]) && !IsBlank(s[|s| - 1]) }

  /** Between two clean texts a gap of spaces and tabs becomes one space, one with a single newline becomes that newline, and one
      with more becomes a blank line. */
  lemma GapBecomes(a: string, g: string, b: string)
    requires IsCleanWord(a) && IsCleanWord(b) && IsGap(g)
    ensures g != [] && (forall i :: 0 <= i < |g| ==> g[i] != '\n') ==> Collapsed(a + g + b) == a + " " + b
    ensures (exists i :: 0 <= i < |g| && g[i] == '\n' && forall j :: 0 <= j < |g| && j != i ==> g[j] != '\n') ==>
              Collapsed(a + g + b) == a + "\n" + b
    ensures (exists i, j :: 0 <= i < j < |g| && g[i] == g[j] == '\n') ==> Collapsed(a + g + b) == a + "\n\n" + b
  {
    hide Collapsed, Parse, Clean;
    if g != [] {
      if i, j :| 0 <= i < j < |g| && g[i] == g[j] == '\n' {
        TwoNewlines(g, i, j);
        GapIs(a, g, b, "\n\n");
      } else if i :| 0 <= i < |g| && g[i] == '\n' {
        OneNewline(g, i);
        GapIs(a, g, b, "\n");
      } else {
        NoNewline(g);
        GapIs(a, g, b, " ");
      }
    }
  }

  lemma TwoNewlines(g: string, i: nat, j: nat)
    requires i < j < |g| && g[i] == g[j] == '\n'
    ensures Newlines(g) >= 2
  {
    assert g == g[..i] + [g[i]] + g[i + 1..j] + [g[j]] + g[j + 1..];
  }

  lemma OneNewline(g: string, i: nat)
    requires i < |g| && g[i] == '\n' && forall j :: 0 <= j < |g| && j != i ==> g[j] != '\n'
    ensures Newlines(g) == 1
  {
    assert g == g[..i] + [g[i]] + g[i + 1..];
    NoNewline(g[..i]);
    NoNewline(g[i + 1..]);
  }

  lemma NoNewline(g: string)
    requires forall i :: 0 <= i < |g| ==> g[i] != '\n'
    ensures Newlines(g) == 0
  {
    assert '\n' !in g;
  }

  lemma GapIs(a: string, g: string, b: string, h: string)
    requires IsCleanWord(a) && IsCleanWord(b) && IsGap(g) && g != [] && (h == " " || h == "\n" || h == "\n\n")
    requires Newlines(g) == Newlines(h) || (h == "\n\n" && Newlines(g) >= 2)
    ensures Collapsed(a + g + b) == a + h + b
  {
    hide Collapsed, Parse, Newlines, Clean;
    var t, u := Parse(a), Parse(b);
    WordParse(a);
    WordParse(b);
    Between(a, g, b);
    Between(a, h, b);
    assert Newlines("\n\n") == 2 by { TwoNewlines("\n\n", 0, 1); OnlyTwo(); }
    CollapseAlike(a + g + b, a + h + b);
    CleanBetween(a, h, b);
    FixedIffClean(a + h + b);
  }

  lemma OnlyTwo()
    ensures Newlines("\n\n") == 2
  {
  }

  /** A text without blanks at its ends has no gaps there. */
  lemma WordParse(s: string)
    requires s != [] && !IsBlank(s[0]) && !IsBlank(s[|s| - 1])
    ensures Parse(s).tail == [] && Parse(s).pieces != [] && Parse(s).pieces[0].gap == []
  {
    var front, c := s[..|s| - 1], s[|s| - 1];
    assert s == front + [c];
    if |s| > 1 {
      FirstGap(s);
    }
  }

  lemma {:induction false} FirstGap(s: string)
    requires s != [] && !IsBlank(s[0])
    ensures Parse(s).pieces != [] && Parse(s).pieces[0].gap == []
  {
    if |s| > 1 {
      FirstGap(s[..|s| - 1]);
    }
  }

  lemma Between(a: string, g: string, b: string)
    requires AllBlank(g) && Parse(a).tail == [] && Parse(b).pieces != [] && Parse(b).pieces[0].gap == []
    ensures Parse(a + g + b)
            == Text(Parse(a).pieces + [Piece(g, Parse(b).pieces[0].ch)] + Parse(b).pieces[1..], Parse(b).tail)
  {
    hide Parse;
    BlankParse(g);
    ParseConcat(a, g);
    ParseConcat(a + g, b);
    assert [] + g == g && g + [] == g;
  }

  lemma CleanBetween(a: string, h: string, b: string)
    requires IsCleanWord(a) && IsCleanWord(b) && (h == " " || h == "\n" || h == "\n\n")
    ensures Clean(a + h + b)
  {
    var s, n := a + h + b, |a| + |h|;
    forall i | 0 <= i < |s| ensures CleanAt(s, i) {
      if i < |a| {
        assert CleanAt(a, i);
      } else if i >= n {
        assert CleanAt(b, i - n);
      } else {
        assert s[i] == h[i - |a|] && s[|a| - 1] == a[|a| - 1];
      }
    }
  }

  // ----- trimming around a break -----

  ghost predicate AllWhite(s: string) { forall c :: c in s ==> IsWhiteSpace(c) }

  lemma {:induction false} TrimStartConcat(p: string, r: string)
    ensures TrimStart(p + r) == if AllWhite(p) then TrimStart(r) else TrimStart(p) + r
  {
    if p == [] {
      assert p + r == r;
    } else {
      assert (p + r)[1..] == p[1..] + r;
      assert p == [p[0]] + p[1..];
      TrimStartConcat(p[1..], r);
    }
  }

  lemma {:induction false} TrimEndConcat(r: string, q: string)
    ensures TrimEnd(r + q) == if AllWhite(q) then TrimEnd(r) else r + TrimEnd(q)
  {
    if q == [] {
      assert r + q == r;
    } else {
      var front, c := q[..|q| - 1], q[|q| - 1];
      assert (r + q)[..|r + q| - 1] == r + front;
      assert q == front + [c];
      TrimEndConcat(r, front);
    }
  }

  /** Between two texts that are not blank a break stays as it is; elsewhere it is trimmed away. */
  lemma TrimAround(p: string, m: string, q: string)
    requires AllWhite(m)
    ensures !AllWhite(p) && !AllWhite(q) ==> Trim(p + m + q) == TrimStart(p) + m + TrimEnd(q)
    ensures AllWhite(p) ==> Trim(p + m + q) == Trim(q)
    ensures AllWhite(q) ==> Trim(p + m + q) == Trim(p)
  {
    hide TrimStart, TrimEnd, IsWhiteSpace;
    assert p + m + q == p + (m + q);
    if AllWhite(p) {
      TrimStartConcat(p, m + q);
      TrimStartConcat(m, q);
    }
    if !AllWhite(p) {
      TrimStartConcat(p, m + q);
      assert TrimStart(p) + (m + q) == TrimStart(p) + m + q;
      TrimEndConcat(TrimStart(p) + m, q);
      TrimEndConcat(TrimStart(p), m);
    }
    if AllWhite(p) && AllWhite(q) {
      TrimWhite(p);
      TrimWhite(q);
    }
  }

  lemma TrimWhite(s: string)
    requires AllWhite(s)
    ensures Trim(s) == []
  {
    TrimStartConcat(s, []);
    assert s + [] == s;
  }

  // ----- text on both sides -----

  /** Some character of s carries text. */
  ghost predicate HasText(s: string) { exists c :: c in s && IsSolid(c) }

  lemma HasTextMapped(s: string)
    ensures HasText(s) <==> HasText(Mapped(s))
  {
    hide Mapped, IsSolid, Filter;
    MappedKeeps(s);
    forall c | IsSolid(c) ensures c in s <==> c in Mapped(s) {
      FilterSome(IsSolid, s, c);
      FilterSome(IsSolid, Mapped(s), c);
    }
  }

  /** Of plain characters, only white space carries no text. */
  lemma WhiteIffNoText(s: string)
    requires forall c :: c in s ==> IsPlain(c)
    ensures AllWhite(s) <==> !HasText(s)
  {
    assert forall c :: IsPlain(c) ==> (IsWhiteSpace(c) <==> !IsSolid(c));
    hide IsPlain, IsWhiteSpace, IsSolid;
  }

  lemma FilterAround(keep: char -> bool, p: string, m: string, q: string)
    requires AllBlank(m) && forall c :: IsBlank(c) ==> !keep(c)
    ensures Filter(keep, p + m + q) == Filter(keep, p) + Filter(keep, q)
  {
    hide Filter;
    FilterNone(keep, m);
    FilterConcat(keep, p + m, q);
    FilterConcat(keep, p, m);
  }

  /** Both sides of a break keep the text of where they come from. */
  lemma SidesKeepText(keep: char -> bool, a: string, m: string, b: string)
    requires AllBlank(m) && Newlines(m) > 0 && forall c :: IsBlank(c) ==> !keep(c)
    ensures Filter(keep, Before(a)) == Filter(keep, a) && Filter(keep, After(b)) == Filter(keep, b)
  {
    hide Filter, Before, After, IsBlank, Newlines, LineBreaks, TailGap, HeadGap, Collapsed, AllBlank;
    var k := Newlines(TailGap(a)) + Newlines(m) + Newlines(HeadGap(b));
    BeforeKeeps(keep, a);
    CollapsedAround(a, m, b);
    CollapseKeeps(keep, a + m + b);
    BreaksAreBlank(k);
    FilterAround(keep, a, m, b);
    FilterAround(keep, Before(a), LineBreaks(k), After(b));
    var x := Filter(keep, a);
    assert (x + Filter(keep, b))[|x|..] == Filter(keep, b);
    assert (x + Filter(keep, After(b)))[|x|..] == Filter(keep, After(b));
  }

  lemma BreaksAreBlank(k: nat)
    ensures AllBlank(LineBreaks(k)) && AllWhite(LineBreaks(k))
  {
  }

  lemma BeforeKeeps(keep: char -> bool, a: string)
    requires forall c :: IsBlank(c) ==> !keep(c)
    ensures Filter(keep, Before(a)) == Filter(keep, a)
  {
    hide Filter, Spelled, TidyPieces, Parse;
    var t := Parse(a);
    UnparseParse(a);
    PiecesKeep(keep, t.pieces);
    FilterNone(keep, t.tail);
    FilterConcat(keep, Spelled(t.pieces), t.tail);
  }

  /** Around a break the two sides are plain, and blank only if the texts they come from are. */
  lemma Sides(a: string, b: string)
    ensures AllWhite(Before(Mapped(a))) <==> !HasText(a)
    ensures AllWhite(After(Mapped(b))) <==> !HasText(b)
  {
    assert forall c :: IsBlank(c) ==> !IsSolid(c);
    hide Before, After, Mapped, Filter, IsSolid, IsPlain, AllWhite, LineBreaks, Collapsed, HasText;
    var p, q := Before(Mapped(a)), After(Mapped(b));
    assert AllBlank("\n") && Newlines("\n") > 0;
    CollapsedAround(Mapped(a), "\n", Mapped(b));
    SidesKeepText(IsSolid, Mapped(a), "\n", Mapped(b));
    SidesPlain(a, b);
    WhiteIffNoText(p);
    WhiteIffNoText(q);
    HasTextMapped(a);
    HasTextMapped(b);
    SameText(p, Mapped(a));
    SameText(q, Mapped(b));
  }

  lemma SameText(s: string, s': string)
    requires Filter(IsSolid, s) == Filter(IsSolid, s')
    ensures HasText(s) <==> HasText(s')
  {
    hide Filter, IsSolid;
    forall c | IsSolid(c) ensures c in s <==> c in s' {
      FilterSome(IsSolid, s, c);
      FilterSome(IsSolid, s', c);
    }
  }

  lemma SidesPlain(a: string, b: string)
    ensures forall c :: c in Before(Mapped(a)) || c in After(Mapped(b)) ==> IsPlain(c)
  {
    assert AllBlank("\n") && Newlines("\n") > 0 && IsPlain('\n') && IsPlain(' ');
    hide Before, After, Mapped, IsPlain, Newlines, LineBreaks, TailGap, HeadGap, Collapsed, AllBlank;
    CollapsedAround(Mapped(a), "\n", Mapped(b));
    MappedIsPlain(a);
    MappedIsPlain(b);
    var whole := Mapped(a) + "\n" + Mapped(b);
    forall c | c in Before(Mapped(a)) || c in After(Mapped(b)) ensures IsPlain(c) {
      assert c in Collapsed(whole);
      CollapsedChars(whole, c);
    }
  }

  // ----- the law -----

  /** The break is the only one in a gap between two words. */
  ghost predicate LoneBreak(a: string, b: string) {
    HasText(a) && HasText(b) && Newlines(TailGap(Mapped(a))) == 0 && Newlines(HeadGap(Mapped(b))) == 0
  }

  /** A CR LF between any two texts normalizes like an LF if and only if it is not the lone break between two words. */
  lemma CrLfLikeLf(a: string, b: string)
    ensures Normalized(a + "\r\n" + b) == Normalized(a + "\n" + b) <==> !LoneBreak(a, b)
  {
    hide Normalized, Before, After, Trim, TailGap, HeadGap, Newlines, HasText, Mapped, LineBreaks, AllWhite;
    CrLfIsTwoNewlines(a, b);
    NormalizedAround(a, "\n", b);
    NormalizedAround(a, "\n\n", b);
    Sides(a, b);
    OneOrTwoBreaks(Before(Mapped(a)), Newlines(TailGap(Mapped(a))) + Newlines(HeadGap(Mapped(b))), After(Mapped(b)));
  }

  lemma OneOrTwoBreaks(p: string, k: nat, q: string)
    ensures Trim(p + LineBreaks(k + 1) + q) == Trim(p + LineBreaks(k + 2) + q) <==> AllWhite(p) || AllWhite(q) || k > 0
  {
    hide Trim, TrimStart, TrimEnd, AllWhite;
    BreaksAreBlank(k + 1);
    BreaksAreBlank(k + 2);
    TrimAround(p, LineBreaks(k + 1), q);
    TrimAround(p, LineBreaks(k + 2), q);
    if k == 0 && !AllWhite(p) && !AllWhite(q) {
      assert |TrimStart(p) + LineBreaks(2) + TrimEnd(q)| == |TrimStart(p) + LineBreaks(1) + TrimEnd(q)| + 1;
    }
  }

  lemma BreakIsPlain(m: string)
    requires m == "\n" || m == "\n\n"
    ensures Mapped(m) == m && AllBlank(m) && Newlines(m) == |m|
  {
    MappedIsPlain(m);
    assert "\n\n" == "\n" + "\n";
  }

  lemma NormalizedAround(a: string, m: string, b: string)
    requires m == "\n" || m == "\n\n"
    ensures var k := Newlines(TailGap(Mapped(a))) + Newlines(HeadGap(Mapped(b)));
            Normalized(a + m + b) == Trim(Before(Mapped(a)) + LineBreaks(k + |m|) + After(Mapped(b)))
  {
    hide Mapped, Before, After, Trim, TailGap, HeadGap, Newlines, Collapsed, LineBreaks, AllBlank;
    BreakIsPlain(m);
    MappedConcat(a, m);
    MappedConcat(a + m, b);
    CollapsedAround(Mapped(a), m, Mapped(b));
  }
}
