/** Exactly when streaming agrees with one rendering, for a fence-well-formed final text and any
    frames: when a block of the final text begins at every place the stream was cut. */
module MarkdownExact {
  import opened Text
  import opened Markdown
  import opened MarkdownStream
  import opened MarkdownCuts

  // ---- white space before a line does not matter outside a fence ------------------------------------

  lemma TrimLead(l: string, x: string)
    requires Blank(l)
    ensures TrimStart(l + x) == TrimStart(x) && Trim(l + x) == Trim(x) && (Blank(l + x) <==> Blank(x))
    ensures '|' in l + x <==> '|' in x
  {
    hide ContentEnd, IsSpace;
    IndentAppend(l, x);
    IndentSpaces(l);
    BarIsNoSpace();
    assert (l + x)[|l| + Indent(x)..] == x[Indent(x)..];
  }

  lemma BarIsNoSpace()
    ensures !IsSpace('|')
  {
  }

  lemma SameLine(l: string, x: string)
    requires Blank(l)
    ensures var y := l + x;
            (FenceMark(y) <==> FenceMark(x)) && (FenceOpener(y) <==> FenceOpener(x)) && (FenceCloser(y) <==> FenceCloser(x))
            && HeadingText(y) == HeadingText(x) && (IsRule(y) <==> IsRule(x)) && (QuoteLine(y) <==> QuoteLine(x))
            && (UnorderedLine(y) <==> UnorderedLine(x)) && (OrderedLine(y) <==> OrderedLine(x))
    ensures var y := l + x;
            Language(y) == Language(x) && SplitTableRow(y) == SplitTableRow(x)
            && (QuoteLine(x) ==> QuoteText(y) == QuoteText(x)) && (UnorderedLine(x) ==> UnorderedItem(y) == UnorderedItem(x))
            && (OrderedLine(x) ==> NumberedText(y) == NumberedText(x))
  {
    hide TrimStart, Trim, Blank, SpacedText, Leading, Repeats, SplitOn, StripPipes, ItemOf;
    TrimLead(l, x);
  }

  lemma MapHead<B>(f: string -> B, y: string, x: string, rest: seq<string>)
    requires f(y) == f(x)
    ensures Map(f, [y] + rest) == Map(f, [x] + rest)
  {
    assert forall i :: 0 < i < |rest| + 1 ==> ([y] + rest)[i] == ([x] + rest)[i];
  }

  lemma RunHead(y: string, x: string, rest: seq<string>, p: string -> bool)
    requires p(y) == p(x)
    ensures Run([y] + rest, p) == Run([x] + rest, p)
  {
    assert ([y] + rest)[1..] == rest && ([x] + rest)[1..] == rest;
  }

  lemma KindHead(l: string, x: string, rest: seq<string>)
    requires Blank(l)
    ensures KindOf([l + x] + rest) == KindOf([x] + rest)
  {
    hide Blank, FenceMark, FenceOpener, FenceCloser, HeadingText, IsRule, IsTableDivider, QuoteLine, UnorderedLine,
      OrderedLine, Language, SplitTableRow, QuoteText, UnorderedItem, NumberedText;
    SameLine(l, x);
    TrimLead(l, x);
    if rest != [] { assert ([l + x] + rest)[1] == rest[0] == ([x] + rest)[1]; }
  }

  lemma LengthHead(l: string, x: string, rest: seq<string>)
    requires Blank(l)
    ensures Length([l + x] + rest) == Length([x] + rest)
  {
    hide Blank, FenceMark, FenceOpener, FenceCloser, HeadingText, IsRule, IsTableDivider, QuoteLine, UnorderedLine,
      OrderedLine, Language, SplitTableRow, QuoteText, UnorderedItem, NumberedText, KindOf, Run, ParagraphRun;
    var y, z := [l + x] + rest, [x] + rest;
    SameLine(l, x);
    KindHead(l, x, rest);
    RunHead(l + x, x, rest, QuoteLine);
    RunHead(l + x, x, rest, UnorderedLine);
    RunHead(l + x, x, rest, OrderedLine);
    assert y[1..] == rest && z[1..] == rest;
    if KindOf(y) == KTable {
      TableShape(y);
      TableShape(z);
      assert y[2..] == rest[1..] && z[2..] == rest[1..];
    }
  }

  lemma ContentHead(l: string, x: string, rest: seq<string>)
    requires Blank(l)
    ensures Content([l + x] + rest) == Content([x] + rest)
  {
    hide Blank, FenceMark, FenceOpener, FenceCloser, HeadingText, IsRule, IsTableDivider, QuoteLine, UnorderedLine,
      OrderedLine, Language, SplitTableRow, QuoteText, UnorderedItem, NumberedText, KindOf, Run, ParagraphRun, Map, Length,
      TrimStart, Trim;
    var y, z := [l + x] + rest, [x] + rest;
    SameLine(l, x);
    TrimLead(l, x);
    KindHead(l, x, rest);
    LengthHead(l, x, rest);
    var n := Length(z);
    var more := rest[..n - 1];
    assert y[..n] == [l + x] + more && z[..n] == [x] + more;
    assert y[1..] == rest && z[1..] == rest && (y[0] == l + x) && (z[0] == x);
    match KindOf(z) {
      case KTable => TableShape(y); TableShape(z); assert y[2..n] == z[2..n];
      case KCode => CodeShape(y); CodeShape(z); assert y[1..1 + Run(rest, CodeLine)] == z[1..1 + Run(rest, CodeLine)];
      case KQuote => SpanHead(y); MapHead(QuoteText, l + x, x, more);
      case KUnordered => SpanHead(y); MapHead(UnorderedItem, l + x, x, more);
      case KOrdered => SpanHead(y); MapHead(NumberedText, l + x, x, more);
      case KParagraph => MapHead(Trim, l + x, x, more);
      case _ =>
    }
  }

  lemma SpanHead(y: seq<string>)
    requires y != []
    ensures match KindOf(y)
            case KQuote => QuoteLine(y[0])
            case KUnordered => UnorderedLine(y[0])
            case KOrdered => OrderedLine(y[0])
            case _ => true
  {
    hide Blank, FenceOpener, HeadingText, IsRule, IsTableDivider, QuoteLine, UnorderedLine, OrderedLine;
  }

  /** White space before the first line changes neither the blocks nor where they begin. */
  lemma LeadIn(l: string, x: string, rest: seq<string>, k: nat)
    requires Blank(l)
    ensures Blocks([l + x] + rest) == Blocks([x] + rest)
    ensures Begins([l + x] + rest, k) == Begins([x] + rest, k)
  {
    hide Blank, Length, Content;
    LengthHead(l, x, rest);
    ContentHead(l, x, rest);
    var y, z := [l + x] + rest, [x] + rest;
    assert y[Length(y)..] == z[Length(z)..];
  }

  // ---- where blocks begin -----------------------------------------------------------------------------

  lemma {:induction false} BeginsShift(a: seq<string>, b: seq<string>, k: nat)
    requires Begins(a + b, |a|)
    ensures Begins(a + b, |a| + k) == Begins(b, k)
    decreases |a|
  {
    hide Length;
    if a == [] {
      assert a + b == b;
    } else {
      var x := a + b;
      var n := Length(x);
      assert x[n..] == a[n..] + b;
      BeginsShift(a[n..], b, k);
    }
  }

  lemma BlankBegins(x: string, b: seq<string>, k: nat)
    requires Blank(x)
    ensures Begins([x] + b, 1 + k) == Begins(b, k) && Blocks([x] + b) == Blocks(b)
  {
    hide Blank;
    assert ([x] + b)[1..] == b;
    assert Length([x] + b) == 1 && Content([x] + b) == [];
  }

  /** A cut at which no block begins shows: some block of the part before it is not that of the whole. */
  lemma {:induction false} CutDiffers(a: seq<string>, b: seq<string>) returns (j: nat)
    requires WellFenced(false, a) && !Fence(false, a) && !Begins(a + b, |a|)
    ensures j < |Blocks(a)| && j < |Blocks(a + b)| && Blocks(a)[j] != Blocks(a + b)[j]
    decreases |a|
  {
    hide Blank, FenceMark, KindOf, Fence, WellFenced, Length, Content;
    assert a != [];
    First(a, b);
    var x, n := a + b, Length(a);
    if FirstStays(a, b) {
      assert x[n..] == a[n..] + b;
      var i := CutDiffers(a[n..], b);
      j := |Content(a)| + i;
    } else {
      assert Blocks(x)[0] == Content(x)[0];
      assert Blocks(a)[0] == Content(a)[0];
      j := 0;
    }
  }

  // ---- cuts in a text -----------------------------------------------------------------------------------

  /** The whole lines before a place in a text, and the parts of the line it falls in. */
  function Above(t: string, p: nat): seq<string>
    requires p <= |t|
  {
    Lines(t[..p])[..|Lines(t[..p])| - 1]
  }

  function Left(t: string, p: nat): string
    requires p <= |t|
  {
    LastLine(t[..p])
  }

  function Right(t: string, p: nat): string
    requires p <= |t|
  {
    Lines(t[p..])[0]
  }

  function Below(t: string, p: nat): seq<string>
    requires p <= |t|
  {
    Lines(t[p..])[1..]
  }

  /** The cuts the splitter makes: in the white space that begins a line outside a fence, or where
      a closing fence has only white space left. */
  predicate Proper(t: string, p: nat)
    requires p <= |t|
  {
    var a := Above(t, p);
    WellFenced(false, a)
    && if Fence(false, a) then FenceCloser(Left(t, p)) && Blank(Right(t, p)) else Blank(Left(t, p))
  }

  /** The line of the text that the part after the cut begins with. */
  function Opening(t: string, p: nat): nat
    requires p <= |t|
  {
    if Fence(false, Above(t, p)) then |Above(t, p)| + 1 else |Above(t, p)|
  }

  lemma LinesAt(t: string, p: nat)
    requires p <= |t|
    ensures Lines(t) == Above(t, p) + ([Left(t, p) + Right(t, p)] + Below(t, p))
    ensures Lines(t[..p]) == Above(t, p) + [Left(t, p)] && Lines(t[p..]) == [Right(t, p)] + Below(t, p)
  {
    hide SplitOn;
    assert t == t[..p] + t[p..];
    SplitConcat(t[..p], t[p..], '\n');
  }

  lemma CloserCloses(a: seq<string>, l: string)
    requires WellFenced(false, a) && Fence(false, a) && FenceCloser(l)
    ensures WellFenced(false, a + [l]) && !Fence(false, a + [l])
  {
    hide Blank, FenceMark;
    FenceAppend(false, a, [l]);
    assert [l][1..] == [];
  }

  /** Cutting at the end of a closing fence is always right. */
  lemma CloserCut(a: seq<string>, l: string, x: string, b: seq<string>)
    requires WellFenced(false, a) && Fence(false, a) && FenceCloser(l) && Blank(x)
    ensures Begins(a + ([l + x] + b), |a| + 1)
    ensures Blocks(a + ([l + x] + b)) == Blocks(a + [l]) + Blocks([x] + b)
  {
    hide Blank, FenceMark, FenceCloser, Fence, WellFenced, Blocks, Begins;
    SealExtends(true, l, x);
    Additive(a, l, l + x, b);
    Additive(a, l + x, l + x, b);
    Additive(a, l + x, l + x, []);
    CloserCloses(a, l + x);
    CutExact(a + [l + x], b);
    BlankBegins(x, b, 0);
    var none: seq<string> := [];
    assert a + [l + x] + none == a + [l + x];
    assert Blocks(none) == [] by { EmptyDocument(); }
    assert a + ([l + x] + b) == a + [l + x] + b;
  }

  lemma EmptyDocument()
    ensures Blocks([]) == []
  {
  }

  /** Cutting in the white space that begins a line is right exactly when a block begins there. */
  lemma LeadCut(a: seq<string>, l: string, x: string, b: seq<string>)
    requires WellFenced(false, a) && !Fence(false, a) && Blank(l)
    ensures Blocks(a + [l]) == Blocks(a)
    ensures Begins(a + ([l + x] + b), |a|) ==> Blocks(a + ([l + x] + b)) == Blocks(a + [l]) + Blocks([x] + b)
  {
    hide Blank, FenceMark, FenceCloser, Fence, WellFenced, Blocks, Begins;
    CutExact(a, [l]);
    var none: seq<string> := [];
    BlankBegins(l, none, 0);
    EmptyDocument();
    assert [l] + none == [l];
    CutExact(a, [l + x] + b);
    LeadIn(l, x, b, 0);
  }

  /** One cut: right when a block begins there; when not, some block before the cut is another one. */
  lemma CutLaw(t: string, p: nat) returns (j: nat)
    requires p <= |t| && Proper(t, p)
    ensures Begins(Lines(t), Opening(t, p)) ==> Blocks(Lines(t)) == Blocks(Lines(t[..p])) + Blocks(Lines(t[p..]))
    ensures !Begins(Lines(t), Opening(t, p)) ==>
            j < |Blocks(Lines(t[..p]))| && j < |Blocks(Lines(t))| && Blocks(Lines(t[..p]))[j] != Blocks(Lines(t))[j]
  {
    hide Blank, FenceMark, FenceCloser, Fence, WellFenced, Blocks, Begins, SplitOn, Above, Left, Right, Below;
    LinesAt(t, p);
    var a, l, x, b := Above(t, p), Left(t, p), Right(t, p), Below(t, p);
    j := 0;
    if Fence(false, a) {
      CloserCut(a, l, x, b);
    } else {
      LeadCut(a, l, x, b);
      if !Begins(Lines(t), |a|) { j := CutDiffers(a, [l + x] + b); }
    }
  }

  // ---- what is left after a cut ---------------------------------------------------------------------

  /** The whole lines above a later cut, from those above an earlier one and the text between. */
  lemma AboveLater(t: string, p: nat, q: nat)
    requires p <= q <= |t|
    ensures Above(t[p..], q - p) == [] ==> Above(t, q) == Above(t, p) && Left(t, q) == Left(t, p) + Left(t[p..], q - p)
    ensures Above(t[p..], q - p) != [] ==>
            Left(t, q) == Left(t[p..], q - p) && Right(t, p) == Above(t[p..], q - p)[0]
            && Above(t, q) == Above(t, p) + ([Left(t, p) + Right(t, p)] + Above(t[p..], q - p)[1..])
    ensures Right(t, q) == Right(t[p..], q - p)
    ensures Above(t[p..], q - p) == [] ==> Right(t, p) == Left(t[p..], q - p) + Right(t, q)
  {
    hide SplitOn;
    var u := t[p..];
    var m := u[..q - p];
    assert t[..q] == t[..p] + m && u[q - p..] == t[q..] && u == m + t[q..];
    SplitConcat(t[..p], m, '\n');
    SplitConcat(m, t[q..], '\n');
  }

  lemma LeadFence(l: string, x: string, m: seq<string>)
    requires Blank(l)
    ensures WellFenced(false, [l + x] + m) == WellFenced(false, [x] + m) && Fence(false, [l + x] + m) == Fence(false, [x] + m)
  {
    hide Blank, FenceMark, FenceOpener, FenceCloser;
    SameLine(l, x);
    TrimLead(l, x);
    assert ([l + x] + m)[1..] == m && ([x] + m)[1..] == m;
  }

  lemma BlankFence(x: string, m: seq<string>)
    requires Blank(x)
    ensures WellFenced(false, [x] + m) == WellFenced(false, m) && Fence(false, [x] + m) == Fence(false, m)
  {
    hide Blank, FenceMark;
    BlankIsNoMark(x);
    assert ([x] + m)[1..] == m;
  }

  /** A later cut, seen from an earlier one, when that fell in the white space that begins a line. */
  lemma LaterAfterLead(t: string, p: nat, q: nat)
    requires p <= q <= |t| && Proper(t, p) && Proper(t, q) && !Fence(false, Above(t, p))
    ensures Proper(t[p..], q - p) && Opening(t, q) == |Above(t, p)| + Opening(t[p..], q - p)
  {
    hide Blank, FenceMark, FenceCloser, Fence, WellFenced, SplitOn, Above, Left, Right;
    AboveLater(t, p, q);
    var a, c := Above(t, p), Above(t[p..], q - p);
    if c == [] {
      TrimLead(Left(t, p), Left(t[p..], q - p));
      NoLines();
    } else {
      var m := c[1..];
      assert c == [c[0]] + m;
      FenceAppend(false, a, [Left(t, p) + Right(t, p)] + m);
      LeadFence(Left(t, p), c[0], m);
    }
  }

  lemma NoLines()
    ensures WellFenced(false, []) && !Fence(false, [])
  {
  }

  /** ... and when it fell at the end of a closing fence. */
  lemma LaterAfterCloser(t: string, p: nat, q: nat)
    requires p <= q <= |t| && Proper(t, p) && Proper(t, q) && Fence(false, Above(t, p))
    ensures Proper(t[p..], q - p)
    ensures Above(t[p..], q - p) == [] ==> Opening(t, q) == |Above(t, p)| + 1 && Opening(t[p..], q - p) == 0
    ensures Above(t[p..], q - p) != [] ==> Opening(t, q) == |Above(t, p)| + Opening(t[p..], q - p) && Opening(t[p..], q - p) > 0
  {
    hide Blank, FenceMark, FenceCloser, Fence, WellFenced, SplitOn, Above, Left, Right;
    AboveLater(t, p, q);
    NoLines();
    var a, c := Above(t, p), Above(t[p..], q - p);
    var l, x := Left(t, p), Right(t, p);
    if c == [] {
      BlankStart(Left(t[p..], q - p), Right(t, q));
    } else {
      var m := c[1..];
      assert c == [c[0]] + m;
      SealExtends(true, l, x);
      CloserCloses(a, l + x);
      FenceAppend(false, a + [l + x], m);
      assert a + [l + x] + m == a + ([l + x] + m);
      BlankFence(x, m);
    }
  }

  lemma BlankStart(u: string, v: string)
    requires Blank(u + v)
    ensures Blank(u)
  {
    BlankAppend(u, v);
  }

  lemma LeadBegins(a: seq<string>, l: string, x: string, b: seq<string>, k: nat)
    requires Blank(l) && Begins(a + ([l + x] + b), |a|)
    ensures Begins(a + ([l + x] + b), |a| + k) == Begins([x] + b, k)
  {
    hide Blank, Begins;
    BeginsShift(a, [l + x] + b, k);
    LeadIn(l, x, b, k);
  }

  lemma CloserBegins(c: seq<string>, x: string, b: seq<string>, k: nat)
    requires Blank(x) && Begins(c + b, |c|)
    ensures k > 0 ==> Begins(c + b, |c| + k - 1) == Begins([x] + b, k)
    ensures Begins([x] + b, 0)
  {
    hide Blank, Begins;
    BeginsAtZero([x] + b);
    if k > 0 {
      BeginsShift(c, b, k - 1);
      BlankBegins(x, b, k - 1);
    }
  }

  lemma Regroup(a: seq<string>, y: string, b: seq<string>)
    ensures a + ([y] + b) == (a + [y]) + b && |a + [y]| == |a| + 1
  {
  }

  /** After a right cut, later cuts are proper, and right or not, for what is left as for the whole. */
  lemma LaterCut(t: string, p: nat, q: nat)
    requires p <= q <= |t| && Proper(t, p) && Proper(t, q) && Begins(Lines(t), Opening(t, p))
    ensures Proper(t[p..], q - p)
    ensures Begins(Lines(t), Opening(t, q)) == Begins(Lines(t[p..]), Opening(t[p..], q - p))
  {
    hide Blank, FenceMark, FenceCloser, Fence, WellFenced, Lines, Above, Left, Right, Below, Begins, Proper, Opening;
    LinesAt(t, p);
    ProperSides(t, p);
    var a, l, x, b := Above(t, p), Left(t, p), Right(t, p), Below(t, p);
    var k := Opening(t[p..], q - p);
    if Fence(false, a) {
      LaterAfterCloser(t, p, q);
      Regroup(a, l + x, b);
      CloserBegins(a + [l + x], x, b, k);
    } else {
      LaterAfterLead(t, p, q);
      LeadBegins(a, l, x, b, k);
    }
  }

  lemma BeginsAtZero(ls: seq<string>)
    ensures Begins(ls, 0)
  {
  }

  lemma ProperSides(t: string, p: nat)
    requires p <= |t| && Proper(t, p)
    ensures if Fence(false, Above(t, p)) then Blank(Right(t, p)) && Opening(t, p) == |Above(t, p)| + 1
            else Blank(Left(t, p)) && Opening(t, p) == |Above(t, p)|
  {
    hide Blank, FenceMark, FenceCloser, Fence, WellFenced, SplitOn, Above, Left, Right;
  }

  // ---- many cuts ----------------------------------------------------------------------------------------

  predicate Ascending(p: nat, cuts: seq<nat>, end: nat)
    decreases |cuts|
  {
    if cuts == [] then p <= end else p <= cuts[0] && Ascending(cuts[0], cuts[1..], end)
  }

  /** The blocks of a text from `p` on, rendered piece by piece. */
  function Pieces(t: string, p: nat, cuts: seq<nat>): seq<Block>
    requires Ascending(p, cuts, |t|)
    decreases |cuts|
  {
    if cuts == [] then Blocks(Lines(t[p..]))
    else
      AscendingBelow(p, cuts, |t|);
      Blocks(Lines(t[p..cuts[0]])) + Pieces(t, cuts[0], cuts[1..])
  }

  lemma {:induction false} AscendingBelow(p: nat, cuts: seq<nat>, end: nat)
    requires Ascending(p, cuts, end)
    ensures p <= end && forall i :: 0 <= i < |cuts| ==> p <= cuts[i] <= end
    decreases |cuts|
  {
    if cuts != [] {
      AscendingBelow(cuts[0], cuts[1..], end);
      assert forall i :: 0 < i < |cuts| ==> cuts[i] == cuts[1..][i - 1];
    }
  }

  ghost predicate AllProper(t: string, p: nat, cuts: seq<nat>)
    requires p <= |t|
  {
    forall i :: 0 <= i < |cuts| ==> p <= cuts[i] <= |t| && Proper(t[p..], cuts[i] - p)
  }

  /** A block begins at every cut, in what the text is from `p` on. */
  ghost predicate AllBegin(t: string, p: nat, cuts: seq<nat>)
    requires p <= |t| && AllProper(t, p, cuts)
  {
    forall i :: 0 <= i < |cuts| ==> Begins(Lines(t[p..]), Opening(t[p..], cuts[i] - p))
  }

  /** Piece by piece gives the blocks of the whole exactly when a block begins at every cut. */
  lemma {:induction false} PiecesExact(t: string, p: nat, cuts: seq<nat>)
    requires Ascending(p, cuts, |t|) && p <= |t| && AllProper(t, p, cuts)
    ensures Pieces(t, p, cuts) == Blocks(Lines(t[p..])) <==> AllBegin(t, p, cuts)
    decreases |cuts|
  {
    hide Proper, Begins, Blocks, SplitOn, Opening;
    if cuts != [] {
      AscendingBelow(p, cuts, |t|);
      var u, c := t[p..], cuts[0];
      var d := c - p;
      assert u[..d] == t[p..c] && u[d..] == t[c..];
      var j := CutLaw(u, d);
      var head, tail := Blocks(Lines(u[..d])), Pieces(t, c, cuts[1..]);
      if Begins(Lines(u), Opening(u, d)) {
        RestCuts(t, p, cuts);
        PiecesExact(t, c, cuts[1..]);
        SameTail(head, tail, Blocks(Lines(u[d..])));
      } else {
        assert (head + tail)[j] == head[j];
      }
    }
  }

  lemma SameTail(head: seq<Block>, x: seq<Block>, y: seq<Block>)
    ensures head + x == head + y <==> x == y
  {
    if head + x == head + y {
      assert x == (head + x)[|head|..];
      assert y == (head + y)[|head|..];
    }
  }

  lemma RestCuts(t: string, p: nat, cuts: seq<nat>)
    requires cuts != [] && Ascending(p, cuts, |t|) && p <= |t| && AllProper(t, p, cuts)
    requires p <= cuts[0] <= |t| && Begins(Lines(t[p..]), Opening(t[p..], cuts[0] - p))
    ensures AllProper(t, cuts[0], cuts[1..])
    ensures AllBegin(t, p, cuts) <==> AllBegin(t, cuts[0], cuts[1..])
  {
    hide Proper, Begins, SplitOn, Opening;
    var u, c, rest := t[p..], cuts[0], cuts[1..];
    AscendingBelow(c, rest, |t|);
    forall i | 0 <= i < |rest|
      ensures c <= rest[i] <= |t| && Proper(t[c..], rest[i] - c)
      ensures Begins(Lines(t[p..]), Opening(t[p..], cuts[i + 1] - p)) == Begins(Lines(t[c..]), Opening(t[c..], rest[i] - c)) {
      assert rest[i] == cuts[i + 1];
      assert u[c - p..] == t[c..];
      LaterCut(u, c - p, rest[i] - p);
    }
    assert AllProper(t, c, rest);
    if AllBegin(t, c, rest) {
      forall i | 0 <= i < |cuts| ensures Begins(Lines(t[p..]), Opening(t[p..], cuts[i] - p)) {
        if i > 0 { assert rest[i - 1] == cuts[i]; }
      }
    }
  }

  // ---- runs -------------------------------------------------------------------------------------------------

  /** The places at which a run of updates has cut the text. */
  function Cuts(frames: seq<string>): seq<nat> {
    if frames == [] then []
    else
      var before, c := frames[..|frames| - 1], |Completed(Normalise(frames[|frames| - 1]))|;
      if c > Updates(before).rendered then Cuts(before) + [c] else Cuts(before)
  }

  function LastCut(p: nat, cuts: seq<nat>): nat {
    if cuts == [] then p else cuts[|cuts| - 1]
  }

  lemma {:induction false} AscendingSnoc(p: nat, cuts: seq<nat>, c: nat, end: nat)
    requires Ascending(p, cuts, end) && LastCut(p, cuts) <= c <= end
    ensures Ascending(p, cuts + [c], end)
    decreases |cuts|
  {
    if cuts == [] {
      assert [c][1..] == [];
    } else {
      assert (cuts + [c])[1..] == cuts[1..] + [c];
      AscendingSnoc(cuts[0], cuts[1..], c, end);
    }
  }

  /** The blocks of the pieces up to the last cut. */
  function Front(t: string, p: nat, cuts: seq<nat>): seq<Block>
    requires Ascending(p, cuts, |t|)
    decreases |cuts|
  {
    if cuts == [] then []
    else
      AscendingBelow(p, cuts, |t|);
      Blocks(Lines(t[p..cuts[0]])) + Front(t, cuts[0], cuts[1..])
  }

  lemma {:induction false} FrontSnoc(t: string, p: nat, cuts: seq<nat>, c: nat)
    requires Ascending(p, cuts, |t|) && LastCut(p, cuts) <= c <= |t|
    ensures Ascending(p, cuts + [c], |t|)
    ensures Front(t, p, cuts + [c]) == Front(t, p, cuts) + Blocks(Lines(t[LastCut(p, cuts)..c]))
    decreases |cuts|
  {
    hide Blocks, SplitOn;
    AscendingSnoc(p, cuts, c, |t|);
    if cuts == [] {
      assert [c][1..] == [];
      var none: seq<nat> := [];
      assert Front(t, c, none) == [];
    } else {
      AscendingBelow(p, cuts, |t|);
      assert (cuts + [c])[1..] == cuts[1..] + [c];
      FrontSnoc(t, cuts[0], cuts[1..], c);
      Associate(Blocks(Lines(t[p..cuts[0]])), Front(t, cuts[0], cuts[1..]), Blocks(Lines(t[LastCut(p, cuts)..c])));
    }
  }

  lemma Associate(x: seq<Block>, y: seq<Block>, z: seq<Block>)
    ensures x + (y + z) == (x + y) + z
  {
  }

  lemma {:induction false} FrontPieces(t: string, p: nat, cuts: seq<nat>)
    requires Ascending(p, cuts, |t|)
    ensures LastCut(p, cuts) <= |t| && Pieces(t, p, cuts) == Front(t, p, cuts) + Blocks(Lines(t[LastCut(p, cuts)..]))
    decreases |cuts|
  {
    hide Blocks, SplitOn;
    if cuts != [] {
      AscendingBelow(p, cuts, |t|);
      FrontPieces(t, cuts[0], cuts[1..]);
      Associate(Blocks(Lines(t[p..cuts[0]])), Front(t, cuts[0], cuts[1..]), Blocks(Lines(t[LastCut(p, cuts)..])));
    }
  }

  /** Where the splitter cuts a frame, the final text has a proper cut. */
  lemma FrameProper(frame: string, t: string)
    requires frame <= t && WellFenced(false, Lines(t)) && Completed(frame) != ""
    ensures Completed(frame) <= frame && Proper(t, |Completed(frame)|)
  {
    hide Blank, FenceMark, FenceCloser, FenceOpener, Fence, WellFenced, SplitOn, StableCount;
    var ls := Lines(frame);
    var k := StableCount(false, ls);
    var c := Completed(frame);
    SplitterLaws(frame);
    assert t[..|c|] == c;
    CompletedLines(frame);
    FencedFrame(frame, t);
    if k > 0 { StableLast(false, ls); }
    if k < |ls| {
      assert ls[..|ls| - 1] == ls[..k] + ls[k..|ls| - 1];
      FenceAppend(false, ls[..k], ls[k..|ls| - 1]);
      assert (ls[..k] + [""])[..k] == ls[..k];
      EmptyTrims();
    } else {
      SplitThenJoin(frame, '\n');
      MarkStaysMark(LastLine(frame), Lines(t[|frame|..])[0]);
      if FenceMark(LastLine(frame)) { CloserSplits(LastLine(frame), Lines(t[|frame|..])[0]); }
    }
  }

  /** What a run has shown are the pieces up to its last cut, and each cut is proper. */
  ghost predicate ShownTo(t: string, cuts: seq<nat>, s: Stream) {
    Ascending(0, cuts, |t|) && LastCut(0, cuts) == s.rendered <= |t|
    && AllProper(t, 0, cuts) && Shown(s.slices) == Front(t, 0, cuts)
  }

  lemma ShownNext(t: string, cuts: seq<nat>, s: Stream, c: nat, tail: string)
    requires ShownTo(t, cuts, s) && s.rendered < c <= |t| && Proper(t, c) && '\r' !in t
    ensures ShownTo(t, cuts + [c], Stream(c, Append(s.slices, t[s.rendered..c]), tail))
  {
    hide Proper, Blocks, Render, Lines, Append, Shown, Front, Ascending;
    var slice := t[s.rendered..c];
    ShownAppend(s.slices, slice);
    RenderFolded(slice);
    FrontSnoc(t, 0, cuts, c);
    assert t[0..] == t;
  }

  lemma {:induction false} ShownFront(frames: seq<string>, final: string)
    requires PrefixesOf(frames, final) && WellFenced(false, Lines(Normalise(final)))
    ensures ShownTo(Normalise(final), Cuts(frames), Updates(frames))
  {
    hide Completed, Pending, Normalise, Proper, WellFenced, Render, Lines, Append, ShownTo;
    var t := Normalise(final);
    if frames == [] {
      NothingShown(t);
    } else {
      var n := |frames| - 1;
      var s, frame := Updates(frames[..n]), Normalise(frames[n]);
      ShownFront(frames[..n], final);
      NormaliseMonotone(frames[n], final[|frames[n]|..]);
      assert final == frames[n] + final[|frames[n]|..];
      var completed := Completed(frame);
      if |completed| > s.rendered {
        FrameProper(frame, t);
        NormalisedHasNoCr(final);
        assert completed == t[..|completed|] && completed[s.rendered..] == t[s.rendered..|completed|];
        ShownNext(t, Cuts(frames[..n]), s, |completed|, Pending(frame));
      } else {
        SameTo(t, Cuts(frames[..n]), s, Pending(frame));
      }
    }
  }

  lemma NothingShown(t: string)
    ensures ShownTo(t, [], START)
  {
  }

  lemma SameTo(t: string, cuts: seq<nat>, s: Stream, tail: string)
    requires ShownTo(t, cuts, s)
    ensures ShownTo(t, cuts, s.(tail := tail))
  {
  }

  /** Streaming any frames of a fence-well-formed final text shows the blocks of one rendering of the
      whole exactly when, in the whole text, a block begins at every place the stream was cut. */
  lemma StreamingExact(frames: seq<string>, final: string)
    requires PrefixesOf(frames, final) && WellFenced(false, Lines(Normalise(final)))
    ensures forall c :: c in Cuts(frames) ==> c <= |Normalise(final)|
    ensures Shown(FinishStep(Updates(frames), final).slices) == Render(final)
            <==> forall c :: c in Cuts(frames) ==> Begins(Lines(Normalise(final)), Opening(Normalise(final), c))
  {
    hide Normalise, Proper, WellFenced, Blocks, Lines, Updates, Begins, Opening, Cuts, Append;
    var s, t, cuts := Updates(frames), Normalise(final), Cuts(frames);
    ShownFront(frames, final);
    NormalisedHasNoCr(final);
    ShownAppend(s.slices, t[s.rendered..]);
    RenderFolded(t[s.rendered..]);
    FrontPieces(t, 0, cuts);
    PiecesExact(t, 0, cuts);
    assert t[0..] == t;
    assert Render(final) == Blocks(Lines(t));
    if forall c :: c in cuts ==> Begins(Lines(t), Opening(t, c)) {
      forall i | 0 <= i < |cuts| ensures Begins(Lines(t[0..]), Opening(t[0..], cuts[i] - 0)) {
        assert cuts[i] in cuts;
      }
    }
  }

  // ---- frames that settle -------------------------------------------------------------------------------

  lemma CloserBegun(a: seq<string>, l: string, b: seq<string>)
    requires WellFenced(false, a) && Fence(false, a) && FenceCloser(l)
    ensures Begins(a + ([l] + b), |a| + 1)
  {
    hide Blank, FenceMark, FenceCloser, Fence, WellFenced, Begins, Blocks;
    EmptyTrims();
    CloserCut(a, l, "", b);
    assert l + "" == l;
  }

  lemma BlankBegun(a: seq<string>, l: string, b: seq<string>)
    requires WellFenced(false, a) && !Fence(false, a) && Blank(l)
    ensures Begins(a + ([l] + b), |a| + 1)
  {
    hide Blank, FenceMark, FenceCloser, Fence, WellFenced, Begins, Blocks;
    CutExact(a, [l] + b);
    BeginsShift(a, [l] + b, 1);
    BeginsAtZero(b);
    BlankBegins(l, b, 0);
  }

  /** A block begins after a line that seals. */
  lemma SealBegins(a: seq<string>, l: string, b: seq<string>)
    requires WellFenced(false, a) && Seals(Fence(false, a), l)
    ensures Begins((a + [l]) + b, |a| + 1)
  {
    hide Blank, FenceMark, FenceCloser, Fence, WellFenced, Begins;
    Regroup(a, l, b);
    if Fence(false, a) { CloserBegun(a, l, b); } else { BlankBegun(a, l, b); }
  }

  /** Where a settled frame was cut, a block of the final text begins. */
  lemma SettledBegins(frame: string, t: string)
    requires frame <= t && Settled(frame, t) && WellFenced(false, Lines(t)) && Completed(frame) != ""
    ensures Completed(frame) <= frame && Begins(Lines(t), Opening(t, |Completed(frame)|))
  {
    hide Blank, FenceMark, FenceCloser, FenceOpener, Fence, WellFenced, SplitOn, StableCount, Begins, Completed, Proper, Above, Left, Right, Below, Opening;
    FrameProper(frame, t);
    var p := |Completed(frame)|;
    LinesAt(t, p);
    ProperSides(t, p);
    var a, l, x, b := Above(t, p), Left(t, p), Right(t, p), Below(t, p);
    assert WellFenced(false, a) by { ProperFenced(t, p); }
    if Fence(false, a) {
      ProperCloser(t, p);
      CloserCut(a, l, x, b);
    } else if Blank(l + x) {
      CutExact(a, [l + x] + b);
    } else {
      AfterSeal(frame, t);
      if a == [] {
        BeginsAtZero(Lines(t));
      } else {
        var n := |a| - 1;
        assert a == a[..n] + [a[n]];
        SealBegins(a[..n], a[n], [l + x] + b);
      }
    }
  }

  lemma ProperFenced(t: string, p: nat)
    requires p <= |t| && Proper(t, p)
    ensures WellFenced(false, Above(t, p))
  {
    hide WellFenced, Above, Left, Right, Fence;
  }

  lemma ProperCloser(t: string, p: nat)
    requires p <= |t| && Proper(t, p) && Fence(false, Above(t, p))
    ensures FenceCloser(Left(t, p)) && Blank(Right(t, p))
  {
    hide WellFenced, Above, Left, Right, Fence, FenceCloser, Blank;
  }

  /** A settled frame that is cut before a line with text is cut right after a sealing line. */
  lemma AfterSeal(frame: string, t: string)
    requires frame <= t && Settled(frame, t) && WellFenced(false, Lines(t)) && Completed(frame) != ""
    requires Completed(frame) <= frame
    requires var p := |Completed(frame)|; !Fence(false, Above(t, p)) && !Blank(Left(t, p) + Right(t, p)) && Blank(Left(t, p))
    ensures var a := Above(t, |Completed(frame)|);
            a != [] ==> WellFenced(false, a[..|a| - 1]) && Seals(Fence(false, a[..|a| - 1]), a[|a| - 1])
  {
    hide Blank, FenceMark, FenceCloser, FenceOpener, Fence, WellFenced, SplitOn, StableCount, Completed;
    var ls := Lines(frame);
    var k := StableCount(false, ls);
    var c := Completed(frame);
    assert t[..|c|] == c;
    CompletedLines(frame);
    FencedFrame(frame, t);
    if k < |ls| {
      assert (ls[..k] + [""])[..k] == ls[..k];
      if k > 0 {
        StableLast(false, ls);
        var d := ls[..|ls| - 1];
        assert d[..k - 1] == ls[..k - 1] && d[..k] == ls[..k];
        SealOf(d, k);
      }
    } else {
      BlankAppend(Left(t, |c|), Right(t, |c|));
      CompletedWhole(frame);
      var d := ls[..|ls| - 1];
      if d != [] {
        StableLast(false, d);
        assert d[..|d|] == d;
        SealOf(d, |d|);
      }
    }
  }

  lemma CompletedWhole(frame: string)
    requires StableCount(false, Lines(frame)) == |Lines(frame)|
    ensures Completed(frame) == frame
  {
    hide SplitOn, StableCount;
    SplitThenJoin(frame, '\n');
  }

  lemma SealOf(d: seq<string>, k: nat)
    requires 0 < k <= |d| && WellFenced(false, d) && StableLine(Fence(false, d[..k - 1]), d[k - 1])
    ensures WellFenced(false, d[..k][..k - 1]) && Seals(Fence(false, d[..k][..k - 1]), d[..k][k - 1])
  {
    hide Blank, FenceMark, FenceCloser, FenceOpener, Fence;
    assert d[..k][..k - 1] == d[..k - 1];
    assert d == d[..k - 1] + d[k - 1..];
    FenceAppend(false, d[..k - 1], d[k - 1..]);
  }

  /** For a fence-well-formed final text whose frames settle, the streamed blocks are those of one
      rendering of the whole text. */
  lemma StreamingAgrees(frames: seq<string>, final: string)
    requires PrefixesOf(frames, final) && AllSettled(frames, final)
    requires WellFenced(false, Lines(Normalise(final)))
    ensures Shown(FinishStep(Updates(frames), final).slices) == Render(final)
  {
    hide Normalise, WellFenced, Lines, Updates, FinishStep, Shown, Render, Begins, Opening, Cuts;
    StreamingExact(frames, final);
    CutsBegin(frames, final);
  }

  lemma {:induction false} CutsBegin(frames: seq<string>, final: string)
    requires PrefixesOf(frames, final) && AllSettled(frames, final)
    requires WellFenced(false, Lines(Normalise(final)))
    ensures forall c :: c in Cuts(frames) ==> c <= |Normalise(final)| && Begins(Lines(Normalise(final)), Opening(Normalise(final), c))
  {
    hide Normalise, WellFenced, Lines, Updates, Begins, Opening, Settled, Completed;
    if frames != [] {
      var n := |frames| - 1;
      CutsBegin(frames[..n], final);
      var frame := Normalise(frames[n]);
      if Completed(frame) != "" { SettledBegins(frame, Normalise(final)); }
    }
  }

  /** Frames that never end in a white-space-only line outside a fence settle in any text. */
  lemma StreamingAgreesUnlessBlank(frames: seq<string>, final: string)
    requires PrefixesOf(frames, final)
    requires forall i :: 0 <= i < |frames| ==> !EndsBlank(Normalise(frames[i]))
    requires WellFenced(false, Lines(Normalise(final)))
    ensures Shown(FinishStep(Updates(frames), final).slices) == Render(final)
  {
    hide Normalise, WellFenced, Blocks, Lines, Updates, EndsBlank, Rested, FinishStep, Shown, Render, Blank;
    forall i | 0 <= i < |frames| ensures Normalise(frames[i]) <= Normalise(final) {
      NormaliseMonotone(frames[i], final[|frames[i]|..]);
      assert final == frames[i] + final[|frames[i]|..];
    }
    StreamingAgrees(frames, final);
  }
}
