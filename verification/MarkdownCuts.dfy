/** Exactly which cuts between two lines outside a fence are harmless: those at which a block of the
    whole text begins. */
module MarkdownCuts {
  import opened Text
  import opened Markdown

  /** Rendering all of `lines` at once, a block begins, or the text ends, at line `k`. */
  predicate Begins(lines: seq<string>, k: nat)
    decreases |lines|
  {
    k == 0 || (lines != [] && Length(lines) <= k && Begins(lines[Length(lines)..], k - Length(lines)))
  }

  /** The first block of `a + b` is the first block of `a`, and what is left of `a` is as good. */
  predicate FirstStays(a: seq<string>, b: seq<string>)
    requires a != []
  {
    var n := Length(a);
    Length(a + b) == n && Content(a + b) == Content(a)
    && WellFenced(false, a[n..]) && !Fence(false, a[n..])
  }

  /** The first block of `a + b` is another one than that of `a`, as `b` goes on with it. */
  predicate FirstDiffers(a: seq<string>, b: seq<string>)
    requires a != []
  {
    b != [] && !Blank(b[0]) && |Content(a)| == 1 && |Content(a + b)| == 1 && Content(a + b) != Content(a)
    && !Begins(a + b, |a|)
  }

  lemma PlainFirst(a: seq<string>)
    requires a != [] && WellFenced(false, a) && KindOf(a) != KCode
    ensures !FenceMark(a[0]) && WellFenced(false, a[1..]) && Fence(false, a[1..]) == Fence(false, a)
  {
    hide Blank, FenceMark, FenceOpener, FenceCloser, KindOf;
    NotCode(a);
    BlankIsNoMark(a[0]);
  }

  /** The kinds that the first line alone decides, and the others if no table begins. */
  lemma KindOfPrefix(a: seq<string>, b: seq<string>)
    requires a != []
    ensures KindOf(a + b) == KindOf(a) || (KindOf(a + b) == KTable && |a| == 1 && b != [] && IsTableDivider(b[0])
              && KindOf(a) in {KQuote, KUnordered, KOrdered, KParagraph})
  {
    hide Blank, FenceOpener, HeadingText, IsRule, IsTableDivider, QuoteLine, UnorderedLine, OrderedLine;
    var x := a + b;
    assert x[0] == a[0];
    if |a| > 1 { assert x[1] == a[1]; }
    if |a| == 1 && b != [] { assert x[1] == b[0]; }
  }

  lemma SingleStays(a: seq<string>, b: seq<string>)
    requires a != [] && WellFenced(false, a) && !Fence(false, a) && KindOf(a + b) == KindOf(a)
    requires KindOf(a) in {KBlank, KHeading, KRule}
    ensures FirstStays(a, b)
  {
    hide Blank, FenceMark, FenceOpener, FenceCloser, HeadingText, IsRule, IsTableDivider, KindOf, Fence, WellFenced;
    PlainFirst(a);
    assert (a + b)[0] == a[0];
  }

  lemma CodeStays(a: seq<string>, b: seq<string>)
    requires a != [] && WellFenced(false, a) && !Fence(false, a) && KindOf(a + b) == KindOf(a) == KCode
    ensures FirstStays(a, b)
  {
    hide Blank, FenceMark, FenceOpener, FenceCloser, KindOf, CodeLine, TrimStart, Language, HeadingText, Run;
    CodeFirst(a);
    CodeKeepsFence(a[1..]);
    var c := a[1..];
    var n := Run(c, CodeLine);
    RunPrefix(c, b, CodeLine);
    CodeShape(a);
    CodeShape(a + b);
    assert (a + b)[1..] == c + b && (a + b)[0] == a[0];
    assert (a + b)[1..1 + n] == a[1..1 + n];
    assert c[n + 1..] == a[n + 2..];
  }

  lemma CodeFirst(a: seq<string>)
    requires a != [] && WellFenced(false, a) && KindOf(a) == KCode
    ensures WellFenced(true, a[1..]) && Fence(true, a[1..]) == Fence(false, a)
  {
    hide Blank, FenceCloser, HeadingText, IsRule, IsTableDivider, TrimStart;
  }

  lemma {:induction false} RunOn(c: seq<string>, b: seq<string>, p: string -> bool)
    requires Run(c, p) == |c| && b != [] && p(b[0])
    ensures Run(c + b, p) > |c|
  {
    if c == [] {
      assert c + b == b;
    } else {
      assert (c + b)[1..] == c[1..] + b;
      RunOn(c[1..], b, p);
    }
  }

  lemma SpanFirst(a: seq<string>, b: seq<string>, p: string -> bool)
    requires a != [] && WellFenced(false, a) && !Fence(false, a) && KindOf(a + b) == KindOf(a)
    requires Rejects(p) && forall l :: p(l) ==> !Blank(l)
    requires match KindOf(a)
             case KQuote => p == QuoteLine
             case KUnordered => p == UnorderedLine
             case KOrdered => p == OrderedLine
             case _ => false
    ensures FirstStays(a, b) || FirstDiffers(a, b)
  {
    hide Blank, FenceMark, FenceOpener, FenceCloser, HeadingText, IsRule, IsTableDivider, QuoteLine,
      UnorderedLine, OrderedLine, KindOf, Fence, WellFenced, Rejects, Run, QuoteText, UnorderedItem, NumberedText;
    var n := Run(a, p);
    if n < |a| || b == [] || !p(b[0]) {
      if b == [] { assert a + b == a; }
      RunPrefix(a, b, p);
      RunKeepsFence(a, p);
      assert (a + b)[..n] == a[..n];
    } else {
      RunOn(a, b, p);
    }
  }

  lemma TableFirst(a: seq<string>, b: seq<string>)
    requires |a| >= 2 && WellFenced(false, a) && !Fence(false, a) && KindOf(a + b) == KindOf(a) == KTable
    ensures FirstStays(a, b) || FirstDiffers(a, b)
  {
    hide Blank, FenceMark, FenceOpener, FenceCloser, HeadingText, IsRule, IsTableDivider, QuoteLine,
      UnorderedLine, OrderedLine, KindOf, Fence, WellFenced, Rejects, Run, SplitTableRow, Content;
    var c := a[2..];
    var n := Run(c, RowLine);
    TableShape(a);
    TableShape(a + b);
    assert (a + b)[2..] == c + b && (a + b)[0] == a[0];
    if n < |c| || b == [] || !RowLine(b[0]) {
      if b == [] { assert c + b == c; }
      RunPrefix(c, b, RowLine);
      TableFence(a);
      assert (a + b)[2..2 + n] == a[2..2 + n];
    } else {
      RunOn(c, b, RowLine);
      assert Length(a + b) > |a|;
      LongerTable(a, a + b);
    }
  }

  lemma LongerTable(a: seq<string>, x: seq<string>)
    requires a != [] && x != [] && KindOf(a) == KindOf(x) == KTable && Length(a) != Length(x)
    ensures |Content(a)| == |Content(x)| == 1 && Content(a) != Content(x)
  {
    hide Length, KindOf, SplitTableRow;
    TableShape(a);
    TableShape(x);
    assert |Content(a)[0].rows| == Length(a) - 2;
    assert |Content(x)[0].rows| == Length(x) - 2;
  }

  lemma TableFence(a: seq<string>)
    requires |a| >= 2 && WellFenced(false, a) && !Fence(false, a) && KindOf(a) == KTable
    ensures var r := a[2 + Run(a[2..], RowLine)..]; WellFenced(false, r) && !Fence(false, r)
  {
    hide Blank, FenceMark, FenceOpener, FenceCloser, IsTableDivider, KindOf, RowLine, Run;
    PlainFirst(a);
    NotCode(a);
    if FenceMark(a[1]) { DividerIsPlain(a[1]); }
    assert a[1..][1..] == a[2..];
    RejectMarks();
    RunKeepsFence(a[2..], RowLine);
    assert a[2..][Run(a[2..], RowLine)..] == a[2 + Run(a[2..], RowLine)..];
  }

  /** A lone line becomes a table head when a divider follows. */
  lemma HeadFirst(a: seq<string>, b: seq<string>)
    requires |a| == 1 && b != [] && IsTableDivider(b[0]) && KindOf(a + b) == KTable
    requires KindOf(a) in {KQuote, KUnordered, KOrdered, KParagraph}
    ensures FirstDiffers(a, b)
  {
    hide Blank, FenceMark, FenceOpener, HeadingText, IsRule, IsTableDivider, KindOf, QuoteLine, UnorderedLine, OrderedLine;
    TableShape(a + b);
    if Blank(b[0]) { DividerIsPlain(b[0]); }
  }

  /** A paragraph that stops early in the longer text does so before a table head at the cut. */
  lemma {:induction false} ParagraphPrefix(c: seq<string>, b: seq<string>)
    ensures var k, m := ParagraphRun(c), ParagraphRun(c + b);
            m == k || (k == |c| && b != [] && !Blank(b[0])
                       && (m > |c| || (m + 1 == |c| && TableHead((c + b)[m..]) && !EndsParagraph(c[m..]))))
  {
    hide Blank, FenceMark, HeadingMark, QuoteLine, UnorderedMark, OrderedMark, IsRule, IsTableDivider;
    if c == [] {
      assert c + b == b;
    } else {
      var x := c + b;
      assert x[0] == c[0] && x[1..] == c[1..] + b;
      if |c| > 1 { assert x[1] == c[1]; }
      ParagraphPrefix(c[1..], b);
      if EndsParagraph(x) && !EndsParagraph(c) {
        assert |c| == 1 && x[1] == b[0];
        assert x[0..] == x && c[0..] == c;
        if Blank(b[0]) { DividerIsPlain(b[0]); }
      } else if !EndsParagraph(x) {
        var m := ParagraphRun(c[1..] + b);
        if m < |c| - 1 {
          assert x[1 + m..] == (c[1..] + b)[m..];
          assert c[1 + m..] == c[1..][m..];
        }
      }
    }
  }

  lemma SpacedBegins(s: string)
    ensures SpacedText(s).Some? ==> s != "" && IsSpace(s[0])
  {
    hide IsSpace, HasTerminator;
    if s == "" || !IsSpace(s[0]) { assert Indent(s) == 0 && TrimStart(s) == s; }
  }

  /** A line that begins a code block or a heading stops a paragraph. */
  lemma MarksStop(l: string)
    ensures (FenceOpener(l) ==> FenceMark(l)) && (HeadingText(l).Some? ==> HeadingMark(l))
  {
    hide IsSpace, SpacedText, TrimStart;
    var t := TrimStart(l);
    var n := Leading(t, IsHash);
    SpacedBegins(t[n..]);
  }

  lemma TableAfterParagraph(c: seq<string>, x: seq<string>)
    requires c != [] && x != [] && x[0] == c[0] && TableHead(x) && !EndsParagraph(c)
    ensures KindOf(x) == KTable && Length(x) >= 2
  {
    hide Blank, FenceMark, FenceOpener, HeadingText, HeadingMark, IsTableDivider, IsRule, QuoteLine, UnorderedLine,
      UnorderedMark, OrderedLine, OrderedMark, Run;
    MarksStop(c[0]);
  }

  lemma LongerParagraph(a: seq<string>, x: seq<string>)
    requires a != [] && x != [] && KindOf(a) == KindOf(x) == KParagraph && Length(a) != Length(x)
    ensures |Content(a)| == |Content(x)| == 1 && Content(a) != Content(x)
  {
    hide Length, KindOf, Trim;
    assert Content(a)[0] == Paragraph(Map(Trim, a[..Length(a)]));
    assert Content(x)[0] == Paragraph(Map(Trim, x[..Length(x)]));
  }

  lemma ParagraphFirst(a: seq<string>, b: seq<string>)
    requires a != [] && WellFenced(false, a) && !Fence(false, a) && KindOf(a + b) == KindOf(a) == KParagraph
    ensures FirstStays(a, b) || FirstDiffers(a, b)
  {
    hide Blank, FenceMark, FenceOpener, FenceCloser, HeadingText, IsRule, IsTableDivider, TableHead, EndsParagraph,
      KindOf, Fence, WellFenced, ParagraphRun, Trim;
    var c, x := a[1..], a + b;
    assert x[1..] == c + b;
    ParagraphPrefix(c, b);
    var k, m := ParagraphRun(c), ParagraphRun(c + b);
    if m == k {
      PlainFirst(a);
      ParagraphKeepsFence(c);
      assert c[k..] == a[1 + k..];
      assert x[..1 + k] == a[..1 + k];
    } else {
      assert Length(a) == 1 + k && Length(x) == 1 + m;
      if m < |c| {
        assert (c + b)[m..] == x[1 + m..];
        TableAfterParagraph(c[m..], x[1 + m..]);
        assert !Begins(x[1 + m..], 1);
      }
      assert !Begins(x, |a|);
      LongerParagraph(a, x);
    }
  }

  lemma First(a: seq<string>, b: seq<string>)
    requires a != [] && WellFenced(false, a) && !Fence(false, a)
    ensures FirstStays(a, b) || FirstDiffers(a, b)
  {
    hide Blank, FenceMark, FenceOpener, FenceCloser, HeadingText, IsRule, IsTableDivider, QuoteLine,
      UnorderedLine, OrderedLine, KindOf, Fence, WellFenced, FirstStays, FirstDiffers, RowLine;
    KindOfPrefix(a, b);
    RejectMarks();
    SpansAreNotBlank();
    if KindOf(a + b) != KindOf(a) {
      HeadFirst(a, b);
    } else {
      match KindOf(a) {
        case KCode => CodeStays(a, b);
        case KTable => TableShape(a); TableFirst(a, b);
        case KQuote => SpanFirst(a, b, QuoteLine);
        case KUnordered => SpanFirst(a, b, UnorderedLine);
        case KOrdered => SpanFirst(a, b, OrderedLine);
        case KParagraph => ParagraphFirst(a, b);
        case _ => SingleStays(a, b);
      }
    }
  }

  lemma SpansAreNotBlank()
    ensures forall l :: QuoteLine(l) || UnorderedLine(l) || OrderedLine(l) ==> !Blank(l)
  {
    hide QuoteLine, UnorderedLine, OrderedLine, Blank, FenceMark, RowLine;
    forall l | QuoteLine(l) || UnorderedLine(l) || OrderedLine(l) ensures !Blank(l) {
      if Blank(l) { StopsBlocks(l); }
    }
  }

  /** Cut a text between two lines, with fences closed before the cut: rendering the two parts
      gives the blocks of the whole exactly when a block of the whole begins at the cut. */
  lemma {:induction false} CutExact(a: seq<string>, b: seq<string>)
    requires WellFenced(false, a) && !Fence(false, a)
    ensures Blocks(a + b) == Blocks(a) + Blocks(b) <==> Begins(a + b, |a|)
    ensures b == [] || Blank(b[0]) ==> Begins(a + b, |a|)
    decreases |a|
  {
    hide Blank, FenceMark, KindOf, Fence, WellFenced, Length, Content;
    if a == [] {
      assert a + b == b;
    } else {
      First(a, b);
      var x, n := a + b, Length(a);
      if FirstStays(a, b) {
        assert x[n..] == a[n..] + b;
        CutExact(a[n..], b);
        SameFront(Content(a), Blocks(x[n..]), Blocks(a[n..]), Blocks(b));
      } else {
        assert Blocks(x)[0] == Content(x)[0];
        assert (Blocks(a) + Blocks(b))[0] == Content(a)[0];
      }
    }
  }

  lemma SameFront(c: seq<Block>, x: seq<Block>, y: seq<Block>, z: seq<Block>)
    ensures c + x == (c + y) + z <==> x == y + z
  {
    if c + x == (c + y) + z {
      assert x == (c + x)[|c|..];
      assert y + z == ((c + y) + z)[|c|..];
    }
  }
}
