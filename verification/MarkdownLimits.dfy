/** Families of texts on which streaming and one rendering disagree: each premise of
    `MarkdownExact.StreamingAgrees` is needed. */
module MarkdownLimits {
  import opened Text
  import opened Markdown
  import opened MarkdownStream

  /** One line of text, as the splitter and the renderer see it. */
  predicate OneLineText(l: string) {
    '\n' !in l && '\r' !in l
  }

  /** A line that can only be part of a paragraph. */
  predicate PlainLine(l: string) {
    OneLineText(l) && '|' !in l && !IsTableDivider(l) && KindOf([l]) == KParagraph && !EndsParagraph([l])
  }

  lemma PlainLineFacts(l: string, rest: seq<string>)
    requires PlainLine(l)
    ensures KindOf([l] + rest) == KParagraph && !EndsParagraph([l] + rest) && !Blank(l) && !FenceMark(l)
  {
    hide Blank, FenceMark, FenceOpener, HeadingText, HeadingMark, IsRule, IsTableDivider, QuoteLine,
      UnorderedLine, UnorderedMark, OrderedLine, OrderedMark;
    assert ([l] + rest)[0] == l == [l][0];
  }

  lemma {:induction false} JoinLacks(parts: seq<string>, c: char)
    requires c != '\n' && forall i :: 0 <= i < |parts| ==> c !in parts[i]
    ensures c !in Unlines(parts)
  {
    if |parts| > 1 { JoinLacks(parts[1..], c); }
  }

  /** One update and then the end: two slices, cut where the splitter cut. */
  lemma OneUpdate(frame: string, final: string)
    requires frame <= final
    ensures var t, c := Normalise(final), Completed(Normalise(frame));
            |c| <= |t| && Shown(FinishStep(Updates([frame]), final).slices) == Render(c) + Render(t[|c|..])
  {
    hide Completed, Pending, Normalise, Render, Shown, Append;
    var t, c := Normalise(final), Completed(Normalise(frame));
    NormaliseMonotone(frame, final[|frame|..]);
    assert final == frame + final[|frame|..];
    SplitterLaws(Normalise(frame));
    assert [frame][..0] == [] && Updates([]) == START;
    assert Updates([frame]) == UpdateStep(START, frame);
    EmptyShown();
    ShownAppend([], c);
    var s := Updates([frame]);
    if c == "" {
      assert t[0..] == t;
      NothingRenders();
    } else {
      assert c[0..] == c;
    }
    ShownAppend(s.slices, t[|c|..]);
  }

  lemma EmptyShown()
    ensures Shown([]) == [] && Append([], "") == []
  {
  }

  /** Rendering a text given by its lines. */
  lemma RenderLines(ls: seq<string>)
    requires ls != [] && forall i :: 0 <= i < |ls| ==> OneLineText(ls[i])
    ensures Normalise(Unlines(ls)) == Unlines(ls) && Lines(Unlines(ls)) == ls && Render(Unlines(ls)) == Blocks(ls)
  {
    JoinLacks(ls, '\r');
    JoinThenSplit(ls, '\n');
    NormaliseFixed(Unlines(ls));
  }

  lemma ParagraphBlocks(u: string, v: string)
    requires PlainLine(u) && PlainLine(v)
    ensures |Blocks([u])| == 1 && |Blocks([u, ""])| == 1 && |Blocks([u, v])| == 1
  {
    hide KindOf, EndsParagraph, PlainLine, Length, Content, Blocks;
    PlainLineFacts(v, []);
    EmptyEnds();
    NothingRenders();
    var none: seq<string> := [];
    assert [u] == [u] + (none + none) && [u, ""] == [u] + (none + [""]) && [u, v] == [u] + ([v] + none);
    NoBlocks();
    OneParagraph(u, none, none);
    OneParagraph(u, none, [""]);
    OneParagraph(u, [v], none);
  }

  lemma NoBlocks()
    ensures Blocks([]) == []
  {
  }

  /** A plain line, perhaps a second, and then the end or a blank line: one block. */
  lemma OneParagraph(u: string, more: seq<string>, rest: seq<string>)
    requires PlainLine(u) && |more| <= 1 && (rest == [] || EndsParagraph(rest)) && Blocks(rest) == []
    requires more == [] || !EndsParagraph(more + rest)
    ensures |Blocks([u] + (more + rest))| == 1
  {
    hide KindOf, EndsParagraph, PlainLine;
    var ls := [u] + (more + rest);
    PlainLineFacts(u, more + rest);
    assert ls[1..] == more + rest;
    if more != [] {
      assert (more + rest)[1..] == rest;
      assert ParagraphRun(more + rest) == 1 + ParagraphRun(rest);
    } else {
      assert more + rest == rest;
    }
    assert ParagraphRun(rest) == 0;
    assert Length(ls) == 1 + |more|;
    assert ls[1 + |more|..] == rest;
  }

  lemma EmptyEnds()
    ensures EndsParagraph([""])
  {
    EmptyTrims();
  }

  /** The premise on frames is needed: any frame that ends in the newline between two lines of
      one paragraph is cut there, and the paragraph comes out as two. */
  lemma BlankFrameDisagrees(u: string, v: string)
    requires PlainLine(u) && PlainLine(v)
    ensures var frame, final := Unlines([u, ""]), Unlines([u, v]);
            frame <= final && WellFenced(false, Lines(Normalise(final))) && EndsBlank(Normalise(frame))
            && Shown(FinishStep(Updates([frame]), final).slices) != Render(final)
  {
    hide PlainLine, WellFenced, EndsBlank, Render, Blocks, Shown, Updates, Completed, FinishStep,
      Normalise, SplitOn, OneLineText, Blank, FenceMark;
    var frame, final := Unlines([u, ""]), Unlines([u, v]);
    PlainLineFacts(u, []);
    PlainLineFacts(v, []);
    PlainIsOneLine(u);
    PlainIsOneLine(v);
    EmptyIsOneLine();
    SingleJoin(v);
    assert [u] + [v] == [u, v] && [u] + [""] == [u, ""];
    JoinCut([u], [v], '\n');
    RenderLines([u, ""]);
    RenderLines([u, v]);
    RenderLines([v]);
    OneUpdate(frame, final);
    PlainScan(u, v);
    assert Completed(frame) == frame;
    ParagraphBlocks(u, v);
    ParagraphBlocks(v, u);
  }

  lemma PlainIsOneLine(l: string)
    requires PlainLine(l)
    ensures OneLineText(l)
  {
  }

  lemma PlainScan(u: string, v: string)
    requires !Blank(u) && !FenceMark(u) && !Blank(v) && !FenceMark(v)
    requires Lines(Unlines([u, ""])) == [u, ""]
    ensures Completed(Unlines([u, ""])) == Unlines([u, ""]) && EndsBlank(Unlines([u, ""]))
    ensures WellFenced(false, [u, v])
  {
    hide Blank, FenceMark, SplitOn;
    EmptyLine(false);
    EmptyTrims();
    assert [u, ""][1..] == [""] && [u, v][1..] == [v] && [v][1..] == [];
    assert WellFenced(false, [v]);
    assert [u, ""][..1] == [u] && [u][1..] == [];
    assert Fence(false, [u]) == Fence(false, []);
  }

  /** The premise on fences is needed: a marked line inside an open fence closes it for the
      splitter and is code for the renderer. */
  lemma IllFencedDisagrees(m: string, n: string, w: string)
    requires OneLineText(m) && !Blank(m) && FenceOpener(m)
    requires OneLineText(n) && FenceMark(n) && !FenceCloser(n)
    requires PlainLine(w)
    ensures var text := Unlines([m, n, "", w]);
            !EndsBlank(Normalise(text)) && !WellFenced(false, Lines(Normalise(text)))
            && Shown(FinishStep(Updates([text]), text).slices) != Render(text)
  {
    hide PlainLine, WellFenced, EndsBlank, Render, Blocks, Shown, Updates, Completed, FinishStep, FenceOpener, FenceMark,
      FenceCloser, JoinWith, Normalise, Lines, SplitOn, OneLineText, Blank;
    var text := Unlines([m, n, "", w]);
    PlainIsOneLine(w);
    PlainLineFacts(w, []);
    EmptyIsOneLine();
    RenderLines([m, n, "", w]);
    RenderLines([m, n, "", ""]);
    RenderLines([w]);
    SingleJoin(w);
    assert [m, n, "", w] == [m, n, ""] + [w] && [m, n, "", ""] == [m, n, ""] + [""];
    JoinCut([m, n, ""], [w], '\n');
    OneUpdate(text, text);
    IllFencedScan(m, n, w);
    CodeBlocks(m, n, w);
    EmptyCode();
    CodeBlocks(m, n, "");
    ParagraphBlocks(w, w);
  }

  lemma EmptyIsOneLine()
    ensures OneLineText("")
  {
  }

  lemma SingleJoin(w: string)
    ensures Unlines([w]) == w
  {
  }

  lemma EmptyCode()
    ensures !FenceCloser("")
  {
    EmptyTrims();
  }

  lemma CodeBlocks(m: string, n: string, w: string)
    requires !Blank(m) && FenceOpener(m) && !FenceCloser(n) && !FenceCloser(w)
    ensures |Blocks([m, n, "", w])| == 1
  {
    hide FenceOpener, FenceCloser, Blank, Language;
    EmptyCode();
    var ls := [m, n, "", w];
    assert ls[1..] == [n, "", w] && [n, "", w][1..] == ["", w] && ["", w][1..] == [w] && [w][1..] == [];
    assert Run([], CodeLine) == 0 && Run([w], CodeLine) == 1 && Run(["", w], CodeLine) == 2;
    assert Run(ls[1..], CodeLine) == 3;
    assert KindOf(ls) == KCode && Length(ls) == 4 && Blocks(ls[4..]) == [];
  }

  lemma IllFencedScan(m: string, n: string, w: string)
    requires FenceOpener(m) && FenceMark(n) && !FenceCloser(n) && !Blank(w) && !FenceMark(w)
    requires Lines(Unlines([m, n, "", w])) == [m, n, "", w]
    ensures var text := Unlines([m, n, "", w]);
            Completed(text) == Unlines([m, n, "", ""]) && !EndsBlank(text) && !WellFenced(false, [m, n, "", w])
            && !FenceCloser(w)
  {
    hide Blank, FenceMark, SplitOn, JoinWith;
    EmptyCode();
    EmptyTrims();
    BlankIsNoMark("");
    var ls := [m, n, "", w];
    assert ls[1..] == [n, "", w] && [n, "", w][1..] == ["", w] && ["", w][1..] == [w] && [w][1..] == [];
    assert StableCount(false, []) == 0 && StableCount(false, [w]) == 0 && StableCount(false, ["", w]) == 1;
    assert StableCount(true, [n, "", w]) == 2;
    assert StableCount(false, ls) == 3;
    assert ls[..3] + [""] == [m, n, "", ""];
    assert !WellFenced(true, [n, "", w]);
  }

  /** The premise that openers have no bar is needed: in the body of a table a marked line with a bar
      opens a fence for the splitter and is a row for the renderer. */
  lemma BarredOpenerDisagrees(h: string, d: string, m: string, c: string, w: string)
    requires OneLineText(h) && OneLineText(d) && KindOf([h, d]) == KTable && !FenceMark(h)
    requires OneLineText(m) && FenceOpener(m) && RowLine(m)
    requires OneLineText(c) && FenceOpener(c) && FenceCloser(c)
    requires PlainLine(w)
    ensures var text := Unlines([h, d, m, c, w]);
            !EndsBlank(Normalise(text)) && !WellFenced(false, Lines(Normalise(text)))
            && Shown(FinishStep(Updates([text]), text).slices) != Render(text)
  {
    hide PlainLine, WellFenced, EndsBlank, Render, Blocks, Shown, Updates, Completed, FinishStep, FenceOpener, FenceMark,
      FenceCloser, JoinWith, Normalise, Lines, SplitOn, OneLineText, Blank, KindOf, RowLine;
    var text := Unlines([h, d, m, c, w]);
    PlainIsOneLine(w);
    PlainLineFacts(w, []);
    EmptyIsOneLine();
    EmptyCode();
    RenderLines([h, d, m, c, w]);
    RenderLines([h, d, m, c, ""]);
    RenderLines([w]);
    SingleJoin(w);
    assert [h, d, m, c, w] == [h, d, m, c] + [w] && [h, d, m, c, ""] == [h, d, m, c] + [""];
    JoinCut([h, d, m, c], [w], '\n');
    OneUpdate(text, text);
    HeadIsPlain(h, d);
    BarredScan(h, d, m, c, w);
    TwoBlocks(h, d, m, c, w);
    TwoBlocks(h, d, m, c, "");
    ParagraphBlocks(w, w);
  }

  lemma HeadIsPlain(h: string, d: string)
    requires KindOf([h, d]) == KTable
    ensures !Blank(h) && '|' in h && IsTableDivider(d) && !FenceMark(d) && !Blank(d)
  {
    hide Blank, FenceMark, FenceOpener, HeadingText, IsRule, IsTableDivider, QuoteLine, UnorderedLine, OrderedLine;
    if Blank(d) || FenceMark(d) { DividerIsPlain(d); }
  }

  lemma BarredScan(h: string, d: string, m: string, c: string, w: string)
    requires !Blank(h) && !FenceMark(h) && !Blank(d) && !FenceMark(d) && FenceOpener(m) && RowLine(m)
    requires FenceCloser(c) && !Blank(w) && !FenceMark(w)
    requires Lines(Unlines([h, d, m, c, w])) == [h, d, m, c, w]
    ensures var text := Unlines([h, d, m, c, w]);
            Completed(text) == Unlines([h, d, m, c, ""]) && !EndsBlank(text) && !WellFenced(false, [h, d, m, c, w])
            && !FenceCloser(w)
  {
    hide Blank, FenceMark, SplitOn, JoinWith;
    BlankIsNoMark(m);
    var ls := [h, d, m, c, w];
    assert ls[1..] == [d, m, c, w] && [d, m, c, w][1..] == [m, c, w] && [m, c, w][1..] == [c, w] && [c, w][1..] == [w] && [w][1..] == [];
    assert FenceMark(m) && FenceMark(c);
    assert StableCount(false, []) == 0 && StableCount(false, [w]) == 0 && StableCount(true, [c, w]) == 1;
    assert StableCount(false, [m, c, w]) == 2;
    assert StableCount(false, [d, m, c, w]) == 3;
    assert StableCount(false, ls) == 4;
    assert ls[..4] + [""] == [h, d, m, c, ""];
    assert !WellFenced(false, [m, c, w]);
    assert !WellFenced(false, [d, m, c, w]);
  }

  /** The table takes the marked line; the bare fence opens a code block with what follows. */
  lemma TwoBlocks(h: string, d: string, m: string, c: string, x: string)
    requires KindOf([h, d]) == KTable && RowLine(m) && FenceOpener(c) && FenceCloser(c) && !FenceCloser(x)
    ensures |Blocks([h, d, m, c, x])| == 2
  {
    hide FenceOpener, FenceCloser, FenceMark, Blank, IsTableDivider, KindOf, RowLine, Language, SplitTableRow, HeadingText;
    var ls := [h, d, m, c, x];
    KindDepends([h, d], ls);
    CloserHasNoBar(c);
    NoBarNoRow(c);
    assert ls[2..] == [m, c, x] && [m, c, x][1..] == [c, x];
    assert Run([c, x], RowLine) == 0 && Run(ls[2..], RowLine) == 1;
    TableShape(ls);
    assert ls[3..] == [c, x];
    FenceIsCode(c, x);
    assert [c, x][1..] == [x] && [x][1..] == [];
    assert Run([], CodeLine) == 0 && Run([x], CodeLine) == 1;
    CodeShape([c, x]);
    assert [c, x][2..] == [];
    assert Blocks([c, x][2..]) == [];
  }

  lemma NoBarNoRow(c: string)
    requires '|' !in c
    ensures !RowLine(c)
  {
  }

  lemma FenceIsCode(c: string, x: string)
    requires FenceOpener(c)
    ensures KindOf([c, x]) == KCode
  {
    hide Blank, FenceMark;
    BlankIsNoMark(c);
  }

  /** The families are not empty. */
  lemma FamiliesInhabited()
    ensures PlainLine("a")
    ensures OneLineText("```") && !Blank("```") && FenceOpener("```")
    ensures OneLineText("```a") && FenceMark("```a") && !FenceCloser("```a")
    ensures OneLineText("|") && OneLineText("---") && KindOf(["|", "---"]) == KTable && !FenceMark("|")
    ensures OneLineText("```|") && FenceOpener("```|") && RowLine("```|") && FenceCloser("```")
  {
    hide PlainLine, OneLineText, Blank, FenceOpener, FenceCloser;
    LetterIsPlain("a");
    MarkIsOpener("```", "");
    MarkIsOpener("```a", "a");
    MarkIsOpener("```|", "|");
    TableBegins("|", "---");
  }

  lemma TableBegins(h: string, d: string)
    requires h == "|" && d == "---"
    ensures OneLineText(h) && OneLineText(d) && KindOf([h, d]) == KTable && !FenceMark(h)
  {
    hide IsTableDivider;
    assert Indent(h) == 0;
    assert TrimStart(h) == h && ContentEnd(h) == 1;
    assert Trim(h) == h;
    assert Leading(h, IsHash) == 0;
    DashesDivide(d);
  }

  lemma DashesDivide(d: string)
    requires d == "---"
    ensures IsTableDivider(d)
  {
    assert Indent(d) == 0;
    assert TrimStart(d) == d && ContentEnd(d) == 3;
    assert Trim(d) == d && StripPipes(d) == d;
    SplitFirst(d, "", '|');
    assert TableCells(d) == [d];
    assert d[1..] == "--" && d[2..] == "-" && d[3..] == "";
    assert Leading("", IsDash) == 0 && Leading("-", IsDash) == 1 && Leading("--", IsDash) == 2;
    assert Leading(d, IsDash) == 3;
    assert DividerCell(d);
  }

  lemma MarkIsOpener(m: string, r: string)
    requires m == "```" + r && r in {"", "a", "|"}
    ensures FenceOpener(m) && !Blank(m) && OneLineText(m) && (FenceCloser(m) <==> r == "") && (r == "|" ==> RowLine(m))
  {
    assert Indent(m) == 0;
    assert m[3..] == r;
    assert m[0] == '`' && m[1] == '`' && m[2] == '`';
    assert TrimStart(m) == m;
    if r == "" { EmptyTrims(); } else { assert !IsSpace(r[0]); }
    if r == "|" { assert m[3] == '|'; }
  }

  lemma LetterIsPlain(l: string)
    requires l == "a"
    ensures PlainLine(l)
  {
    hide IsTableDivider;
    assert Indent(l) == 0;
    assert TrimStart(l) == l && ContentEnd(l) == 1;
    assert Trim(l) == l;
    assert Leading(l, IsHash) == 0 && Leading(l, IsDigit) == 0;
    LetterIsNoDivider(l);
  }

  lemma LetterIsNoDivider(l: string)
    requires l == "a"
    ensures !IsTableDivider(l)
  {
    assert Indent(l) == 0;
    assert ContentEnd(l) == 1;
    assert StripPipes(Trim(l)) == l;
    SplitFirst(l, "", '|');
    assert TableCells(l) == [l];
    assert Leading(l, IsDash) == 0;
    assert !DividerCell(TableCells(l)[0]);
  }
}
