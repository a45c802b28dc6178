/** The block level of the dashboard's Markdown renderer, as a function of lines. Inline
    rendering and the HTML text of a block are a function of the block alone, so the
    model stops at the sequence of blocks. */
module Markdown {
  import opened Text

  datatype Item = Plain(text: string) | Task(checked: bool, text: string)

  datatype Block =
    | Code(language: string, code: seq<string>)
    | Heading(level: nat, text: string)
    | Rule
    | Table(header: seq<string>, rows: seq<seq<string>>)
    | Quote(quoted: seq<string>)
    | Unordered(items: seq<Item>)
    | Ordered(texts: seq<string>)
    | Paragraph(spans: seq<string>)

  // ---- the regular expressions, one line at a time ----------------------------------

  predicate HasTerminator(s: string) {
    s != "" && (IsLineTerminator(s[0]) || HasTerminator(s[1..]))
  }

  /** `\s+(.+)$` matched against the rest of a line: the text of group 1. */
  function SpacedText(s: string): Option<string> {
    var t := TrimStart(s);
    if t == s then None
    else if t == "" then
      if |s| >= 2 && !IsLineTerminator(s[|s| - 1]) then Some([s[|s| - 1]]) else None
    else if HasTerminator(t) then None
    else Some(t)
  }

  /** The number of leading characters that satisfy `p`. */
  function Leading(s: string, p: char -> bool): (n: nat)
    ensures n <= |s|
  {
    if s == "" || !p(s[0]) then 0 else 1 + Leading(s[1..], p)
  }

  /** `s` is a repetition of `c`. */
  predicate Repeats(s: string, c: char) {
    s == "" || (s[0] == c && Repeats(s[1..], c))
  }

  predicate IsHash(c: char) { c == '#' }
  predicate IsDash(c: char) { c == '-' }
  predicate IsDigit(c: char) { '0' <= c <= '9' }

  /** `/^\s*```/` */
  predicate FenceMark(line: string) {
    "```" <= TrimStart(line)
  }

  /** `/^\s*```([^`]*)$/` */
  predicate FenceOpener(line: string) {
    FenceMark(line) && '`' !in TrimStart(line)[3..]
  }

  /** `/^\s*```\s*$/` */
  predicate FenceCloser(line: string) {
    FenceMark(line) && Blank(TrimStart(line)[3..])
  }

  /** The language an opener names. */
  function Language(line: string): string {
    if FenceMark(line) then Trim(TrimStart(line)[3..]) else ""
  }

  /** A line inside a code block. */
  predicate CodeLine(line: string) {
    !FenceCloser(line)
  }

  function HeadingText(line: string): Option<string> {
    var t := TrimStart(line);
    var n := Leading(t, IsHash);
    if 1 <= n <= 6 then SpacedText(t[n..]) else None
  }

  /** `/^\s*#{1,6}\s+/` */
  predicate HeadingMark(line: string) {
    var t := TrimStart(line);
    var n := Leading(t, IsHash);
    1 <= n <= 6 && n < |t| && IsSpace(t[n])
  }

  /** `/^\s*(?:-{3,}|\*{3,}|_{3,})\s*$/` */
  predicate IsRule(line: string) {
    var t := Trim(line);
    |t| >= 3 && t[0] in {'-', '*', '_'} && Repeats(t, t[0])
  }

  /** `/^\s*>\s?/` */
  predicate QuoteLine(line: string) {
    var t := TrimStart(line);
    t != "" && t[0] == '>'
  }

  function QuoteText(line: string): string {
    var t := TrimStart(line);
    if !QuoteLine(line) then line
    else if |t| > 1 && IsSpace(t[1]) then t[2..] else t[1..]
  }

  /** `/^\s*[-+*]\s+(.+)$/` */
  function UnorderedText(line: string): Option<string> {
    var t := TrimStart(line);
    if t != "" && t[0] in {'-', '+', '*'} then SpacedText(t[1..]) else None
  }

  predicate UnorderedLine(line: string) {
    UnorderedText(line).Some?
  }

  /** `/^\s*[-+*]\s+/` */
  predicate UnorderedMark(line: string) {
    var t := TrimStart(line);
    t != "" && t[0] in {'-', '+', '*'} && |t| > 1 && IsSpace(t[1])
  }

  /** `/^\s*\d+[.)]\s+(.+)$/` */
  function OrderedText(line: string): Option<string> {
    var t := TrimStart(line);
    var n := Leading(t, IsDigit);
    if 1 <= n < |t| && t[n] in {'.', ')'} then SpacedText(t[n + 1..]) else None
  }

  predicate OrderedLine(line: string) {
    OrderedText(line).Some?
  }

  /** `/^\s*\d+[.)]\s+/` */
  predicate OrderedMark(line: string) {
    var t := TrimStart(line);
    var n := Leading(t, IsDigit);
    1 <= n && n + 1 < |t| && t[n] in {'.', ')'} && IsSpace(t[n + 1])
  }

  function ItemText(line: string): string {
    match UnorderedText(line) case Some(t) => t case None => ""
  }

  function NumberedText(line: string): string {
    match OrderedText(line) case Some(t) => t case None => ""
  }

  /** A list item, or a task when its text matches `/^\[([ xX])\]\s+(.+)$/`. */
  function ItemOf(text: string): Item {
    if |text| >= 3 && text[0] == '[' && text[1] in {' ', 'x', 'X'} && text[2] == ']' then
      match SpacedText(text[3..])
      case Some(t) => Task(text[1] != ' ', t)
      case None => Plain(text)
    else Plain(text)
  }

  function UnorderedItem(line: string): Item {
    ItemOf(ItemText(line))
  }

  // ---- tables -----------------------------------------------------------------------

  /** `s.replace(/^\||\|$/g, "")` */
  function StripPipes(s: string): string {
    var t := if s != "" && s[0] == '|' then s[1..] else s;
    if t != "" && t[|t| - 1] == '|' then t[..|t| - 1] else t
  }

  function TableCells(line: string): (cells: seq<string>)
    ensures |cells| >= 1
  {
    SplitOn(StripPipes(Trim(line)), '|')
  }

  /** `/^\s*:?-{3,}:?\s*$/` */
  predicate DividerCell(cell: string) {
    var t := Trim(cell);
    var u := if t != "" && t[0] == ':' then t[1..] else t;
    var n := Leading(u, IsDash);
    n >= 3 && (u[n..] == "" || u[n..] == ":")
  }

  predicate AllDividers(cells: seq<string>) {
    cells == [] || (DividerCell(cells[0]) && AllDividers(cells[1..]))
  }

  predicate IsTableDivider(line: string) {
    AllDividers(TableCells(line))
  }

  function SplitTableRow(line: string): seq<string> {
    Map(Trim, TableCells(line))
  }

  predicate RowLine(line: string) {
    '|' in line && !Blank(line)
  }

  predicate TableHead(lines: seq<string>)
    requires lines != []
  {
    '|' in lines[0] && |lines| > 1 && IsTableDivider(lines[1])
  }

  // ---- blocks -----------------------------------------------------------------------

  function Map<A, B>(f: A -> B, xs: seq<A>): (ys: seq<B>)
    ensures |ys| == |xs|
  {
    seq(|xs|, i requires 0 <= i < |xs| => f(xs[i]))
  }

  /** How many of the first lines satisfy `p`. */
  function Run(lines: seq<string>, p: string -> bool): (n: nat)
    ensures n <= |lines|
  {
    if lines == [] || !p(lines[0]) then 0 else 1 + Run(lines[1..], p)
  }

  /** A paragraph stops before a blank line, and before a line that begins another block. */
  predicate EndsParagraph(lines: seq<string>)
    requires lines != []
  {
    var next := lines[0];
    Blank(next) || FenceMark(next) || HeadingMark(next) || QuoteLine(next)
    || UnorderedMark(next) || OrderedMark(next) || IsRule(next) || TableHead(lines)
  }

  function ParagraphRun(lines: seq<string>): (n: nat)
    ensures n <= |lines|
  {
    if lines == [] || EndsParagraph(lines) then 0 else 1 + ParagraphRun(lines[1..])
  }

  datatype Kind = KBlank | KCode | KHeading | KRule | KTable | KQuote | KUnordered | KOrdered | KParagraph

  function KindOf(lines: seq<string>): Kind
    requires lines != []
  {
    var line := lines[0];
    if Blank(line) then KBlank
    else if FenceOpener(line) then KCode
    else if HeadingText(line).Some? then KHeading
    else if IsRule(line) then KRule
    else if TableHead(lines) then KTable
    else if QuoteLine(line) then KQuote
    else if UnorderedLine(line) then KUnordered
    else if OrderedLine(line) then KOrdered
    else KParagraph
  }

  /** The number of lines the block at the head of `lines` takes. */
  function Length(lines: seq<string>): (n: nat)
    requires lines != []
    ensures 1 <= n <= |lines|
  {
    hide Blank, FenceMark, FenceOpener, FenceCloser, HeadingText, HeadingMark, IsRule, IsTableDivider, QuoteLine,
      UnorderedLine, UnorderedMark, OrderedLine, OrderedMark;
    match KindOf(lines)
    case KCode =>
      var end := 1 + Run(lines[1..], CodeLine);
      if end < |lines| then end + 1 else end
    case KTable => 2 + Run(lines[2..], RowLine)
    case KQuote => Run(lines, QuoteLine)
    case KUnordered => Run(lines, UnorderedLine)
    case KOrdered => Run(lines, OrderedLine)
    case KParagraph => 1 + ParagraphRun(lines[1..])
    case _ => 1
  }

  /** What the head of `lines` renders to: one block, or nothing for a blank line. */
  function Content(lines: seq<string>): seq<Block>
    requires lines != []
  {
    hide Blank, FenceMark, FenceOpener, FenceCloser, HeadingText, HeadingMark, IsRule, IsTableDivider, QuoteLine,
      UnorderedLine, UnorderedMark, OrderedLine, OrderedMark;
    var line := lines[0];
    match KindOf(lines)
    case KBlank => []
    case KCode => [Code(Language(line), lines[1..1 + Run(lines[1..], CodeLine)])]
    case KHeading => [Heading(Leading(TrimStart(line), IsHash), HeadingText(line).value)]
    case KRule => [Rule]
    case KTable => [Table(SplitTableRow(line), Map(SplitTableRow, lines[2..Length(lines)]))]
    case KQuote => [Quote(Map(QuoteText, lines[..Length(lines)]))]
    case KUnordered => [Unordered(Map(UnorderedItem, lines[..Length(lines)]))]
    case KOrdered => [Ordered(Map(NumberedText, lines[..Length(lines)]))]
    case KParagraph => [Paragraph(Map(Trim, lines[..Length(lines)]))]
  }

  /** The blocks of a document given as lines. */
  function Blocks(lines: seq<string>): seq<Block>
    decreases |lines|
  {
    if lines == [] then [] else Content(lines) + Blocks(lines[Length(lines)..])
  }

  function Render(source: string): seq<Block> {
    Blocks(Lines(Normalise(source)))
  }

  /** The one-shot renderer: its main loop over the line index. */
  method RenderMarkdown(source: string) returns (output: seq<Block>)
    ensures output == Render(source)
  {
    hide Content, Length;
    var lines := Lines(Normalise(source));
    output := [];
    var index := 0;
    while index < |lines|
      invariant 0 <= index <= |lines|
      invariant Blocks(lines) == output + Blocks(lines[index..])
    {
      ghost var here := lines[index..];
      var next, block := RenderBlock(lines, index);
      assert here[next - index..] == lines[next..];
      assert Blocks(lines) == output + (block + Blocks(lines[next..]));
      output := output + block;
      index := next;
    }
  }

  /** One turn of the renderer's main loop: the branches in their order. */
  method RenderBlock(lines: seq<string>, start: nat) returns (index: nat, block: seq<Block>)
    requires start < |lines|
    ensures index == start + Length(lines[start..]) && block == Content(lines[start..])
  {
    hide Blank, FenceMark, FenceOpener, FenceCloser, HeadingText, HeadingMark, IsRule, IsTableDivider, QuoteLine,
      UnorderedLine, UnorderedMark, OrderedLine, OrderedMark, Run, ParagraphRun, Map, SplitTableRow, Trim, TrimStart, Leading, Language, RowLine, CodeLine;
    ghost var here := lines[start..];
    var line := lines[start];
    index := start + 1;
    block := [];
    if Blank(line) {
      return;
    } else if FenceOpener(line) {
      index, block := RenderCode(lines, start);
    } else if HeadingText(line).Some? {
      block := [Heading(Leading(TrimStart(line), IsHash), HeadingText(line).value)];
    } else if IsRule(line) {
      block := [Rule];
    } else if '|' in line && index < |lines| && IsTableDivider(lines[index]) {
      index, block := RenderTable(lines, start);
    } else if QuoteLine(line) {
      index := SkipRun(lines, start, QuoteLine);
      assert here[..index - start] == lines[start..index];
      block := [Quote(Map(QuoteText, lines[start..index]))];
    } else if UnorderedLine(line) {
      index := SkipRun(lines, start, UnorderedLine);
      assert here[..index - start] == lines[start..index];
      block := [Unordered(Map(UnorderedItem, lines[start..index]))];
    } else if OrderedLine(line) {
      index := SkipRun(lines, start, OrderedLine);
      assert here[..index - start] == lines[start..index];
      block := [Ordered(Map(NumberedText, lines[start..index]))];
    } else {
      index := SkipParagraph(lines, index);
      assert here[1..] == lines[start + 1..];
      assert here[..index - start] == lines[start..index];
      block := [Paragraph(Map(Trim, lines[start..index]))];
    }
  }

  method RenderCode(lines: seq<string>, start: nat) returns (index: nat, block: seq<Block>)
    requires start < |lines| && KindOf(lines[start..]) == KCode
    ensures index == start + Length(lines[start..]) && block == Content(lines[start..])
  {
    hide KindOf, Run, CodeLine, Language;
    ghost var here := lines[start..];
    index := SkipRun(lines, start + 1, CodeLine);
    assert here[1..] == lines[start + 1..];
    assert here[1..index - start] == lines[start + 1..index];
    block := [Code(Language(lines[start]), lines[start + 1..index])];
    if index < |lines| { index := index + 1; }
  }

  method RenderTable(lines: seq<string>, start: nat) returns (index: nat, block: seq<Block>)
    requires start + 1 < |lines| && KindOf(lines[start..]) == KTable
    ensures index == start + Length(lines[start..]) && block == Content(lines[start..])
  {
    hide KindOf, Run, RowLine, SplitTableRow, Map;
    ghost var here := lines[start..];
    index := SkipRun(lines, start + 2, RowLine);
    assert here[2..] == lines[start + 2..];
    assert here[2..index - start] == lines[start + 2..index];
    block := [Table(SplitTableRow(lines[start]), Map(SplitTableRow, lines[start + 2..index]))];
  }

  /** The inner loops of the renderer that take lines while a test holds. */
  method SkipRun(lines: seq<string>, from: nat, p: string -> bool) returns (index: nat)
    requires from <= |lines|
    ensures index == from + Run(lines[from..], p)
  {
    index := from;
    while index < |lines| && p(lines[index])
      invariant from <= index <= |lines|
      invariant from + Run(lines[from..], p) == index + Run(lines[index..], p)
    {
      assert lines[index..][1..] == lines[index + 1..];
      index := index + 1;
    }
  }

  /** The inner loop of the renderer that takes the lines of a paragraph. */
  method SkipParagraph(lines: seq<string>, from: nat) returns (index: nat)
    requires from <= |lines|
    ensures index == from + ParagraphRun(lines[from..])
  {
    hide Blank, FenceMark, FenceOpener, FenceCloser, HeadingText, HeadingMark, IsRule, IsTableDivider, QuoteLine,
      UnorderedLine, UnorderedMark, OrderedLine, OrderedMark;
    index := from;
    while index < |lines| && !Blank(lines[index])
      invariant from <= index <= |lines|
      invariant from + ParagraphRun(lines[from..]) == index + ParagraphRun(lines[index..])
    {
      var next := lines[index];
      if FenceMark(next) || HeadingMark(next) || QuoteLine(next) || UnorderedMark(next)
        || OrderedMark(next) || IsRule(next)
        || ('|' in next && index + 1 < |lines| && IsTableDivider(lines[index + 1])) {
        return;
      }
      assert lines[index..][1..] == lines[index + 1..];
      index := index + 1;
    }
  }

  // ---- fences -----------------------------------------------------------------------

  /** Whether a fence is open after `lines`, for the splitter: every mark toggles. */
  function Fence(open: bool, lines: seq<string>): bool
    decreases |lines|
  {
    if lines == [] then open else Fence(open != FenceMark(lines[0]), lines[1..])
  }

  /** Fence-well-formed: a mark met when closed is an opener without a bar, a mark met
      when open is a closer. */
  predicate WellFenced(open: bool, lines: seq<string>)
    decreases |lines|
  {
    lines == []
    || ((FenceMark(lines[0]) ==>
           if open then FenceCloser(lines[0]) else FenceOpener(lines[0]) && '|' !in lines[0])
        && WellFenced(open != FenceMark(lines[0]), lines[1..]))
  }

  /** A line after which the splitter cuts, given the fence state before it. */
  predicate Seals(open: bool, line: string) {
    if open then FenceCloser(line) else Blank(line)
  }

  lemma {:induction false} FenceAppend(open: bool, a: seq<string>, b: seq<string>)
    ensures Fence(open, a + b) == Fence(Fence(open, a), b)
    ensures WellFenced(open, a + b) <==> WellFenced(open, a) && WellFenced(Fence(open, a), b)
    decreases |a|
  {
    if a == [] {
      assert a + b == b;
    } else {
      assert (a + b)[1..] == a[1..] + b;
      FenceAppend(open != FenceMark(a[0]), a[1..], b);
    }
  }

  // ---- nothing looks across a cut ------------------------------------------------------

  lemma BlankIsNoDivider(line: string)
    requires Blank(line)
    ensures !IsTableDivider(line)
  {
    hide IsSpace, Blank, TrimStart;
    BlankTrims(line);
    EmptyTrims();
    assert TableCells(line)[0] == "";
    assert !DividerCell("");
  }

  lemma MarkIsNoDivider(line: string)
    requires FenceMark(line)
    ensures !IsTableDivider(line)
  {
    hide IsSpace, Blank, TrimStart, Trim, DividerCell;
    TrimHead(line);
    var s := StripPipes(Trim(line));
    assert s[0] == '`';
    var cell := TableCells(line)[0];
    assert cell != "" && cell[0] == '`';
    TickIsNoDivider(cell);
  }

  lemma TickIsNoDivider(cell: string)
    requires cell != "" && cell[0] == '`'
    ensures !DividerCell(cell)
  {
    assert Indent(cell) == 0 && TrimStart(cell) == cell;
    TrimHead(cell);
  }

  /** A table divider is neither blank nor a fence mark. */
  lemma DividerIsPlain(line: string)
    requires Blank(line) || FenceMark(line)
    ensures !IsTableDivider(line)
  {
    hide IsTableDivider, Blank, FenceMark;
    if Blank(line) { BlankIsNoDivider(line); } else { MarkIsNoDivider(line); }
  }

  /** Blank lines and bar-free fence marks start no other block. */
  lemma StopsBlocks(line: string)
    requires Blank(line) || (FenceMark(line) && '|' !in line)
    ensures !RowLine(line) && !QuoteLine(line) && !UnorderedLine(line) && !OrderedLine(line)
  {
    hide IsSpace, Blank, TrimStart, SpacedText;
    BlankTrims(line);
    var t := TrimStart(line);
    if t != "" {
      assert t[0] == '`';
      assert Leading(t, IsDigit) == 0;
    }
  }

  /** A seal never has a bar to be taken for a table row. */
  lemma CloserHasNoBar(line: string)
    requires FenceCloser(line)
    ensures '|' !in line
  {
    var t := TrimStart(line);
    var k := Indent(line);
    IndentSpaces(line);
    IndentSpaces(t[3..]);
    forall i | 0 <= i < |line| ensures line[i] != '|' {
      if k <= i < k + 3 {
        assert line[i] == t[i - k] == "```"[i - k];
      } else if k + 3 <= i {
        assert t[3..][i - k - 3] == line[i];
      }
    }
  }

  lemma {:induction false} RunCut(c: seq<string>, l: string, b: seq<string>, p: string -> bool)
    requires !p(l)
    ensures Run(c + [l] + b, p) == Run(c, p)
  {
    if c != [] {
      assert (c + [l] + b)[1..] == c[1..] + [l] + b;
      RunCut(c[1..], l, b, p);
    }
  }

  lemma {:induction false} ParagraphCut(c: seq<string>, l: string, b: seq<string>)
    requires Blank(l) || FenceMark(l)
    ensures ParagraphRun(c + [l] + b) == ParagraphRun(c)
  {
    hide Blank, FenceMark, FenceOpener, FenceCloser, HeadingText, HeadingMark, IsRule, IsTableDivider, QuoteLine,
      UnorderedLine, UnorderedMark, OrderedLine, OrderedMark;
    DividerIsPlain(l);
    if c != [] {
      assert (c + [l] + b)[1..] == c[1..] + [l] + b;
      ParagraphCut(c[1..], l, b);
    }
  }

  /** No bar-free fence mark satisfies `p`. */
  ghost predicate Rejects(p: string -> bool) {
    forall line :: FenceMark(line) && '|' !in line ==> !p(line)
  }

  /** Lines taken by a run outside a fence leave the fence state as it was. */
  lemma {:induction false} RunKeepsFence(c: seq<string>, p: string -> bool)
    requires WellFenced(false, c)
    requires Rejects(p)
    ensures var r := c[Run(c, p)..]; WellFenced(false, r) && Fence(false, r) == Fence(false, c)
  {
    if c != [] && p(c[0]) {
      RunKeepsFence(c[1..], p);
      assert c[1..][Run(c[1..], p)..] == c[Run(c, p)..];
    }
  }

  lemma {:induction false} ParagraphKeepsFence(c: seq<string>)
    requires WellFenced(false, c)
    ensures var r := c[ParagraphRun(c)..]; WellFenced(false, r) && Fence(false, r) == Fence(false, c)
  {
    if c != [] && !EndsParagraph(c) {
      ParagraphKeepsFence(c[1..]);
      assert c[1..][ParagraphRun(c[1..])..] == c[ParagraphRun(c)..];
    }
  }

  /** The code lines of an open fence run up to its closer, which the splitter also sees. */
  lemma {:induction false} CodeKeepsFence(c: seq<string>)
    requires WellFenced(true, c)
    ensures var n := Run(c, CodeLine);
            if n == |c| then Fence(true, c)
            else WellFenced(false, c[n + 1..]) && Fence(false, c[n + 1..]) == Fence(true, c)
  {
    if c != [] && CodeLine(c[0]) {
      assert !FenceMark(c[0]);
      CodeKeepsFence(c[1..]);
      var n := Run(c[1..], CodeLine);
      if n < |c| - 1 { assert c[1..][n + 1..] == c[n + 2..]; }
    }
  }

  lemma SealStops(open: bool, l: string)
    requires Seals(open, l)
    ensures Blank(l) || FenceMark(l)
    ensures !IsTableDivider(l) && !RowLine(l) && !QuoteLine(l) && !UnorderedLine(l) && !OrderedLine(l)
    ensures open ==> !CodeLine(l)
  {
    if open { CloserHasNoBar(l); }
    StopsBlocks(l);
    DividerIsPlain(l);
  }

  /** What kind of block a document opens with does not depend on what follows a seal. */
  lemma KindAgrees(c: seq<string>, l1: string, l2: string, b: seq<string>)
    requires c != []
    requires Seals(Fence(false, c), l1) && Seals(Fence(false, c), l2)
    ensures KindOf(c + [l1]) == KindOf(c + [l2] + b)
    ensures KindOf(c + [l1]) == KTable ==> |c| >= 2
  {
    hide Blank, FenceMark, FenceOpener, FenceCloser, HeadingText, HeadingMark, IsRule, IsTableDivider, QuoteLine,
      UnorderedLine, UnorderedMark, OrderedLine, OrderedMark, RowLine, CodeLine, TrimStart, Trim, Seals, Fence;
    SealStops(Fence(false, c), l1);
    SealStops(Fence(false, c), l2);
    KindDepends(c + [l1], c + [l2] + b);
  }

  /** The kind of block depends on the first line and on whether the second is a divider. */
  lemma KindDepends(x: seq<string>, y: seq<string>)
    requires |x| >= 2 && |y| >= 2 && x[0] == y[0]
    requires IsTableDivider(x[1]) == IsTableDivider(y[1])
    ensures KindOf(x) == KindOf(y)
    ensures KindOf(x) == KTable ==> IsTableDivider(x[1])
  {
    hide Blank, FenceOpener, HeadingText, IsRule, IsTableDivider, QuoteLine, UnorderedLine, OrderedLine;
  }

  /** Two documents that share `c` open with the same block, of the same length; if the block
      ends within `c`, what is left of `c` is well-formed and ends in the same fence state. */
  ghost predicate SameHead(c: seq<string>, x: seq<string>, y: seq<string>)
    requires x != [] && y != []
  {
    var n := Length(x);
    Length(y) == n && Content(y) == Content(x)
    && (n <= |c| ==> WellFenced(false, c[n..]) && Fence(false, c[n..]) == Fence(false, c))
  }

  /** The first block of a document, and where it ends, do not depend on what follows a seal. */
  lemma HeadAgrees(c: seq<string>, l1: string, l2: string, b: seq<string>)
    requires c != [] && WellFenced(false, c)
    requires Seals(Fence(false, c), l1) && Seals(Fence(false, c), l2)
    ensures SameHead(c, c + [l1], c + [l2] + b)
  {
    hide Blank, FenceMark, FenceOpener, FenceCloser, HeadingText, HeadingMark, IsRule, IsTableDivider, QuoteLine,
      UnorderedLine, UnorderedMark, OrderedLine, OrderedMark, RowLine, CodeLine, TrimStart, Trim, KindOf, Seals, Fence, WellFenced, Run, ParagraphRun, EndsParagraph, Length, Content, SameHead;
    KindAgrees(c, l1, l2, b);
    SealStops(Fence(false, c), l1);
    SealStops(Fence(false, c), l2);
    match KindOf(c + [l1]) {
      case KCode => CodeAgrees(c, l1, l2, b);
      case KQuote => SpanAgrees(c, l1, l2, b, QuoteLine);
      case KUnordered => SpanAgrees(c, l1, l2, b, UnorderedLine);
      case KOrdered => SpanAgrees(c, l1, l2, b, OrderedLine);
      case KTable => TableAgrees(c, l1, l2, b);
      case KParagraph => ParagraphAgrees(c, l1, l2, b);
      case _ => SingleAgrees(c, l1, l2, b);
    }
  }

  lemma SingleAgrees(c: seq<string>, l1: string, l2: string, b: seq<string>)
    requires c != [] && WellFenced(false, c)
    requires KindOf(c + [l1]) == KindOf(c + [l2] + b) && KindOf(c + [l1]) in {KBlank, KHeading, KRule}
    ensures SameHead(c, c + [l1], c + [l2] + b)
  {
    hide Blank, FenceMark, FenceOpener, FenceCloser, HeadingText, HeadingMark, IsRule, IsTableDivider, QuoteLine,
      UnorderedLine, UnorderedMark, OrderedLine, OrderedMark, RowLine, CodeLine, TrimStart, Trim, KindOf, Fence, WellFenced, Run, ParagraphRun, EndsParagraph;
    PlainHead(c, l1);
    assert (c + [l1])[0] == c[0] == (c + [l2] + b)[0];
  }

  lemma SpanAgrees(c: seq<string>, l1: string, l2: string, b: seq<string>, p: string -> bool)
    requires c != [] && WellFenced(false, c) && !p(l1) && !p(l2)
    requires KindOf(c + [l1]) == KindOf(c + [l2] + b)
    requires match KindOf(c + [l1])
             case KQuote => p == QuoteLine
             case KUnordered => p == UnorderedLine
             case KOrdered => p == OrderedLine
             case _ => false
    ensures SameHead(c, c + [l1], c + [l2] + b)
  {
    hide Blank, FenceMark, FenceOpener, FenceCloser, HeadingText, HeadingMark, IsRule, IsTableDivider, QuoteLine,
      UnorderedLine, UnorderedMark, OrderedLine, OrderedMark, RowLine, CodeLine, TrimStart, Trim, Rejects, KindOf, Fence, WellFenced, Run, ParagraphRun, EndsParagraph, Map;
    RejectMarks();
    RunAgrees(c, l1, l2, b, p);
    var x, y := c + [l1], c + [l2] + b;
    var n := Run(x, p);
    assert x[..n] == c[..n] == y[..n];
    assert Length(x) == n == Length(y);
  }

  lemma TableShape(x: seq<string>)
    requires x != [] && KindOf(x) == KTable
    ensures |x| >= 2 && Length(x) == 2 + Run(x[2..], RowLine)
    ensures Content(x) == [Table(SplitTableRow(x[0]), Map(SplitTableRow, x[2..Length(x)]))]
  {
    hide Blank, FenceOpener, HeadingText, IsRule, IsTableDivider, Run, Map, SplitTableRow, RowLine;
  }

  lemma CodeShape(x: seq<string>)
    requires x != [] && KindOf(x) == KCode
    ensures var end := 1 + Run(x[1..], CodeLine);
            Length(x) == (if end < |x| then end + 1 else end) && Content(x) == [Code(Language(x[0]), x[1..end])]
  {
    hide KindOf, Run, Language, CodeLine;
  }

  lemma TableAgrees(c: seq<string>, l1: string, l2: string, b: seq<string>)
    requires |c| >= 2 && WellFenced(false, c) && !RowLine(l1) && !RowLine(l2)
    requires KindOf(c + [l1]) == KTable == KindOf(c + [l2] + b)
    ensures SameHead(c, c + [l1], c + [l2] + b)
  {
    hide Blank, FenceMark, FenceOpener, FenceCloser, HeadingText, HeadingMark, IsRule, IsTableDivider, QuoteLine,
      UnorderedLine, UnorderedMark, OrderedLine, OrderedMark, RowLine, CodeLine, TrimStart, Trim, Rejects, KindOf, Fence, WellFenced, Run, Map, SplitTableRow, Length, Content;
    PlainHead(c, l1);
    RejectMarks();
    RunAgrees(c[2..], l1, l2, b, RowLine);
    var x, y := c + [l1], c + [l2] + b;
    assert x[2..] == c[2..] + [l1] && y[2..] == c[2..] + [l2] + b;
    var n := 2 + Run(x[2..], RowLine);
    assert c[2..][n - 2..] == c[n..];
    TableShape(x);
    TableShape(y);
    assert x[2..n] == c[2..n] == y[2..n];
    assert x[0] == c[0] == y[0];
  }

  lemma ParagraphAgrees(c: seq<string>, l1: string, l2: string, b: seq<string>)
    requires c != [] && WellFenced(false, c)
    requires (Blank(l1) || FenceMark(l1)) && (Blank(l2) || FenceMark(l2))
    requires KindOf(c + [l1]) == KParagraph == KindOf(c + [l2] + b)
    ensures SameHead(c, c + [l1], c + [l2] + b)
  {
    hide Blank, FenceMark, FenceOpener, FenceCloser, HeadingText, HeadingMark, IsRule, IsTableDivider, QuoteLine,
      UnorderedLine, UnorderedMark, OrderedLine, OrderedMark, RowLine, CodeLine, TrimStart, Trim, KindOf, Fence, WellFenced, Run, ParagraphRun, EndsParagraph, Map;
    PlainHead(c, l1);
    var x, y := c + [l1], c + [l2] + b;
    assert x[1..] == c[1..] + [l1] + [];
    assert y[1..] == c[1..] + [l2] + b;
    ParagraphCut(c[1..], l1, []);
    ParagraphCut(c[1..], l2, b);
    ParagraphKeepsFence(c[1..]);
    var n := 1 + ParagraphRun(c[1..]);
    assert c[1..][n - 1..] == c[n..];
    assert x[..n] == c[..n] == y[..n];
    assert Length(x) == n == Length(y);
  }

  lemma CodeAgrees(c: seq<string>, l1: string, l2: string, b: seq<string>)
    requires c != [] && WellFenced(false, c)
    requires Seals(Fence(false, c), l1) && Seals(Fence(false, c), l2)
    requires KindOf(c + [l1]) == KCode == KindOf(c + [l2] + b)
    ensures SameHead(c, c + [l1], c + [l2] + b)
  {
    hide Blank, FenceMark, FenceOpener, FenceCloser, HeadingText, HeadingMark, IsRule, IsTableDivider, QuoteLine,
      UnorderedLine, UnorderedMark, OrderedLine, OrderedMark, RowLine, CodeLine, TrimStart, Trim, KindOf, Seals, Fence, WellFenced, Run, Language, Length, Content;
    CodeHead(c, l1);
    CodeKeepsFence(c[1..]);
    var x, y, n := c + [l1], c + [l2] + b, Run(c[1..], CodeLine);
    if n == |c| - 1 {
      SealStops(true, l1);
      SealStops(true, l2);
    } else {
      assert c[1..][n + 1..] == c[n + 2..];
    }
    assert x[1..] == c[1..] + [l1] && y[1..] == c[1..] + ([l2] + b);
    RunPrefix(c[1..], [l1], CodeLine);
    RunPrefix(c[1..], [l2] + b, CodeLine);
    CodeShape(x);
    CodeShape(y);
    assert x[0] == c[0] == y[0];
    assert x[1..1 + n] == c[1..1 + n] == y[1..1 + n];
  }

  lemma BlankIsNoMark(l: string)
    ensures Blank(l) ==> !FenceMark(l)
  {
    BlankTrims(l);
  }

  lemma RejectMarks()
    ensures Rejects(RowLine) && Rejects(QuoteLine) && Rejects(UnorderedLine) && Rejects(OrderedLine)
  {
    hide FenceMark, RowLine, QuoteLine, UnorderedLine, OrderedLine;
    forall l | FenceMark(l) && '|' !in l
      ensures !RowLine(l) && !QuoteLine(l) && !UnorderedLine(l) && !OrderedLine(l)
    {
      StopsBlocks(l);
    }
  }

  /** A first line outside a fence that opens no code block is no fence mark. */
  lemma PlainHead(c: seq<string>, l: string)
    requires c != [] && WellFenced(false, c) && KindOf(c + [l]) != KCode
    ensures WellFenced(false, c[1..]) && Fence(false, c[1..]) == Fence(false, c)
    ensures KindOf(c + [l]) == KTable && |c| >= 2 ==>
              WellFenced(false, c[2..]) && Fence(false, c[2..]) == Fence(false, c)
  {
    hide Blank, FenceMark, FenceOpener, FenceCloser, HeadingText, HeadingMark, IsRule, IsTableDivider, QuoteLine,
      UnorderedLine, UnorderedMark, OrderedLine, OrderedMark, RowLine, CodeLine, TrimStart, Trim, KindOf;
    assert (c + [l])[0] == c[0];
    NotCode(c + [l]);
    BlankIsNoMark(c[0]);
    if KindOf(c + [l]) == KTable && |c| >= 2 {
      assert (c + [l])[1] == c[1];
      assert c[1..][1..] == c[2..];
      if FenceMark(c[1]) { DividerIsPlain(c[1]); }
    }
  }

  lemma NotCode(x: seq<string>)
    requires x != [] && KindOf(x) != KCode
    ensures Blank(x[0]) || !FenceOpener(x[0])
    ensures KindOf(x) == KTable ==> |x| > 1 && IsTableDivider(x[1])
  {
    hide Blank, FenceMark, FenceOpener, FenceCloser, HeadingText, HeadingMark, IsRule, IsTableDivider, QuoteLine,
      UnorderedLine, UnorderedMark, OrderedLine, OrderedMark, RowLine, CodeLine, TrimStart, Trim;
  }

  lemma RunAgrees(d: seq<string>, l1: string, l2: string, b: seq<string>, p: string -> bool)
    requires !p(l1) && !p(l2) && WellFenced(false, d) && Rejects(p)
    ensures var n := Run(d + [l1], p);
            n <= |d| && Run(d + [l2] + b, p) == n
            && WellFenced(false, d[n..]) && Fence(false, d[n..]) == Fence(false, d)
  {
    hide Run, WellFenced, Fence, Rejects;
    RunCut(d, l1, [], p);
    RunCut(d, l2, b, p);
    RunKeepsFence(d, p);
    assert d + [l1] == d + [l1] + [];
  }

  lemma CodeHead(c: seq<string>, l: string)
    requires c != [] && WellFenced(false, c) && KindOf(c + [l]) == KCode
    ensures WellFenced(true, c[1..]) && Fence(true, c[1..]) == Fence(false, c)
  {
    hide Blank, FenceMark, FenceCloser, HeadingText, HeadingMark, IsRule, IsTableDivider, QuoteLine,
      UnorderedLine, UnorderedMark, OrderedLine, OrderedMark, RowLine, CodeLine, TrimStart, Trim;
    assert (c + [l])[0] == c[0];
  }

  lemma {:induction false} RunPrefix(c: seq<string>, b: seq<string>, p: string -> bool)
    ensures Run(c, p) < |c| || (b != [] && !p(b[0])) ==> Run(c + b, p) == Run(c, p)
  {
    if c != [] && p(c[0]) {
      assert (c + b)[1..] == c[1..] + b;
      RunPrefix(c[1..], b, p);
    }
  }

  /** The key law: at a seal the renderer starts afresh. `l1` is the sealing line as it stood
      when the text was cut, `l2` the same line in the longer text. */
  lemma {:induction false} Additive(c: seq<string>, l1: string, l2: string, b: seq<string>)
    requires WellFenced(false, c)
    requires Seals(Fence(false, c), l1) && Seals(Fence(false, c), l2)
    ensures Blocks(c + [l2] + b) == Blocks(c + [l1]) + Blocks(b)
    decreases |c|
  {
    hide Blank, FenceMark, FenceOpener, FenceCloser, HeadingText, HeadingMark, IsRule, IsTableDivider, QuoteLine,
      UnorderedLine, UnorderedMark, OrderedLine, OrderedMark, RowLine, CodeLine, TrimStart, Trim, TableHead, KindOf, Fence, WellFenced, Seals, Run, Map, Length, Content;
    var x, y := c + [l1], c + [l2] + b;
    if c == [] {
      SealedAtStart(l1, l2, b);
    } else {
      HeadAgrees(c, l1, l2, b);
      var n := Length(x);
      if n <= |c| {
        Additive(c[n..], l1, l2, b);
        assert x[n..] == c[n..] + [l1];
        assert y[n..] == c[n..] + [l2] + b;
      } else {
        assert x[n..] == [] && y[n..] == b;
        assert Blocks(x[n..]) == [];
      }
    }
  }

  lemma SealedAtStart(l1: string, l2: string, b: seq<string>)
    requires Seals(Fence(false, []), l1) && Seals(Fence(false, []), l2)
    ensures Blocks([] + [l2] + b) == Blocks([] + [l1]) + Blocks(b)
  {
    hide FenceOpener, FenceCloser, HeadingText, IsRule, TableHead, QuoteLine, UnorderedLine, OrderedLine,
      FenceMark, Run, Map;
    assert [] + [l1] == [l1] && [] + [l2] + b == [l2] + b;
    assert ([l2] + b)[1..] == b && [l1][1..] == [];
    assert Blocks([l1][1..]) == [];
  }
}
