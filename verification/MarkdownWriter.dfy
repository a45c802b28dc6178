/** Blocks as an author writes them, and that the renderer reads them back: what each kind of block
    looks like, told without the renderer's own classification of lines. */
module MarkdownWriter {
  import opened Text
  import opened Markdown
  import opened MarkdownLimits

  /** The choices Markdown leaves to the author: the bullet of a list, the number and its delimiter, the
      mark of a finished task, the character and the length of a rule, and the alignment of a table. */
  datatype Style = Style(bullet: char, digits: string, delimiter: char, cross: char, rule: char, ruleLength: nat, divider: string)

  predicate GoodStyle(st: Style) {
    st.bullet in {'-', '+', '*'} && st.delimiter in {'.', ')'} && st.cross in {'x', 'X'} && st.rule in {'-', '*', '_'}
    && st.divider in {"---", ":---", "---:", ":---:"}
    && st.ruleLength >= 3 && st.digits != "" && forall i :: 0 <= i < |st.digits| ==> '0' <= st.digits[i] <= '9'
  }

  function Repeat(c: char, n: nat): string {
    seq(n, i => c)
  }

  function Bars(cells: seq<string>): string {
    ['|'] + JoinWith(cells, '|') + ['|']
  }

  function ItemLine(item: Item, st: Style): string {
    match item
    case Plain(t) => [st.bullet, ' '] + t
    case Task(done, t) => [st.bullet, ' ', '[', if done then st.cross else ' ', ']', ' '] + t
  }

  function Write(b: Block, st: Style): seq<string> {
    match b
    case Heading(level, t) => [Repeat('#', level) + [' '] + t]
    case Rule => [Repeat(st.rule, st.ruleLength)]
    case Code(language, code) => ["```" + language] + code + ["```"]
    case Table(header, rows) => [Bars(header), Bars(seq(|header|, i => st.divider))] + Map(Bars, rows)
    case Quote(ls) => Map((l: string) => ['>', ' '] + l, ls)
    case Unordered(items) => Map((item: Item) => ItemLine(item, st), items)
    case Ordered(ts) => Map((t: string) => st.digits + [st.delimiter, ' '] + t, ts)
    case Paragraph(spans) => spans
  }

  // ---- which blocks can be written ---------------------------------------------------------------

  predicate OneLine(t: string) {
    '\n' !in t && '\r' !in t
  }

  predicate NoTerminator(t: string) {
    forall i :: 0 <= i < |t| ==> !IsLineTerminator(t[i])
  }

  /** A text that can follow a mark. */
  predicate Phrase(t: string) {
    t != "" && !IsSpace(t[0]) && NoTerminator(t)
  }

  predicate Cells(cells: seq<string>) {
    cells != [] && forall i :: 0 <= i < |cells| ==> Trim(cells[i]) == cells[i] && '|' !in cells[i] && OneLine(cells[i])
  }

  /** A plain item does not look like a task. */
  predicate GoodItem(item: Item) {
    match item
    case Plain(t) => Phrase(t) && !("[ ]" <= t) && !("[x]" <= t) && !("[X]" <= t)
    case Task(_, t) => Phrase(t)
  }

  /** No digits followed by a delimiter begin the line. */
  ghost predicate Unnumbered(l: string) {
    forall i :: 0 < i < |l| && l[i] in {'.', ')'} ==> exists j :: 0 <= j < i && !('0' <= l[j] <= '9')
  }

  /** A line of a paragraph that begins like nothing else. */
  ghost predicate Prose(l: string) {
    l != "" && Trim(l) == l && OneLine(l) && l[0] !in {'`', '#', '-', '+', '*', '_', '>', '|', ':'} && Unnumbered(l)
  }

  ghost predicate WellFormed(b: Block) {
    match b
    case Heading(level, t) => 1 <= level <= 6 && Phrase(t)
    case Rule => true
    case Code(language, code) =>
      Trim(language) == language && '`' !in language && OneLine(language)
      && forall i :: 0 <= i < |code| ==> OneLine(code[i]) && ("```" <= TrimStart(code[i]) ==> !Blank(TrimStart(code[i])[3..]))
    case Table(header, rows) => Cells(header) && forall i :: 0 <= i < |rows| ==> Cells(rows[i])
    case Quote(ls) => ls != [] && forall i :: 0 <= i < |ls| ==> OneLine(ls[i])
    case Unordered(items) =>
      items != [] && forall i :: 0 <= i < |items| ==> GoodItem(items[i])
    case Ordered(ts) => ts != [] && forall i :: 0 <= i < |ts| ==> Phrase(ts[i])
    case Paragraph(spans) => spans != [] && forall i :: 0 <= i < |spans| ==> Prose(spans[i])
  }

  // ---- single lines --------------------------------------------------------------------------------

  lemma StartsAt(s: string)
    requires s != "" && !IsSpace(s[0])
    ensures TrimStart(s) == s && !Blank(s) && Indent(s) == 0 && ContentEnd(s) > 0
    ensures Trim(s) != "" && Trim(s)[0] == s[0] && Trim(s) == s[..ContentEnd(s)]
  {
    hide IsSpace;
    ContentBegins(s);
  }

  lemma {:induction false} EndsAfter(s: string, i: nat)
    requires i < |s| && !IsSpace(s[i])
    ensures ContentEnd(s) > i
  {
    if IsSpace(s[|s| - 1]) { EndsAfter(s[..|s| - 1], i); }
  }

  lemma MarksAreNoSpace()
    ensures forall c :: c in {'`', '#', '-', '+', '*', '_', '>', '|', '[', ']', '.', ')', ':'} || '0' <= c <= '9' ==> !IsSpace(c)
    ensures IsSpace(' ')
  {
  }

  lemma {:induction false} NoTerminators(t: string)
    requires NoTerminator(t)
    ensures !HasTerminator(t)
  {
    if t != "" {
      assert forall i :: 0 <= i < |t| - 1 ==> t[1..][i] == t[i + 1];
      NoTerminators(t[1..]);
    }
  }

  /** What follows a mark is read as it is. */
  lemma SpacedReads(t: string)
    requires Phrase(t)
    ensures SpacedText([' '] + t) == Some(t)
  {
    hide IsSpace, NoTerminator;
    MarksAreNoSpace();
    NoTerminators(t);
    StartsAt(t);
    assert ([' '] + t)[1..] == t;
    assert Indent([' '] + t) == 1;
  }

  lemma {:induction false} LeadingRepeat(c: char, n: nat, rest: string, p: char -> bool)
    requires p(c) && (rest == "" || !p(rest[0]))
    ensures Leading(Repeat(c, n) + rest, p) == n
  {
    if n > 0 {
      assert (Repeat(c, n) + rest)[1..] == Repeat(c, n - 1) + rest;
      LeadingRepeat(c, n - 1, rest, p);
    } else {
      assert Repeat(c, 0) + rest == rest;
    }
  }

  /** A line that begins with no mark of a fence, a heading or a rule. */
  lemma NoEarlyKind(l: string)
    requires l != "" && !IsSpace(l[0]) && l[0] !in {'`', '#'}
    ensures !Blank(l) && !FenceMark(l) && !FenceOpener(l) && HeadingText(l).None? && !HeadingMark(l)
    ensures l[0] !in {'-', '*', '_'} ==> !IsRule(l)
  {
    hide IsSpace, Blank, Trim, Repeats, SpacedText;
    StartsAt(l);
    assert "```"[0] == '`';
  }

  // ---- no table begins -----------------------------------------------------------------------------

  lemma {:induction false} FirstPart(s: string, sep: char)
    requires s != "" && s[0] != sep
    ensures SplitOn(s, sep)[0] != "" && SplitOn(s, sep)[0] <= s
  {
    if |s| > 1 && s[1] != sep {
      FirstPart(s[1..], sep);
      assert s[1..][0] == s[1];
    } else if |s| > 1 {
      assert SplitOn(s[1..], sep)[0] == "";
    } else {
      assert s[1..] == "";
    }
  }

  /** A line whose first character is a mark other than those of a divider, or a dash followed by a
      space, divides no table. */
  lemma NoDivider(l: string)
    requires l != "" && !IsSpace(l[0]) && l[0] !in {'|', ':'}
    requires l[0] == '-' ==> |l| > 1 && l[1] == ' '
    ensures !IsTableDivider(l)
  {
    hide IsSpace, SplitOn, Blank;
    MarksAreNoSpace();
    StartsAt(l);
    var t := Trim(l);
    var u := StripPipes(t);
    assert u != "" && u <= l by {
      if t[|t| - 1] == '|' { assert |t| > 1; }
    }
    FirstPart(u, '|');
    var cell := SplitOn(u, '|')[0];
    assert cell[0] == l[0];
    StartsAt(cell);
    CellIsNoDivider(l, cell);
    assert TableCells(l)[0] == cell;
  }

  lemma CellIsNoDivider(l: string, cell: string)
    requires cell != "" && cell <= l && !IsSpace(cell[0]) && cell[0] !in {'|', ':'} && Trim(cell) != "" && Trim(cell)[0] == cell[0]
    requires Trim(cell) == cell[..ContentEnd(cell)]
    requires l[0] == '-' ==> |l| > 1 && l[1] == ' '
    ensures !DividerCell(cell)
  {
    hide IsSpace, ContentEnd;
    var t := Trim(cell);
    if t[0] == '-' {
      if |t| > 1 {
        assert t[1] == cell[1] == l[1];
        assert t[1..][0] == ' ';
      }
      assert Leading(t[1..], IsDash) == 0;
      assert Leading(t, IsDash) == 1;
    } else {
      assert Leading(t, IsDash) == 0;
    }
  }

  lemma EmptyIsPlain()
    ensures Blank("") && !IsTableDivider("") && !RowLine("") && !QuoteLine("") && !UnorderedLine("") && !OrderedLine("")
  {
    hide IsTableDivider, RowLine, QuoteLine, UnorderedLine, OrderedLine;
    EmptyTrims();
    StopsBlocks("");
    BlankIsNoDivider("");
  }

  // ---- each kind of block is read back -----------------------------------------------------------------

  /** Read at the head of some lines: the block, and exactly the lines it was written on. */
  ghost predicate ReadAt(b: Block, written: seq<string>, x: seq<string>) {
    x != [] && |written| <= |x| && x[..|written|] == written && Length(x) == |written| && Content(x) == [b]
  }

  /** What may follow a written block. */
  predicate Ended(tail: seq<string>) {
    tail == [] || tail[0] == ""
  }

  lemma HeadingLine(level: nat, t: string, l: string)
    requires 1 <= level <= 6 && Phrase(t) && l == Repeat('#', level) + [' '] + t
    ensures l != "" && l[0] == '#' && TrimStart(l) == l && !Blank(l) && !FenceMark(l)
    ensures HeadingText(l) == Some(t) && Leading(TrimStart(l), IsHash) == level
  {
    hide IsSpace, SpacedText, Phrase, Blank;
    MarksAreNoSpace();
    assert l == Repeat('#', level) + ([' '] + t);
    LeadingRepeat('#', level, [' '] + t, IsHash);
    assert l[level..] == [' '] + t;
    assert l[0] == '#' && "```"[0] == '`';
    StartsAt(l);
    SpacedReads(t);
  }

  lemma HeadingReads(level: nat, t: string, tail: seq<string>)
    requires 1 <= level <= 6 && Phrase(t)
    ensures var w := [Repeat('#', level) + [' '] + t]; ReadAt(Heading(level, t), w, w + tail)
  {
    hide Blank, FenceMark, HeadingText, TrimStart, Leading, Repeat, Phrase, IsRule, IsTableDivider;
    var l := Repeat('#', level) + [' '] + t;
    HeadingLine(level, t, l);
    var x := [l] + tail;
    assert KindOf(x) == KHeading;
  }

  lemma {:induction false} RepeatRepeats(c: char, n: nat)
    ensures Repeats(Repeat(c, n), c)
  {
    if n > 0 {
      assert Repeat(c, n)[1..] == Repeat(c, n - 1);
      RepeatRepeats(c, n - 1);
    }
  }

  lemma RuleReads(st: Style, tail: seq<string>)
    requires GoodStyle(st)
    ensures var w := [Repeat(st.rule, st.ruleLength)]; ReadAt(Rule, w, w + tail)
  {
    hide IsSpace, Blank, FenceMark, HeadingText, Repeats, FenceOpener, HeadingMark;
    var l := Repeat(st.rule, st.ruleLength);
    MarksAreNoSpace();
    RepeatRepeats(st.rule, st.ruleLength);
    StartsAt(l);
    EndsAfter(l, |l| - 1);
    assert Trim(l) == l;
    NoEarlyKind(l);
    assert IsRule(l);
    assert KindOf([l] + tail) == KRule;
  }

  lemma {:induction false} RunStops(lines: seq<string>, tail: seq<string>, p: string -> bool)
    requires forall i :: 0 <= i < |lines| ==> p(lines[i])
    requires tail == [] || !p(tail[0])
    ensures Run(lines + tail, p) == |lines|
  {
    if lines == [] {
      assert lines + tail == tail;
    } else {
      assert (lines + tail)[1..] == lines[1..] + tail;
      RunStops(lines[1..], tail, p);
    }
  }

  lemma OpenerLine(language: string, l: string)
    requires Trim(language) == language && '`' !in language && l == "```" + language
    ensures !Blank(l) && FenceOpener(l) && Language(l) == language
  {
    hide IsSpace, Trim, Blank;
    MarksAreNoSpace();
    assert l[0] == "```"[0] == '`';
    StartsAt(l);
    assert l[..3] == "```" && l[3..] == language;
  }

  lemma CloserLine()
    ensures FenceCloser("```")
  {
    hide IsSpace;
    MarksAreNoSpace();
    var l := "```";
    assert l[0] == '`';
    StartsAt(l);
    assert l[3..] == "";
    EmptyTrims();
  }

  lemma CodeReads(language: string, code: seq<string>, tail: seq<string>)
    requires WellFormed(Code(language, code))
    ensures var w := ["```" + language] + code + ["```"]; ReadAt(Code(language, code), w, w + tail)
  {
    hide Blank, TrimStart, Trim, FenceMark, FenceOpener, Language, HeadingText, OneLine, Run;
    var opener := "```" + language;
    var w := [opener] + code + ["```"];
    var x := w + tail;
    OpenerLine(language, opener);
    CloserLine();
    forall i | 0 <= i < |code| ensures CodeLine(code[i]) { CodeIsOpen(code[i]); }
    var rest := ["```"] + tail;
    assert x[1..] == code + rest;
    RunStops(code, rest, CodeLine);
    assert KindOf(x) == KCode;
    CodeShape(x);
    assert x[1..1 + |code|] == code && x[..|w|] == w;
  }

  lemma CodeIsOpen(l: string)
    requires "```" <= TrimStart(l) ==> !Blank(TrimStart(l)[3..])
    ensures CodeLine(l)
  {
  }

  // ---- tables ----------------------------------------------------------------------------------------

  lemma BarsLine(cells: seq<string>)
    requires cells != [] && forall i :: 0 <= i < |cells| ==> '|' !in cells[i]
    ensures var l := Bars(cells); l != "" && l[0] == '|' && '|' in l && TableCells(l) == cells
  {
    hide IsSpace, SplitOn, JoinWith;
    var l := Bars(cells);
    MarksAreNoSpace();
    StartsAt(l);
    EndsAfter(l, |l| - 1);
    assert Trim(l) == l;
    assert StripPipes(l) == JoinWith(cells, '|');
    assert Free(cells, '|');
    JoinThenSplit(cells, '|');
  }

  lemma {:induction false} AllDashes(cells: seq<string>, divider: string)
    requires divider in {"---", ":---", "---:", ":---:"} && forall i :: 0 <= i < |cells| ==> cells[i] == divider
    ensures AllDividers(cells)
  {
    hide DividerCell;
    if cells != [] {
      DashesDivide(divider);
      AllDashes(cells[1..], divider);
    }
  }

  lemma DashesDivide(d: string)
    requires d in {"---", ":---", "---:", ":---:"}
    ensures DividerCell(d)
  {
    hide IsSpace;
    MarksAreNoSpace();
    StartsAt(d);
    EndsAfter(d, |d| - 1);
    assert Trim(d) == d;
    var u := if d[0] == ':' then d[1..] else d;
    assert u == "---" || u == "---:";
    assert u == Repeat('-', 3) + u[3..];
    LeadingRepeat('-', 3, u[3..], IsDash);
    assert u[3..] == "" || u[3..] == ":";
  }

  lemma RowReads(cells: seq<string>)
    requires Cells(cells)
    ensures SplitTableRow(Bars(cells)) == cells && RowLine(Bars(cells)) && !Blank(Bars(cells))
  {
    hide IsSpace, Trim, Blank, TableCells;
    BarsLine(cells);
    MarksAreNoSpace();
    StartsAt(Bars(cells));
    assert Map(Trim, cells) == cells;
  }

  lemma TableReads(header: seq<string>, rows: seq<seq<string>>, tail: seq<string>, st: Style)
    requires WellFormed(Table(header, rows)) && GoodStyle(st) && Ended(tail)
    ensures var w := Write(Table(header, rows), st); ReadAt(Table(header, rows), w, w + tail)
  {
    hide IsSpace, Blank, TableCells, Bars, RowLine, SplitTableRow, Cells, FenceOpener, HeadingText, IsRule, Run;
    var dashes := seq(|header|, i => st.divider);
    var w := Write(Table(header, rows), st);
    var x := w + tail;
    HeaderReads(header, dashes, st.divider);
    forall i | 0 <= i < |rows| ensures RowLine(Bars(rows[i])) && SplitTableRow(Bars(rows[i])) == rows[i] { RowReads(rows[i]); }
    var body := Map(Bars, rows);
    EmptyIsPlain();
    RunStops(body, tail, RowLine);
    assert x[0] == Bars(header) && x[1] == Bars(dashes) && x[2..] == body + tail;
    assert KindOf(x) == KTable;
    TableShape(x);
    assert x[2..2 + |rows|] == body && x[..|w|] == w;
    assert Map(SplitTableRow, body) == rows;
  }

  lemma HeaderReads(header: seq<string>, dashes: seq<string>, divider: string)
    requires Cells(header) && |dashes| == |header| && divider in {"---", ":---", "---:", ":---:"}
    requires forall i :: 0 <= i < |dashes| ==> dashes[i] == divider
    ensures var l := Bars(header); SplitTableRow(l) == header && !Blank(l) && !FenceOpener(l) && HeadingText(l).None? && !IsRule(l)
    ensures '|' in Bars(header) && IsTableDivider(Bars(dashes))
  {
    hide IsSpace, Blank, TableCells, FenceOpener, HeadingText, IsRule, SplitTableRow, FenceMark, HeadingMark, Bars, AllDividers;
    RowReads(header);
    BarsLine(header);
    MarksAreNoSpace();
    NoEarlyKind(Bars(header));
    BarsLine(dashes);
    AllDashes(dashes, divider);
  }

  // ---- quotes and lists ---------------------------------------------------------------------------------

  /** Lines that all match and divide no table. */
  predicate Uniform(lines: seq<string>, p: string -> bool) {
    lines != [] && forall i :: 0 <= i < |lines| ==> p(lines[i]) && !IsTableDivider(lines[i])
  }

  lemma NoHead(lines: seq<string>, tail: seq<string>, p: string -> bool)
    requires Uniform(lines, p) && Ended(tail)
    ensures !TableHead(lines + tail)
  {
    hide IsTableDivider;
    EmptyIsPlain();
    var x := lines + tail;
    if |x| > 1 { assert x[1] == if |lines| > 1 then lines[1] else tail[0]; }
  }

  lemma QuoteMark(l: string, q: string)
    requires q == ['>', ' '] + l
    ensures !Blank(q) && !FenceOpener(q) && HeadingText(q).None? && !IsRule(q) && QuoteLine(q) && QuoteText(q) == l
    ensures !IsTableDivider(q)
  {
    hide IsSpace, Blank, FenceMark, FenceOpener, HeadingText, HeadingMark, IsRule, IsTableDivider;
    MarksAreNoSpace();
    NoEarlyKind(q);
    NoDivider(q);
    StartsAt(q);
    assert q[2..] == l;
  }

  lemma QuoteReads(ls: seq<string>, tail: seq<string>, st: Style)
    requires ls != [] && Ended(tail)
    ensures var w := Write(Quote(ls), st); ReadAt(Quote(ls), w, w + tail)
  {
    hide Blank, FenceOpener, HeadingText, IsRule, IsTableDivider, QuoteLine, QuoteText, UnorderedLine, OrderedLine, TableHead, Run;
    var w := Write(Quote(ls), st);
    var x := w + tail;
    forall i | 0 <= i < |ls|
      ensures QuoteLine(w[i]) && !IsTableDivider(w[i]) && QuoteText(w[i]) == ls[i] { QuoteMark(ls[i], w[i]); }
    QuoteMark(ls[0], w[0]);
    NoHead(w, tail, QuoteLine);
    EmptyIsPlain();
    RunStops(w, tail, QuoteLine);
    assert x[0] == w[0] && x[..|w|] == w;
    assert KindOf(x) == KQuote;
    assert Map(QuoteText, w) == ls;
  }

  lemma BulletText(bullet: char, t: string, l: string)
    requires bullet in {'-', '+', '*'} && Phrase(t) && l == [bullet, ' '] + t
    ensures !Blank(l) && !FenceOpener(l) && HeadingText(l).None? && !IsRule(l) && !QuoteLine(l)
    ensures UnorderedText(l) == Some(t) && !IsTableDivider(l)
  {
    hide IsSpace, Blank, FenceMark, FenceOpener, HeadingText, HeadingMark, IsTableDivider, SpacedText, NoTerminator;
    MarksAreNoSpace();
    NoEarlyKind(l);
    NoDivider(l);
    StartsAt(l);
    assert l[2] == t[0];
    EndsAfter(l, 2);
    assert l[1..] == [' '] + t;
    SpacedReads(t);
    assert Trim(l)[1] == ' ';
    NotRepeated(Trim(l));
  }

  lemma NotRepeated(t: string)
    requires |t| > 1 && t[0] != ' ' && t[1] == ' '
    ensures !Repeats(t, t[0])
  {
    assert t[1..][0] == ' ';
  }

  lemma TaskStart(t: string, mark: char)
    ensures |t| >= 3 && t[0] == '[' && t[1] == mark && t[2] == ']' ==> ['[', mark, ']'] <= t
  {
  }

  lemma PlainReads(t: string)
    requires GoodItem(Plain(t))
    ensures ItemOf(t) == Plain(t)
  {
    hide IsSpace, SpacedText, NoTerminator;
    TaskStart(t, ' ');
    TaskStart(t, 'x');
    TaskStart(t, 'X');
  }

  lemma TaskReads(mark: char, t: string)
    requires mark in {' ', 'x', 'X'} && Phrase(t)
    ensures var s := ['[', mark, ']', ' '] + t; Phrase(s) && ItemOf(s) == Task(mark != ' ', t)
  {
    hide IsSpace, SpacedText;
    MarksAreNoSpace();
    var s := ['[', mark, ']', ' '] + t;
    SpacedReads(t);
    assert s[3..] == [' '] + t;
    forall i | 0 <= i < |s| ensures !IsLineTerminator(s[i]) {
      if i >= 4 { assert s[i] == t[i - 4]; }
    }
  }

  lemma ItemReads(item: Item, st: Style)
    requires GoodItem(item) && GoodStyle(st)
    ensures var l := ItemLine(item, st);
            !Blank(l) && !FenceOpener(l) && HeadingText(l).None? && !IsRule(l) && !QuoteLine(l)
            && UnorderedLine(l) && UnorderedItem(l) == item && !IsTableDivider(l)
  {
    hide Blank, FenceOpener, HeadingText, IsRule, QuoteLine, IsTableDivider, ItemOf, UnorderedText, Phrase;
    var l := ItemLine(item, st);
    match item {
      case Plain(t) =>
        PlainReads(t);
        BulletText(st.bullet, t, l);
      case Task(done, t) =>
        var mark := if done then st.cross else ' ';
        TaskReads(mark, t);
        assert l == [st.bullet, ' '] + (['[', mark, ']', ' '] + t);
        BulletText(st.bullet, ['[', mark, ']', ' '] + t, l);
    }
  }

  lemma UnorderedReads(items: seq<Item>, tail: seq<string>, st: Style)
    requires WellFormed(Unordered(items)) && GoodStyle(st) && Ended(tail)
    ensures var w := Write(Unordered(items), st); ReadAt(Unordered(items), w, w + tail)
  {
    hide Blank, FenceOpener, HeadingText, IsRule, IsTableDivider, QuoteLine, UnorderedLine, UnorderedItem, OrderedLine,
      TableHead, Run, ItemLine, GoodItem, GoodStyle;
    var w := Write(Unordered(items), st);
    var x := w + tail;
    forall i | 0 <= i < |items|
      ensures UnorderedLine(w[i]) && !IsTableDivider(w[i]) && UnorderedItem(w[i]) == items[i] { ItemReads(items[i], st); }
    ItemReads(items[0], st);
    NoHead(w, tail, UnorderedLine);
    EmptyIsPlain();
    RunStops(w, tail, UnorderedLine);
    assert x[0] == w[0] && x[..|w|] == w;
    assert KindOf(x) == KUnordered;
    assert Map(UnorderedItem, w) == items;
  }

  lemma {:induction false} LeadingDigits(digits: string, rest: string)
    requires (forall i :: 0 <= i < |digits| ==> '0' <= digits[i] <= '9') && (rest == "" || !IsDigit(rest[0]))
    ensures Leading(digits + rest, IsDigit) == |digits|
  {
    if digits == "" {
      assert digits + rest == rest;
    } else {
      assert (digits + rest)[1..] == digits[1..] + rest;
      LeadingDigits(digits[1..], rest);
    }
  }

  lemma NumberReads(t: string, st: Style, l: string)
    requires Phrase(t) && GoodStyle(st) && l == st.digits + [st.delimiter, ' '] + t
    ensures !Blank(l) && !FenceOpener(l) && HeadingText(l).None? && !IsRule(l) && !QuoteLine(l) && !UnorderedLine(l)
    ensures OrderedLine(l) && NumberedText(l) == t && !IsTableDivider(l)
  {
    hide IsSpace, Blank, FenceMark, FenceOpener, HeadingText, HeadingMark, IsRule, IsTableDivider, SpacedText, NoTerminator;
    MarksAreNoSpace();
    var n := |st.digits|;
    assert l[0] == st.digits[0];
    NoEarlyKind(l);
    NoDivider(l);
    StartsAt(l);
    assert l == st.digits + ([st.delimiter, ' '] + t);
    LeadingDigits(st.digits, [st.delimiter, ' '] + t);
    assert l[n] == st.delimiter && l[n + 1..] == [' '] + t;
    SpacedReads(t);
  }

  lemma OrderedReads(ts: seq<string>, tail: seq<string>, st: Style)
    requires WellFormed(Ordered(ts)) && GoodStyle(st) && Ended(tail)
    ensures var w := Write(Ordered(ts), st); ReadAt(Ordered(ts), w, w + tail)
  {
    hide Blank, FenceOpener, HeadingText, IsRule, IsTableDivider, QuoteLine, UnorderedLine, OrderedLine, NumberedText,
      TableHead, Run, Phrase, GoodStyle;
    var w := Write(Ordered(ts), st);
    var x := w + tail;
    forall i | 0 <= i < |ts|
      ensures OrderedLine(w[i]) && !IsTableDivider(w[i]) && NumberedText(w[i]) == ts[i] { NumberReads(ts[i], st, w[i]); }
    NumberReads(ts[0], st, w[0]);
    NoHead(w, tail, OrderedLine);
    EmptyIsPlain();
    RunStops(w, tail, OrderedLine);
    assert x[0] == w[0] && x[..|w|] == w;
    assert KindOf(x) == KOrdered;
    assert Map(NumberedText, w) == ts;
  }

  // ---- paragraphs ---------------------------------------------------------------------------------------

  lemma {:induction false} LeadingAreDigits(l: string)
    ensures var n := Leading(l, IsDigit); forall j :: 0 <= j < n ==> '0' <= l[j] <= '9'
  {
    if l != "" && IsDigit(l[0]) {
      LeadingAreDigits(l[1..]);
      var n := Leading(l[1..], IsDigit);
      assert forall j :: 0 < j < n + 1 ==> l[j] == l[1..][j - 1];
    }
  }

  lemma MarkAfterDigits(l: string, n: nat)
    requires 0 < n < |l| && forall j :: 0 <= j < n ==> '0' <= l[j] <= '9'
    ensures Unnumbered(l) ==> l[n] !in {'.', ')'}
  {
  }

  lemma UnnumberedLine(l: string)
    requires l != "" && TrimStart(l) == l && Unnumbered(l)
    ensures !OrderedMark(l) && !OrderedLine(l)
  {
    hide IsSpace, SpacedText, Unnumbered;
    LeadingAreDigits(l);
    var n := Leading(l, IsDigit);
    if 1 <= n < |l| { MarkAfterDigits(l, n); }
  }

  /** `rest` begins with no divider: it is prose, blank, or nothing. */
  lemma ProseLine(l: string, rest: seq<string>)
    requires Prose(l) && (rest == [] || Prose(rest[0]) || rest[0] == "")
    ensures KindOf([l] + rest) == KParagraph && !EndsParagraph([l] + rest)
  {
    hide IsSpace, Blank, FenceMark, FenceOpener, HeadingText, HeadingMark, IsRule, IsTableDivider, OrderedMark, OrderedLine,
      Unnumbered;
    TrimmedStarts(l);
    NoEarlyKind(l);
    StartsAt(l);
    UnnumberedLine(l);
    EmptyIsPlain();
    var x := [l] + rest;
    if rest != [] {
      assert x[1] == rest[0];
      if Prose(rest[0]) {
        TrimmedStarts(rest[0]);
        NoDivider(rest[0]);
      }
    }
  }

  lemma TrimmedStarts(l: string)
    requires l != "" && Trim(l) == l
    ensures !IsSpace(l[0])
  {
    hide IsSpace, ContentEnd;
    var n := Indent(l);
    assert |Trim(l)| <= |l| - n;
  }

  lemma {:induction false} ProseRuns(lines: seq<string>, tail: seq<string>)
    requires (forall i :: 0 <= i < |lines| ==> Prose(lines[i])) && Ended(tail)
    ensures ParagraphRun(lines + tail) == |lines|
  {
    hide EndsParagraph, Prose;
    if lines == [] {
      assert lines + tail == tail;
      if tail != [] { EmptyEnds(tail); }
    } else {
      assert (lines + tail)[1..] == lines[1..] + tail;
      ProseRuns(lines[1..], tail);
      ProseLine(lines[0], lines[1..] + tail);
      assert [lines[0]] + (lines[1..] + tail) == lines + tail;
    }
  }

  lemma EmptyEnds(tail: seq<string>)
    requires tail != [] && tail[0] == ""
    ensures EndsParagraph(tail)
  {
    hide FenceMark, HeadingMark, QuoteLine, UnorderedMark, OrderedMark, IsRule, TableHead;
    EmptyTrims();
  }

  lemma ParagraphReads(spans: seq<string>, tail: seq<string>)
    requires WellFormed(Paragraph(spans)) && Ended(tail)
    ensures ReadAt(Paragraph(spans), spans, spans + tail)
  {
    hide KindOf, EndsParagraph, ParagraphRun, Trim;
    var x := spans + tail;
    ProseLine(spans[0], spans[1..] + tail);
    assert [spans[0]] + (spans[1..] + tail) == x;
    ProseRuns(spans[1..], tail);
    assert x[1..] == spans[1..] + tail;
    assert x[..|spans|] == spans;
    assert Map(Trim, spans) == spans by { ProseTrimmed(spans); }
  }

  lemma ProseTrimmed(spans: seq<string>)
    requires forall i :: 0 <= i < |spans| ==> Prose(spans[i])
    ensures forall i :: 0 <= i < |spans| ==> Trim(spans[i]) == spans[i]
  {
    hide Trim;
  }

  // ---- the results -----------------------------------------------------------------------------------------

  /** A written block is read at the head of any lines that end it. */
  lemma WrittenReads(b: Block, st: Style, tail: seq<string>)
    requires WellFormed(b) && GoodStyle(st) && Ended(tail)
    ensures ReadAt(b, Write(b, st), Write(b, st) + tail)
  {
    hide ReadAt, Phrase, Prose, Cells, GoodItem, GoodStyle;
    match b {
      case Heading(level, t) => HeadingReads(level, t, tail);
      case Rule => RuleReads(st, tail);
      case Code(language, code) => CodeReads(language, code, tail);
      case Table(header, rows) => TableReads(header, rows, tail, st);
      case Quote(ls) => QuoteReads(ls, tail, st);
      case Unordered(items) => UnorderedReads(items, tail, st);
      case Ordered(ts) => OrderedReads(ts, tail, st);
      case Paragraph(spans) => ParagraphReads(spans, tail);
    }
  }

  /** Every kind of block, written in any style, renders to itself. */
  lemma BlockRendersToItself(b: Block, st: Style)
    requires WellFormed(b) && GoodStyle(st)
    ensures Blocks(Write(b, st)) == [b]
  {
    hide WellFormed, GoodStyle, Write, Length, Content;
    var w := Write(b, st);
    var none: seq<string> := [];
    WrittenReads(b, st, none);
    assert w + none == w && w[|w|..] == none;
    assert Blocks(none) == [];
  }

  /** Blocks one after the other, with a blank line after each. */
  function WriteAll(bs: seq<Block>, st: Style): seq<string> {
    if bs == [] then [] else Write(bs[0], st) + ([""] + WriteAll(bs[1..], st))
  }

  lemma {:induction false} DocumentRenders(bs: seq<Block>, st: Style)
    requires GoodStyle(st) && forall i :: 0 <= i < |bs| ==> WellFormed(bs[i])
    ensures Blocks(WriteAll(bs, st)) == bs
  {
    hide WellFormed, GoodStyle, Write, Length, Content;
    if bs != [] {
      var w, rest := Write(bs[0], st), WriteAll(bs[1..], st);
      DocumentRenders(bs[1..], st);
      WrittenReads(bs[0], st, [""] + rest);
      var x := w + ([""] + rest);
      assert x[|w|..] == [""] + rest;
      BlankSkips(rest);
    }
  }

  lemma BlankSkips(rest: seq<string>)
    ensures Blocks([""] + rest) == Blocks(rest)
  {
    EmptyTrims();
    assert ([""] + rest)[1..] == rest;
    assert Length([""] + rest) == 1 && Content([""] + rest) == [];
  }

  // ---- as text -------------------------------------------------------------------------------------------

  ghost predicate AllOneLine(lines: seq<string>) {
    forall i :: 0 <= i < |lines| ==> OneLine(lines[i])
  }

  lemma {:induction false} BarsJoin(cells: seq<string>)
    requires forall i :: 0 <= i < |cells| ==> OneLine(cells[i])
    ensures OneLine(JoinWith(cells, '|'))
  {
    if |cells| > 1 { BarsJoin(cells[1..]); }
  }

  lemma PhraseIsOneLine(t: string)
    requires Phrase(t)
    ensures OneLine(t)
  {
  }

  lemma WrittenLines(b: Block, st: Style)
    requires WellFormed(b) && GoodStyle(st)
    ensures AllOneLine(Write(b, st))
  {
    hide Phrase, Trim, Blank, Prose, Cells, JoinWith;
    match b {
      case Heading(level, t) => PhraseIsOneLine(t);
      case Rule =>
      case Code(_, _) =>
      case Table(header, rows) => TableLines(header, rows, st);
      case Quote(ls) =>
      case Unordered(items) =>
        forall i | 0 <= i < |items| ensures OneLine(ItemLine(items[i], st)) { ItemIsOneLine(items[i], st); }
      case Ordered(ts) =>
        forall i | 0 <= i < |ts| ensures OneLine(ts[i]) { PhraseIsOneLine(ts[i]); }
      case Paragraph(spans) =>
        forall i | 0 <= i < |spans| ensures OneLine(spans[i]) { ProseIsOneLine(spans[i]); }
    }
  }

  lemma ProseIsOneLine(l: string)
    requires Prose(l)
    ensures OneLine(l)
  {
    hide Trim;
  }

  lemma ItemIsOneLine(item: Item, st: Style)
    requires GoodItem(item) && GoodStyle(st)
    ensures OneLine(ItemLine(item, st))
  {
    hide Phrase;
    match item {
      case Plain(t) => PhraseIsOneLine(t);
      case Task(_, t) => PhraseIsOneLine(t);
    }
  }

  lemma CellsLine(cells: seq<string>)
    requires Cells(cells)
    ensures OneLine(Bars(cells))
  {
    hide Trim, JoinWith;
    BarsJoin(cells);
  }

  lemma TableLines(header: seq<string>, rows: seq<seq<string>>, st: Style)
    requires Cells(header) && GoodStyle(st) && forall i :: 0 <= i < |rows| ==> Cells(rows[i])
    ensures AllOneLine(Write(Table(header, rows), st))
  {
    hide Cells, Bars;
    CellsLine(header);
    DashesLine(|header|, st);
    forall i | 0 <= i < |rows| ensures OneLine(Bars(rows[i])) { CellsLine(rows[i]); }
  }

  lemma DashesLine(n: nat, st: Style)
    requires GoodStyle(st)
    ensures OneLine(Bars(seq(n, i => st.divider)))
  {
    hide JoinWith;
    BarsJoin(seq(n, i => st.divider));
  }

  lemma {:induction false} DocumentLines(bs: seq<Block>, st: Style)
    requires GoodStyle(st) && forall i :: 0 <= i < |bs| ==> WellFormed(bs[i])
    ensures AllOneLine(WriteAll(bs, st))
  {
    hide WellFormed, GoodStyle, Write;
    if bs != [] {
      WrittenLines(bs[0], st);
      DocumentLines(bs[1..], st);
    }
  }

  /** A text made of blocks with blank lines between them renders to exactly these blocks. */
  lemma TextRenders(bs: seq<Block>, st: Style)
    requires GoodStyle(st) && forall i :: 0 <= i < |bs| ==> WellFormed(bs[i])
    ensures Render(Unlines(WriteAll(bs, st))) == bs
  {
    hide WellFormed, GoodStyle, Blocks, Render, JoinWith, WriteAll;
    var ls := WriteAll(bs, st);
    DocumentRenders(bs, st);
    DocumentLines(bs, st);
    if ls == [] {
      NothingWritten();
    } else {
      RenderLines(ls);
    }
  }

  lemma NothingWritten()
    ensures Render(Unlines([])) == [] && Blocks([]) == []
  {
    assert Unlines([]) == "";
    NormaliseFixed("");
    EmptyTrims();
    assert Lines("") == [""];
    assert Length([""]) == 1 && Content([""]) == [] && [""][1..] == [];
  }
}
