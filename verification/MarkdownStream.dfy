/** Streaming Markdown: the splitter that finds how much of a growing text can be rendered
    for good, and the renderer that appends only what is new. */
module MarkdownStream {
  import opened Text
  import opened Markdown

  // ---- the splitter -----------------------------------------------------------------

  /** A line at whose end the splitter moves its cut, given the fence state before it. */
  predicate StableLine(open: bool, line: string) {
    if FenceMark(line) then open else !open && Blank(line)
  }

  /** The number of lines up to and including the last stable one. */
  function StableCount(open: bool, lines: seq<string>): (n: nat)
    ensures n <= |lines|
    decreases |lines|
  {
    if lines == [] then 0
    else
      var rest := StableCount(open != FenceMark(lines[0]), lines[1..]);
      if rest > 0 then rest + 1 else if StableLine(open, lines[0]) then 1 else 0
  }

  function CompletedFrom(open: bool, lines: seq<string>): string {
    var k := StableCount(open, lines);
    if k == |lines| then Unlines(lines) else Unlines(lines[..k] + [""])
  }

  /** `completed` of a text whose newlines are already folded. */
  function Completed(text: string): string {
    CompletedFrom(false, Lines(text))
  }

  /** `pending` of a text whose newlines are already folded. */
  function Pending(text: string): string {
    Unlines(Lines(text)[StableCount(false, Lines(text))..])
  }

  lemma {:induction false} StableAppend(open: bool, a: seq<string>, b: seq<string>)
    ensures StableCount(open, a + b) ==
              var r := StableCount(Fence(open, a), b); if r > 0 then |a| + r else StableCount(open, a)
    decreases |a|
  {
    hide FenceMark, StableLine;
    if a == [] {
      assert a + b == b;
    } else {
      assert (a + b)[1..] == a[1..] + b;
      StableAppend(open != FenceMark(a[0]), a[1..], b);
    }
  }

  lemma {:induction false} StableLast(open: bool, lines: seq<string>)
    requires StableCount(open, lines) > 0
    ensures var k := StableCount(open, lines);
            StableLine(Fence(open, lines[..k - 1]), lines[k - 1]) && !Fence(open, lines[..k])
    decreases |lines|
  {
    hide FenceMark, Blank;
    var k := StableCount(open, lines);
    var o := open != FenceMark(lines[0]);
    if StableCount(o, lines[1..]) > 0 {
      StableLast(o, lines[1..]);
      assert lines[..k - 1][1..] == lines[1..][..k - 2];
      assert lines[..k][1..] == lines[1..][..k - 1];
    } else {
      assert lines[..1] == [lines[0]] && lines[..0] == [];
      assert Fence(open, [lines[0]]) == Fence(o, []);
    }
  }

  /** The splitter, with the offsets of the source. */
  method SplitStableMarkdown(source: string) returns (completed: string, pending: string)
    ensures completed == Completed(Normalise(source)) && pending == Pending(Normalise(source))
  {
    hide FenceMark, Blank, Normalise;
    var text := Normalise(source);
    var lines := Lines(text);
    SplitThenJoin(text, '\n');
    var fenceOpen, stableEnd, offset := false, 0, 0;
    ghost var k := 0;
    for index := 0 to |lines|
      invariant fenceOpen == Fence(false, lines[..index])
      invariant offset == Offset(lines, index)
      invariant k == StableCount(false, lines[..index]) && stableEnd == Offset(lines, k)
    {
      var line := lines[index];
      var endsWithNewline := index < |lines| - 1;
      var lineEnd := offset + |line| + (if endsWithNewline then 1 else 0);
      OffsetNext(lines, index);
      assert lines[..index + 1] == lines[..index] + [line];
      FenceAppend(false, lines[..index], [line]);
      StableAppend(false, lines[..index], [line]);
      assert Fence(fenceOpen, [line]) == Fence(fenceOpen != FenceMark(line), []);
      assert StableCount(fenceOpen, [line]) == if StableLine(fenceOpen, line) then 1 else 0;
      if FenceMark(line) {
        fenceOpen := !fenceOpen;
        if !fenceOpen { stableEnd := lineEnd; k := index + 1; }
      } else if !fenceOpen && Blank(line) {
        stableEnd := lineEnd;
        k := index + 1;
      }
      offset := lineEnd;
    }
    assert lines[..|lines|] == lines;
    OffsetCuts(lines, k);
    completed := text[..stableEnd];
    pending := text[stableEnd..];
  }

  /** Where line `k` begins in the text made of `lines`. */
  function Offset(lines: seq<string>, k: nat): nat
    requires k <= |lines|
  {
    if k == |lines| then |Unlines(lines)| else |Unlines(lines[..k] + [""])|
  }

  lemma OffsetNext(lines: seq<string>, k: nat)
    requires k < |lines|
    ensures Offset(lines, k + 1) == Offset(lines, k) + |lines[k]| + (if k < |lines| - 1 then 1 else 0)
  {
    JoinCut(lines[..k], lines[k..], '\n');
    assert lines == lines[..k] + lines[k..];
    if k + 1 < |lines| {
      JoinCut(lines[..k], [lines[k], ""], '\n');
      assert lines[..k + 1] + [""] == lines[..k] + [lines[k], ""];
      assert [lines[k], ""][1..] == [""];
    } else {
      assert lines[k..] == [lines[k]];
    }
  }

  lemma OffsetCuts(lines: seq<string>, k: nat)
    requires lines != [] && k <= |lines|
    ensures var t := Unlines(lines);
            Offset(lines, k) <= |t| && t[Offset(lines, k)..] == Unlines(lines[k..])
            && t[..Offset(lines, k)] == if k == |lines| then t else Unlines(lines[..k] + [""])
  {
    if k < |lines| {
      JoinCut(lines[..k], lines[k..], '\n');
      assert lines == lines[..k] + lines[k..];
    }
  }

  // ---- splitter laws ----------------------------------------------------------------

  lemma HalvesJoin(text: string)
    ensures Completed(text) + Pending(text) == text
  {
    hide FenceMark, Blank, Fence, StableCount, SplitOn, JoinWith;
    SplitThenJoin(text, '\n');
    OffsetCuts(Lines(text), StableCount(false, Lines(text)));
  }

  lemma ClosedBefore(ls: seq<string>)
    ensures !Fence(false, ls[..StableCount(false, ls)])
  {
    hide FenceMark, Blank, Fence, StableCount;
    if StableCount(false, ls) > 0 {
      StableLast(false, ls);
    } else {
      assert ls[..0] == [];
      EmptyFence();
    }
  }

  lemma CompletedCloses(text: string)
    ensures !Fence(false, Lines(Completed(text)))
  {
    hide FenceMark, Blank, Fence, StableCount, SplitOn, JoinWith, Completed;
    var ls := Lines(text);
    var k := StableCount(false, ls);
    CompletedLines(text);
    ClosedBefore(ls);
    if k < |ls| {
      FenceAppend(false, ls[..k], [""]);
      EmptyLine(false);
    } else {
      assert ls[..k] == ls;
    }
  }

  lemma CompletedAgain(text: string)
    ensures Completed(Completed(text)) == Completed(text)
  {
    hide FenceMark, Blank, Fence, StableCount, SplitOn, JoinWith;
    var ls := Lines(text);
    var k := StableCount(false, ls);
    CompletedLines(text);
    if k < |ls| {
      ClosedBefore(ls);
      StableAppend(false, ls[..k], [""]);
      EmptyLine(false);
    }
  }

  lemma NothingPending(text: string)
    ensures Completed(Pending(text)) == ""
  {
    hide FenceMark, Blank, Fence, StableCount, SplitOn, JoinWith;
    var ls := Lines(text);
    if StableCount(false, ls) < |ls| {
      PendingCompletesNothing(text);
    } else {
      EmptyCompletes();
      NoUnlines();
      assert ls[|ls|..] == [];
    }
  }

  lemma NoUnlines()
    ensures Unlines([]) == ""
  {
  }

  /** The two halves are the text; the first half has balanced fences and splits to itself;
      the second completes nothing. */
  lemma SplitterLaws(text: string)
    ensures Completed(text) + Pending(text) == text
    ensures !Fence(false, Lines(Completed(text)))
    ensures Completed(Completed(text)) == Completed(text)
    ensures Completed(Pending(text)) == ""
  {
    hide Completed, Pending, Fence, Lines;
    HalvesJoin(text);
    CompletedCloses(text);
    CompletedAgain(text);
    NothingPending(text);
  }

  lemma EmptyLine(open: bool)
    ensures Fence(open, [""]) == open && StableCount(open, [""]) == if open then 0 else 1
  {
    hide TrimStart;
    EmptyTrims();
    assert !FenceMark("");
    assert [""][1..] == [];
    assert StableCount(open, []) == 0;
    assert Fence(open, [""]) == Fence(open, []);
  }

  lemma EmptyCompletes()
    ensures Lines("") == [""] && Completed("") == ""
  {
  }

  /** The lines of the completed half. */
  lemma CompletedLines(text: string)
    ensures var ls, k := Lines(text), StableCount(false, Lines(text));
            Lines(Completed(text)) == if k == |ls| then ls else ls[..k] + [""]
  {
    hide StableCount;
    var ls, k := Lines(text), StableCount(false, Lines(text));
    SplitThenJoin(text, '\n');
    if k < |ls| { JoinThenSplit(ls[..k] + [""], '\n'); }
  }

  lemma PendingCompletesNothing(text: string)
    requires StableCount(false, Lines(text)) < |Lines(text)|
    ensures Lines(Pending(text)) == Lines(text)[StableCount(false, Lines(text))..]
    ensures Completed(Pending(text)) == ""
  {
    hide StableLine, FenceMark, Blank, StableCount, Fence;
    var ls, k := Lines(text), StableCount(false, Lines(text));
    SplitThenJoin(text, '\n');
    JoinThenSplit(ls[k..], '\n');
    assert ls == ls[..k] + ls[k..];
    StableAppend(false, ls[..k], ls[k..]);
    if k > 0 { StableLast(false, ls); } else { assert Fence(false, []) == false by { EmptyFence(); } }
    assert StableCount(false, ls[k..]) == 0;
    assert ls[k..][..0] + [""] == [""];
  }

  lemma EmptyFence()
    ensures Fence(false, []) == false
  {
  }

  /** The text ends in a white-space-only line outside a fence. */
  predicate EndsBlank(text: string) {
    var ls := Lines(text);
    !Fence(false, ls[..|ls| - 1]) && Blank(ls[|ls| - 1])
  }

  /** The text is empty, or ends in a newline right after a stable line. */
  predicate Rested(text: string) {
    var ls := Lines(text);
    ls[|ls| - 1] == "" && StableCount(false, ls[..|ls| - 1]) == |ls| - 1
  }

  function LastLine(text: string): string {
    Lines(text)[|Lines(text)| - 1]
  }

  /** Appending text changes no line but the last. */
  lemma LinesExtend(t: string, x: string)
    ensures var ls := Lines(t); Lines(t + x) == ls[..|ls| - 1] + Lines(LastLine(t) + x)
  {
    hide SplitOn, JoinWith;
    SplitConcat(t, x, '\n');
    SplitThenJoin(t, '\n');
    SplitFirst(LastLine(t), "", '\n');
    SplitConcat(LastLine(t), x, '\n');
  }

  lemma CompletedAppend(open: bool, a: seq<string>, b: seq<string>)
    requires b != []
    ensures CompletedFrom(open, a + b) ==
              if StableCount(Fence(open, a), b) > 0 then Unlines(a + [""]) + CompletedFrom(Fence(open, a), b)
              else Unlines(a[..StableCount(open, a)] + [""])
  {
    hide StableCount, Fence, JoinWith;
    StableAppend(open, a, b);
    var r := StableCount(Fence(open, a), b);
    var k := StableCount(open, a);
    if r > 0 {
      if r == |b| {
        JoinCut(a, b, '\n');
      } else {
        JoinCut(a, b[..r] + [""], '\n');
        assert (a + b)[..|a| + r] + [""] == a + (b[..r] + [""]);
      }
    } else {
      assert (a + b)[..k] == a[..k];
    }
  }

  lemma MarkStaysMark(l: string, x: string)
    ensures FenceMark(l) ==> FenceMark(l + x)
    ensures FenceMark(l) ==> !Blank(l)
  {
    BlankTrims(l);
    if FenceMark(l) { TrimStartAppend(l, x); }
  }

  /** Appending text moves the cut forwards or leaves it, unless the shorter text ended in a
      blank line outside a fence; then all of the shorter text had been completed. */
  lemma CutMonotone(t: string, x: string)
    ensures !EndsBlank(t) ==> Completed(t) <= Completed(t + x)
    ensures EndsBlank(t) ==> Completed(t) == t
  {
    hide FenceMark, Blank, Fence, StableCount, StableLine, SplitOn, JoinWith;
    var ls := Lines(t);
    var a, l := ls[..|ls| - 1], LastLine(t);
    var o := Fence(false, a);
    LinesExtend(t, x);
    SplitThenJoin(t, '\n');
    assert ls == a + [l];
    var b := Lines(l + x);
    CompletedAppend(false, a, [l]);
    CompletedAppend(false, a, b);
    OneLine(o, l);
    JoinCut(a, [l], '\n');
    FirstLine(o, l, x);
    var k := StableCount(false, a);
    assert a + [""] == a[..k] + (a[k..] + [""]);
    JoinCut(a[..k], a[k..] + [""], '\n');
  }

  lemma OneLine(open: bool, l: string)
    ensures StableCount(open, [l]) == if StableLine(open, l) then 1 else 0
    ensures !open && Blank(l) ==> StableLine(open, l)
    ensures StableLine(open, l) && !FenceMark(l) ==> !open && Blank(l)
    ensures StableLine(open, l) ==> CompletedFrom(open, [l]) == l
  {
    MarkStaysMark(l, "");
    assert [l][1..] == [];
    assert StableCount(open != FenceMark(l), []) == 0;
  }

  lemma FirstLine(open: bool, l: string, x: string)
    requires '\n' !in l
    ensures StableLine(open, l) && FenceMark(l) ==>
              StableCount(open, Lines(l + x)) > 0 && l <= CompletedFrom(open, Lines(l + x))
  {
    hide SplitOn, Blank, FenceMark;
    if StableLine(open, l) && FenceMark(l) {
      var b := Lines(l + x);
      SplitFirst(l, "", '\n');
      SplitConcat(l, x, '\n');
      assert b[0] == l + Lines(x)[0];
      MarkStaysMark(l, Lines(x)[0]);
      var r := StableCount(open, b);
      assert b[..r] + [""] == [b[0]] + (b[1..r] + [""]);
      SplitThenJoin(l + x, '\n');
    }
  }

  /** Exactly when the cut moves back: the shorter text ended in a blank line outside a fence,
      not directly after a stable line, and from that line on nothing is stable any more. */
  lemma CutMovesBack(t: string, x: string)
    ensures |Completed(t + x)| < |Completed(t)| <==>
              EndsBlank(t) && !Rested(t) && StableCount(false, Lines(LastLine(t) + x)) == 0
  {
    hide FenceMark, Blank, Fence, StableCount, StableLine, SplitOn;
    var ls := Lines(t);
    var a, l := ls[..|ls| - 1], LastLine(t);
    CutMonotone(t, x);
    LinesExtend(t, x);
    SplitThenJoin(t, '\n');
    assert ls == a + [l];
    if EndsBlank(t) {
      var b := Lines(l + x);
      CompletedAppend(false, a, b);
      JoinCut(a, [l], '\n');
      var k := StableCount(false, a);
      if StableCount(false, b) > 0 {
        BlankFirst(l, x);
      } else if k == |a| {
        assert a[..k] == a;
      } else {
        assert a + [""] == a[..k] + (a[k..] + [""]);
        JoinCut(a[..k], a[k..] + [""], '\n');
      }
    }
  }

  lemma BlankFirst(l: string, x: string)
    requires '\n' !in l && StableCount(false, Lines(l + x)) > 0
    ensures |l| <= |CompletedFrom(false, Lines(l + x))|
  {
    hide FenceMark, Blank, Fence, StableCount, StableLine, SplitOn;
    var b := Lines(l + x);
    SplitFirst(l, "", '\n');
    SplitConcat(l, x, '\n');
    assert b[0] == l + Lines(x)[0];
    var r := StableCount(false, b);
    assert b[..r] + [""] == [b[0]] + (b[1..r] + [""]);
  }

  // ---- the streaming renderer ---------------------------------------------------------

  /** The state of one streaming renderer: how much is rendered for good, the slices that were
      rendered, and the text shown as it is. */
  datatype Stream = Stream(rendered: nat, slices: seq<string>, tail: string)

  const START := Stream(0, [], "")

  function Append(slices: seq<string>, source: string): seq<string> {
    if source == "" then slices else slices + [source]
  }

  function UpdateStep(s: Stream, source: string): Stream {
    var text := Normalise(source);
    var completed := Completed(text);
    if |completed| > s.rendered then
      Stream(|completed|, Append(s.slices, completed[s.rendered..]), Pending(text))
    else s.(tail := Pending(text))
  }

  function FinishStep(s: Stream, source: string): Stream {
    var text := Normalise(source);
    s.(slices := Append(s.slices, if s.rendered <= |text| then text[s.rendered..] else ""), tail := "")
  }

  /** The state after the updates `frames`. */
  function Updates(frames: seq<string>): Stream {
    if frames == [] then START else UpdateStep(Updates(frames[..|frames| - 1]), frames[|frames| - 1])
  }

  function Concat(slices: seq<string>): string {
    if slices == [] then "" else Concat(slices[..|slices| - 1]) + slices[|slices| - 1]
  }

  /** What the slices show, each rendered on its own. */
  function Shown(slices: seq<string>): seq<Block> {
    if slices == [] then [] else Shown(slices[..|slices| - 1]) + Render(slices[|slices| - 1])
  }

  /** The renderer object of the source: the blocks it has put before the pending text. */
  class StreamingRenderer {
    var renderedLength: nat
    var shown: seq<Block>
    var pending: string
    ghost var slices: seq<string>

    ghost predicate Valid()
      reads this
    {
      shown == Shown(slices)
    }

    ghost function State(): Stream
      reads this
    {
      Stream(renderedLength, slices, pending)
    }

    constructor ()
      ensures Valid() && State() == START
    {
      renderedLength, shown, pending, slices := 0, [], "", [];
    }

    method AppendCompleted(source: string)
      requires Valid()
      modifies this`shown, this`slices
      ensures Valid() && slices == Append(old(slices), source)
    {
      if source == "" { return; }
      var block := RenderMarkdown(source);
      shown := shown + block;
      slices := slices + [source];
      assert slices[..|slices| - 1] == old(slices);
    }

    method Update(source: string)
      requires Valid()
      modifies this
      ensures Valid() && State() == UpdateStep(old(State()), source)
    {
      hide Completed, Pending, Normalise;
      var completed, tail := SplitStableMarkdown(source);
      if |completed| > renderedLength {
        AppendCompleted(completed[renderedLength..]);
        renderedLength := |completed|;
      }
      pending := tail;
    }

    method Finish(source: string)
      requires Valid()
      modifies this
      ensures Valid() && State() == FinishStep(old(State()), source)
    {
      hide Normalise;
      var text := Normalise(source);
      AppendCompleted(if renderedLength <= |text| then text[renderedLength..] else "");
      pending := "";
    }
  }

  /** Every frame is a prefix of the final text, as received, before newlines are folded. */
  ghost predicate PrefixesOf(frames: seq<string>, final: string) {
    forall i :: 0 <= i < |frames| ==> frames[i] <= final
  }

  lemma ConcatAppend(slices: seq<string>, source: string)
    ensures Concat(Append(slices, source)) == Concat(slices) + source
  {
    if source != "" { assert (slices + [source])[..|slices|] == slices; }
  }

  lemma ShownAppend(slices: seq<string>, source: string)
    ensures Shown(Append(slices, source)) == Shown(slices) + Render(source)
  {
    if source != "" {
      assert (slices + [source])[..|slices|] == slices;
    } else {
      NothingRenders();
    }
  }

  lemma NothingRenders()
    ensures Lines("") == [""] && Blocks([""]) == [] && Render("") == []
  {
    assert Length([""]) == 1 && Content([""]) == [];
    assert [""][1..] == [];
  }

  /** One update keeps the rendered slices a prefix of the text. */
  lemma UpdateKeepsPrefix(s: Stream, frame: string, t: string)
    requires Normalise(frame) <= t && s.rendered <= |t| && Concat(s.slices) == t[..s.rendered]
    ensures var r := UpdateStep(s, frame); r.rendered <= |t| && Concat(r.slices) == t[..r.rendered]
  {
    hide Completed, Pending, Normalise, Concat;
    SplitterLaws(Normalise(frame));
    var completed := Completed(Normalise(frame));
    if |completed| > s.rendered {
      ConcatAppend(s.slices, completed[s.rendered..]);
      assert completed == t[..|completed|];
      assert completed == t[..s.rendered] + completed[s.rendered..];
    }
  }

  /** What has been rendered is a prefix of every later text: folding newlines never rewrites
      what an earlier frame had folded. */
  lemma {:induction false} RenderedSoFar(frames: seq<string>, final: string)
    requires PrefixesOf(frames, final)
    ensures var s, t := Updates(frames), Normalise(final);
            s.rendered <= |t| && Concat(s.slices) == t[..s.rendered]
  {
    hide Normalise, UpdateStep;
    if frames != [] {
      var n := |frames| - 1;
      RenderedSoFar(frames[..n], final);
      NormaliseMonotone(frames[n], final[|frames[n]|..]);
      assert final == frames[n] + final[|frames[n]|..];
      UpdateKeepsPrefix(Updates(frames[..n]), frames[n], Normalise(final));
    }
  }

  /** Streaming loses, repeats and reorders nothing, whatever the text. */
  lemma StreamConserves(frames: seq<string>, final: string)
    requires PrefixesOf(frames, final)
    ensures Concat(FinishStep(Updates(frames), final).slices) == Normalise(final)
  {
    hide Updates, Normalise, Concat, Append, UpdateStep;
    RenderedSoFar(frames, final);
    var s, t := Updates(frames), Normalise(final);
    ConcatAppend(s.slices, t[s.rendered..]);
  }

  /** After an update, what has been rendered and what is shown as pending are the whole frame, exactly
      when the splitter's cut has not moved back behind what was rendered. */
  lemma PendingShown(frames: seq<string>, frame: string)
    requires PrefixesOf(frames, frame)
    ensures var s, t := Updates(frames + [frame]), Normalise(frame);
            (Concat(s.slices) + s.tail == t <==> Updates(frames).rendered <= |Completed(t)|)
            && Completed(t) + s.tail == t
  {
    hide Completed, Pending, Normalise, Concat;
    var s, t := Updates(frames), Normalise(frame);
    RenderedSoFar(frames, frame);
    assert (frames + [frame])[..|frames|] == frames;
    SplitterLaws(t);
    UpdateKeepsPrefix(s, frame, t);
    var u := UpdateStep(s, frame);
    assert t == Completed(t) + Pending(t);
    assert |Concat(u.slices)| == u.rendered;
    if u.rendered == |Completed(t)| { assert t == t[..u.rendered] + Pending(t); }
  }

  // ---- agreement with the one-shot renderer ---------------------------------------------

  lemma SealExtends(open: bool, l: string, x: string)
    requires Seals(open, l) && Blank(x)
    ensures Seals(open, l + x)
  {
    hide Blank, TrimStart;
    if open {
      MarkStaysMark(l, x);
      TrimStartAppend(l, x);
      var r := TrimStart(l)[3..];
      BlankAppend(r, x);
      assert TrimStart(l + x)[3..] == r + x;
    } else {
      BlankAppend(l, x);
    }
  }

  /** A frame whose last line is blank and outside a fence must leave it so: the final text
      continues that line with white space only, or the frame rested after a stable line. */
  predicate Settled(frame: string, final: string)
    requires frame <= final
  {
    EndsBlank(frame) ==> Rested(frame) || Blank(Lines(final[|frame|..])[0])
  }

  /** All lines of a frame but its last are lines of the final text; the last begins one. */
  lemma FencedFrame(frame: string, final: string)
    requires frame <= final && WellFenced(false, Lines(final))
    ensures var ls := Lines(frame);
            var l := LastLine(frame) + Lines(final[|frame|..])[0];
            WellFenced(false, ls[..|ls| - 1])
            && (FenceMark(l) && Fence(false, ls[..|ls| - 1]) ==> FenceCloser(l))
  {
    hide Blank, FenceMark, FenceOpener, FenceCloser, SplitOn;
    var ls, rest := Lines(frame), Lines(final[|frame|..]);
    assert final == frame + final[|frame|..];
    SplitConcat(frame, final[|frame|..], '\n');
    var l := LastLine(frame) + rest[0];
    assert Lines(final) == ls[..|ls| - 1] + ([l] + rest[1..]);
    FenceAppend(false, ls[..|ls| - 1], [l] + rest[1..]);
  }

  lemma CloserSplits(l: string, x: string)
    requires FenceMark(l) && FenceCloser(l + x)
    ensures FenceCloser(l) && Blank(x)
  {
    hide IsSpace, Blank, TrimStart;
    MarkStaysMark(l, x);
    TrimStartAppend(l, x);
    var r := TrimStart(l)[3..];
    assert TrimStart(l + x)[3..] == r + x;
    BlankAppend(r, x);
  }

  /** Frames settle in the final text, newlines folded. */
  ghost predicate AllSettled(frames: seq<string>, final: string)
    requires PrefixesOf(frames, final)
  {
    forall i :: 0 <= i < |frames| ==>
      Normalise(frames[i]) <= Normalise(final) && Settled(Normalise(frames[i]), Normalise(final))
  }

  lemma RenderFolded(source: string)
    requires '\r' !in source
    ensures Render(source) == Blocks(Lines(source))
  {
    NormaliseFixed(source);
  }
}
