/** What the readers make of a stream, told from the side of its sender: the text, the usage and the
    metrics of the messages that were sent, whatever the chunks. */
module Upstream {
  import opened Text
  import opened Sse
  import opened ChatStream
  import opened Events

  // ---- the messages of a stream ----------------------------------------------------------------

  /** A message with something to read. */
  predicate Speaks(e: Sent) {
    e.Message? && e.data != "" && e.data != DONE
  }

  /** The metrics a `swiftlm` provider sends. */
  predicate Reports(swift: bool, e: Sent) {
    swift && Speaks(e) && e.name == Some("mlx-metrics")
  }

  /** The data of the messages that carry text, in order. */
  function Payloads(swift: bool, es: seq<Sent>): seq<string> {
    if es == [] then []
    else
      var e := es[|es| - 1];
      Payloads(swift, es[..|es| - 1]) + if Speaks(e) && !Reports(swift, e) then [e.data] else []
  }

  function Metricses(swift: bool, es: seq<Sent>): seq<string> {
    if es == [] then []
    else
      var e := es[|es| - 1];
      Metricses(swift, es[..|es| - 1]) + if Reports(swift, e) then [e.data] else []
  }

  /** The text a payload carries: that of a chunk, or the payload itself when it is no JSON. */
  function TextOf(c: Codec, d: string): string {
    match c.parse(d) case Some(k) => k.delta case None => d
  }

  function TextsOf(c: Codec, ds: seq<string>): seq<string> {
    seq(|ds|, i requires 0 <= i < |ds| => TextOf(c, ds[i]))
  }

  /** What is forwarded for a payload. */
  function WriteOf(c: Codec, d: string): Write {
    match c.parse(d) case Some(k) => Data(c.json(k)) case None => Data(c.wrap(d))
  }

  function WritesOf(c: Codec, ds: seq<string>): seq<Write> {
    seq(|ds|, i requires 0 <= i < |ds| => WriteOf(c, ds[i]))
  }

  /** The last usage any payload gave. */
  function LastUsage(parse: Reader, ds: seq<string>): Option<Usage> {
    if ds == [] then None
    else
      match parse(ds[|ds| - 1])
      case Some(k) => if k.usage.Some? then k.usage else LastUsage(parse, ds[..|ds| - 1])
      case None => LastUsage(parse, ds[..|ds| - 1])
  }

  /** The last metrics record that could be read. */
  function LastMetrics(c: Codec, ds: seq<string>): Option<Metrics> {
    if ds == [] then None
    else if c.metrics(ds[|ds| - 1]).Some? then c.metrics(ds[|ds| - 1])
    else LastMetrics(c, ds[..|ds| - 1])
  }

  // ---- the dashboard -----------------------------------------------------------------------------

  /** A session that has heard `es` and nothing else. */
  ghost predicate Heard(c: Codec, swift: bool, s: Session, es: seq<Sent>) {
    var ds := Payloads(swift, es);
    s.budget.None? && s.completion.None?
    && s.assistant == ConcatAll(TextsOf(c, ds)) && s.delivered == WritesOf(c, ds)
    && s.usage == LastUsage(c.parse, ds) && s.reported == LastMetrics(c, Metricses(swift, es))
  }

  lemma TextsSnoc(c: Codec, ds: seq<string>, d: string)
    ensures ConcatAll(TextsOf(c, ds + [d])) == ConcatAll(TextsOf(c, ds)) + TextOf(c, d)
    ensures WritesOf(c, ds + [d]) == WritesOf(c, ds) + [WriteOf(c, d)]
  {
    var ts := TextsOf(c, ds + [d]);
    assert ts[..|ts| - 1] == TextsOf(c, ds);
  }

  lemma PayloadsNext(swift: bool, es: seq<Sent>, e: Sent)
    ensures Payloads(swift, es + [e]) == if Speaks(e) && !Reports(swift, e) then Payloads(swift, es) + [e.data] else Payloads(swift, es)
    ensures Metricses(swift, es + [e]) == if Reports(swift, e) then Metricses(swift, es) + [e.data] else Metricses(swift, es)
  {
    hide Speaks, Reports;
    assert (es + [e])[..|es|] == es;
    assert Payloads(swift, es) + [] == Payloads(swift, es) && Metricses(swift, es) + [] == Metricses(swift, es);
  }

  lemma LastNext(c: Codec, ds: seq<string>, d: string)
    ensures LastUsage(c.parse, ds + [d]) ==
            if c.parse(d).Some? && c.parse(d).value.usage.Some? then c.parse(d).value.usage else LastUsage(c.parse, ds)
    ensures LastMetrics(c, ds + [d]) == Or(c.metrics(d), LastMetrics(c, ds))
  {
    assert (ds + [d])[..|ds|] == ds;
  }

  lemma HeardNext(c: Codec, swift: bool, s: Session, es: seq<Sent>, e: Sent)
    requires Heard(c, swift, s, es) && Sendable(e)
    ensures Heard(c, swift, Consume(c, swift, s, Written(e)), es + [e])
  {
    hide EventData, EventName, Written, Sendable, TextsOf, WritesOf, ConcatAll, Payloads, Metricses, LastUsage, LastMetrics;
    SentReads(e);
    PayloadsNext(swift, es, e);
    if Reports(swift, e) {
      LastNext(c, Metricses(swift, es), e.data);
    } else if Speaks(e) {
      TextsSnoc(c, Payloads(swift, es), e.data);
      LastNext(c, Payloads(swift, es), e.data);
    }
  }

  lemma {:induction false} HeardAll(c: Codec, swift: bool, es: seq<Sent>)
    requires AllSendable(es)
    ensures Heard(c, swift, ConsumeAll(c, swift, Begin(None), AllWritten(es)), es)
  {
    hide Consume, Written, Sendable, Heard;
    if es == [] {
      NothingHeard(c, swift);
    } else {
      var n := |es| - 1;
      HeardAll(c, swift, es[..n]);
      AllWrittenAppend(es[..n], [es[n]]);
      assert es == es[..n] + [es[n]];
      OneWritten(es[n]);
      var ws := AllWritten(es);
      assert ws[..n] == AllWritten(es[..n]) && ws[n] == Written(es[n]);
      HeardNext(c, swift, ConsumeAll(c, swift, Begin(None), ws[..n]), es[..n], es[n]);
    }
  }

  lemma OneWritten(e: Sent)
    ensures AllWritten([e]) == [Written(e)]
  {
    hide Written;
    assert [e][1..] == [];
  }

  lemma NothingHeard(c: Codec, swift: bool)
    ensures Heard(c, swift, Begin(None), [])
  {
  }

  /** The text after the last complete event: an event whose blank line never came, or nothing. */
  function TailOf(unfinished: Option<Sent>): string {
    if unfinished.Some? then Written(unfinished.value) else ""
  }

  ghost predicate SendableTail(unfinished: Option<Sent>) {
    unfinished.Some? ==> Sendable(unfinished.value)
  }

  /** A stream, in chunks, of messages and remarks and perhaps an unfinished one. */
  ghost predicate Streams(es: seq<Sent>, unfinished: Option<Sent>, chunks: seq<string>) {
    AllSendable(es) && SendableTail(unfinished) && NoStraddle(chunks)
    && FoldCrlf(ConcatAll(chunks)) == Frames(AllWritten(es)) + TailOf(unfinished)
  }

  lemma StreamSplits(es: seq<Sent>, unfinished: Option<Sent>, chunks: seq<string>)
    requires Streams(es, unfinished, chunks)
    ensures ReadAll(chunks) == Parsed(AllWritten(es), TailOf(unfinished))
  {
    hide FoldCrlf, ConcatAll, Frames, AllWritten, Written, Sendable, NoStraddle, ReadAll;
    if unfinished.Some? {
      SentReads(unfinished.value);
      BodyIsTail(Written(unfinished.value));
    } else {
      NoTail();
    }
    StreamReads(es, TailOf(unfinished), chunks);
  }

  lemma BodyIsTail(s: string)
    requires IsBody(s)
    ensures Boundary(s).None?
  {
    hide Boundary;
    BoundaryAppend(s, "\n");
  }

  lemma NoTail()
    ensures Boundary("").None?
  {
  }

  /** What the dashboard reads to the end: an unfinished event only if the stream ended in order. */
  function ReadToEnd(es: seq<Sent>, unfinished: Option<Sent>, ending: Ending): seq<Sent> {
    if ending.Finished? && unfinished.Some? then es + [unfinished.value] else es
  }

  /** The row the answer is saved in, if it is. */
  function Saved(text: string, usage: Option<Usage>, ending: Ending): Option<Completion> {
    var cancelled := ending.Broken? && ending.cancelled;
    if Blank(text) && !cancelled then None else Some(Completion(text, usage, ending.Finished?, cancelled))
  }

  /** The last writes of a generation. */
  function Closing(c: Codec, saved: Option<Completion>, ending: Ending): seq<Write> {
    match ending
    case Finished => [Named("dashboard", c.saved(saved)), Data(DONE)]
    case Broken(true, _) => [Named("stopped", c.saved(saved)), Data(DONE)]
    case Broken(false, message) => [Named("error", c.failure(message))]
  }

  lemma BlankTail(c: Codec, swift: bool, s: Session, es: seq<Sent>, e: Sent)
    requires Heard(c, swift, s, es) && Sendable(e) && Blank(Written(e))
    ensures Heard(c, swift, s, es + [e])
  {
    hide TextsOf, WritesOf, ConcatAll, LastUsage, LastMetrics, Payloads, Metricses, Written, Sendable, Blank;
    PayloadsNext(swift, es, e);
    if e.Message? { MessageIsNotBlank(e); }
  }

  lemma MessageIsNotBlank(e: Sent)
    requires e.Message? && Sendable(e)
    ensures !Blank(Written(e))
  {
    hide Blank, TrimStart, SplitOn, Word, NameOf, DataOf;
    MessageLines(e.name, e.data);
    var ls := FieldLines(e);
    FirstLineStarts(ls);
    FirstLetter(e);
    NotBlank(Written(e));
  }

  lemma FirstLineStarts(ls: seq<string>)
    requires ls != [] && ls[0] != ""
    ensures Unlines(ls) != "" && Unlines(ls)[0] == ls[0][0]
  {
  }

  lemma FirstLetter(e: Sent)
    requires e.Message?
    ensures var ls := FieldLines(e); ls != [] && ls[0] != "" && ls[0][0] in {'d', 'e'}
  {
    hide SplitOn;
  }

  lemma NotBlank(s: string)
    requires s != "" && s[0] in {'d', 'e'}
    ensures !Blank(s)
  {
  }

  /** The dashboard's answer to any stream of messages and remarks, in any chunks: the text of its
      messages, one after the other; one write for each of them, in order, and the closing ones; the
      last usage and the last metrics that could be read; and a saved answer that says how it ended. */
  lemma ChatTells(c: Codec, swift: bool, es: seq<Sent>, unfinished: Option<Sent>, chunks: seq<string>, ending: Ending)
    requires Streams(es, unfinished, chunks)
    ensures var s, read := Chat(c, swift, None, chunks, ending), ReadToEnd(es, unfinished, ending);
            var ds := Payloads(swift, read);
            s.assistant == ConcatAll(TextsOf(c, ds))
            && s.usage == LastUsage(c.parse, ds) && s.reported == LastMetrics(c, Metricses(swift, read))
            && s.completion == Saved(s.assistant, s.usage, ending)
            && s.delivered == WritesOf(c, ds) + Closing(c, s.completion, ending)
  {
    hide Streams, Consume, Written, Sendable, AllWritten, Heard, Blank, ReadAll, TextsOf, WritesOf, ConcatAll, LastUsage,
      LastMetrics, Payloads, Metricses;
    assert AllSendable(es) && SendableTail(unfinished) by { StreamIsSendable(es, unfinished, chunks); }
    StreamSplits(es, unfinished, chunks);
    HeardAll(c, swift, es);
    EmptyTrims();
    var s := ConsumeAll(c, swift, Begin(None), AllWritten(es));
    if ending.Finished? {
      var t := if Blank(TailOf(unfinished)) then s else Consume(c, swift, s, TailOf(unfinished));
      if unfinished.Some? {
        if Blank(TailOf(unfinished)) {
          BlankTail(c, swift, s, es, unfinished.value);
        } else {
          HeardNext(c, swift, s, es, unfinished.value);
        }
      }
      Concluded(c, swift, t, ReadToEnd(es, unfinished, ending), ending);
    } else {
      Concluded(c, swift, s, es, ending);
    }
  }

  lemma StreamIsSendable(es: seq<Sent>, unfinished: Option<Sent>, chunks: seq<string>)
    requires Streams(es, unfinished, chunks)
    ensures AllSendable(es) && SendableTail(unfinished)
  {
    hide AllSendable, SendableTail, NoStraddle, FoldCrlf, Frames;
  }

  lemma ClosingWrites(c: Codec, swift: bool, t: Session, ending: Ending)
    requires t.budget.None? && t.completion.None?
    ensures var s := Conclude(c, swift, t, "", ending);
            s == t.(completion := Saved(t.assistant, t.usage, ending), delivered := s.delivered)
            && s.delivered == t.delivered + Closing(c, s.completion, ending)
  {
    hide Consume, Blank;
    EmptyTrims();
    var s := Conclude(c, swift, t, "", ending);
    assert s.delivered == t.delivered + Closing(c, s.completion, ending);
  }

  /** The session once the stream has ended and all of it was read. */
  lemma Concluded(c: Codec, swift: bool, t: Session, read: seq<Sent>, ending: Ending)
    requires Heard(c, swift, t, read)
    ensures var s, ds := Conclude(c, swift, t, "", ending), Payloads(swift, read);
            s.assistant == ConcatAll(TextsOf(c, ds))
            && s.usage == LastUsage(c.parse, ds) && s.reported == LastMetrics(c, Metricses(swift, read))
            && s.completion == Saved(s.assistant, s.usage, ending)
            && s.delivered == WritesOf(c, ds) + Closing(c, s.completion, ending)
  {
    hide Conclude, TextsOf, WritesOf, ConcatAll, LastUsage, LastMetrics, Payloads, Metricses, Saved, Closing;
    ClosingWrites(c, swift, t, ending);
  }

  /** ... and a page that stays connected shows that text, in whatever chunks the dashboard's stream
      reaches it. */
  lemma PageTells(c: Codec, swift: bool, es: seq<Sent>, unfinished: Option<Sent>, chunks: seq<string>, ending: Ending,
                  received: seq<string>)
    requires Lawful(c) && Streams(es, unfinished, chunks)
    requires ConcatAll(received) == Frames(Bodies(Chat(c, swift, None, chunks, ending).delivered))
    ensures Read(c, received).assistant == ConcatAll(TextsOf(c, Payloads(swift, ReadToEnd(es, unfinished, ending))))
    ensures Read(c, received).stopped <==> ending.Broken? && ending.cancelled
    ensures Read(c, received).failed <==> ending.Broken? && !ending.cancelled
  {
    hide Lawful, Streams, Chat, Read, TextsOf, ConcatAll, Payloads, Frames, Bodies;
    ChatTells(c, swift, es, unfinished, chunks, ending);
    EndToEnd(c, swift, chunks, ending, received);
  }

  // ---- texts ---------------------------------------------------------------------------------------

  /** An engine that sends each text as a chunk of its own. */
  function Speak(c: Codec, ts: seq<string>): seq<Sent> {
    if ts == [] then [] else Speak(c, ts[..|ts| - 1]) + [Message(None, c.json(Chunk(ts[|ts| - 1], None)))]
  }

  lemma {:induction false} SpeakSends(c: Codec, swift: bool, ts: seq<string>)
    requires Lawful(c)
    ensures AllSendable(Speak(c, ts)) && TextsOf(c, Payloads(swift, Speak(c, ts))) == ts
  {
    hide Lawful, Sendable, TextsOf, TextOf, Payloads;
    if ts == [] {
      NoTexts(c, swift);
    } else {
      var n := |ts| - 1;
      var d := c.json(Chunk(ts[n], None));
      SpeakSends(c, swift, ts[..n]);
      JsonSends(c, ts[n]);
      PayloadsNext(swift, Speak(c, ts[..n]), Message(None, d));
      TextsNext(c, Payloads(swift, Speak(c, ts[..n])), d);
      assert ts == ts[..n] + [ts[n]];
    }
  }

  lemma NoTexts(c: Codec, swift: bool)
    ensures TextsOf(c, Payloads(swift, [])) == []
  {
  }

  lemma TextsNext(c: Codec, ds: seq<string>, d: string)
    ensures TextsOf(c, ds + [d]) == TextsOf(c, ds) + [TextOf(c, d)]
  {
  }

  lemma JsonSends(c: Codec, t: string)
    requires Lawful(c)
    ensures var d := c.json(Chunk(t, None));
            Sendable(Message(None, d)) && d != "" && d != DONE && TextOf(c, d) == t
  {
    hide SplitOn, TrimStart, IsSpace;
    var d := c.json(Chunk(t, None));
    assert Clean(d) && d != DONE && c.parse(d).Some? && c.parse(d).value.delta == t;
    SplitFirst(d, "", '\n');
    CleanTrims(d);
  }

  lemma CleanTrims(d: string)
    requires Clean(d)
    ensures TrimStart(d) == d
  {
    hide IsSpace;
  }

  /** Whatever texts an engine sends, the answer is these texts one after the other. */
  lemma TextsArrive(c: Codec, swift: bool, ts: seq<string>, chunks: seq<string>, ending: Ending)
    requires Lawful(c) && NoStraddle(chunks) && FoldCrlf(ConcatAll(chunks)) == Frames(AllWritten(Speak(c, ts)))
    ensures Chat(c, swift, None, chunks, ending).assistant == ConcatAll(ts)
  {
    hide Lawful, NoStraddle, FoldCrlf, Frames, AllWritten, Chat, TextsOf, Payloads, Speak;
    SpeakSends(c, swift, ts);
    var s := Frames(AllWritten(Speak(c, ts)));
    assert s + TailOf(None) == s;
    ChatTells(c, swift, Speak(c, ts), None, chunks, ending);
  }

  // ---- the page --------------------------------------------------------------------------------------

  predicate Fails(e: Sent) {
    Speaks(e) && e.name == Some("error")
  }

  /** What the page should hold after messages without an error: the text of all but the dashboard's
      own, and whether one of them told of a stop. */
  function PageOf(c: Codec, es: seq<Sent>): Browser {
    if es == [] then Browser("", false, false)
    else
      var b, e := PageOf(c, es[..|es| - 1]), es[|es| - 1];
      if !Speaks(e) || e.name == Some("dashboard") then b
      else if e.name == Some("stopped") then b.(stopped := true)
      else b.(assistant := b.assistant + TextOf(c, e.data))
  }

  lemma PageNext(c: Codec, es: seq<Sent>, e: Sent)
    requires Sendable(e) && !Fails(e) && !PageOf(c, es).failed
    ensures Receive(c, PageOf(c, es), Written(e)) == PageOf(c, es + [e])
    ensures !PageOf(c, es + [e]).failed
  {
    hide EventData, EventName, Written, Sendable;
    SentReads(e);
    assert (es + [e])[..|es|] == es;
  }

  ghost predicate NoneFails(es: seq<Sent>) {
    forall i :: 0 <= i < |es| ==> !Fails(es[i])
  }

  lemma {:induction false} PageAll(c: Codec, es: seq<Sent>)
    requires AllSendable(es) && NoneFails(es)
    ensures ReceiveAll(c, BLANK_PAGE, AllWritten(es)) == PageOf(c, es) && !PageOf(c, es).failed
  {
    hide Receive, Written, Sendable, Fails;
    if es != [] {
      var n := |es| - 1;
      PageAll(c, es[..n]);
      AllWrittenAppend(es[..n], [es[n]]);
      assert es == es[..n] + [es[n]];
      OneWritten(es[n]);
      var ws := AllWritten(es);
      assert ws[..n] == AllWritten(es[..n]) && ws[n] == Written(es[n]);
      PageNext(c, es[..n], es[n]);
    }
  }

  lemma PageTail(c: Codec, es: seq<Sent>, e: Sent)
    requires Sendable(e) && Blank(Written(e))
    ensures PageOf(c, es + [e]) == PageOf(c, es)
  {
    hide Blank, Written, Sendable;
    if e.Message? { MessageIsNotBlank(e); }
    assert (es + [e])[..|es|] == es;
  }

  /** The page, reading any stream without an error event, in any chunks, unfinished or not. */
  lemma PageReads(c: Codec, es: seq<Sent>, unfinished: Option<Sent>, chunks: seq<string>)
    requires Streams(es, unfinished, chunks) && NoneFails(es) && (unfinished.Some? ==> !Fails(unfinished.value))
    ensures Read(c, chunks) == PageOf(c, if unfinished.Some? then es + [unfinished.value] else es)
  {
    hide Streams, Receive, Written, Sendable, AllWritten, Blank, ReadAll, PageOf, Fails;
    StreamIsSendable(es, unfinished, chunks);
    StreamSplits(es, unfinished, chunks);
    PageAll(c, es);
    EmptyTrims();
    if unfinished.Some? {
      if Blank(TailOf(unfinished)) { PageTail(c, es, unfinished.value); } else { PageNext(c, es, unfinished.value); }
    }
  }

  lemma {:induction false} FailedStays(c: Codec, b: Browser, events: seq<string>)
    requires b.failed
    ensures ReceiveAll(c, b, events) == b
  {
    hide EventName, EventData;
    if events != [] { FailedStays(c, b, events[..|events| - 1]); }
  }

  /** An error event ends the reading: the page keeps what it has and nothing after it counts. */
  lemma PageFails(c: Codec, es: seq<Sent>, error: Sent, more: seq<Sent>, chunks: seq<string>)
    requires Streams(es + [error] + more, None, chunks) && NoneFails(es) && Fails(error)
    ensures Read(c, chunks) == PageOf(c, es).(failed := true)
  {
    hide Streams, Receive, Written, Sendable, Blank, ReadAll, PageOf;
    var all := es + [error] + more;
    StreamIsSendable(all, None, chunks);
    StreamSplits(all, None, chunks);
    AllWrittenAppend(es + [error], more);
    AllWrittenAppend(es, [error]);
    OneWritten(error);
    assert forall i :: 0 <= i < |es| ==> all[i] == es[i];
    assert all[|es|] == error;
    PageAll(c, es);
    var ws := AllWritten(es);
    ReceiveAppend(c, BLANK_PAGE, ws + [Written(error)], AllWritten(more));
    assert (ws + [Written(error)])[..|ws|] == ws;
    ErrorFails(c, PageOf(c, es), error);
    FailedStays(c, PageOf(c, es).(failed := true), AllWritten(more));
  }

  lemma ErrorFails(c: Codec, b: Browser, error: Sent)
    requires Sendable(error) && Fails(error) && !b.failed
    ensures Receive(c, b, Written(error)) == b.(failed := true)
  {
    hide EventName, EventData, Written, Sendable;
    SentReads(error);
  }

  // ---- the gateway's counters -------------------------------------------------------------------------

  /** The last count any payload gave. */
  function LastCount(parse: Reader, count: Usage -> Option<int>, ds: seq<string>): Option<int> {
    if ds == [] then None
    else
      var last := parse(ds[|ds| - 1]);
      if last.Some? && last.value.usage.Some? && count(last.value.usage.value).Some? then count(last.value.usage.value)
      else LastCount(parse, count, ds[..|ds| - 1])
  }

  /** The texts of the payloads that have any. */
  function Contents(parse: Reader, ds: seq<string>): seq<string> {
    if ds == [] then []
    else
      var last := parse(ds[|ds| - 1]);
      Contents(parse, ds[..|ds| - 1]) + if last.Some? && last.value.delta != "" then [last.value.delta] else []
  }

  function MeterOf(parse: Reader, ds: seq<string>): Meter {
    Meter(|Contents(parse, ds)|, LastCount(parse, (u: Usage) => u.prompt, ds), LastCount(parse, (u: Usage) => u.completion, ds))
  }

  lemma MeterStep(parse: Reader, es: seq<Sent>, e: Sent)
    requires Sendable(e)
    ensures Observe(parse, MeterOf(parse, Payloads(false, es)), Written(e)) == MeterOf(parse, Payloads(false, es + [e]))
  {
    hide EventData, Written, Sendable, Payloads;
    SentReads(e);
    PayloadsNext(false, es, e);
    var ds := Payloads(false, es);
    if Speaks(e) { assert (ds + [e.data])[..|ds|] == ds; }
  }

  lemma {:induction false} MeterAll(parse: Reader, es: seq<Sent>)
    requires AllSendable(es)
    ensures ObserveAll(parse, FRESH, AllWritten(es)) == MeterOf(parse, Payloads(false, es))
  {
    hide Observe, Written, Sendable, MeterOf;
    if es == [] {
      NothingMetered(parse);
    } else {
      var n := |es| - 1;
      MeterAll(parse, es[..n]);
      AllWrittenAppend(es[..n], [es[n]]);
      assert es == es[..n] + [es[n]];
      OneWritten(es[n]);
      var ws := AllWritten(es);
      assert ws[..n] == AllWritten(es[..n]) && ws[n] == Written(es[n]);
      MeterStep(parse, es[..n], es[n]);
    }
  }

  lemma NothingMetered(parse: Reader)
    ensures MeterOf(parse, Payloads(false, [])) == FRESH
  {
  }

  /** What the gateway counts of any stream, in any chunks: the payloads with text, and the last number
      of prompt and of completion tokens any of them gave. */
  lemma MeterTells(parse: Reader, es: seq<Sent>, unfinished: Option<Sent>, chunks: seq<string>)
    requires Streams(es, unfinished, chunks)
    ensures var ds := Payloads(false, es);
            MeterAfter(parse, chunks) ==
            Meter(|Contents(parse, ds)|, LastCount(parse, (u: Usage) => u.prompt, ds), LastCount(parse, (u: Usage) => u.completion, ds))
  {
    hide Streams, Observe, Written, Sendable, AllWritten, ReadAll, Payloads, Contents, LastCount;
    StreamIsSendable(es, unfinished, chunks);
    StreamSplits(es, unfinished, chunks);
    MeterAll(parse, es);
  }
}
