/** The OpenAI-compatible proxy: it forwards a stream event by event and takes the provider's
    metrics events out. */
module Proxy {
  import opened Text
  import opened Sse
  import opened ChatStream
  import opened Events

  function Kept(swift: bool, events: seq<string>): seq<string> {
    if events == [] then []
    else (if Consumed(swift, events[0]) then [] else [events[0]]) + Kept(swift, events[1..])
  }

  /** A stream without its metrics events; an incomplete event at its end stays. */
  function Strip(swift: bool, s: string): string {
    Frames(Kept(swift, Parse(s).events)) + Parse(s).rest
  }

  lemma {:induction false} KeptAppend(swift: bool, a: seq<string>, b: seq<string>)
    ensures Kept(swift, a + b) == Kept(swift, a) + Kept(swift, b)
  {
    hide Consumed;
    if a == [] {
      assert a + b == b;
    } else {
      assert (a + b)[1..] == a[1..] + b;
      KeptAppend(swift, a[1..], b);
    }
  }

  /** What a client gets for the chunks of an upstream stream. */
  function Forwarded(swift: bool, chunks: seq<string>): string {
    Frames(Kept(swift, ReadAll(chunks).events)) + ReadAll(chunks).rest
  }

  /** The streaming half of `proxyOpenAI`: what it writes for the chunks it reads. */
  method Forward(swift: bool, chunks: seq<string>) returns (output: string)
    ensures output == Forwarded(swift, chunks)
    ensures '\r' !in ConcatAll(chunks) && (swift ==> Unnamed(ConcatAll(chunks))) ==> output == ConcatAll(chunks)
    ensures '\r' !in ConcatAll(chunks) ==> output == Strip(swift, ConcatAll(chunks))
  {
    hide Consumed, Parse, FoldCrlf, Frames, Kept, Unnamed;
    var buffer := "";
    output := "";
    EmptyFrames(swift);
    for i := 0 to |chunks|
      invariant buffer == ReadAll(chunks[..i]).rest
      invariant output == Frames(Kept(swift, ReadAll(chunks[..i]).events))
    {
      ghost var p := ReadAll(chunks[..i]);
      assert chunks[..i + 1][..i] == chunks[..i];
      var events;
      events, buffer := TakeEvents(buffer, chunks[i]);
      KeptAppend(swift, p.events, events);
      FramesAppend(Kept(swift, p.events), Kept(swift, events));
      var written := ForwardEvents(swift, events);
      output := output + written;
    }
    assert chunks[..|chunks|] == chunks;
    output := output + buffer;
    if '\r' !in ConcatAll(chunks) {
      CrFreeIndependence(chunks);
      if !swift { OthersForwarded(chunks); } else if Unnamed(ConcatAll(chunks)) { UnnamedForwarded(true, chunks); }
    }
  }

  lemma EmptyFrames(swift: bool)
    ensures Frames(Kept(swift, [])) == "" && Kept(swift, []) == [] && Frames([]) == ""
  {
  }

  method ForwardEvents(swift: bool, events: seq<string>) returns (output: string)
    ensures output == Frames(Kept(swift, events))
  {
    hide Consumed, Frames, Kept;
    EmptyFrames(swift);
    output := "";
    for i := 0 to |events|
      invariant output == Frames(Kept(swift, events[..i]))
    {
      assert events[..i + 1] == events[..i] + [events[i]];
      KeptAppend(swift, events[..i], [events[i]]);
      FramesAppend(Kept(swift, events[..i]), Kept(swift, [events[i]]));
      OneFrame(swift, events[i]);
      if !Consumed(swift, events[i]) { output := output + events[i] + "\n\n"; }
    }
    assert events[..|events|] == events;
  }

  lemma OneFrame(swift: bool, event: string)
    ensures Kept(swift, [event]) == if Consumed(swift, event) then [] else [event]
    ensures Frames([event]) == event + "\n\n" && Frames([]) == ""
  {
    hide Consumed;
    assert [event][1..] == [];
  }

  lemma {:induction false} KeptAreEvents(swift: bool, events: seq<string>)
    ensures forall e :: e in Kept(swift, events) <==> e in events && !Consumed(swift, e)
  {
    hide Consumed;
    if events != [] { KeptAreEvents(swift, events[1..]); }
  }

  lemma {:induction false} KeptIsShorter(swift: bool, events: seq<string>)
    ensures Kept(swift, events) == events || |Frames(Kept(swift, events))| < |Frames(events)|
  {
    hide Consumed;
    if events != [] {
      KeptIsShorter(swift, events[1..]);
      FramesHead(events);
      var rest := Kept(swift, events[1..]);
      if !Consumed(swift, events[0]) {
        assert Kept(swift, events) == [events[0]] + rest;
        FramesHead([events[0]] + rest);
        assert ([events[0]] + rest)[1..] == rest;
      } else {
        assert Kept(swift, events) == rest;
      }
    }
  }

  /** What is forwarded reads as the same events without the metrics events, in order, with the
      same incomplete tail: nothing else is added, lost or changed. */
  lemma StripReads(swift: bool, s: string)
    ensures Parse(Strip(swift, s)) == Parsed(Kept(swift, Parse(s).events), Parse(s).rest)
  {
    hide Consumed, Parse, IsBody;
    var p := Parse(s);
    ParseThenUnparse(s);
    KeptAreEvents(swift, p.events);
    forall i | 0 <= i < |Kept(swift, p.events)| ensures IsBody(Kept(swift, p.events)[i]) {
      assert Kept(swift, p.events)[i] in p.events;
    }
    UnparseThenParse(Parsed(Kept(swift, p.events), p.rest));
  }

  /** Forwarding changes nothing exactly when there is no metrics event to take out. */
  lemma StripIdentity(swift: bool, s: string)
    ensures Strip(swift, s) == s <==> forall e :: e in Parse(s).events ==> !Consumed(swift, e)
  {
    hide Consumed, Parse, IsBody, Frames;
    ParseThenUnparse(s);
    KeptAreEvents(swift, Parse(s).events);
    KeptIsShorter(swift, Parse(s).events);
    if forall e :: e in Parse(s).events ==> !Consumed(swift, e) { KeptAll(swift, Parse(s).events); }
  }

  lemma {:induction false} KeptAll(swift: bool, events: seq<string>)
    requires forall e :: e in events ==> !Consumed(swift, e)
    ensures Kept(swift, events) == events
  {
    hide Consumed;
    if events != [] { KeptAll(swift, events[1..]); }
  }

  // ---- which events those are ---------------------------------------------------------------

  /** The messages and remarks of a stream that every client understands: all but a message that the
      `swiftlm` provider named `mlx-metrics`. */
  function Standard(swift: bool, es: seq<Sent>): seq<Sent> {
    if es == [] then []
    else if swift && es[0].Message? && es[0].name == Some("mlx-metrics") then Standard(swift, es[1..])
    else [es[0]] + Standard(swift, es[1..])
  }

  lemma {:induction false} KeptWritten(swift: bool, es: seq<Sent>)
    requires AllSendable(es)
    ensures Kept(swift, AllWritten(es)) == AllWritten(Standard(swift, es))
  {
    hide Written, Sendable, EventName;
    if es != [] {
      SentReads(es[0]);
      KeptWritten(swift, es[1..]);
      assert AllWritten(es)[1..] == AllWritten(es[1..]);
      var rest := Standard(swift, es[1..]);
      assert ([es[0]] + rest)[1..] == rest;
    }
  }

  /** Of any stream of messages and remarks, in any chunks, the client gets exactly the standard ones,
      in order and as they were written, and the unfinished tail. */
  lemma StandardForwarded(swift: bool, es: seq<Sent>, tail: string, chunks: seq<string>)
    requires AllSendable(es) && Boundary(tail).None? && NoStraddle(chunks)
    requires FoldCrlf(ConcatAll(chunks)) == Frames(AllWritten(es)) + tail
    ensures Forwarded(swift, chunks) == Frames(AllWritten(Standard(swift, es))) + tail
  {
    hide FoldCrlf, Boundary, NoStraddle, ReadAll, Frames, Kept, AllWritten, Standard;
    StreamReads(es, tail, chunks);
    KeptWritten(swift, es);
  }

  /** No line of the text begins with `event:`. */
  predicate Unnamed(s: string) {
    forall i :: 0 <= i < |Lines(s)| ==> !("event:" <= Lines(s)[i])
  }

  lemma UnnamedParts(a: string, b: string)
    requires Unnamed(a + ['\n'] + b)
    ensures Unnamed(a) && Unnamed(b)
  {
    hide SplitOn;
    var s := a + ['\n'] + b;
    SplitConcat(a, ['\n'] + b, '\n');
    assert s == a + (['\n'] + b);
    SplitFirst("", b, '\n');
    assert "" + ['\n'] + b == ['\n'] + b;
    var x, y := Lines(a), Lines(b);
    assert Lines(s) == x[..|x| - 1] + [x[|x| - 1] + ""] + y;
    assert x[|x| - 1] + "" == x[|x| - 1];
    assert Lines(s) == x + y;
    forall i | 0 <= i < |x| ensures !("event:" <= x[i]) { assert Lines(s)[i] == x[i]; }
    forall i | 0 <= i < |y| ensures !("event:" <= y[i]) { assert Lines(s)[|x| + i] == y[i]; }
  }

  lemma {:induction false} NameNeedsField(ls: seq<string>)
    requires forall i :: 0 <= i < |ls| ==> !("event:" <= ls[i])
    ensures NameOf(ls) == None
  {
    if ls != [] { NameNeedsField(ls[1..]); }
  }

  lemma {:induction false} UnnamedEvents(swift: bool, s: string)
    requires Unnamed(s)
    ensures forall e :: e in Parse(s).events ==> !Consumed(swift, e)
    decreases |s|
  {
    hide Parse, Boundary, SplitOn, Unnamed;
    if Boundary(s).Some? {
      var b := Boundary(s).value;
      BoundaryIsBody(s);
      ParseCut(s, b);
      var e, t := s[..b], s[b + 2..];
      assert s == e + ['\n'] + (['\n'] + t);
      UnnamedParts(e, ['\n'] + t);
      assert "" + ['\n'] + t == ['\n'] + t;
      UnnamedParts("", t);
      UnnamedIsKept(swift, e);
      UnnamedEvents(swift, t);
    } else {
      ParseEnd(s);
    }
  }

  lemma UnnamedIsKept(swift: bool, e: string)
    requires Unnamed(e)
    ensures !Consumed(swift, e)
  {
    hide SplitOn;
    NameNeedsField(Lines(e));
  }

  /** A stream without CR in which no line begins with `event:` comes out unchanged for either kind of
      provider. */
  lemma UnnamedForwarded(swift: bool, chunks: seq<string>)
    requires '\r' !in ConcatAll(chunks) && Unnamed(ConcatAll(chunks))
    ensures Forwarded(swift, chunks) == ConcatAll(chunks)
  {
    hide Parse, Consumed, Unnamed, Kept, Frames, ReadAll;
    CrFreeIndependence(chunks);
    UnnamedEvents(swift, ConcatAll(chunks));
    StripIdentity(swift, ConcatAll(chunks));
  }

  /** For any other provider every stream without CR does. */
  lemma OthersForwarded(chunks: seq<string>)
    requires '\r' !in ConcatAll(chunks)
    ensures Forwarded(false, chunks) == ConcatAll(chunks)
  {
    hide Parse, Kept, Frames, ReadAll, EventName;
    CrFreeIndependence(chunks);
    StripIdentity(false, ConcatAll(chunks));
  }

  // ---- behind the gateway -----------------------------------------------------------------

  function MetricsBody(record: string): string {
    "event: mlx-metrics\ndata: " + record
  }

  /** What the gateway appends to an engine's stream once the job is done. */
  function MetricsFrame(record: string): string {
    MetricsBody(record) + "\n\n"
  }

  lemma MetricsReads(record: string)
    requires Clean(record)
    ensures var b := MetricsBody(record); IsBody(b) && EventName(b) == Some("mlx-metrics") && b[0] == 'e'
  {
    hide IsSpace, Trim, TrimStart, SplitOn, IsBody, Word;
    var n := "mlx-metrics";
    var k, l := "event: " + n, "data: " + record;
    MetricsIsWord();
    NameLine(k, n);
    NoNewline(record);
    assert MetricsBody(record) == k + ['\n'] + l;
    TwoLines(k, l);
  }

  lemma MetricsIsWord()
    ensures Word("mlx-metrics")
  {
  }

  lemma NoNewline(record: string)
    requires Clean(record)
    ensures '\n' !in "data: " + record
  {
  }

  /** Text glued before a body that does not begin with a newline is part of that event. */
  lemma {:induction false} Glue(r: string, b: string)
    requires Boundary(r).None? && IsBody(b) && b != "" && b[0] != '\n'
    ensures IsBody(r + b)
  {
    if r == "" {
      assert r + b == b;
    } else {
      Glue(r[1..], b);
      var t := r + b + "\n";
      assert t[1..] == r[1..] + b + "\n";
      if |r| == 1 { assert t[1] == b[0]; } else { assert t[0] == r[0] && t[1] == r[1]; }
    }
  }

  lemma Appended(e: string, record: string)
    requires Clean(record)
    ensures var p := Parse(e);
            Parse(e + MetricsFrame(record)) == Parsed(p.events + [p.rest + MetricsBody(record)], "")
            && IsBody(p.rest + MetricsBody(record))
  {
    hide Parse, IsBody, MetricsBody;
    var p, b := Parse(e), MetricsBody(record);
    ParseThenUnparse(e);
    ParseAppend(e, MetricsFrame(record));
    MetricsReads(record);
    MetricsNotEmpty(record);
    Glue(p.rest, b);
    UnparseThenParse(Parsed([p.rest + b], ""));
    OneFrame(false, p.rest + b);
    assert p.rest + MetricsFrame(record) == p.rest + b + "\n\n" == Unparse(Parsed([p.rest + b], ""));
  }

  lemma MetricsNotEmpty(record: string)
    ensures MetricsBody(record) != ""
  {
  }

  /** Gateway and proxy together: the appended metrics event leaves no trace in what the client
      gets, exactly when the engine's stream ends at an event boundary. */
  lemma MetricsTransparent(e: string, record: string)
    requires Clean(record)
    ensures Strip(true, e + MetricsFrame(record)) == Strip(true, e) <==> Parse(e).rest == ""
  {
    hide Parse, IsBody, Frames, Kept, Consumed, MetricsBody;
    var p, b := Parse(e), MetricsBody(record);
    var last := p.rest + b;
    Appended(e, record);
    MetricsReads(record);
    KeptAppend(true, p.events, [last]);
    FramesAppend(Kept(true, p.events), Kept(true, [last]));
    OneFrame(true, last);
    if p.rest == "" {
      assert last == b;
      assert Consumed(true, last) by { NamedIsConsumed(last); }
    }
  }

  lemma NamedIsConsumed(event: string)
    requires EventName(event) == Some("mlx-metrics")
    ensures Consumed(true, event)
  {
  }

  /** For an engine that sends no such event itself, the client gets the engine's stream. */
  lemma EngineStreamArrives(e: string, record: string)
    requires Clean(record) && forall x :: x in Parse(e).events ==> !Consumed(true, x)
    ensures Strip(true, e + MetricsFrame(record)) == e <==> Parse(e).rest == ""
  {
    hide Parse, Consumed, MetricsFrame, Strip;
    MetricsTransparent(e, record);
    StripIdentity(true, e);
  }
}
