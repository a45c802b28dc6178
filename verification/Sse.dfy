/** Server-sent events as the gateway, the dashboard and the browser read them: append a
    chunk to a buffer, cut complete events off at each blank line, keep the tail. */
module Sse {
  import opened Text

  // ---- cutting events off -------------------------------------------------------------

  /** `s.indexOf("\n\n")` */
  function Boundary(s: string): (b: Option<nat>)
    ensures b.Some? ==> b.value + 2 <= |s|
  {
    if |s| < 2 then None
    else if s[0] == '\n' && s[1] == '\n' then Some(0)
    else match Boundary(s[1..]) case None => None case Some(i) => Some(i + 1)
  }

  /** The complete events of a text, and what is left in the buffer. */
  datatype Parsed = Parsed(events: seq<string>, rest: string)

  function Parse(s: string): Parsed
    decreases |s|
  {
    match Boundary(s)
    case None => Parsed([], s)
    case Some(b) =>
      var tail := Parse(s[b + 2..]);
      Parsed([s[..b]] + tail.events, tail.rest)
  }

  /** Each event followed by a blank line. */
  function Frames(events: seq<string>): string {
    if events == [] then "" else events[0] + "\n\n" + Frames(events[1..])
  }

  function Unparse(p: Parsed): string {
    Frames(p.events) + p.rest
  }

  /** The body of one frame: no blank line in it, and none made with the newline after it. */
  predicate IsBody(s: string) {
    Boundary(s + "\n").None?
  }

  lemma {:induction false} BoundaryAppend(a: string, b: string)
    ensures Boundary(a).Some? ==> Boundary(a + b) == Boundary(a)
  {
    if |a| >= 2 {
      assert (a + b)[1..] == a[1..] + b;
      BoundaryAppend(a[1..], b);
    }
  }

  /** The first boundary after a body is the one that ends its frame. */
  lemma {:induction false} BodyBoundary(s: string, t: string)
    requires IsBody(s)
    ensures Boundary(s + "\n\n" + t) == Some(|s|)
  {
    var u := s + "\n\n" + t;
    if s == "" {
      assert u[0] == '\n' && u[1] == '\n';
    } else {
      assert (s + "\n")[1..] == s[1..] + "\n";
      assert u[1..] == s[1..] + "\n\n" + t;
      BodyBoundary(s[1..], t);
      assert u[0] == (s + "\n")[0] && u[1] == (s + "\n")[1];
    }
  }

  lemma {:induction false} BoundaryIsBody(s: string)
    requires Boundary(s).Some?
    ensures var b := Boundary(s).value; s == s[..b] + "\n\n" + s[b + 2..] && IsBody(s[..b])
  {
    var b := Boundary(s).value;
    if b > 0 {
      BoundaryIsBody(s[1..]);
      assert s[1..][..b - 1] == s[1..b];
      assert (s[..b] + "\n")[1..] == s[1..b] + "\n";
    } else {
      assert s[..0] + "\n" == "\n";
    }
  }

  lemma {:induction false} FramesAppend(a: seq<string>, b: seq<string>)
    ensures Frames(a + b) == Frames(a) + Frames(b)
  {
    if a == [] {
      assert a + b == b;
    } else {
      assert (a + b)[1..] == a[1..] + b;
      FramesAppend(a[1..], b);
    }
  }

  lemma ParseEnd(s: string)
    requires Boundary(s).None?
    ensures Parse(s) == Parsed([], s)
  {
  }

  /** Cutting at the first boundary. */
  lemma ParseCut(s: string, b: nat)
    requires Boundary(s) == Some(b)
    ensures b + 2 <= |s| && Parse(s) == Parsed([s[..b]] + Parse(s[b + 2..]).events, Parse(s[b + 2..]).rest)
  {
    hide Boundary;
  }

  /** Reading is undone by writing: the events and the tail hold the text. */
  lemma {:induction false} ParseThenUnparse(s: string)
    ensures Unparse(Parse(s)) == s
    ensures Boundary(Parse(s).rest).None?
    ensures forall i :: 0 <= i < |Parse(s).events| ==> IsBody(Parse(s).events[i])
    decreases |s|
  {
    if Boundary(s).Some? {
      var b := Boundary(s).value;
      BoundaryIsBody(s);
      ParseThenUnparse(s[b + 2..]);
      assert Parse(s).events[1..] == Parse(s[b + 2..]).events;
    }
  }

  lemma FramesHead(events: seq<string>)
    requires events != []
    ensures Frames(events) == events[0] + "\n\n" + Frames(events[1..])
  {
  }

  /** Writing is undone by reading, for bodies of frames and a tail without a boundary. */
  lemma {:induction false} UnparseThenParse(p: Parsed)
    requires Boundary(p.rest).None?
    requires forall i :: 0 <= i < |p.events| ==> IsBody(p.events[i])
    ensures Parse(Unparse(p)) == p
    decreases |p.events|
  {
    if p.events == [] {
      assert Unparse(p) == p.rest;
    } else {
      hide Parse, Frames;
      var e, q := p.events[0], Parsed(p.events[1..], p.rest);
      UnparseThenParse(q);
      var s := Unparse(p);
      FramesHead(p.events);
      assert s == e + "\n\n" + Unparse(q);
      BodyBoundary(e, Unparse(q));
      ParseCut(s, |e|);
      assert s[..|e|] == e && s[|e| + 2..] == Unparse(q);
      assert [e] + q.events == p.events;
    }
  }

  /** Reading on: the events of a longer text are those handled already, then those cut off the
      buffer with the new text appended. */
  lemma {:induction false} ParseAppend(a: string, b: string)
    ensures var p := Parse(a);
            var q := Parse(p.rest + b);
            Parse(a + b) == Parsed(p.events + q.events, q.rest)
    decreases |a|
  {
    hide Boundary, Parse;
    if Boundary(a).Some? {
      var i := Boundary(a).value;
      BoundaryAppend(a, b);
      ParseCut(a, i);
      ParseCut(a + b, i);
      var t := a[i + 2..];
      assert (a + b)[i + 2..] == t + b && (a + b)[..i] == a[..i];
      ParseAppend(t, b);
      var q := Parse(Parse(t).rest + b);
      assert [a[..i]] + (Parse(t).events + q.events) == ([a[..i]] + Parse(t).events) + q.events;
    } else {
      ParseEnd(a);
      assert [] + Parse(a + b).events == Parse(a + b).events;
    }
  }

  // ---- chunks -------------------------------------------------------------------------

  function ConcatAll(chunks: seq<string>): string {
    if chunks == [] then "" else ConcatAll(chunks[..|chunks| - 1]) + chunks[|chunks| - 1]
  }

  /** What all the reading loops append: each chunk with CRLF folded on its own. */
  function FoldChunks(chunks: seq<string>): string {
    if chunks == [] then "" else FoldChunks(chunks[..|chunks| - 1]) + FoldCrlf(chunks[|chunks| - 1])
  }

  /** The events handled and the buffer after some chunks, chunk by chunk. */
  function ReadAll(chunks: seq<string>): Parsed {
    if chunks == [] then Parsed([], "")
    else
      var p := ReadAll(chunks[..|chunks| - 1]);
      var q := Parse(p.rest + FoldCrlf(chunks[|chunks| - 1]));
      Parsed(p.events + q.events, q.rest)
  }

  /** No chunk boundary falls between a CR and its LF. */
  ghost predicate NoStraddle(chunks: seq<string>) {
    forall i :: 0 <= i < |chunks| ==> !Straddles(ConcatAll(chunks[..i]), chunks[i])
  }

  lemma {:induction false} FoldChunksExact(chunks: seq<string>)
    ensures NoStraddle(chunks) ==> FoldChunks(chunks) == FoldCrlf(ConcatAll(chunks))
    ensures !NoStraddle(chunks) ==> |FoldChunks(chunks)| > |FoldCrlf(ConcatAll(chunks))|
  {
    hide FoldCrlf, Straddles;
    if chunks == [] {
      FoldFree("");
    } else {
      var n := |chunks| - 1;
      var c := chunks[..n];
      FoldChunksExact(c);
      FoldConcat(ConcatAll(c), chunks[n]);
      assert forall i :: 0 <= i < n ==> c[..i] == chunks[..i] && c[i] == chunks[i];
      assert NoStraddle(chunks) <==> NoStraddle(c) && !Straddles(ConcatAll(c), chunks[n]);
    }
  }

  lemma {:induction false} ReadAllFolds(chunks: seq<string>)
    ensures ReadAll(chunks) == Parse(FoldChunks(chunks))
  {
    hide FoldCrlf, Boundary;
    if chunks == [] {
      EmptyParse();
    } else {
      var n := |chunks| - 1;
      ReadAllFolds(chunks[..n]);
      ParseAppend(FoldChunks(chunks[..n]), FoldCrlf(chunks[n]));
    }
  }

  lemma EmptyParse()
    ensures Parse("") == Parsed([], "")
  {
  }

  /** Chunking does not matter to what is handled and what is left, exactly when no chunk
      boundary falls between a CR and its LF. */
  lemma ChunkIndependence(chunks: seq<string>)
    ensures ReadAll(chunks) == Parse(FoldCrlf(ConcatAll(chunks))) <==> NoStraddle(chunks)
    ensures Boundary(ReadAll(chunks).rest).None?
  {
    hide Parse, NoStraddle, Unparse;
    FoldChunksExact(chunks);
    ReadAllFolds(chunks);
    ParseThenUnparse(FoldChunks(chunks));
    ParseThenUnparse(FoldCrlf(ConcatAll(chunks)));
  }

  lemma {:induction false} ConcatLacks(chunks: seq<string>, c: char)
    ensures c !in ConcatAll(chunks) <==> forall i :: 0 <= i < |chunks| ==> c !in chunks[i]
  {
    if chunks != [] {
      var n := |chunks| - 1;
      ConcatLacks(chunks[..n], c);
      assert forall i :: 0 <= i < n ==> chunks[..n][i] == chunks[i];
    }
  }

  /** A stream without CR is read the same whatever its chunks. */
  lemma CrFreeIndependence(chunks: seq<string>)
    requires '\r' !in ConcatAll(chunks)
    ensures ReadAll(chunks) == Parse(ConcatAll(chunks))
  {
    hide Parse, FoldCrlf;
    forall i | 0 <= i < |chunks| ensures !Straddles(ConcatAll(chunks[..i]), chunks[i]) {
      ConcatLacks(chunks, '\r');
      ConcatLacks(chunks[..i], '\r');
    }
    ChunkIndependence(chunks);
    FoldFree(ConcatAll(chunks));
  }

  /** The chunk loop shared by the four readers: the events a chunk completes, in order, and the
      new buffer. */
  method TakeEvents(buffer: string, chunk: string) returns (events: seq<string>, rest: string)
    ensures Parsed(events, rest) == Parse(buffer + FoldCrlf(chunk))
  {
    hide FoldCrlf, Parse;
    ghost var all := buffer + FoldCrlf(chunk);
    rest := buffer + FoldCrlf(chunk);
    events := [];
    var boundary := Boundary(rest);
    while boundary.Some?
      invariant boundary == Boundary(rest)
      invariant Parse(all) == Parsed(events + Parse(rest).events, Parse(rest).rest)
      decreases |rest|
    {
      ParseCut(rest, boundary.value);
      events := events + [rest[..boundary.value]];
      rest := rest[boundary.value + 2..];
      boundary := Boundary(rest);
    }
    ParseEnd(rest);
  }

  // ---- fields -------------------------------------------------------------------------

  function NameOf(lines: seq<string>): Option<string> {
    if lines == [] then None
    else if "event:" <= lines[0] then Some(Trim(lines[0][6..]))
    else NameOf(lines[1..])
  }

  function DataOf(lines: seq<string>): seq<string> {
    if lines == [] then []
    else if "data:" <= lines[0] then [TrimStart(lines[0][5..])] + DataOf(lines[1..])
    else DataOf(lines[1..])
  }

  /** The first `event:` field, trimmed. */
  function EventName(event: string): Option<string> {
    NameOf(Lines(event))
  }

  /** All `data:` fields without their leading white space, joined by newlines. */
  function EventData(event: string): string {
    JoinWith(DataOf(Lines(event)), '\n')
  }

  const DONE := "[DONE]"

  /** An event the readers pass over. */
  predicate Idle(event: string) {
    EventData(event) == "" || EventData(event) == DONE
  }

  // ---- the gateway's counters ----------------------------------------------------------

  datatype Usage = Usage(prompt: Option<int>, completion: Option<int>)

  /** A payload that parses: the text of its first choice and its usage. */
  datatype Chunk = Chunk(delta: string, usage: Option<Usage>)

  type Reader = string -> Option<Chunk>

  datatype Meter = Meter(outputChunks: nat, prompt: Option<int>, completion: Option<int>)

  const FRESH := Meter(0, None, None)

  function Or<T>(a: Option<T>, b: Option<T>): Option<T> {
    if a.Some? then a else b
  }

  function Observe(parse: Reader, m: Meter, event: string): Meter {
    if Idle(event) then m
    else match parse(EventData(event))
      case None => m
      case Some(c) =>
        var n := if c.delta != "" then m.(outputChunks := m.outputChunks + 1) else m;
        if c.usage.Some? then
          n.(prompt := Or(c.usage.value.prompt, n.prompt), completion := Or(c.usage.value.completion, n.completion))
        else n
  }

  function ObserveAll(parse: Reader, m: Meter, events: seq<string>): Meter {
    if events == [] then m
    else Observe(parse, ObserveAll(parse, m, events[..|events| - 1]), events[|events| - 1])
  }

  lemma {:induction false} ObserveAppend(parse: Reader, m: Meter, a: seq<string>, b: seq<string>)
    ensures ObserveAll(parse, m, a + b) == ObserveAll(parse, ObserveAll(parse, m, a), b)
  {
    hide Observe;
    if b == [] {
      assert a + b == a;
    } else {
      assert (a + b)[..|a + b| - 1] == a + b[..|b| - 1];
      ObserveAppend(parse, m, a, b[..|b| - 1]);
    }
  }

  /** The part of a gateway job that reads the engine's stream. */
  class StreamMeter {
    const parse: Reader
    var sseBuffer: string
    var meter: Meter

    constructor (parse: Reader)
      ensures this.parse == parse && sseBuffer == "" && meter == FRESH
    {
      this.parse := parse;
      sseBuffer, meter := "", FRESH;
    }

    method ParseSse(chunk: string)
      modifies this
      ensures var p := Parse(old(sseBuffer) + FoldCrlf(chunk));
              sseBuffer == p.rest && meter == ObserveAll(parse, old(meter), p.events)
    {
      hide FoldCrlf, Observe, Parse, Boundary;
      ghost var all := sseBuffer + FoldCrlf(chunk);
      ghost var seen: seq<string> := [];
      sseBuffer := sseBuffer + FoldCrlf(chunk);
      var boundary := Boundary(sseBuffer);
      while boundary.Some?
        invariant boundary == Boundary(sseBuffer)
        invariant Parse(all) == Parsed(seen + Parse(sseBuffer).events, Parse(sseBuffer).rest)
        invariant meter == ObserveAll(parse, old(meter), seen)
        decreases |sseBuffer|
      {
        var event := sseBuffer[..boundary.value];
        ParseCut(sseBuffer, boundary.value);
        sseBuffer := sseBuffer[boundary.value + 2..];
        boundary := Boundary(sseBuffer);
        assert (seen + [event])[..|seen|] == seen;
        seen := seen + [event];
        meter := Observe(parse, meter, event);
      }
      ParseEnd(sseBuffer);
      assert Parse(all).events == seen + [] == seen;
    }
  }

  /** The counters after some chunks, as the job computes them. */
  function MeterAfter(parse: Reader, chunks: seq<string>): Meter {
    ObserveAll(parse, FRESH, ReadAll(chunks).events)
  }

  /** `ParseSse` on the next chunk takes the counters of some chunks to those of one more. */
  lemma MeterNext(parse: Reader, chunks: seq<string>, chunk: string)
    ensures var p := Parse(ReadAll(chunks).rest + FoldCrlf(chunk));
            ReadAll(chunks + [chunk]).rest == p.rest
            && MeterAfter(parse, chunks + [chunk]) == ObserveAll(parse, MeterAfter(parse, chunks), p.events)
  {
    hide FoldCrlf, Parse;
    assert (chunks + [chunk])[..|chunks|] == chunks;
    ObserveAppend(parse, FRESH, ReadAll(chunks).events, Parse(ReadAll(chunks).rest + FoldCrlf(chunk)).events);
  }

  /** The counters are a fold over the events of the whole stream. */
  lemma MeterIndependence(parse: Reader, chunks: seq<string>)
    requires NoStraddle(chunks)
    ensures MeterAfter(parse, chunks) == ObserveAll(parse, FRESH, Parse(FoldCrlf(ConcatAll(chunks))).events)
  {
    ChunkIndependence(chunks);
  }
}
