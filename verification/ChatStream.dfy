/** One chat generation end to end: the dashboard reads the upstream stream, records the answer,
    and writes a stream of its own, which the browser reads. */
module ChatStream {
  import opened Text
  import opened Sse

  datatype Metrics = Metrics(usage: Usage, queueMs: Option<int>, ttftMs: Option<int>)

  /** JSON, as far as the stream needs it: reading a payload or a metrics record, and writing a
      chunk, a text wrapped in a chunk, a saved message and an error. */
  datatype Codec = Codec(
    parse: Reader,
    metrics: string -> Option<Metrics>,
    json: Chunk -> string,
    wrap: string -> string,
    saved: Option<Completion> -> string,
    failure: string -> string)

  /** One line, not empty, not beginning with white space. */
  predicate Clean(d: string) {
    d != "" && !IsSpace(d[0]) && '\n' !in d && '\r' !in d
  }

  /** `JSON.stringify` writes one clean line, never `[DONE]`, and what it writes is read back. */
  ghost predicate Lawful(c: Codec) {
    (forall k: Chunk :: Clean(c.json(k)) && c.json(k) != DONE
                        && c.parse(c.json(k)).Some? && c.parse(c.json(k)).value.delta == k.delta)
    && (forall t: string :: Clean(c.wrap(t)) && c.wrap(t) != DONE
                            && c.parse(c.wrap(t)).Some? && c.parse(c.wrap(t)).value.delta == t)
    && (forall r: Option<Completion> :: Clean(c.saved(r)) && c.saved(r) != DONE)
    && (forall m: string :: Clean(c.failure(m)) && c.failure(m) != DONE)
  }

  // ---- the dashboard's side -------------------------------------------------------------

  /** One `response.write`: an unnamed or a named event. */
  datatype Write = Data(data: string) | Named(name: string, data: string)

  function Body(w: Write): string {
    match w
    case Data(d) => "data: " + d
    case Named(n, d) => "event: " + n + "\ndata: " + d
  }

  function Bodies(ws: seq<Write>): (bs: seq<string>)
    ensures |bs| == |ws|
  {
    if ws == [] then [] else Bodies(ws[..|ws| - 1]) + [Body(ws[|ws| - 1])]
  }

  datatype Completion = Completion(assistant: string, usage: Option<Usage>, completed: bool, cancelled: bool)

  /** The state of one generation. `budget` is the number of writes the client takes before it
      disconnects; without one it stays connected. */
  datatype Session = Session(
    budget: Option<nat>,
    assistant: string,
    lastPersisted: string,
    progress: seq<string>,
    usage: Option<Usage>,
    reported: Option<Metrics>,
    delivered: seq<Write>,
    completion: Option<Completion>)

  function Begin(budget: Option<nat>): Session {
    Session(budget, "", "", [], None, None, [], None)
  }

  predicate CanWrite(s: Session) {
    s.budget.None? || |s.delivered| < s.budget.value
  }

  function Emit(s: Session, w: Write): Session {
    if CanWrite(s) then s.(delivered := s.delivered + [w]) else s
  }

  function PersistProgress(s: Session): Session {
    if s.assistant == s.lastPersisted then s
    else s.(lastPersisted := s.assistant, progress := s.progress + [s.assistant])
  }

  /** A provider's metrics event, taken out of the stream; only the `swiftlm` provider has one. */
  predicate Consumed(swift: bool, event: string) {
    swift && EventName(event) == Some("mlx-metrics")
  }

  function Consume(c: Codec, swift: bool, s: Session, event: string): Session {
    var data := EventData(event);
    if Idle(event) then s
    else if Consumed(swift, event) then
      s.(reported := Or(c.metrics(data), s.reported))
    else match c.parse(data)
      case Some(k) =>
        PersistProgress(Emit(s.(assistant := s.assistant + k.delta, usage := Or(k.usage, s.usage)), Data(c.json(k))))
      case None =>
        PersistProgress(Emit(s.(assistant := s.assistant + data), Data(c.wrap(data))))
  }

  function ConsumeAll(c: Codec, swift: bool, s: Session, events: seq<string>): Session {
    if events == [] then s
    else Consume(c, swift, ConsumeAll(c, swift, s, events[..|events| - 1]), events[|events| - 1])
  }

  /** `persistCompletion`: at most once, and not for a blank answer unless it was stopped. */
  function Complete(s: Session, completed: bool, cancelled: bool): Session {
    if s.completion.Some? || (Blank(s.assistant) && !cancelled) then s
    else s.(completion := Some(Completion(s.assistant, s.usage, completed, cancelled)))
  }

  /** How the upstream stream ends: at its end, or with an error that may be a stop. */
  datatype Ending = Finished | Broken(cancelled: bool, message: string)

  function Conclude(c: Codec, swift: bool, s: Session, rest: string, ending: Ending): Session {
    match ending
    case Finished =>
      var t := Complete(if Blank(rest) then s else Consume(c, swift, s, rest), true, false);
      Emit(Emit(t, Named("dashboard", c.saved(t.completion))), Data(DONE))
    case Broken(cancelled, message) =>
      var t := Complete(s, false, cancelled);
      if cancelled then Emit(Emit(t, Named("stopped", c.saved(t.completion))), Data(DONE))
      else Emit(t, Named("error", c.failure(message)))
  }

  /** A whole generation over the chunks that arrive before the stream ends. */
  function Chat(c: Codec, swift: bool, budget: Option<nat>, chunks: seq<string>, ending: Ending): Session {
    var p := ReadAll(chunks);
    Conclude(c, swift, ConsumeAll(c, swift, Begin(budget), p.events), p.rest, ending)
  }

  lemma {:induction false} ConsumeAppend(c: Codec, swift: bool, s: Session, a: seq<string>, b: seq<string>)
    ensures ConsumeAll(c, swift, s, a + b) == ConsumeAll(c, swift, ConsumeAll(c, swift, s, a), b)
  {
    hide Consume;
    if b == [] {
      assert a + b == a;
    } else {
      assert (a + b)[..|a + b| - 1] == a + b[..|b| - 1];
      ConsumeAppend(c, swift, s, a, b[..|b| - 1]);
    }
  }

  /** The variables `streamDashboardChat` closes over, and its steps. */
  class Generation {
    const codec: Codec
    const swift: bool
    const budget: Option<nat>
    var buffer: string
    var assistant: string
    var lastPersistedAssistant: string
    var progress: seq<string>
    var usage: Option<Usage>
    var reported: Option<Metrics>
    var delivered: seq<Write>
    var completion: Option<Completion>

    ghost function State(): Session
      reads this
    {
      Session(budget, assistant, lastPersistedAssistant, progress, usage, reported, delivered, completion)
    }

    constructor (codec: Codec, swift: bool, budget: Option<nat>)
      ensures this.codec == codec && this.swift == swift && this.budget == budget
      ensures State() == Begin(budget) && buffer == ""
    {
      this.codec, this.swift, this.budget := codec, swift, budget;
      buffer, assistant, lastPersistedAssistant, progress := "", "", "", [];
      usage, reported, delivered, completion := None, None, [], None;
    }

    method Write(w: Write)
      modifies this`delivered
      ensures State() == Emit(old(State()), w)
    {
      if budget.None? || |delivered| < budget.value { delivered := delivered + [w]; }
    }

    method SaveProgress()
      modifies this`lastPersistedAssistant, this`progress
      ensures State() == PersistProgress(old(State()))
    {
      if assistant == lastPersistedAssistant { return; }
      lastPersistedAssistant := assistant;
      progress := progress + [assistant];
    }

    method ConsumeEvent(event: string)
      modifies this`assistant, this`usage, this`reported, this`delivered, this`lastPersistedAssistant, this`progress
      ensures State() == Consume(codec, swift, old(State()), event)
      ensures !Idle(event) && !(swift && EventName(event) == Some("mlx-metrics")) ==>
              assistant == old(assistant) + (match codec.parse(EventData(event)) case Some(k) => k.delta case None => EventData(event))
      ensures Idle(event) || (swift && EventName(event) == Some("mlx-metrics")) ==>
              assistant == old(assistant) && delivered == old(delivered) && progress == old(progress)
    {
      hide EventData, EventName;
      var data := EventData(event);
      if data == "" || data == DONE { return; }
      if Consumed(swift, event) {
        reported := Or(codec.metrics(data), reported);
        return;
      }
      match codec.parse(data) {
        case Some(chunk) =>
          assistant := assistant + chunk.delta;
          usage := Or(chunk.usage, usage);
          Write(Data(codec.json(chunk)));
        case None =>
          Write(Data(codec.wrap(data)));
          assistant := assistant + data;
      }
      SaveProgress();
    }

    method ReadChunk(chunk: string)
      modifies this
      ensures var p := Parse(old(buffer) + FoldCrlf(chunk));
              buffer == p.rest && State() == ConsumeAll(codec, swift, old(State()), p.events)
    {
      hide FoldCrlf, Consume, Parse, Boundary;
      ghost var all := buffer + FoldCrlf(chunk);
      ghost var seen: seq<string> := [];
      buffer := buffer + FoldCrlf(chunk);
      var boundary := Boundary(buffer);
      while boundary.Some?
        invariant boundary == Boundary(buffer)
        invariant Parse(all) == Parsed(seen + Parse(buffer).events, Parse(buffer).rest)
        invariant State() == ConsumeAll(codec, swift, old(State()), seen)
        decreases |buffer|
      {
        var event := buffer[..boundary.value];
        ParseCut(buffer, boundary.value);
        ConsumeEvent(event);
        buffer := buffer[boundary.value + 2..];
        boundary := Boundary(buffer);
        assert (seen + [event])[..|seen|] == seen;
        seen := seen + [event];
      }
      ParseEnd(buffer);
      assert Parse(all).events == seen + [] == seen;
    }

    method SaveCompletion(completed: bool, cancelled: bool)
      modifies this`completion
      ensures State() == Complete(old(State()), completed, cancelled)
    {
      if completion.Some? || (Blank(assistant) && !cancelled) { return; }
      completion := Some(Completion(assistant, usage, completed, cancelled));
    }

    /** The read loop and both of its exits. */
    method Run(chunks: seq<string>, ending: Ending)
      requires State() == Begin(budget) && buffer == ""
      modifies this
      ensures State() == Chat(codec, swift, budget, chunks, ending)
    {
      hide Consume, Parse, FoldCrlf;
      for i := 0 to |chunks|
        invariant buffer == ReadAll(chunks[..i]).rest
        invariant State() == ConsumeAll(codec, swift, Begin(budget), ReadAll(chunks[..i]).events)
      {
        var p := ReadAll(chunks[..i]);
        assert chunks[..i + 1][..i] == chunks[..i];
        ConsumeAppend(codec, swift, Begin(budget), p.events, Parse(p.rest + FoldCrlf(chunks[i])).events);
        ReadChunk(chunks[i]);
      }
      assert chunks[..|chunks|] == chunks;
      match ending {
        case Finished =>
          if !Blank(buffer) { ConsumeEvent(buffer); }
          SaveCompletion(true, false);
          Write(Named("dashboard", codec.saved(completion)));
          Write(Data(DONE));
        case Broken(cancelled, message) =>
          SaveCompletion(false, cancelled);
          if cancelled {
            Write(Named("stopped", codec.saved(completion)));
            Write(Data(DONE));
          } else {
            Write(Named("error", codec.failure(message)));
          }
      }
    }
  }

  // ---- a disconnect changes nothing but what is delivered ---------------------------------

  function Clip(budget: Option<nat>, ws: seq<Write>): seq<Write> {
    if budget.Some? && budget.value < |ws| then ws[..budget.value] else ws
  }

  /** `s` is `t`, connected throughout, as seen by a client that leaves. */
  ghost predicate Clipped(s: Session, t: Session) {
    t.budget.None? && s == t.(budget := s.budget, delivered := Clip(s.budget, t.delivered))
  }

  lemma ClippedEmit(s: Session, t: Session, w: Write)
    requires Clipped(s, t)
    ensures Clipped(Emit(s, w), Emit(t, w))
  {
  }

  lemma ClippedConsume(c: Codec, swift: bool, s: Session, t: Session, event: string)
    requires Clipped(s, t)
    ensures Clipped(Consume(c, swift, s, event), Consume(c, swift, t, event))
  {
    hide EventData, EventName;
  }

  lemma {:induction false} ClippedAll(c: Codec, swift: bool, s: Session, t: Session, events: seq<string>)
    requires Clipped(s, t)
    ensures Clipped(ConsumeAll(c, swift, s, events), ConsumeAll(c, swift, t, events))
  {
    hide Consume, Clipped;
    if events != [] {
      var n := |events| - 1;
      ClippedAll(c, swift, s, t, events[..n]);
      ClippedConsume(c, swift, ConsumeAll(c, swift, s, events[..n]), ConsumeAll(c, swift, t, events[..n]), events[n]);
    }
  }

  lemma ClippedConclude(c: Codec, swift: bool, s: Session, t: Session, rest: string, ending: Ending)
    requires Clipped(s, t)
    ensures Clipped(Conclude(c, swift, s, rest, ending), Conclude(c, swift, t, rest, ending))
  {
    hide Consume, Emit, Clipped, Complete;
    match ending {
      case Finished =>
        var x, y := s, t;
        if !Blank(rest) {
          ClippedConsume(c, swift, s, t, rest);
          x, y := Consume(c, swift, s, rest), Consume(c, swift, t, rest);
        }
        ClippedComplete(x, y, true, false);
        x, y := Complete(x, true, false), Complete(y, true, false);
        ClippedEmit(x, y, Named("dashboard", c.saved(x.completion)));
        ClippedEmit(Emit(x, Named("dashboard", c.saved(x.completion))),
                    Emit(y, Named("dashboard", c.saved(x.completion))), Data(DONE));
      case Broken(cancelled, message) =>
        ClippedComplete(s, t, false, cancelled);
        var x, y := Complete(s, false, cancelled), Complete(t, false, cancelled);
        ClippedEmit(x, y, Named("error", c.failure(message)));
        ClippedEmit(x, y, Named("stopped", c.saved(x.completion)));
        ClippedEmit(Emit(x, Named("stopped", c.saved(x.completion))),
                    Emit(y, Named("stopped", c.saved(x.completion))), Data(DONE));
    }
  }

  lemma ClippedComplete(s: Session, t: Session, completed: bool, cancelled: bool)
    requires Clipped(s, t)
    ensures Clipped(Complete(s, completed, cancelled), Complete(t, completed, cancelled))
    ensures Complete(s, completed, cancelled).completion == Complete(t, completed, cancelled).completion
  {
    hide Blank;
  }

  /** Whenever the client leaves, the progress recorded, the answer and usage saved are those of
      a client that stayed, and what it received is a prefix of what that client received. */
  lemma DisconnectNonInterference(c: Codec, swift: bool, budget: nat, chunks: seq<string>, ending: Ending)
    ensures var s := Chat(c, swift, Some(budget), chunks, ending);
            var t := Chat(c, swift, None, chunks, ending);
            s.progress == t.progress && s.completion == t.completion && s.assistant == t.assistant
            && s.usage == t.usage && s.reported == t.reported
            && s.delivered <= t.delivered && (|s.delivered| < |t.delivered| ==> |s.delivered| == budget)
  {
    hide Consume, Conclude, ReadAll;
    var p := ReadAll(chunks);
    var b, d := Begin(Some(budget)), Begin(None);
    ClippedAll(c, swift, b, d, p.events);
    ClippedConclude(c, swift, ConsumeAll(c, swift, b, p.events), ConsumeAll(c, swift, d, p.events), p.rest, ending);
    NotCompleted(c, swift, b, p.events);
    ConcludeKeepsBudget(c, swift, ConsumeAll(c, swift, b, p.events), p.rest, ending);
  }

  lemma ConcludeKeepsBudget(c: Codec, swift: bool, s: Session, rest: string, ending: Ending)
    ensures Conclude(c, swift, s, rest, ending).budget == s.budget
  {
    hide Consume, Blank;
    ConsumeKeepsCompletion(c, swift, s, rest);
  }

  // ---- progress ------------------------------------------------------------------------

  /** The content of the stored assistant row: empty at first, then the latest progress. */
  function Row(s: Session): string {
    if s.progress == [] then "" else s.progress[|s.progress| - 1]
  }

  /** The recorded answers grow: each is a proper prefix of the next, and the last is all the
      text there is. */
  ghost predicate Growing(s: Session) {
    s.lastPersisted == s.assistant == Row(s)
    && (forall i, j :: 0 <= i < j < |s.progress| ==> s.progress[i] < s.progress[j])
    && (forall i :: 0 <= i < |s.progress| ==> s.progress[i] != "" && s.progress[i] <= s.assistant)
  }

  lemma GrowingPersist(s: Session, t: Session)
    requires Growing(s) && t.progress == s.progress && t.lastPersisted == s.lastPersisted
    requires s.assistant <= t.assistant
    ensures Growing(PersistProgress(t))
  {
    var r := PersistProgress(t);
    if t.assistant != t.lastPersisted {
      forall i, j | 0 <= i < j < |r.progress| ensures r.progress[i] < r.progress[j] {
        assert r.progress[i] == s.progress[i] && s.progress[i] <= s.assistant;
        if j == |s.progress| { assert r.progress[j] == t.assistant; }
      }
    }
  }

  lemma GrowingConsume(c: Codec, swift: bool, s: Session, event: string)
    requires Growing(s)
    ensures Growing(Consume(c, swift, s, event))
  {
    hide EventData, EventName, Growing, PersistProgress;
    var data := EventData(event);
    if !Idle(event) && !Consumed(swift, event) {
      match c.parse(data) {
        case Some(k) =>
          GrowingPersist(s, Emit(s.(assistant := s.assistant + k.delta, usage := Or(k.usage, s.usage)), Data(c.json(k))));
        case None =>
          GrowingPersist(s, Emit(s.(assistant := s.assistant + data), Data(c.wrap(data))));
      }
    } else {
      GrowingSame(s, Consume(c, swift, s, event));
    }
  }

  lemma GrowingSame(s: Session, t: Session)
    requires Growing(s)
    requires t.progress == s.progress && t.lastPersisted == s.lastPersisted && t.assistant == s.assistant
    ensures Growing(t) && Row(t) == Row(s)
  {
  }

  lemma {:induction false} GrowingAll(c: Codec, swift: bool, s: Session, events: seq<string>)
    requires Growing(s)
    ensures Growing(ConsumeAll(c, swift, s, events))
  {
    hide Consume, Growing;
    if events != [] {
      var n := |events| - 1;
      GrowingAll(c, swift, s, events[..n]);
      GrowingConsume(c, swift, ConsumeAll(c, swift, s, events[..n]), events[n]);
    }
  }

  /** After every generation the stored row holds the whole answer, built up by extensions only;
      a completion, if there is one, saves the same text. */
  lemma ProgressGrows(c: Codec, swift: bool, budget: Option<nat>, chunks: seq<string>, ending: Ending)
    ensures var s := Chat(c, swift, budget, chunks, ending);
            Growing(s) && (s.completion.Some? ==> s.completion.value.assistant == Row(s))
            && (s.completion.None? ==> Blank(Row(s)))
  {
    hide Consume, Conclude, Growing, ReadAll;
    var p := ReadAll(chunks);
    BeginGrows(budget);
    GrowingAll(c, swift, Begin(budget), p.events);
    NotCompleted(c, swift, Begin(budget), p.events);
    ConcludeGrows(c, swift, ConsumeAll(c, swift, Begin(budget), p.events), p.rest, ending);
  }

  lemma BeginGrows(budget: Option<nat>)
    ensures Growing(Begin(budget))
  {
  }

  lemma ConcludeGrows(c: Codec, swift: bool, s: Session, rest: string, ending: Ending)
    requires Growing(s) && s.completion.None?
    ensures var t := Conclude(c, swift, s, rest, ending);
            Growing(t) && (if t.completion.Some? then t.completion.value.assistant == Row(t) else Blank(Row(t)))
  {
    hide Consume, Blank, Growing, Row;
    var u := s;
    if ending.Finished? && !Blank(rest) {
      GrowingConsume(c, swift, s, rest);
      ConsumeKeepsCompletion(c, swift, s, rest);
      u := Consume(c, swift, s, rest);
    }
    GrowingSame(u, Conclude(c, swift, s, rest, ending));
    GrowingRow(u);
  }

  lemma GrowingRow(s: Session)
    requires Growing(s)
    ensures Row(s) == s.assistant
  {
  }

  lemma ConsumeKeepsCompletion(c: Codec, swift: bool, s: Session, event: string)
    ensures Consume(c, swift, s, event).completion == s.completion
    ensures Consume(c, swift, s, event).budget == s.budget
  {
    hide EventData, EventName;
  }

  lemma {:induction false} NotCompleted(c: Codec, swift: bool, s: Session, events: seq<string>)
    ensures ConsumeAll(c, swift, s, events).completion == s.completion
    ensures ConsumeAll(c, swift, s, events).budget == s.budget
  {
    hide Consume;
    if events != [] {
      var n := |events| - 1;
      NotCompleted(c, swift, s, events[..n]);
      ConsumeKeepsCompletion(c, swift, ConsumeAll(c, swift, s, events[..n]), events[n]);
    }
  }

  // ---- the browser's side -----------------------------------------------------------------

  datatype Browser = Browser(assistant: string, stopped: bool, failed: bool)

  /** `consume` in the browser; after an `error` event nothing more is read. */
  function Receive(c: Codec, b: Browser, event: string): Browser {
    var name, data := EventName(event), EventData(event);
    if b.failed || Idle(event) || name == Some("dashboard") then b
    else if name == Some("stopped") then b.(stopped := true)
    else if name == Some("error") then b.(failed := true)
    else match c.parse(data)
      case Some(k) => b.(assistant := b.assistant + k.delta)
      case None => b.(assistant := b.assistant + data)
  }

  function ReceiveAll(c: Codec, b: Browser, events: seq<string>): Browser {
    if events == [] then b else Receive(c, ReceiveAll(c, b, events[..|events| - 1]), events[|events| - 1])
  }

  const BLANK_PAGE := Browser("", false, false)

  /** What the browser has after reading all the chunks of a response. */
  function Read(c: Codec, chunks: seq<string>): Browser {
    var p := ReadAll(chunks);
    var b := ReceiveAll(c, BLANK_PAGE, p.events);
    if Blank(p.rest) || b.failed then b else Receive(c, b, p.rest)
  }

  lemma {:induction false} ReceiveAppend(c: Codec, b: Browser, x: seq<string>, y: seq<string>)
    ensures ReceiveAll(c, b, x + y) == ReceiveAll(c, ReceiveAll(c, b, x), y)
  {
    hide Receive;
    if y == [] {
      assert x + y == x;
    } else {
      assert (x + y)[..|x + y| - 1] == x + y[..|y| - 1];
      ReceiveAppend(c, b, x, y[..|y| - 1]);
    }
  }

  /** The reading loop of `runMessage`. An `error` event leaves the loop by an exception. */
  method RunMessage(c: Codec, chunks: seq<string>) returns (page: Browser)
    ensures page == Read(c, chunks)
  {
    hide Receive, Parse, FoldCrlf;
    var buffer := "";
    page := BLANK_PAGE;
    for i := 0 to |chunks|
      invariant buffer == ReadAll(chunks[..i]).rest
      invariant page == ReceiveAll(c, BLANK_PAGE, ReadAll(chunks[..i]).events)
    {
      ghost var p := ReadAll(chunks[..i]);
      assert chunks[..i + 1][..i] == chunks[..i];
      ghost var before := page;
      var events;
      events, buffer := TakeEvents(buffer, chunks[i]);
      for j := 0 to |events|
        invariant page == ReceiveAll(c, before, events[..j])
      {
        assert events[..j + 1][..j] == events[..j];
        page := ReceiveEvent(c, page, events[j]);
      }
      assert events[..|events|] == events;
      ReceiveAppend(c, BLANK_PAGE, p.events, events);
    }
    assert chunks[..|chunks|] == chunks;
    if !Blank(buffer) && !page.failed { page := ReceiveEvent(c, page, buffer); }
  }

  method ReceiveEvent(c: Codec, page: Browser, event: string) returns (next: Browser)
    ensures next == Receive(c, page, event)
  {
    hide EventName, EventData;
    next := page;
    var name, data := EventName(event), EventData(event);
    if page.failed || data == "" || data == DONE || name == Some("dashboard") { return; }
    if name == Some("stopped") {
      next := next.(stopped := true);
    } else if name == Some("error") {
      next := next.(failed := true);
    } else {
      match c.parse(data) {
        case Some(k) => next := next.(assistant := next.assistant + k.delta);
        case None => next := next.(assistant := next.assistant + data);
      }
    }
  }

  // ---- from one end to the other -----------------------------------------------------------

  /** A write whose text can be read back. */
  predicate Readable(w: Write) {
    Clean(w.data) && (w.Named? ==> w.name in {"dashboard", "stopped", "error"})
  }

  lemma {:induction false} NoBoundary(s: string)
    requires forall i :: 0 <= i < |s| - 1 ==> !(s[i] == '\n' && s[i + 1] == '\n')
    ensures Boundary(s).None?
  {
    if |s| >= 2 {
      assert s[0] == s[0] && s[1] == s[0 + 1];
      forall i | 0 <= i < |s[1..]| - 1 ensures !(s[1..][i] == '\n' && s[1..][i + 1] == '\n') {
        assert s[1..][i] == s[i + 1] && s[1..][i + 1] == s[i + 2];
      }
      NoBoundary(s[1..]);
    }
  }

  lemma DataReads(d: string)
    requires Clean(d)
    ensures var b := Body(Data(d)); EventName(b) == None && EventData(b) == d && IsBody(b) && '\r' !in b
  {
    hide IsSpace;
    var l := "data: " + d;
    SplitFirst(l, "", '\n');
    assert Lines(l) == [l];
    DataLine(l, d);
    assert [l][1..] == [];
    assert DataOf([l]) == [d] + DataOf([]);
    assert NameOf([l]) == NameOf([]);
    NoBoundary(l + "\n");
  }

  lemma DataLine(l: string, d: string)
    requires l == "data: " + d && Clean(d)
    ensures "data:" <= l && !("event:" <= l) && TrimStart(l[5..]) == d
  {
    assert l[..5] == "data:";
    assert l[0] == 'd' && "event:"[0] == 'e';
    var r := l[5..];
    assert r == " " + d;
    assert r[1..] == d && Indent(d) == 0 && IsSpace(' ');
    assert Indent(r) == 1;
  }

  /** A name as it stands in an `event:` field. */
  predicate Word(n: string) {
    n != "" && !IsSpace(n[0]) && !IsSpace(n[|n| - 1]) && '\n' !in n && '\r' !in n
  }

  lemma NamesAreWords(n: string)
    requires n in {"dashboard", "stopped", "error"}
    ensures Word(n)
  {
  }

  lemma NameLine(l: string, n: string)
    requires l == "event: " + n && Word(n)
    ensures "event:" <= l && !("data:" <= l) && Trim(l[6..]) == n && '\n' !in l && '\r' !in l
  {
    assert l[..6] == "event:";
    assert l[0] == 'e' && "data:"[0] == 'd';
    assert l[6..] == [' '] + n;
    SpaceTrims(n);
  }

  lemma SpaceTrims(n: string)
    requires Word(n)
    ensures Trim([' '] + n) == n
  {
    hide IsSpace;
    var r := [' '] + n;
    assert IsSpace(' ') by { SpaceIsSpace(); }
    assert r[1..] == n && Indent(n) == 0 && Indent(r) == 1;
    assert TrimStart(r) == n;
    assert ContentEnd(n) == |n|;
    assert n[..|n|] == n;
  }

  lemma SpaceIsSpace()
    ensures IsSpace(' ')
  {
  }

  lemma NamedReads(n: string, d: string)
    requires Clean(d) && n in {"dashboard", "stopped", "error"}
    ensures var b := Body(Named(n, d)); EventName(b) == Some(n) && EventData(b) == d && IsBody(b) && '\r' !in b
  {
    hide IsSpace, Trim, TrimStart, Word, SplitOn, IsBody;
    var k, l := "event: " + n, "data: " + d;
    var b := Body(Named(n, d));
    NamesAreWords(n);
    NameLine(k, n);
    DataLine(l, d);
    assert b == k + ['\n'] + l;
    TwoLines(k, l);
    assert [k, l][1..] == [l] && [l][1..] == [];
    assert DataOf([l]) == [d] + DataOf([]);
    assert DataOf([k, l]) == [d];
  }

  lemma TwoLines(k: string, l: string)
    requires '\n' !in k && '\n' !in l && l != ""
    ensures Lines(k + ['\n'] + l) == [k, l] && IsBody(k + ['\n'] + l)
  {
    SplitFirst(k, l, '\n');
    SplitFirst(l, "", '\n');
    NoBoundary(k + ['\n'] + l + "\n");
  }

  lemma WriteReads(w: Write)
    requires Readable(w)
    ensures EventData(Body(w)) == w.data && IsBody(Body(w)) && '\r' !in Body(w)
    ensures EventName(Body(w)) == if w.Named? then Some(w.name) else None
  {
    if w.Named? { NamedReads(w.name, w.data); } else { DataReads(w.data); }
  }

  ghost predicate AllReadable(ws: seq<Write>) {
    forall i :: 0 <= i < |ws| ==> Readable(ws[i])
  }

  lemma {:induction false} BodiesRead(ws: seq<Write>)
    requires AllReadable(ws)
    ensures var bs := Bodies(ws);
            (forall i :: 0 <= i < |bs| ==> IsBody(bs[i])) && Parse(Frames(bs)) == Parsed(bs, "") && '\r' !in Frames(bs)
  {
    hide Parse, IsBody, Body, Readable;
    var bs := Bodies(ws);
    if ws != [] {
      var n := |ws| - 1;
      BodiesRead(ws[..n]);
      WriteReads(ws[n]);
      FramesAppend(Bodies(ws[..n]), [Body(ws[n])]);
      assert [Body(ws[n])][1..] == [];
      assert Frames([Body(ws[n])]) == Body(ws[n]) + "\n\n" + "";
    }
    UnparseThenParse(Parsed(bs, ""));
    assert Unparse(Parsed(bs, "")) == Frames(bs);
  }

  /** What the browser makes of a connected session's writes agrees with the session. */
  ghost predicate InStep(c: Codec, s: Session) {
    s.budget.None? && AllReadable(s.delivered)
    && ReceiveAll(c, BLANK_PAGE, Bodies(s.delivered)) == Browser(s.assistant, false, false)
  }

  lemma EmitReceive(c: Codec, s: Session, w: Write)
    requires s.budget.None? && AllReadable(s.delivered) && Readable(w)
    ensures var t := Emit(s, w);
            AllReadable(t.delivered)
            && ReceiveAll(c, BLANK_PAGE, Bodies(t.delivered))
               == Receive(c, ReceiveAll(c, BLANK_PAGE, Bodies(s.delivered)), Body(w))
  {
    hide Receive, Body;
    var ws := s.delivered + [w];
    assert ws[..|ws| - 1] == s.delivered;
    var bs := Bodies(ws);
    assert bs[..|bs| - 1] == Bodies(s.delivered);
  }

  lemma InStepConsume(c: Codec, swift: bool, s: Session, event: string)
    requires Lawful(c) && InStep(c, s)
    ensures InStep(c, Consume(c, swift, s, event))
  {
    hide EventData, EventName, Body, Clean, Receive, Bodies, ReceiveAll;
    var data := EventData(event);
    if !Idle(event) && !Consumed(swift, event) {
      match c.parse(data) {
        case Some(k) =>
          EmitReceive(c, s.(assistant := s.assistant + k.delta, usage := Or(k.usage, s.usage)), Data(c.json(k)));
          DataReceived(c, Browser(s.assistant, false, false), c.json(k), k.delta);
        case None =>
          EmitReceive(c, s.(assistant := s.assistant + data), Data(c.wrap(data)));
          DataReceived(c, Browser(s.assistant, false, false), c.wrap(data), data);
      }
    }
  }

  lemma DataReceived(c: Codec, b: Browser, d: string, delta: string)
    requires Clean(d) && d != DONE && c.parse(d).Some? && c.parse(d).value.delta == delta && !b.failed
    ensures Receive(c, b, Body(Data(d))) == b.(assistant := b.assistant + delta)
  {
    hide EventData, EventName, Body;
    WriteReads(Data(d));
  }

  lemma NamedReceived(c: Codec, b: Browser, n: string, d: string)
    requires Clean(d) && d != DONE && n in {"dashboard", "stopped", "error"} && !b.failed
    ensures Receive(c, b, Body(Named(n, d)))
         == if n == "dashboard" then b else if n == "stopped" then b.(stopped := true) else b.(failed := true)
  {
    hide EventData, EventName, Body, Clean;
    WriteReads(Named(n, d));
    CleanData(d);
  }

  lemma CleanData(d: string)
    ensures Clean(d) ==> d != ""
  {
  }

  lemma DoneReceived(c: Codec, b: Browser)
    ensures Readable(Data(DONE)) && Receive(c, b, Body(Data(DONE))) == b
  {
    hide EventData, EventName, Body;
    WriteReads(Data(DONE));
  }

  lemma {:induction false} InStepAll(c: Codec, swift: bool, s: Session, events: seq<string>)
    requires Lawful(c) && InStep(c, s)
    ensures InStep(c, ConsumeAll(c, swift, s, events))
  {
    hide Consume, InStep, Lawful;
    if events != [] {
      var n := |events| - 1;
      InStepAll(c, swift, s, events[..n]);
      InStepConsume(c, swift, ConsumeAll(c, swift, s, events[..n]), events[n]);
    }
  }

  /** What the browser should have at the end. */
  function Expected(s: Session, ending: Ending): Browser {
    Browser(s.assistant, ending.Broken? && ending.cancelled, ending.Broken? && !ending.cancelled)
  }

  lemma ConcludeReceive(c: Codec, swift: bool, s: Session, rest: string, ending: Ending)
    requires Lawful(c) && InStep(c, s)
    ensures var t := Conclude(c, swift, s, rest, ending);
            AllReadable(t.delivered) && ReceiveAll(c, BLANK_PAGE, Bodies(t.delivered)) == Expected(t, ending)
  {
    hide Consume, Body, Clean, Receive, Bodies, ReceiveAll, Emit, Blank, Readable;
    match ending {
      case Finished =>
        var t := s;
        if !Blank(rest) { InStepConsume(c, swift, s, rest); t := Consume(c, swift, s, rest); }
        t := Complete(t, true, false);
        FinalWrites(c, t, "dashboard", c.saved(t.completion));
      case Broken(cancelled, message) =>
        var t := Complete(s, false, cancelled);
        if cancelled {
          FinalWrites(c, t, "stopped", c.saved(t.completion));
        } else {
          ErrorWrite(c, t, c.failure(message));
        }
    }
  }

  lemma ErrorWrite(c: Codec, t: Session, data: string)
    requires InStep(c, t) && Clean(data) && data != DONE
    ensures var u := Emit(t, Named("error", data));
            AllReadable(u.delivered) && u.assistant == t.assistant
            && ReceiveAll(c, BLANK_PAGE, Bodies(u.delivered)) == Browser(t.assistant, false, true)
  {
    hide Body, Clean, Receive, Bodies, ReceiveAll;
    EmitReceive(c, t, Named("error", data));
    NamedReceived(c, Browser(t.assistant, false, false), "error", data);
  }

  lemma FinalWrites(c: Codec, t: Session, name: string, data: string)
    requires InStep(c, t) && Clean(data) && data != DONE && name in {"dashboard", "stopped"}
    ensures var u := Emit(Emit(t, Named(name, data)), Data(DONE));
            AllReadable(u.delivered) && u.assistant == t.assistant
            && ReceiveAll(c, BLANK_PAGE, Bodies(u.delivered)) == Browser(t.assistant, name == "stopped", false)
  {
    hide Body, Clean, Receive, Bodies, ReceiveAll;
    var w, b := Named(name, data), Browser(t.assistant, false, false);
    EmitReceive(c, t, w);
    NamedReceived(c, b, name, data);
    DoneReceived(c, b.(stopped := name == "stopped"));
    EmitReceive(c, Emit(t, w), Data(DONE));
  }

  /** End to end: whatever the upstream sends and however it is cut into chunks, a browser that
      stays connected ends with exactly the answer the server holds, however the server's own
      stream is cut on its way; it learns of a stop or an error just when there was one. */
  lemma EndToEnd(c: Codec, swift: bool, chunks: seq<string>, ending: Ending, received: seq<string>)
    requires Lawful(c)
    requires ConcatAll(received) == Frames(Bodies(Chat(c, swift, None, chunks, ending).delivered))
    ensures var s := Chat(c, swift, None, chunks, ending);
            Read(c, received) == Expected(s, ending) && Read(c, received).assistant == Row(s)
  {
    hide Conclude, Consume, Parse, Body, Lawful, InStep, Receive;
    var p := ReadAll(chunks);
    var s := Chat(c, swift, None, chunks, ending);
    BeginInStep(c);
    InStepAll(c, swift, Begin(None), p.events);
    ConcludeReceive(c, swift, ConsumeAll(c, swift, Begin(None), p.events), p.rest, ending);
    BodiesRead(s.delivered);
    CrFreeIndependence(received);
    EmptyTrims();
    ProgressGrows(c, swift, None, chunks, ending);
  }

  lemma BeginInStep(c: Codec)
    ensures InStep(c, Begin(None))
  {
    assert Bodies([]) == [] && ReceiveAll(c, BLANK_PAGE, []) == BLANK_PAGE;
  }
}
