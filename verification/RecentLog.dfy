/** The gateway's request log and its list of recent requests: replaying the log after a restart
    gives what the list began with. Timestamps are left out of the entries; the other fields of a
    record are a number. */
module RecentLog {
  import opened Text

  datatype EventName = Queued | Started | FirstToken | Completed | Failed | Cancelled | Other
  datatype Entry = Entry(event: EventName, fields: nat)

  /** `JSON.stringify` of an entry at a moment, and `JSON.parse` with its failure. */
  datatype Codec = Codec(stringify: (int, Entry) -> string, parse: string -> Option<Entry>)

  /** A line without white space at its ends and without a line break. */
  predicate Tidy(line: string) {
    line != "" && !IsSpace(line[0]) && !IsSpace(line[|line| - 1]) && '\n' !in line
  }

  /** What is assumed of JSON. */
  ghost predicate Lawful(json: Codec) {
    json.parse("") == None
    && forall now, e :: Tidy(json.stringify(now, e)) && json.parse(json.stringify(now, e)) == Some(e)
  }

  const TAIL := 400
  const RECENT := 50

  function Last<T>(xs: seq<T>, n: nat): (r: seq<T>) {
    if |xs| <= n then xs else xs[|xs| - n..]
  }

  function Reverse<T>(xs: seq<T>): (r: seq<T>) {
    seq(|xs|, i requires 0 <= i < |xs| => xs[|xs| - 1 - i])
  }

  predicate Terminal(e: Entry) {
    e.event == Completed || e.event == Failed || e.event == Cancelled
  }

  /** The entry of a line if it is a terminal one; a line that does not parse gives none. */
  function EntryOf(json: Codec, line: string): seq<Entry> {
    var e := json.parse(line);
    if e.Some? && Terminal(e.value) then [e.value] else []
  }

  function Terminals(json: Codec, lines: seq<string>): seq<Entry> {
    if lines == [] then [] else EntryOf(json, lines[0]) + Terminals(json, lines[1..])
  }

  /** `loadRecent` on the lines of the log. */
  function Replay(json: Codec, lines: seq<string>): seq<Entry> {
    Reverse(Last(Terminals(json, Last(lines, TAIL)), RECENT))
  }

  function Add(recent: seq<Entry>, e: Entry): seq<Entry> {
    var all := [e] + recent;
    if |all| > RECENT then all[..RECENT] else all
  }

  // ---- runs ---------------------------------------------------------------------------------------

  /** The lines of the log, the list, and a record of every terminal entry the list has taken in. */
  datatype State = State(lines: seq<string>, recent: seq<Entry>, taken: seq<Entry>)

  /** `full` tells that the log has reached its size and is rotated away first. */
  datatype Event = Log(now: int, entry: Entry, full: bool) | Restart

  function Start(json: Codec, lines: seq<string>): State {
    State(lines, Replay(json, lines), Terminals(json, Last(lines, TAIL)))
  }

  function Step(json: Codec, s: State, e: Event): State {
    match e
    case Restart => Start(json, s.lines)
    case Log(now, entry, full) =>
      var lines := (if full then [] else s.lines) + [json.stringify(now, entry)];
      if Terminal(entry) then State(lines, Add(s.recent, entry), s.taken + [entry]) else s.(lines := lines)
  }

  function Run(json: Codec, first: seq<string>, events: seq<Event>): State {
    if events == [] then Start(json, first)
    else Step(json, Run(json, first, events[..|events| - 1]), events[|events| - 1])
  }

  predicate Suffix<T(==)>(a: seq<T>, b: seq<T>) {
    |a| <= |b| && a == b[|b| - |a|..]
  }

  lemma SuffixTwice<T>(a: seq<T>, b: seq<T>, c: seq<T>)
    requires Suffix(a, b) && Suffix(b, c)
    ensures Suffix(a, c)
  {
  }

  lemma {:induction false} TerminalsAppend(json: Codec, a: seq<string>, b: seq<string>)
    ensures Terminals(json, a + b) == Terminals(json, a) + Terminals(json, b)
  {
    hide EntryOf;
    if a == [] {
      assert a + b == b;
    } else {
      TerminalsAppend(json, a[1..], b);
      assert (a + b)[1..] == a[1..] + b;
      var x, y, z := EntryOf(json, a[0]), Terminals(json, a[1..]), Terminals(json, b);
      assert x + (y + z) == (x + y) + z;
    }
  }

  lemma TerminalsOne(json: Codec, a: seq<string>, line: string)
    ensures Terminals(json, a + [line]) == Terminals(json, a) + EntryOf(json, line)
  {
    hide EntryOf;
    TerminalsAppend(json, a, [line]);
    assert [line][1..] == [];
  }

  lemma SuffixMore<T>(a: seq<T>, b: seq<T>, more: seq<T>)
    requires Suffix(a, b)
    ensures Suffix(a + more, b + more)
  {
  }

  lemma TerminalsSuffix(json: Codec, a: seq<string>, b: seq<string>)
    requires Suffix(a, b)
    ensures Suffix(Terminals(json, a), Terminals(json, b))
  {
    var front := b[..|b| - |a|];
    assert b == front + a;
    TerminalsAppend(json, front, a);
  }

  lemma LastAppend<T>(xs: seq<T>, x: T, n: nat)
    ensures Suffix(Last(xs + [x], n), Last(xs, n) + [x])
  {
  }

  lemma AddTaken(taken: seq<Entry>, e: Entry)
    ensures Add(Reverse(Last(taken, RECENT)), e) == Reverse(Last(taken + [e], RECENT))
  {
  }

  lemma ReplayPrefix(some: seq<Entry>, all: seq<Entry>)
    requires Suffix(some, all)
    ensures Reverse(Last(some, RECENT)) <= Reverse(Last(all, RECENT))
  {
  }

  predicate Good(json: Codec, s: State) {
    s.recent == Reverse(Last(s.taken, RECENT)) && Suffix(Terminals(json, Last(s.lines, TAIL)), s.taken)
  }

  lemma StepKeeps(json: Codec, s: State, e: Event)
    requires Lawful(json) && Good(json, s)
    ensures Good(json, Step(json, s, e))
  {
    hide Last, Reverse, Add, Tidy, EntryOf, Suffix, Terminals;
    if e.Log? {
      var kept := if e.full then [] else s.lines;
      var line := json.stringify(e.now, e.entry);
      var more := EntryOf(json, line);
      Rotated(json, s, e.full);
      LastAppend(kept, line, TAIL);
      TerminalsSuffix(json, Last(kept + [line], TAIL), Last(kept, TAIL) + [line]);
      TerminalsOne(json, Last(kept, TAIL), line);
      SuffixMore(Terminals(json, Last(kept, TAIL)), s.taken, more);
      SuffixTwice(Terminals(json, Last(kept + [line], TAIL)), Terminals(json, Last(kept, TAIL)) + more, s.taken + more);
      AddTaken(s.taken, e.entry);
      OneLine(json, e.now, e.entry);
      assert s.taken + [] == s.taken;
    } else {
      StartGood(json, s.lines);
    }
  }

  lemma OneLine(json: Codec, now: int, e: Entry)
    requires Lawful(json)
    ensures EntryOf(json, json.stringify(now, e)) == if Terminal(e) then [e] else []
  {
    hide Tidy;
  }

  lemma Rotated(json: Codec, s: State, full: bool)
    requires Good(json, s)
    ensures Suffix(Terminals(json, Last(if full then [] else s.lines, TAIL)), s.taken)
  {
  }

  lemma {:induction false} RunGood(json: Codec, first: seq<string>, events: seq<Event>)
    requires Lawful(json)
    ensures Good(json, Run(json, first, events))
  {
    hide Good, Step;
    if events == [] {
      StartGood(json, first);
    } else {
      RunGood(json, first, events[..|events| - 1]);
      StepKeeps(json, Run(json, first, events[..|events| - 1]), events[|events| - 1]);
    }
  }

  lemma StartGood(json: Codec, lines: seq<string>)
    ensures Good(json, Start(json, lines))
  {
  }

  /** At any point of any run, whatever the log held at the start, whenever it was rotated and
      however often the process restarted: the list has at most fifty entries, newest first, and
      what a restart would load from the current log is the beginning of it. */
  lemma ReplayAgrees(json: Codec, first: seq<string>, events: seq<Event>)
    requires Lawful(json)
    ensures var s := Run(json, first, events); Replay(json, s.lines) <= s.recent && |s.recent| <= RECENT
  {
    RunGood(json, first, events);
    var s := Run(json, first, events);
    ReplayPrefix(Terminals(json, Last(s.lines, TAIL)), s.taken);
  }

  lemma {:induction false} NothingMissed(json: Codec, first: seq<string>, events: seq<Event>)
    requires Lawful(json) && forall i :: 0 <= i < |events| ==> events[i].Log? ==> !events[i].full
    requires |Run(json, first, events).lines| <= TAIL
    ensures var s := Run(json, first, events); Terminals(json, s.lines) == s.taken
  {
    hide Tidy, Add, Reverse, EntryOf, Terminals, Replay;
    if events != [] {
      var before, e := events[..|events| - 1], events[|events| - 1];
      var s := Run(json, first, before);
      NothingMissed(json, first, before);
      if e.Log? {
        TerminalsOne(json, s.lines, json.stringify(e.now, e.entry));
        OneLine(json, e.now, e.entry);
      }
    }
  }

  /** As long as the log is not rotated and holds no more lines than a restart reads, a restart would
      load exactly the list. */
  lemma ReplayExact(json: Codec, first: seq<string>, events: seq<Event>)
    requires Lawful(json) && forall i :: 0 <= i < |events| ==> events[i].Log? ==> !events[i].full
    requires |Run(json, first, events).lines| <= TAIL
    ensures var s := Run(json, first, events); Replay(json, s.lines) == s.recent
  {
    hide Run, Terminals, Suffix;
    RunGood(json, first, events);
    NothingMissed(json, first, events);
  }

  /** The records of requests that came to an end, of a run. */
  function Outcomes(events: seq<Event>): seq<Entry> {
    if events == [] then []
    else
      var e := events[|events| - 1];
      Outcomes(events[..|events| - 1])
      + if e.Log? && e.entry.event in {Completed, Failed, Cancelled} then [e.entry] else []
  }

  lemma {:induction false} TakesOutcomes(json: Codec, events: seq<Event>)
    requires forall i :: 0 <= i < |events| ==> events[i].Log?
    ensures Run(json, [], events).taken == Outcomes(events)
  {
    hide Last, Replay;
    if events == [] {
      NoTerminals(json);
      assert Last<string>([], TAIL) == [] by { LastOfNone(); }
    } else {
      TakesOutcomes(json, events[..|events| - 1]);
      assert Outcomes(events[..|events| - 1]) + [] == Outcomes(events[..|events| - 1]);
    }
  }

  lemma LastOfNone()
    ensures Last<string>([], TAIL) == []
  {
  }

  /** A gateway that starts without a log lists the last fifty records of requests that came to an end,
      newest first, whatever else it logs and whenever the log is rotated. */
  lemma RecentExact(json: Codec, events: seq<Event>)
    requires Lawful(json) && forall i :: 0 <= i < |events| ==> events[i].Log?
    ensures var recent, all := Run(json, [], events).recent, Outcomes(events);
            |recent| == (if |all| <= RECENT then |all| else RECENT)
            && forall i :: 0 <= i < |recent| ==> recent[i] == all[|all| - 1 - i]
  {
    hide Run, Suffix, Terminals;
    RunGood(json, [], events);
    TakesOutcomes(json, events);
  }

  // ---- the file -----------------------------------------------------------------------------------

  /** The text of a file to which each line was appended with a line break. */
  function FileText(lines: seq<string>): string {
    if lines == [] then "" else lines[0] + "\n" + FileText(lines[1..])
  }

  predicate AllTidy(lines: seq<string>) {
    forall i :: 0 <= i < |lines| ==> Tidy(lines[i])
  }

  lemma {:induction false} FileAppend(lines: seq<string>, line: string)
    ensures FileText(lines + [line]) == FileText(lines) + line + "\n"
  {
    if lines != [] {
      FileAppend(lines[1..], line);
      assert (lines + [line])[1..] == lines[1..] + [line];
    }
  }

  lemma {:induction false} FileJoined(lines: seq<string>)
    requires lines != [] && AllTidy(lines)
    ensures FileText(lines) == JoinWith(lines, '\n') + "\n"
    ensures var joined := JoinWith(lines, '\n'); joined != "" && !IsSpace(joined[0]) && !IsSpace(joined[|joined| - 1])
  {
    hide IsSpace;
    if |lines| > 1 {
      FileJoined(lines[1..]);
      var rest := JoinWith(lines[1..], '\n');
      assert FileText(lines) == lines[0] + "\n" + (rest + "\n");
    } else {
      assert FileText(lines[1..]) == "";
    }
  }

  lemma TrimLine(s: string)
    requires s != "" && !IsSpace(s[0]) && !IsSpace(s[|s| - 1])
    ensures Trim(s + "\n") == s
  {
    var t := s + "\n";
    assert TrimStart(t) == t;
    assert t[..|t| - 1] == s;
    assert ContentEnd(t) == ContentEnd(s) == |s|;
  }

  /** Reading the file back gives its lines; an empty file gives one empty line. */
  lemma ReadBack(lines: seq<string>)
    requires AllTidy(lines)
    ensures SplitOn(Trim(FileText(lines)), '\n') == if lines == [] then [""] else lines
  {
    if lines == [] {
      EmptyTrims();
    } else {
      FileJoined(lines);
      TrimLine(JoinWith(lines, '\n'));
      JoinThenSplit(lines, '\n');
    }
  }

  /** No line and one empty line both give nothing. */
  lemma EmptyReplay(json: Codec)
    requires Lawful(json)
    ensures Replay(json, [""]) == Replay(json, [])
  {
    assert [""][1..] == [];
    assert Terminals(json, [""]) == [];
  }

  lemma NothingReplayed(json: Codec)
    ensures Replay(json, []) == []
  {
  }

  method CollectTerminals(json: Codec, lines: seq<string>) returns (found: seq<Entry>)
    ensures found == Terminals(json, lines)
  {
    hide Terminals, EntryOf;
    NoTerminals(json);
    found := [];
    for i := 0 to |lines|
      invariant found == Terminals(json, lines[..i])
    {
      TerminalsOne(json, lines[..i], lines[i]);
      assert lines[..i + 1] == lines[..i] + [lines[i]];
      found := found + EntryOf(json, lines[i]);
    }
    assert lines[..|lines|] == lines;
  }

  lemma NoTerminals(json: Codec)
    ensures Terminals(json, []) == []
  {
  }

  class RequestLog {
    const json: Codec
    var requestLog: Option<string>
    var rotatedLog: Option<string>
    var recent: seq<Entry>
    ghost var lines: seq<string>
    ghost var taken: seq<Entry>

    ghost predicate Valid()
      reads this
    {
      Lawful(json) && AllTidy(lines) && (if requestLog.None? then lines == [] else requestLog.value == FileText(lines))
      && Good(json, View())
    }

    ghost function View(): State
      reads this
    {
      State(lines, recent, taken)
    }

    /** The process starts on whatever log there is. */
    constructor (json: Codec, file: Option<string>, ghost written: seq<string>)
      requires Lawful(json) && AllTidy(written)
      requires if file.None? then written == [] else file.value == FileText(written)
      ensures Valid() && this.json == json && View() == Start(json, written)
    {
      this.json := json;
      requestLog, rotatedLog := file, None;
      lines := written;
      taken := Terminals(json, Last(written, TAIL));
      recent := [];
      new;
      StartGood(json, written);
      recent := LoadRecent();
    }

    method ReadLines() returns (all: seq<string>)
      requires AllTidy(lines) && requestLog == Some(FileText(lines))
      ensures all == if lines == [] then [""] else lines
    {
      hide Trim, SplitOn, AllTidy, FileText;
      ReadBack(lines);
      all := SplitOn(Trim(requestLog.value), '\n');
    }

    /** `flatMap` over the last lines, then the newest of what it found, newest first. */
    method LoadRecent() returns (loaded: seq<Entry>)
      requires Lawful(json) && AllTidy(lines)
      requires if requestLog.None? then lines == [] else requestLog.value == FileText(lines)
      ensures loaded == Replay(json, lines)
    {
      hide AllTidy, FileText, Terminals, Reverse, Lawful;
      EmptyReplay(json);
      if requestLog.None? {
        NothingReplayed(json);
        return [];
      }
      var all := ReadLines();
      var tail := if |all| > TAIL then all[|all| - TAIL..] else all;
      var found := CollectTerminals(json, tail);
      loaded := Reverse(if |found| > RECENT then found[|found| - RECENT..] else found);
    }

    method RotateLogIfNeeded(full: bool)
      modifies this`requestLog, this`rotatedLog, this`lines
      ensures requestLog == (if full then None else old(requestLog)) && lines == if full then [] else old(lines)
      ensures rotatedLog == if full && old(requestLog).Some? then old(requestLog) else old(rotatedLog)
    {
      if !full {
        return;
      }
      if requestLog.Some? {
        rotatedLog := requestLog;
      }
      requestLog := None;
      lines := [];
    }

    method LogEvent(now: int, entry: Entry, full: bool)
      requires Lawful(json) && AllTidy(lines)
      requires if requestLog.None? then lines == [] else requestLog.value == FileText(lines)
      modifies this`requestLog, this`rotatedLog, this`lines
      ensures lines == (if full then [] else old(lines)) + [json.stringify(now, entry)]
      ensures AllTidy(lines) && requestLog == Some(FileText(lines))
    {
      RotateLogIfNeeded(full);
      var line := json.stringify(now, entry);
      FileAppend(lines, line);
      requestLog := Some((if requestLog.Some? then requestLog.value else "") + line + "\n");
      lines := lines + [line];
    }

    method AddRecent(e: Entry)
      modifies this`recent, this`taken
      ensures recent == Add(old(recent), e) && taken == old(taken) + [e]
    {
      recent := [e] + recent;
      if |recent| > RECENT {
        recent := recent[..RECENT];
      }
      taken := taken + [e];
    }

    /** A terminal record is logged and then put in front of the list; any other is only logged. */
    method Record(now: int, entry: Entry, full: bool)
      requires Valid()
      modifies this
      ensures Valid() && View() == Step(json, old(View()), Log(now, entry, full))
      ensures Replay(json, lines) <= recent && |recent| <= RECENT
    {
      hide Good, Add, Replay;
      StepKeeps(json, View(), Log(now, entry, full));
      LogEvent(now, entry, full);
      if Terminal(entry) {
        AddRecent(entry);
      }
      GoodReplay(json, View());
    }
  }

  lemma GoodReplay(json: Codec, s: State)
    requires Good(json, s)
    ensures Replay(json, s.lines) <= s.recent && |s.recent| <= RECENT
  {
    ReplayPrefix(Terminals(json, Last(s.lines, TAIL)), s.taken);
  }
}
