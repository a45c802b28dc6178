/** A small codec that obeys the laws asked of JSON, so that they can be met. */
module JsonLaws {
  import opened Text
  import opened Sse
  import opened ChatStream
  import Log = RecentLog

  function Escape(s: string): string {
    if s == "" then ""
    else (match s[0]
          case '\n' => "\\n"
          case '\r' => "\\r"
          case '\\' => "\\\\"
          case c => [c])
         + Escape(s[1..])
  }

  function Unescape(s: string): string {
    if s == "" then ""
    else if s[0] == '\\' && |s| > 1 then
      [if s[1] == 'n' then '\n' else if s[1] == 'r' then '\r' else s[1]] + Unescape(s[2..])
    else [s[0]] + Unescape(s[1..])
  }

  lemma {:induction false} EscapeReads(s: string)
    ensures Unescape(Escape(s)) == s && '\n' !in Escape(s) && '\r' !in Escape(s)
  {
    if s != "" {
      EscapeReads(s[1..]);
      var e := Escape(s);
      if s[0] in {'\n', '\r', '\\'} {
        assert e[2..] == Escape(s[1..]);
      } else {
        assert e[1..] == Escape(s[1..]);
      }
    }
  }

  function WriteText(s: string): string {
    "{" + Escape(s)
  }

  function ReadText(s: string): Option<Chunk> {
    if s != "" && s[0] == '{' then Some(Chunk(Unescape(s[1..]), None)) else None
  }

  const SMALL := Codec(ReadText, (s: string) => None, (k: Chunk) => WriteText(k.delta), WriteText,
    (r: Option<Completion>) => "{", (m: string) => "{")

  lemma WriteTextReads(s: string)
    ensures Clean(WriteText(s)) && WriteText(s) != DONE && ReadText(WriteText(s)) == Some(Chunk(s, None))
  {
    EscapeReads(s);
    assert WriteText(s)[0] == '{' && WriteText(s)[1..] == Escape(s);
    assert DONE[0] == '[';
  }

  lemma LawsCanBeMet()
    ensures Lawful(SMALL)
  {
    hide ReadText, WriteText, Clean;
    forall s: string ensures Clean(WriteText(s)) && WriteText(s) != DONE && ReadText(WriteText(s)) == Some(Chunk(s, None)) {
      WriteTextReads(s);
    }
    assert Clean("{") by { WriteTextReads(""); OpenBrace(); }
    assert "{" != DONE;
  }

  lemma OpenBrace()
    ensures WriteText("") == "{"
  {
  }

  // ---- the codec of the log ------------------------------------------------------------------------

  function Names(): seq<Log.EventName> {
    [Log.Queued, Log.Started, Log.FirstToken, Log.Completed, Log.Failed, Log.Cancelled, Log.Other]
  }

  function Index(e: Log.EventName): (i: nat)
    ensures i < 7 && Names()[i] == e
  {
    match e
    case Queued => 0
    case Started => 1
    case FirstToken => 2
    case Completed => 3
    case Failed => 4
    case Cancelled => 5
    case Other => 6
  }

  /** An entry by the length of its line. */
  function WriteEntry(e: Log.Entry): string {
    seq(7 * e.fields + Index(e.event) + 1, i => 'x')
  }

  function ReadEntry(s: string): Option<Log.Entry> {
    if s == "" then None else Some(Log.Entry(Names()[(|s| - 1) % 7], (|s| - 1) / 7))
  }

  const LOG := Log.Codec((now: int, e: Log.Entry) => WriteEntry(e), ReadEntry)

  lemma LogLawsCanBeMet()
    ensures Log.Lawful(LOG)
  {
    forall now: int, e: Log.Entry ensures Log.Tidy(LOG.stringify(now, e)) && LOG.parse(LOG.stringify(now, e)) == Some(e) {
      var s := WriteEntry(e);
      assert (7 * e.fields + Index(e.event)) / 7 == e.fields;
    }
  }
}
