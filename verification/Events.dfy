/** Server-sent events as their sender writes them, with the fields the readers look for, and what
    the readers of this repository find in them. */
module Events {
  import opened Text
  import opened Sse
  import opened ChatStream

  /** A message: an optional name, and data of any number of lines. Or lines the readers have no use
      for, such as a comment. */
  datatype Sent = Message(name: Option<string>, data: string) | Remark(body: string)

  function Prefixed(ls: seq<string>): (r: seq<string>)
    ensures |r| == |ls|
  {
    if ls == [] then [] else ["data: " + ls[0]] + Prefixed(ls[1..])
  }

  function FieldLines(e: Sent): seq<string> {
    match e
    case Message(None, d) => Prefixed(Lines(d))
    case Message(Some(n), d) => ["event: " + n] + Prefixed(Lines(d))
    case Remark(b) => Lines(b)
  }

  function Written(e: Sent): string {
    Unlines(FieldLines(e))
  }

  function AllWritten(es: seq<Sent>): (r: seq<string>)
    ensures |r| == |es|
  {
    if es == [] then [] else [Written(es[0])] + AllWritten(es[1..])
  }

  predicate Fieldless(ls: seq<string>) {
    forall i :: 0 <= i < |ls| ==> !("event:" <= ls[i]) && !("data:" <= ls[i])
  }

  /** No line of the data begins with white space, and a name is one word without white space at its
      ends; a remark has neither field and no blank line. */
  ghost predicate Sendable(e: Sent) {
    match e
    case Message(name, d) =>
      '\r' !in d && (forall l :: l in Lines(d) ==> TrimStart(l) == l) && (name.Some? ==> Word(name.value))
    case Remark(b) =>
      '\r' !in b && IsBody(b) && Fieldless(Lines(b))
  }

  ghost predicate AllSendable(es: seq<Sent>) {
    forall i :: 0 <= i < |es| ==> Sendable(es[i])
  }

  // ---- reading one event ---------------------------------------------------------------------

  lemma DataField(l: string)
    requires TrimStart(l) == l && '\n' !in l
    ensures var f := "data: " + l;
            "data:" <= f && !("event:" <= f) && TrimStart(f[5..]) == l && '\n' !in f && f != "" && f[0] != '\n'
  {
    hide IsSpace;
    var f := "data: " + l;
    assert f[..5] == "data:" && f[0] == 'd' && "event:"[0] == 'e';
    assert f[5..] == [' '] + l;
    SpaceIsSpace();
    IndentIsZero(l);
    assert ([' '] + l)[1..] == l;
  }

  lemma IndentIsZero(l: string)
    requires TrimStart(l) == l
    ensures Indent(l) == 0
  {
  }

  ghost predicate Bare(ls: seq<string>) {
    forall l :: l in ls ==> TrimStart(l) == l && '\n' !in l
  }

  lemma {:induction false} PrefixedReads(ls: seq<string>)
    requires Bare(ls)
    ensures DataOf(Prefixed(ls)) == ls && NameOf(Prefixed(ls)) == None
    ensures forall i :: 0 <= i < |ls| ==> '\n' !in Prefixed(ls)[i] && Prefixed(ls)[i] != ""
  {
    hide TrimStart, Trim;
    if ls != [] {
      DataField(ls[0]);
      PrefixedReads(ls[1..]);
      var p := Prefixed(ls);
      assert p[1..] == Prefixed(ls[1..]) && p[0] == "data: " + ls[0];
    }
  }

  /** Non-empty lines make the body of a frame. */
  lemma {:induction false} LinesAreBody(ls: seq<string>)
    requires ls != [] && forall i :: 0 <= i < |ls| ==> ls[i] != "" && '\n' !in ls[i]
    ensures IsBody(Unlines(ls)) && Unlines(ls) != "" && Unlines(ls)[0] != '\n'
  {
    hide IsBody;
    if |ls| == 1 {
      OneLineBody(ls[0]);
    } else {
      var rest := ls[1..];
      LinesAreBody(rest);
      NoBoundary(ls[0] + "\n");
      LineThenBody(ls[0], Unlines(rest));
    }
  }

  lemma OneLineBody(l: string)
    requires '\n' !in l && l != ""
    ensures IsBody(l)
  {
    NoBoundary(l + "\n");
  }

  lemma {:induction false} LineThenBody(l: string, b: string)
    requires '\n' !in l && l != "" && IsBody(b) && b != "" && b[0] != '\n'
    ensures IsBody(l + ['\n'] + b)
  {
    var t := l + ['\n'] + b + "\n";
    if |l| == 1 {
      assert t[1..] == ['\n'] + (b + "\n") && t[1..][1..] == b + "\n";
      assert t[2] == b[0];
    } else {
      assert t[1..] == l[1..] + ['\n'] + b + "\n";
      LineThenBody(l[1..], b);
      assert t[0] == l[0] && t[1] == l[1];
    }
  }

  lemma {:induction false} JoinFree(ls: seq<string>, c: char)
    requires c != '\n' && forall i :: 0 <= i < |ls| ==> c !in ls[i]
    ensures c !in Unlines(ls)
  {
    if |ls| > 1 { JoinFree(ls[1..], c); }
  }

  lemma PrefixedLack(ls: seq<string>, c: char)
    requires c !in "data: " && forall l :: l in ls ==> c !in l
    ensures forall i :: 0 <= i < |ls| ==> c !in Prefixed(ls)[i]
  {
    if ls != [] {
      PrefixedLack(ls[1..], c);
      var p := Prefixed(ls);
      assert p[1..] == Prefixed(ls[1..]) && p[0] == "data: " + ls[0];
      forall i | 0 <= i < |ls| ensures c !in p[i] {
        if i > 0 { assert p[i] == p[1..][i - 1]; }
      }
    }
  }

  lemma {:induction false} LinesLack(s: string, c: char)
    requires c !in s
    ensures forall l :: l in Lines(s) ==> c !in l
  {
    if s != "" {
      LinesLack(s[1..], c);
      var rest := Lines(s[1..]);
      assert rest[0] in rest;
    }
  }

  lemma MessageLines(name: Option<string>, d: string)
    requires Sendable(Message(name, d))
    ensures var ls := FieldLines(Message(name, d));
            NameOf(ls) == name && DataOf(ls) == Lines(d) && ls != []
            && forall i :: 0 <= i < |ls| ==> ls[i] != "" && '\n' !in ls[i] && '\r' !in ls[i]
  {
    hide TrimStart, Trim, SplitOn, Word;
    SplitThenJoin(d, '\n');
    assert Bare(Lines(d));
    PrefixedReads(Lines(d));
    LinesLack(d, '\r');
    PrefixedLack(Lines(d), '\r');
    var p := Prefixed(Lines(d));
    if name.Some? {
      NameLine("event: " + name.value, name.value);
      var ls := ["event: " + name.value] + p;
      assert ls[1..] == p;
    }
  }

  /** A message is read with its name and its data, a remark with neither. */
  lemma SentReads(e: Sent)
    requires Sendable(e)
    ensures IsBody(Written(e)) && '\r' !in Written(e)
    ensures EventName(Written(e)) == (if e.Message? then e.name else None)
    ensures EventData(Written(e)) == if e.Message? then e.data else ""
  {
    hide IsBody, SplitOn, JoinWith, NameOf, DataOf, TrimStart, Word;
    if e.Message? {
      var ls := FieldLines(e);
      MessageLines(e.name, e.data);
      LinesAreBody(ls);
      JoinFree(ls, '\r');
      JoinThenSplit(ls, '\n');
      SplitThenJoin(e.data, '\n');
    } else {
      SplitThenJoin(e.body, '\n');
      NoFields(Lines(e.body));
      EmptyJoin();
    }
  }

  lemma {:induction false} NoFields(ls: seq<string>)
    requires Fieldless(ls)
    ensures NameOf(ls) == None && DataOf(ls) == []
  {
    if ls != [] { NoFields(ls[1..]); }
  }

  lemma EmptyJoin()
    ensures JoinWith([], '\n') == ""
  {
  }

  // ---- reading a stream ----------------------------------------------------------------------

  lemma {:induction false} AllWrittenAt(es: seq<Sent>)
    ensures forall i :: 0 <= i < |es| ==> AllWritten(es)[i] == Written(es[i])
  {
    if es != [] {
      AllWrittenAt(es[1..]);
      assert AllWritten(es)[1..] == AllWritten(es[1..]);
    }
  }

  lemma {:induction false} AllWrittenAppend(a: seq<Sent>, b: seq<Sent>)
    ensures AllWritten(a + b) == AllWritten(a) + AllWritten(b)
  {
    hide Written;
    if a == [] {
      assert a + b == b;
    } else {
      assert (a + b)[1..] == a[1..] + b;
      AllWrittenAppend(a[1..], b);
      assert [Written(a[0])] + (AllWritten(a[1..]) + AllWritten(b)) == ([Written(a[0])] + AllWritten(a[1..])) + AllWritten(b);
    }
  }

  /** However a stream of events and an unfinished tail is cut into chunks, the readers handle these
      events and keep this tail. */
  lemma StreamReads(es: seq<Sent>, tail: string, chunks: seq<string>)
    requires AllSendable(es) && Boundary(tail).None? && NoStraddle(chunks)
    requires FoldCrlf(ConcatAll(chunks)) == Frames(AllWritten(es)) + tail
    ensures ReadAll(chunks) == Parsed(AllWritten(es), tail)
  {
    hide Parse, FoldCrlf, Boundary, IsBody, Written, NoStraddle, Sendable, ReadAll;
    ChunkIndependence(chunks);
    AllWrittenAt(es);
    forall i | 0 <= i < |es| ensures IsBody(AllWritten(es)[i]) {
      SentReads(es[i]);
    }
    UnparseThenParse(Parsed(AllWritten(es), tail));
  }
}
