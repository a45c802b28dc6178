/** Strings as the JavaScript sources use them: white space, trimming, splitting at a
    separator, and the two newline foldings. A string is a sequence of characters;
    UTF-8 decoding is not part of this model. */
module Text {

  datatype Option<+T> = None | Some(value: T)

  /** What `trim`, `trimStart` and the class `\s` treat as white space. */
  predicate IsSpace(c: char) {
    var n := c as int;
    9 <= n <= 13 || n == 32 || n == 0xA0 || n == 0x1680 || 0x2000 <= n <= 0x200A
    || n == 0x2028 || n == 0x2029 || n == 0x202F || n == 0x205F || n == 0x3000 || n == 0xFEFF
  }

  /** What `.` does not match in a regular expression. */
  predicate IsLineTerminator(c: char) {
    c == '\n' || c == '\r' || c as int == 0x2028 || c as int == 0x2029
  }

  /** The number of leading white-space characters. */
  function Indent(s: string): (n: nat)
    ensures n <= |s| && (n < |s| ==> !IsSpace(s[n]))
  {
    if s != "" && IsSpace(s[0]) then 1 + Indent(s[1..]) else 0
  }

  /** The length without trailing white space. */
  function ContentEnd(s: string): (n: nat)
    ensures n <= |s|
  {
    if s != "" && IsSpace(s[|s| - 1]) then ContentEnd(s[..|s| - 1]) else |s|
  }

  /** `!s.trim()` */
  predicate Blank(s: string) {
    Indent(s) == |s|
  }

  function TrimStart(s: string): string {
    s[Indent(s)..]
  }

  function Trim(s: string): string {
    TrimStart(s)[..ContentEnd(TrimStart(s))]
  }

  /** White space is exactly what an indent is made of. */
  lemma {:induction false} IndentSpaces(s: string)
    ensures forall i :: 0 <= i < Indent(s) ==> IsSpace(s[i])
  {
    if s != "" && IsSpace(s[0]) {
      IndentSpaces(s[1..]);
      forall i | 0 <= i < Indent(s) ensures IsSpace(s[i]) {
        if i > 0 { assert s[i] == s[1..][i - 1]; }
      }
    }
  }

  lemma {:induction false} IndentAppend(a: string, b: string)
    ensures Indent(a + b) == if Blank(a) then |a| + Indent(b) else Indent(a)
  {
    hide IsSpace;
    if a == "" {
      assert a + b == b;
    } else {
      assert (a + b)[1..] == a[1..] + b;
      IndentAppend(a[1..], b);
    }
  }

  /** A concatenation is blank when both parts are. */
  lemma BlankAppend(a: string, b: string)
    ensures Blank(a + b) <==> Blank(a) && Blank(b)
  {
    IndentAppend(a, b);
  }

  lemma TrimStartAppend(s: string, x: string)
    requires !Blank(s)
    ensures TrimStart(s + x) == TrimStart(s) + x
  {
    IndentAppend(s, x);
  }

  lemma {:induction false} ContentBegins(s: string)
    requires s != "" && !IsSpace(s[0])
    ensures ContentEnd(s) > 0
  {
    hide IsSpace;
    if IsSpace(s[|s| - 1]) { ContentBegins(s[..|s| - 1]); }
  }

  lemma BlankTrims(s: string)
    ensures Blank(s) <==> TrimStart(s) == ""
    ensures Blank(s) <==> Trim(s) == ""
  {
    hide IsSpace, ContentEnd;
    if !Blank(s) { ContentBegins(TrimStart(s)); }
  }

  lemma EmptyTrims()
    ensures Blank("") && TrimStart("") == "" && Trim("") == ""
  {
  }

  /** Trimming keeps the first character of a string that is not blank. */
  lemma TrimHead(s: string)
    requires TrimStart(s) != ""
    ensures Trim(s) != "" && Trim(s)[0] == TrimStart(s)[0] && !IsSpace(TrimStart(s)[0])
  {
    hide IsSpace, ContentEnd;
    ContentBegins(TrimStart(s));
  }

  // ---- split and join -------------------------------------------------------------

  /** `s.split(sep)` for a one-character separator: never empty. */
  function SplitOn(s: string, sep: char): (parts: seq<string>)
    ensures |parts| >= 1
  {
    if s == "" then [""]
    else
      var rest := SplitOn(s[1..], sep);
      if s[0] == sep then [""] + rest else [[s[0]] + rest[0]] + rest[1..]
  }

  /** `parts.join(sep)` */
  function JoinWith(parts: seq<string>, sep: char): string {
    if parts == [] then ""
    else if |parts| == 1 then parts[0]
    else parts[0] + [sep] + JoinWith(parts[1..], sep)
  }

  function Lines(s: string): (ls: seq<string>)
    ensures |ls| >= 1
  {
    SplitOn(s, '\n')
  }

  function Unlines(ls: seq<string>): string {
    JoinWith(ls, '\n')
  }

  ghost predicate Free(parts: seq<string>, sep: char) {
    forall i :: 0 <= i < |parts| ==> sep !in parts[i]
  }

  lemma {:induction false} SplitThenJoin(s: string, sep: char)
    ensures JoinWith(SplitOn(s, sep), sep) == s
    ensures Free(SplitOn(s, sep), sep)
  {
    if s != "" {
      SplitThenJoin(s[1..], sep);
      var rest := SplitOn(s[1..], sep);
      if s[0] == sep {
        assert ([""] + rest)[1..] == rest;
      } else {
        assert SplitOn(s, sep)[1..] == rest[1..];
        forall i | 0 <= i < |SplitOn(s, sep)| ensures sep !in SplitOn(s, sep)[i] {
          if i > 0 { assert SplitOn(s, sep)[i] == rest[i]; }
        }
      }
    }
  }

  /** Replaces the last part of `a` and the first part of `b` by their concatenation. */
  function Splice(a: seq<string>, b: seq<string>): seq<string>
    requires |a| >= 1 && |b| >= 1
  {
    a[..|a| - 1] + [a[|a| - 1] + b[0]] + b[1..]
  }

  lemma {:induction false} SplitConcat(a: string, b: string, sep: char)
    ensures SplitOn(a + b, sep) == Splice(SplitOn(a, sep), SplitOn(b, sep))
  {
    var sb := SplitOn(b, sep);
    if a == "" {
      assert a + b == b;
      assert Splice([""], sb) == sb by { assert "" + sb[0] == sb[0]; }
    } else {
      assert (a + b)[1..] == a[1..] + b;
      SplitConcat(a[1..], b, sep);
      SpliceHead(a[0], SplitOn(a[1..], sep), sb);
    }
  }

  /** Splicing commutes with putting a part, or a character, in front. */
  lemma SpliceHead(c: char, rest: seq<string>, sb: seq<string>)
    requires |rest| >= 1 && |sb| >= 1
    ensures Splice([""] + rest, sb) == [""] + Splice(rest, sb)
    ensures Splice([[c] + rest[0]] + rest[1..], sb)
         == [[c] + Splice(rest, sb)[0]] + Splice(rest, sb)[1..]
  {
    var whole := [[c] + rest[0]] + rest[1..];
    if |rest| == 1 {
      assert whole[|whole| - 1] + sb[0] == [c] + (rest[0] + sb[0]);
      assert Splice(rest, sb) == [rest[0] + sb[0]] + sb[1..];
    } else {
      assert whole[..|whole| - 1] == [[c] + rest[0]] + rest[1..|rest| - 1];
      assert Splice(rest, sb)[0] == rest[0];
    }
  }

  /** A piece without the separator is the first part. */
  lemma {:induction false} SplitFirst(p: string, t: string, sep: char)
    requires sep !in p
    ensures SplitOn(p, sep) == [p]
    ensures SplitOn(p + [sep] + t, sep) == [p] + SplitOn(t, sep)
  {
    var s := p + [sep] + t;
    if p == "" {
      assert s[1..] == t;
    } else {
      assert s[1..] == p[1..] + [sep] + t;
      assert [p[0]] + p[1..] == p;
      SplitFirst(p[1..], t, sep);
    }
  }

  /** Joining parts that do not contain the separator is undone by splitting. */
  lemma {:induction false} JoinThenSplit(parts: seq<string>, sep: char)
    requires parts != [] && Free(parts, sep)
    ensures SplitOn(JoinWith(parts, sep), sep) == parts
  {
    if |parts| > 1 {
      JoinThenSplit(parts[1..], sep);
      SplitFirst(parts[0], JoinWith(parts[1..], sep), sep);
    } else {
      SplitFirst(parts[0], "", sep);
    }
  }

  /** Joining a list cut in two; the separator goes with the left half. */
  lemma {:induction false} JoinCut(a: seq<string>, b: seq<string>, sep: char)
    requires b != []
    ensures JoinWith(a + b, sep) == JoinWith(a + [""], sep) + JoinWith(b, sep)
  {
    if a == [] {
      assert a + b == b && a + [""] == [""];
    } else {
      JoinCut(a[1..], b, sep);
      assert (a + b)[1..] == a[1..] + b;
      assert (a + [""])[1..] == a[1..] + [""];
    }
  }

  // ---- newline folding ------------------------------------------------------------

  /** `s.replace(/\r\n?/g, "\n")` */
  function Normalise(s: string): string {
    if s == "" then ""
    else if s[0] == '\r' then
      "\n" + Normalise(if |s| > 1 && s[1] == '\n' then s[2..] else s[1..])
    else [s[0]] + Normalise(s[1..])
  }

  /** Text already rewritten never changes when more text arrives. */
  lemma {:induction false} NormaliseMonotone(a: string, b: string)
    ensures Normalise(a) <= Normalise(a + b)
    decreases |a|
  {
    if a != "" {
      var n := if a[0] == '\r' && |a| > 1 && a[1] == '\n' then 2 else 1;
      assert (a + b)[n..] == a[n..] + b;
      NormaliseMonotone(a[n..], b);
      if a == "\r" {
        assert Normalise(a) == "\n";
      }
    }
  }

  lemma NormalisedHasNoCr(s: string)
    ensures '\r' !in Normalise(s)
  {
  }

  /** Rewriting a second time changes nothing. */
  lemma {:induction false} NormaliseFixed(s: string)
    requires '\r' !in s
    ensures Normalise(s) == s
  {
    if s != "" { NormaliseFixed(s[1..]); }
  }

  /** `s.replace(/\r\n/g, "\n")`: drops each CR that stands directly before an LF; a bare CR
      stays. */
  function FoldCrlf(s: string): string {
    if s == "" then ""
    else if Straddles([s[0]], s[1..]) then FoldCrlf(s[1..])
    else [s[0]] + FoldCrlf(s[1..])
  }

  /** The cut between `a` and `b` falls between a CR and its LF. */
  predicate Straddles(a: string, b: string) {
    a != "" && b != "" && a[|a| - 1] == '\r' && b[0] == '\n'
  }

  lemma {:induction false} FoldFree(s: string)
    requires '\r' !in s
    ensures FoldCrlf(s) == s
  {
    if s != "" { FoldFree(s[1..]); }
  }

  /** Folding two pieces apart differs from folding them together exactly when the cut
      falls between a CR and its LF, and then one character too many remains. */
  lemma {:induction false} FoldConcat(a: string, b: string)
    ensures !Straddles(a, b) ==> FoldCrlf(a + b) == FoldCrlf(a) + FoldCrlf(b)
    ensures Straddles(a, b) ==> |FoldCrlf(a + b)| + 1 == |FoldCrlf(a)| + |FoldCrlf(b)|
  {
    if a == "" {
      assert a + b == b;
    } else if |a| == 1 {
      assert a == [a[0]] && a[1..] == "" && (a + b)[1..] == b;
      assert FoldCrlf(a) == a;
    } else {
      assert (a + b)[1..] == a[1..] + b;
      FoldConcat(a[1..], b);
      assert Straddles([a[0]], a[1..] + b) == Straddles([a[0]], a[1..]);
      assert Straddles(a[1..], b) == Straddles(a, b);
    }
  }
}
