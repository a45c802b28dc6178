/** Login throttling: per address, eight wrong passwords close the door for five minutes. */
module Throttle {

  const LIMIT := 8
  const PAUSE := 5 * 60 * 1000

  datatype Attempt = Attempt(count: nat, blockedUntil: nat)

  /** A login request: its address, whether the password is right, and the clock when the handler
      starts and when it sets a block. */
  datatype Try = Try(ip: string, correct: bool, at: nat, later: nat)

  datatype Verdict = Blocked | Wrong | Welcome

  function AttemptOf(attempts: map<string, Attempt>, ip: string): Attempt {
    if ip in attempts then attempts[ip] else Attempt(0, 0)
  }

  /** A password is compared only when the address is not blocked. */
  function Judge(attempts: map<string, Attempt>, t: Try): Verdict {
    if AttemptOf(attempts, t.ip).blockedUntil > t.at then Blocked else if t.correct then Welcome else Wrong
  }

  function After(attempts: map<string, Attempt>, t: Try): map<string, Attempt> {
    match Judge(attempts, t)
    case Blocked => attempts
    case Welcome => attempts - {t.ip}
    case Wrong =>
      var a := AttemptOf(attempts, t.ip);
      attempts[t.ip := if a.count + 1 >= LIMIT then Attempt(0, t.later + PAUSE) else Attempt(a.count + 1, a.blockedUntil)]
  }

  class LoginAttempts {
    var attempts: map<string, Attempt>

    constructor ()
      ensures attempts == map[]
    {
      attempts := map[];
    }

    method Login(t: Try) returns (verdict: Verdict)
      modifies this
      ensures verdict == Judge(old(attempts), t) && attempts == After(old(attempts), t)
    {
      var attempt := if t.ip in attempts then attempts[t.ip] else Attempt(0, 0);
      if attempt.blockedUntil > t.at {
        return Blocked;
      }
      if !t.correct {
        attempt := attempt.(count := attempt.count + 1);
        if attempt.count >= LIMIT {
          attempt := attempt.(count := 0, blockedUntil := t.later + PAUSE);
        }
        attempts := attempts[t.ip := attempt];
        return Wrong;
      }
      attempts := attempts - {t.ip};
      verdict := Welcome;
    }
  }

  // ---- runs -----------------------------------------------------------------------------------------

  function Attempts(tries: seq<Try>): map<string, Attempt> {
    if tries == [] then map[] else After(Attempts(tries[..|tries| - 1]), tries[|tries| - 1])
  }

  /** The pause after the last full eight of some wrong passwords lasts. */
  predicate Paused(wrongs: seq<Try>, at: nat) {
    var full := |wrongs| - |wrongs| % LIMIT;
    full > 0 && at < wrongs[full - 1].later + PAUSE
  }

  /** The wrong passwords of an address since its last successful login, leaving out what came during
      a pause: the history that the table stands for. */
  function Wrongs(tries: seq<Try>, ip: string): seq<Try> {
    if tries == [] then []
    else
      var wrongs, t := Wrongs(tries[..|tries| - 1], ip), tries[|tries| - 1];
      if t.ip != ip || Paused(wrongs, t.at) then wrongs else if t.correct then [] else wrongs + [t]
  }

  /** The clock never goes back, within a request or between requests. */
  predicate Timely(tries: seq<Try>) {
    (forall i :: 0 <= i < |tries| ==> tries[i].at <= tries[i].later)
    && forall i, j :: 0 <= i < j < |tries| ==> tries[i].later <= tries[j].at
  }

  /** Nine consecutive comparisons take more than the pause. */
  predicate Spaced(wrongs: seq<Try>) {
    forall i, j :: 0 <= i && i + LIMIT <= j < |wrongs| ==> wrongs[i].at + PAUSE <= wrongs[j].at
  }

  /** What the table holds for an address, in terms of its wrong passwords. */
  predicate Tells(wrongs: seq<Try>, a: Attempt) {
    a.count == |wrongs| % LIMIT
    && a.blockedUntil == if |wrongs| < LIMIT then 0 else wrongs[|wrongs| - |wrongs| % LIMIT - 1].later + PAUSE
  }

  lemma {:induction false} WrongsAmong(tries: seq<Try>, ip: string)
    ensures forall i :: 0 <= i < |Wrongs(tries, ip)| ==> Wrongs(tries, ip)[i] in tries
  {
    if tries != [] {
      var before := tries[..|tries| - 1];
      WrongsAmong(before, ip);
      forall i | 0 <= i < |Wrongs(tries, ip)| ensures Wrongs(tries, ip)[i] in tries {
        if i < |Wrongs(before, ip)| { assert Wrongs(before, ip)[i] in before; }
      }
    }
  }

  lemma NextIsTimely(wrongs: seq<Try>, t: Try)
    requires Timely(wrongs) && t.at <= t.later && forall i :: 0 <= i < |wrongs| ==> wrongs[i].later <= t.at
    ensures Timely(wrongs + [t])
  {
  }

  /** A ninth comparison has to wait for the end of a block. */
  lemma NextIsLate(wrongs: seq<Try>, a: Attempt, t: Try)
    requires Timely(wrongs) && Spaced(wrongs) && Tells(wrongs, a) && t.at >= a.blockedUntil
    ensures Spaced(wrongs + [t])
  {
    var n := |wrongs|;
    forall i | 0 <= i && i + LIMIT <= n ensures wrongs[i].at + PAUSE <= t.at {
      var b := n - n % LIMIT - 1;
      assert i <= b;
      assert wrongs[i].at <= wrongs[b].later;
    }
  }

  lemma NextTells(wrongs: seq<Try>, a: Attempt, t: Try)
    requires Tells(wrongs, a)
    ensures Tells(wrongs + [t], if a.count + 1 >= LIMIT then Attempt(0, t.later + PAUSE) else Attempt(a.count + 1, a.blockedUntil))
  {
    var n, all := |wrongs|, wrongs + [t];
    if a.count + 1 >= LIMIT {
      assert |all| % LIMIT == 0;
    } else {
      assert |all| % LIMIT == n % LIMIT + 1 && |all| - |all| % LIMIT == n - n % LIMIT;
    }
  }

  lemma WrongsEarlier(tries: seq<Try>, t: Try, ip: string)
    requires Timely(tries + [t])
    ensures Timely(tries) && t.at <= t.later
    ensures forall i :: 0 <= i < |Wrongs(tries, ip)| ==> Wrongs(tries, ip)[i].later <= t.at
  {
    hide Wrongs;
    var all := tries + [t];
    assert all[|tries|] == t;
    assert forall i :: 0 <= i < |tries| ==> tries[i] == all[i];
    WrongsAmong(tries, ip);
    forall i | 0 <= i < |Wrongs(tries, ip)| ensures Wrongs(tries, ip)[i].later <= t.at {
      var j :| 0 <= j < |tries| && tries[j] == Wrongs(tries, ip)[i];
      assert all[j].later <= all[|tries|].at;
    }
  }

  /** For every address, the table tells its wrong passwords since the last success, and those are spaced. */
  lemma {:induction false} TableTells(tries: seq<Try>, ip: string)
    requires Timely(tries)
    ensures Tells(Wrongs(tries, ip), AttemptOf(Attempts(tries), ip))
    ensures Timely(Wrongs(tries, ip)) && Spaced(Wrongs(tries, ip))
  {
    hide Tells, Spaced, Timely, Paused;
    EmptyTells();
    if tries != [] {
      var before, t := tries[..|tries| - 1], tries[|tries| - 1];
      assert tries == before + [t];
      WrongsEarlier(before, t, ip);
      TableTells(before, ip);
      PauseTold(Wrongs(before, ip), AttemptOf(Attempts(before), ip), t.at);
      if t.ip == ip && !Paused(Wrongs(before, ip), t.at) && !t.correct {
        var wrongs, a := Wrongs(before, ip), AttemptOf(Attempts(before), ip);
        NextIsTimely(wrongs, t);
        NextIsLate(wrongs, a, t);
        NextTells(wrongs, a, t);
      }
    }
  }

  lemma PauseTold(wrongs: seq<Try>, a: Attempt, at: nat)
    requires Tells(wrongs, a)
    ensures a.blockedUntil > at <==> Paused(wrongs, at)
  {
  }

  lemma EmptyTells()
    ensures Tells([], Attempt(0, 0)) && Timely([]) && Spaced([])
  {
  }

  /** The table answers like the history: a try is refused exactly during a pause of its address, and
      otherwise the password decides. */
  lemma VerdictExact(tries: seq<Try>, t: Try)
    requires Timely(tries + [t])
    ensures Judge(Attempts(tries), t) ==
            if Paused(Wrongs(tries, t.ip), t.at) then Blocked else if t.correct then Welcome else Wrong
  {
    hide Tells, Spaced, Timely, Paused;
    WrongsEarlier(tries, t, t.ip);
    TableTells(tries, t.ip);
    PauseTold(Wrongs(tries, t.ip), AttemptOf(Attempts(tries), t.ip), t.at);
  }

  /** Which comparisons fall in the half-open pause-long window from `start`. */
  function InWindow(wrongs: seq<Try>, start: nat): set<nat> {
    set i: nat | i < |wrongs| && start <= wrongs[i].at < start + PAUSE
  }

  lemma {:induction false} IntervalSize(s: set<nat>, low: nat, size: nat)
    requires forall i :: i in s ==> low <= i < low + size
    ensures |s| <= size
    decreases size
  {
    if size == 0 {
      assert s == {};
    } else {
      var top := low + size - 1;
      IntervalSize(s - {top}, low, size - 1);
      if top in s { assert |s - {top}| == |s| - 1; }
    }
  }

  lemma Near(wrongs: seq<Try>, i: nat, j: nat)
    requires Spaced(wrongs) && i < |wrongs| && j < |wrongs| && wrongs[j].at < wrongs[i].at + PAUSE
    ensures j < i + LIMIT
  {
  }

  /** Whatever is sent and in whatever order: between two successful logins of an address, no
      half-open window of five minutes holds more than eight compared wrong passwords. */
  lemma AtMostEight(tries: seq<Try>, ip: string, start: nat)
    requires Timely(tries)
    ensures |InWindow(Wrongs(tries, ip), start)| <= LIMIT
  {
    TableTells(tries, ip);
    var wrongs := Wrongs(tries, ip);
    var s := InWindow(wrongs, start);
    if s != {} {
      var low := Least(s);
      forall i | i in s ensures low <= i < low + LIMIT {
        Near(wrongs, low, i);
      }
      IntervalSize(s, low, LIMIT);
    }
  }

  lemma {:induction false} Least(s: set<nat>) returns (low: nat)
    requires s != {}
    ensures low in s && forall i :: i in s ==> low <= i
    decreases |s|
  {
    var some :| some in s;
    if s == {some} {
      low := some;
    } else {
      var others := s - {some};
      var rest := Least(others);
      low := if rest < some then rest else some;
      assert forall i :: i in s ==> i == some || i in others;
    }
  }

  /** The bound is met: eight wrong passwords at one instant are all compared. */
  lemma EightHappen(ip: string, now: nat)
    ensures var tries := seq(LIMIT, i => Try(ip, false, now, now));
            Timely(tries) && Wrongs(tries, ip) == tries && |InWindow(tries, now)| == LIMIT
  {
    var t := Try(ip, false, now, now);
    Repeated(t, LIMIT);
    AllInWindow(seq(LIMIT, i => t), now);
  }

  lemma AllInWindow(wrongs: seq<Try>, now: nat)
    requires |wrongs| == LIMIT && forall i :: 0 <= i < LIMIT ==> wrongs[i].at == now
    ensures |InWindow(wrongs, now)| == LIMIT
  {
    assert InWindow(wrongs, now) == {0, 1, 2, 3, 4, 5, 6, 7};
  }

  lemma FewNeverPause(wrongs: seq<Try>, at: nat)
    requires |wrongs| < LIMIT
    ensures !Paused(wrongs, at)
  {
  }

  lemma {:induction false} Repeated(t: Try, n: nat)
    requires n <= LIMIT && !t.correct
    ensures Wrongs(seq(n, i => t), t.ip) == seq(n, i => t)
  {
    hide Paused;
    if n > 0 {
      var tries := seq(n, i => t);
      assert tries[..n - 1] == seq(n - 1, i => t);
      Repeated(t, n - 1);
      FewNeverPause(tries[..n - 1], t.at);
    }
  }
}
