/** Signed requests between the dashboard and its nodes: what a signature covers, the nonce cache
    with its pruning, and how often one signed request can be accepted. The two copies of the
    scheme, in the dashboard and in the node agent, are the same code. */
module NodeAuth {
  import opened Text

  type Time = real

  // ---- the nonce cache ----------------------------------------------------------------------

  function Pruned(seen: map<string, Time>, now: Time): map<string, Time> {
    map k | k in seen && seen[k] > now :: seen[k]
  }

  /** The cache after `claim`; the claim succeeds when the key is not in the pruned cache. */
  function Claimed(seen: map<string, Time>, window: Time, key: string, now: Time): map<string, Time> {
    var p := Pruned(seen, now);
    if key in p then p else p[key := now + window]
  }

  class NonceCache {
    const windowMs: Time
    var seen: map<string, Time>

    constructor (windowMs: Time)
      ensures this.windowMs == windowMs && seen == map[]
    {
      this.windowMs := windowMs;
      seen := map[];
    }

    method Claim(key: string, now: Time) returns (ok: bool)
      modifies this
      ensures ok == (key !in Pruned(old(seen), now))
      ensures seen == Claimed(old(seen), windowMs, key, now)
    {
      var keys := seen.Keys;
      while keys != {}
        invariant keys <= seen.Keys <= old(seen).Keys
        invariant forall k :: k in seen ==> seen[k] == old(seen)[k]
        invariant forall k :: k in old(seen) && k !in keys ==> (k in seen <==> old(seen)[k] > now)
        decreases |keys|
      {
        var existing :| existing in keys;
        keys := keys - {existing};
        if seen[existing] <= now { seen := seen - {existing}; }
      }
      assert seen == Pruned(old(seen), now);
      if key in seen { return false; }
      seen := seen[key := now + windowMs];
      return true;
    }
  }

  // ---- runs of one cache ----------------------------------------------------------------------

  /** One call that may claim a key; a call rejected earlier does not touch the cache. */
  datatype Attempt = Attempt(claims: bool, key: string, now: Time)

  function SeenAfter(w: Time, run: seq<Attempt>): map<string, Time> {
    if run == [] then map[]
    else
      var a := run[|run| - 1];
      var before := SeenAfter(w, run[..|run| - 1]);
      if a.claims then Claimed(before, w, a.key, a.now) else before
  }

  /** The claim of attempt `i` succeeds. */
  predicate Accepted(w: Time, run: seq<Attempt>, i: nat)
    requires i < |run|
  {
    run[i].claims && run[i].key !in Pruned(SeenAfter(w, run[..i]), run[i].now)
  }

  /** A successful claim whose window no later claim has seen run out. */
  ghost predicate Live(w: Time, run: seq<Attempt>, i: nat)
    requires i < |run|
  {
    Accepted(w, run, i) && forall j :: i < j < |run| && run[j].claims ==> run[j].now < run[i].now + w
  }

  lemma AcceptedPrefix(w: Time, run: seq<Attempt>, n: nat, i: nat)
    requires i < n <= |run|
    ensures Accepted(w, run[..n], i) == Accepted(w, run, i)
  {
    assert run[..n][..i] == run[..i];
  }

  /** One more attempt ends the life of the claims whose window it sees run out. */
  lemma LiveNext(w: Time, run: seq<Attempt>, i: nat)
    requires i + 1 < |run|
    ensures var a := run[|run| - 1];
            Live(w, run, i) <==> Live(w, run[..|run| - 1], i) && (a.claims ==> a.now < run[i].now + w)
  {
    hide SeenAfter, Pruned;
    var n := |run| - 1;
    var init := run[..n];
    AcceptedPrefix(w, run, n, i);
    assert forall j :: 0 <= j < n ==> init[j] == run[j];
    if Live(w, run, i) {
      assert forall j :: i < j < n && init[j].claims ==> init[j].now < init[i].now + w;
    }
  }

  lemma LiveLast(w: Time, run: seq<Attempt>)
    requires run != []
    ensures Live(w, run, |run| - 1) <==> Accepted(w, run, |run| - 1)
  {
  }

  /** For any clock, the cache holds exactly the live claims, each until its window has passed. */
  lemma {:induction false} CacheHoldsLive(w: Time, run: seq<Attempt>)
    ensures forall i: nat :: i < |run| && Live(w, run, i) ==>
              run[i].key in SeenAfter(w, run) && SeenAfter(w, run)[run[i].key] == run[i].now + w
    ensures forall k :: k in SeenAfter(w, run) ==>
              exists i: nat :: i < |run| && Live(w, run, i) && run[i].key == k
  {
    hide SeenAfter, Pruned, Claimed, Live, Accepted;
    if run == [] {
      EmptyCache(w);
    } else {
      var n := |run| - 1;
      var init := run[..n];
      CacheHoldsLive(w, init);
      LastAttempt(w, run);
      LiveLast(w, run);
      forall i: nat | i < |run| && Live(w, run, i)
        ensures run[i].key in SeenAfter(w, run) && SeenAfter(w, run)[run[i].key] == run[i].now + w
      {
        if i < n {
          LiveNext(w, run, i);
          assert init[i] == run[i];
        }
      }
      forall k | k in SeenAfter(w, run)
        ensures exists i: nat :: i < |run| && Live(w, run, i) && run[i].key == k
      {
        if !Accepted(w, run, n) || k != run[n].key {
          var i: nat :| i < n && Live(w, init, i) && init[i].key == k;
          assert init[i] == run[i];
          LiveNext(w, run, i);
        }
      }
    }
  }

  lemma EmptyCache(w: Time)
    ensures SeenAfter(w, []) == map[]
  {
  }

  /** What the last attempt does to the cache. */
  lemma LastAttempt(w: Time, run: seq<Attempt>)
    requires run != []
    ensures var n := |run| - 1;
            var before, after, a := SeenAfter(w, run[..n]), SeenAfter(w, run), run[n];
            if !a.claims then after == before && !Accepted(w, run, n)
            else (forall k :: k in after <==> (k in before && before[k] > a.now) || k == a.key)
                 && (forall k :: k in after && k in before && before[k] > a.now ==> after[k] == before[k])
                 && (Accepted(w, run, n) <==> !(a.key in before && before[a.key] > a.now))
                 && (Accepted(w, run, n) ==> after[a.key] == a.now + w)
  {
  }

  /** Exactly when a claim succeeds, whatever the clock does: every earlier successful claim of
      the key has run out at some claim made since, this one included. */
  lemma ClaimExact(w: Time, run: seq<Attempt>, n: nat)
    requires n < |run| && run[n].claims
    ensures Accepted(w, run, n) <==>
              forall i: nat :: i < n && Accepted(w, run, i) && run[i].key == run[n].key ==>
                exists j :: i < j <= n && run[j].claims && run[j].now >= run[i].now + w
  {
    hide SeenAfter, Claimed, Live;
    var init, a := run[..n], run[n];
    CacheHoldsLive(w, init);
    if Accepted(w, run, n) {
      forall i: nat | i < n && Accepted(w, run, i) && run[i].key == a.key
        ensures exists j :: i < j <= n && run[j].claims && run[j].now >= run[i].now + w
      {
        AcceptedPrefix(w, run, n, i);
        assert init[i] == run[i];
        if Live(w, init, i) {
          assert run[n].now >= run[i].now + w;
        } else {
          LiveEnds(w, run, n, i);
        }
      }
    } else {
      var i: nat :| i < n && Live(w, init, i) && init[i].key == a.key;
      assert init[i] == run[i] && SeenAfter(w, init)[a.key] == run[i].now + w;
      LiveGoesOn(w, run, n, i);
    }
  }

  lemma LiveEnds(w: Time, run: seq<Attempt>, n: nat, i: nat)
    requires i < n < |run| && Accepted(w, run, i) && !Live(w, run[..n], i)
    ensures exists j :: i < j < n && run[j].claims && run[j].now >= run[i].now + w
  {
    hide SeenAfter, Pruned;
    AcceptedPrefix(w, run, n, i);
    var init := run[..n];
    var j :| i < j < n && init[j].claims && !(init[j].now < init[i].now + w);
    assert run[j] == init[j] && run[i] == init[i];
  }

  lemma LiveGoesOn(w: Time, run: seq<Attempt>, n: nat, i: nat)
    requires i < n < |run| && Live(w, run[..n], i)
    ensures Accepted(w, run, i)
    ensures forall j :: i < j < n && run[j].claims ==> run[j].now < run[i].now + w
  {
    hide SeenAfter, Pruned;
    AcceptedPrefix(w, run, n, i);
    var init := run[..n];
    assert forall j :: 0 <= j < n ==> run[j] == init[j];
  }

  /** The clock does not go back. */
  ghost predicate Monotone(run: seq<Attempt>) {
    forall i, j :: 0 <= i < j < |run| ==> run[i].now <= run[j].now
  }

  /** Under a monotone clock the pruned cache answers like the full history: a claim succeeds
      exactly when no successful claim of its key is less than a window old. */
  lemma RefinesFullHistory(w: Time, run: seq<Attempt>, n: nat)
    requires n < |run| && run[n].claims && Monotone(run)
    ensures Accepted(w, run, n) <==>
              !exists i: nat :: i < n && Accepted(w, run, i) && run[i].key == run[n].key && run[i].now + w > run[n].now
  {
    hide Accepted;
    ClaimExact(w, run, n);
    if forall i: nat :: i < n && Accepted(w, run, i) && run[i].key == run[n].key ==> run[i].now + w <= run[n].now {
      forall i: nat | i < n && Accepted(w, run, i) && run[i].key == run[n].key
        ensures exists j :: i < j <= n && run[j].claims && run[j].now >= run[i].now + w
      {
        assert run[n].now >= run[i].now + w;
      }
    }
  }

  /** ... and after a claim it holds exactly the successful claims of the last window. */
  lemma HoldsLastWindow(w: Time, run: seq<Attempt>, k: string)
    requires run != [] && run[|run| - 1].claims && Monotone(run)
    ensures k in SeenAfter(w, run) <==>
              exists i: nat :: i < |run| && Accepted(w, run, i) && run[i].key == k
                               && (run[i].now + w > run[|run| - 1].now || i == |run| - 1)
  {
    hide Accepted, SeenAfter;
    CacheHoldsLive(w, run);
    var n := |run| - 1;
    if k in SeenAfter(w, run) {
      var i: nat :| i < |run| && Live(w, run, i) && run[i].key == k;
      assert Accepted(w, run, i) && (i == n || run[n].now < run[i].now + w);
    }
    forall i: nat | i < |run| && Accepted(w, run, i) && run[i].key == k && (run[i].now + w > run[n].now || i == n)
      ensures k in SeenAfter(w, run)
    {
      assert forall j :: i < j < |run| ==> run[j].now <= run[n].now;
      assert Live(w, run, i);
    }
  }

  /** Two acceptances of one key are at least a window apart. */
  lemma Spacing(w: Time, run: seq<Attempt>, i: nat, j: nat)
    requires Monotone(run) && i < j < |run|
    requires Accepted(w, run, i) && Accepted(w, run, j) && run[i].key == run[j].key
    ensures run[j].now >= run[i].now + w
  {
    hide SeenAfter, Pruned;
    RefinesFullHistory(w, run, j);
  }

  // ---- verify --------------------------------------------------------------------------------

  /** The cryptography, and how a timestamp header is read as a number. */
  datatype Crypto = Crypto(
    hmac: (string, string) -> string,
    hash: string -> string,
    unhex: string -> seq<int>,
    number: string -> Option<real>,
    upper: string -> string)

  datatype Request = Request(
    httpMethod: string, path: string, nodeId: string, body: string,
    timestamp: string, nonce: string, signature: string)

  datatype Verdict = Ok | MissingFields | OutOfWindow | InvalidSignature | ReplayedNonce

  function SignedFields(c: Crypto, r: Request): seq<string> {
    [c.upper(r.httpMethod), r.path, r.nodeId, r.timestamp, r.nonce, c.hash(r.body)]
  }

  function SigningString(c: Crypto, r: Request): string {
    JoinWith(SignedFields(c, r), '\n')
  }

  function Sign(c: Crypto, secret: string, r: Request): Request {
    r.(signature := c.hmac(secret, SigningString(c, r)))
  }

  function CacheKey(r: Request): string {
    r.nodeId + ":" + r.nonce
  }

  /** The checks made before the nonce is claimed. */
  function Check(c: Crypto, secret: string, window: Time, r: Request, now: Time): Verdict {
    if secret == "" || r.timestamp == "" || r.nonce == "" || r.signature == "" then MissingFields
    else
      match c.number(r.timestamp)
      case None => OutOfWindow
      case Some(ts) =>
        if now - ts > window || ts - now > window then OutOfWindow
        else if c.unhex(c.hmac(secret, SigningString(c, r))) != c.unhex(r.signature) then InvalidSignature
        else Ok
  }

  method Verify(c: Crypto, secret: string, window: Time, r: Request, cache: NonceCache, now: Time)
      returns (verdict: Verdict)
    modifies cache
    ensures verdict ==
              if Check(c, secret, window, r, now) != Ok then Check(c, secret, window, r, now)
              else if CacheKey(r) in Pruned(old(cache.seen), now) then ReplayedNonce else Ok
    ensures verdict == ReplayedNonce <==>
              var key := r.nodeId + ":" + r.nonce;
              Check(c, secret, window, r, now) == Ok && key in old(cache.seen) && old(cache.seen)[key] > now
    ensures verdict == MissingFields <==> secret == "" || r.timestamp == "" || r.nonce == "" || r.signature == ""
    ensures verdict == OutOfWindow ==> c.number(r.timestamp).None? || now - c.number(r.timestamp).value > window
                                       || c.number(r.timestamp).value - now > window
    ensures verdict == InvalidSignature ==> c.unhex(c.hmac(secret, SigningString(c, r))) != c.unhex(r.signature)
    ensures cache.seen ==
              if Check(c, secret, window, r, now) == Ok then Claimed(old(cache.seen), cache.windowMs, CacheKey(r), now)
              else old(cache.seen)
  {
    if secret == "" || r.timestamp == "" || r.nonce == "" || r.signature == "" { return MissingFields; }
    var timestamp := c.number(r.timestamp);
    if timestamp.None? { return OutOfWindow; }
    var distance := if now >= timestamp.value then now - timestamp.value else timestamp.value - now;
    if distance > window { return OutOfWindow; }
    var expected := c.hmac(secret, SigningString(c, r));
    if c.unhex(expected) != c.unhex(r.signature) { return InvalidSignature; }
    var first := cache.Claim(CacheKey(r), now);
    if !first { return ReplayedNonce; }
    return Ok;
  }

  /** A call of `verify` with the secret of the node it names. */
  datatype Call = Call(secret: string, request: Request, now: Time)

  function AttemptOf(c: Crypto, window: Time, call: Call): Attempt {
    Attempt(Check(c, call.secret, window, call.request, call.now) == Ok, CacheKey(call.request), call.now)
  }

  function Attempts(c: Crypto, window: Time, calls: seq<Call>): (run: seq<Attempt>)
    ensures |run| == |calls| && forall i :: 0 <= i < |calls| ==> run[i] == AttemptOf(c, window, calls[i])
  {
    seq(|calls|, i requires 0 <= i < |calls| => AttemptOf(c, window, calls[i]))
  }

  /** Call `i` of a run on one cache is answered with `Ok`. */
  ghost predicate Succeeds(c: Crypto, window: Time, cacheWindow: Time, calls: seq<Call>, i: nat)
    requires i < |calls|
  {
    Accepted(cacheWindow, Attempts(c, window, calls), i)
  }

  /** `verify` on the cache a run has left: its verdict and the cache it leaves are those of the
      run with one call more. */
  lemma VerifyNext(c: Crypto, window: Time, cacheWindow: Time, calls: seq<Call>, call: Call)
    ensures var before, all := SeenAfter(cacheWindow, Attempts(c, window, calls)), calls + [call];
            var checked := Check(c, call.secret, window, call.request, call.now) == Ok;
            (Succeeds(c, window, cacheWindow, all, |calls|)
             <==> checked && CacheKey(call.request) !in Pruned(before, call.now))
            && SeenAfter(cacheWindow, Attempts(c, window, all))
               == if checked then Claimed(before, cacheWindow, CacheKey(call.request), call.now) else before
  {
    hide Check, Pruned, Claimed, CacheKey;
    var run := Attempts(c, window, calls + [call]);
    assert run[..|calls|] == Attempts(c, window, calls);
    assert run[|calls|] == AttemptOf(c, window, call);
  }

  /** The key tells node and nonce apart, for node ids without a colon, as the dashboard's are. */
  lemma KeyTellsFields(r: Request, q: Request)
    requires ':' !in r.nodeId && ':' !in q.nodeId
    ensures CacheKey(r) == CacheKey(q) <==> r.nodeId == q.nodeId && r.nonce == q.nonce
  {
    hide SplitOn;
    SplitFirst(r.nodeId, r.nonce, ':');
    SplitFirst(q.nodeId, q.nonce, ':');
    if CacheKey(r) == CacheKey(q) {
      assert SplitOn(CacheKey(r), ':')[0] == r.nodeId && SplitOn(CacheKey(q), ':')[0] == q.nodeId;
      assert r.nonce == CacheKey(r)[|r.nodeId| + 1..] && q.nonce == CacheKey(q)[|q.nodeId| + 1..];
    }
  }

  /** Without that premise two requests of different nodes share a key. */
  lemma ColonsCollide(r: Request, a: string, b: string, d: string)
    ensures CacheKey(r.(nodeId := a, nonce := b + ":" + d)) == CacheKey(r.(nodeId := a + ":" + b, nonce := d))
  {
  }

  ghost predicate NoColons(calls: seq<Call>) {
    forall i :: 0 <= i < |calls| ==> ':' !in calls[i].request.nodeId
  }

  /** What `verify` answers over a run, in terms of the requests' own fields: a call is accepted
      exactly when it passes the checks and no call accepted less than a cache window ago came from
      the same node with the same nonce. */
  lemma VerifyExact(c: Crypto, v: Time, w: Time, calls: seq<Call>, n: nat)
    requires n < |calls| && SteadyCalls(calls) && NoColons(calls)
    ensures Succeeds(c, v, w, calls, n) <==>
              Check(c, calls[n].secret, v, calls[n].request, calls[n].now) == Ok
              && !exists i: nat :: i < n && Succeeds(c, v, w, calls, i) && calls[i].now + w > calls[n].now
                                   && calls[i].request.nodeId == calls[n].request.nodeId
                                   && calls[i].request.nonce == calls[n].request.nonce
  {
    hide Accepted, Check, CacheKey;
    var run := Attempts(c, v, calls);
    if run[n].claims {
      RefinesFullHistory(w, run, n);
      forall i: nat | i < n
        ensures run[i].key == run[n].key <==> calls[i].request.nodeId == calls[n].request.nodeId
                                              && calls[i].request.nonce == calls[n].request.nonce {
        KeyTellsFields(calls[i].request, calls[n].request);
      }
    } else {
      RejectedCall(w, run, n);
    }
  }

  lemma RejectedCall(w: Time, run: seq<Attempt>, n: nat)
    requires n < |run| && !run[n].claims
    ensures !Accepted(w, run, n)
  {
  }

  /** A correctly signed request with a nonce its node has not used before is never refused as a
      replay, whatever nonces other nodes have used. */
  lemma FreshNonceAccepted(c: Crypto, v: Time, w: Time, calls: seq<Call>, n: nat)
    requires n < |calls| && SteadyCalls(calls) && NoColons(calls)
    requires Check(c, calls[n].secret, v, calls[n].request, calls[n].now) == Ok
    requires forall i :: 0 <= i < n && calls[i].request.nodeId == calls[n].request.nodeId ==>
               calls[i].request.nonce != calls[n].request.nonce
    ensures Succeeds(c, v, w, calls, n)
  {
    hide Check, Succeeds;
    VerifyExact(c, v, w, calls, n);
  }

  /** The acceptances of one signed request: positions in a run, in order, of successful calls
      with its node, its nonce and its timestamp. */
  ghost predicate Acceptances(c: Crypto, v: Time, w: Time, calls: seq<Call>, r: Request, ts: real, at: seq<nat>) {
    (forall m :: 0 <= m < |at| ==> at[m] < |calls| && Succeeds(c, v, w, calls, at[m])
                                   && calls[at[m]].request.nodeId == r.nodeId && calls[at[m]].request.nonce == r.nonce
                                   && c.number(calls[at[m]].request.timestamp) == Some(ts))
    && (forall m, n :: 0 <= m < n < |at| ==> at[m] < at[n])
  }

  ghost predicate SteadyCalls(calls: seq<Call>) {
    forall i, j :: 0 <= i < j < |calls| ==> calls[i].now <= calls[j].now
  }

  /** The last of n acceptances comes at least n - 1 windows after the first. */
  lemma {:induction false} SpreadOut(c: Crypto, v: Time, w: Time, calls: seq<Call>, r: Request, ts: real, at: seq<nat>)
    requires SteadyCalls(calls) && at != [] && Acceptances(c, v, w, calls, r, ts, at)
    ensures calls[at[|at| - 1]].now >= calls[at[0]].now + (|at| - 1) as real * w
    decreases |at|
  {
    hide Succeeds;
    if |at| > 1 {
      var n := |at| - 1;
      SpreadOut(c, v, w, calls, r, ts, at[..n]);
      SameRequestSpacing(c, v, w, calls, at[n - 1], at[n]);
      OneMore(n, w);
    }
  }

  lemma SameRequestSpacing(c: Crypto, v: Time, w: Time, calls: seq<Call>, i: nat, j: nat)
    requires SteadyCalls(calls) && i < j < |calls| && Succeeds(c, v, w, calls, i) && Succeeds(c, v, w, calls, j)
    requires calls[i].request.nodeId == calls[j].request.nodeId && calls[i].request.nonce == calls[j].request.nonce
    ensures calls[j].now >= calls[i].now + w
  {
    hide Accepted, Check;
    Spacing(w, Attempts(c, v, calls), i, j);
  }

  lemma OneMore(n: nat, w: real)
    requires n >= 1
    ensures n as real * w == (n - 1) as real * w + w
  {
  }

  /** A timestamp window of v and a cache window of w leave room for 2v/w + 1 acceptances of one
      signed request in any run, and no more. */
  lemma ReplayBound(c: Crypto, v: Time, w: Time, calls: seq<Call>, r: Request, ts: real, at: seq<nat>)
    requires SteadyCalls(calls) && at != [] && Acceptances(c, v, w, calls, r, ts, at)
    ensures (|at| - 1) as real * w <= v + ts - calls[at[0]].now <= 2.0 * v
  {
    hide Accepted;
    SpreadOut(c, v, w, calls, r, ts, at);
    InWindow(c, v, w, calls, at[0], ts);
    InWindow(c, v, w, calls, at[|at| - 1], ts);
  }

  lemma InWindow(c: Crypto, v: Time, w: Time, calls: seq<Call>, i: nat, ts: real)
    requires i < |calls| && Succeeds(c, v, w, calls, i) && c.number(calls[i].request.timestamp) == Some(ts)
    ensures ts - v <= calls[i].now <= ts + v
  {
  }

  /** With both windows equal, as they are in the code: at most three times; at most twice when
      first accepted later than a window before its timestamp; once when first accepted after it. */
  lemma ReplayAtMostThrice(c: Crypto, w: Time, calls: seq<Call>, r: Request, ts: real, at: seq<nat>)
    requires w > 0.0 && SteadyCalls(calls) && at != [] && Acceptances(c, w, w, calls, r, ts, at)
    ensures |at| <= 3
    ensures calls[at[0]].now > ts - w ==> |at| <= 2
    ensures calls[at[0]].now > ts ==> |at| == 1
  {
    hide Acceptances;
    ReplayBound(c, w, w, calls, r, ts, at);
    var n := |at| - 1;
    if n >= 3 { Scale(n, 3, w); }
    if n >= 2 { Scale(n, 2, w); }
    if n >= 1 { Scale(n, 1, w); }
  }

  lemma Scale(n: nat, m: nat, w: real)
    requires n >= m && w > 0.0
    ensures n as real * w >= m as real * w
  {
  }

  /** The bound is met: any signed request that reaches a node a window before its timestamp is
      accepted then, again at its timestamp, and again a window after it. */
  lemma ThriceHappens(c: Crypto, secret: string, w: Time, r: Request, ts: real)
    requires w > 0.0 && secret != "" && r.timestamp != "" && r.nonce != "" && Sign(c, secret, r).signature != ""
    requires c.number(r.timestamp) == Some(ts)
    ensures var q := Sign(c, secret, r);
            var calls := [Call(secret, q, ts - w), Call(secret, q, ts), Call(secret, q, ts + w)];
            forall i: nat :: i < 3 ==> Succeeds(c, w, w, calls, i)
  {
    hide Accepted, Check;
    var q := Sign(c, secret, r);
    var calls := [Call(secret, q, ts - w), Call(secret, q, ts), Call(secret, q, ts + w)];
    var run := Attempts(c, w, calls);
    SignThenCheck(c, secret, w, r, ts, ts - w);
    SignThenCheck(c, secret, w, r, ts, ts);
    SignThenCheck(c, secret, w, r, ts, ts + w);
    assert run[0].now == ts - w && run[1].now == ts && run[2].now == ts + w;
    assert run[0].claims && run[1].claims && run[2].claims;
    RefinesFullHistory(w, run, 0);
    RefinesFullHistory(w, run, 1);
    RefinesFullHistory(w, run, 2);
  }

  // ---- what a signature covers ------------------------------------------------------------------

  /** HMAC and SHA-256 as injective functions, with digests that hold no newline. */
  ghost predicate Ideal(c: Crypto) {
    (forall s: string, m: string, n: string {:trigger c.hmac(s, m), c.hmac(s, n)} ::
       c.unhex(c.hmac(s, m)) == c.unhex(c.hmac(s, n)) ==> m == n)
    && (forall a: string, b: string {:trigger c.hash(a), c.hash(b)} :: c.hash(a) == c.hash(b) ==> a == b)
    && (forall a: string {:trigger c.hash(a)} :: '\n' !in c.hash(a))
  }

  /** No signed field holds the separator. */
  ghost predicate SingleLines(c: Crypto, r: Request) {
    Free([c.upper(r.httpMethod), r.path, r.nodeId, r.timestamp, r.nonce], '\n')
  }

  /** The signing string determines its fields, exactly because none holds a newline. */
  lemma SigningInjective(c: Crypto, r: Request, q: Request)
    requires Ideal(c) && SingleLines(c, r) && SingleLines(c, q)
    ensures SigningString(c, r) == SigningString(c, q) <==> SignedFields(c, r) == SignedFields(c, q)
  {
    FieldsFree(c, r);
    FieldsFree(c, q);
    JoinThenSplit(SignedFields(c, r), '\n');
    JoinThenSplit(SignedFields(c, q), '\n');
  }

  lemma FieldsFree(c: Crypto, r: Request)
    requires Ideal(c) && SingleLines(c, r)
    ensures Free(SignedFields(c, r), '\n')
  {
    var f, g := SignedFields(c, r), [c.upper(r.httpMethod), r.path, r.nodeId, r.timestamp, r.nonce];
    forall i | 0 <= i < |f| ensures '\n' !in f[i] {
      if i < 5 { assert f[i] == g[i]; }
    }
  }

  /** A captured signature is good for the request it was made for and no other: same method,
      route, node, timestamp, nonce and body. */
  lemma CapturedSignature(c: Crypto, secret: string, window: Time, signed: Request, r: Request, now: Time)
    requires Ideal(c) && SingleLines(c, signed) && SingleLines(c, r)
    requires r.signature == Sign(c, secret, signed).signature
    requires Check(c, secret, window, r, now) == Ok
    ensures c.upper(r.httpMethod) == c.upper(signed.httpMethod) && r.path == signed.path && r.nodeId == signed.nodeId
    ensures r.timestamp == signed.timestamp && r.nonce == signed.nonce && r.body == signed.body
  {
    SigningInjective(c, r, signed);
    var f, g := SignedFields(c, r), SignedFields(c, signed);
    assert c.hmac(secret, SigningString(c, r)) == c.hmac(secret, SigningString(c, r));
    assert f == g;
    assert f[0] == g[0] && f[1] == g[1] && f[2] == g[2] && f[3] == g[3] && f[4] == g[4] && f[5] == g[5];
  }

  /** Signing is undone by checking: a request signed with the node's secret passes within its
      window, and only within it. */
  lemma SignThenCheck(c: Crypto, secret: string, window: Time, r: Request, ts: real, now: Time)
    requires secret != "" && r.timestamp != "" && r.nonce != "" && Sign(c, secret, r).signature != ""
    requires c.number(r.timestamp) == Some(ts)
    ensures Check(c, secret, window, Sign(c, secret, r), now) == Ok <==> ts - window <= now <= ts + window
  {
  }

  /** Without that premise fields can trade places: a path and a node id that hold newlines. */
  lemma NewlinesCollide(c: Crypto, r: Request, a: string, b: string, d: string)
    ensures SigningString(c, r.(path := a + "\n" + b, nodeId := d)) == SigningString(c, r.(path := a, nodeId := b + "\n" + d))
  {
    var x := SignedFields(c, r.(path := a + "\n" + b, nodeId := d));
    var y := SignedFields(c, r.(path := a, nodeId := b + "\n" + d));
    var tail := JoinWith(x[3..], '\n');
    assert x[1..][1..] == x[2..] && x[2..][1..] == x[3..] && y[1..][1..] == y[2..] && y[2..][1..] == y[3..];
    assert x[3..] == y[3..];
    assert JoinWith(x[2..], '\n') == d + ['\n'] + tail;
    assert JoinWith(y[2..], '\n') == b + "\n" + d + ['\n'] + tail;
    assert JoinWith(x[1..], '\n') == a + "\n" + b + ['\n'] + JoinWith(x[2..], '\n');
    assert JoinWith(y[1..], '\n') == a + ['\n'] + JoinWith(y[2..], '\n');
    assert JoinWith(x[1..], '\n') == JoinWith(y[1..], '\n');
  }
}
