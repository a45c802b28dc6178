/** The gateway's scheduler: a first-in first-out queue in front of a bounded set of running
    jobs, with handlers that race for the end of each job. */
module Scheduler {
  import opened Text

  type Id = nat

  datatype Job = Job(
    receivedAt: int,
    startedAt: Option<int>,
    firstTokenAt: Option<int>,
    outputChunks: nat,
    finished: bool,
    cancelled: bool,
    ended: bool,
    closed: bool)

  datatype Outcome = Completed | Failed | Cancelled

  datatype Record = Record(id: Id, outcome: Outcome, queueMs: Option<int>, ttftMs: Option<int>, latencyMs: int)

  /** The module-level variables of the gateway, with the history of arrivals, of starts and of
      jobs that left the queue without being started. */
  datatype State = State(
    limit: nat,
    queue: seq<Id>,
    running: set<Id>,
    jobs: map<Id, Job>,
    records: seq<Record>,
    arrivals: seq<Id>,
    starts: seq<Id>,
    dropped: set<Id>)

  /** One handler call. `now` and `later` are its two readings of the clock: `later` is the one
      taken when it starts waiting jobs. */
  datatype Event =
    | Arrive(id: Id, now: int, later: int)
    | Content(id: Id, now: int, later: int)
    | End(id: Id, ok: bool, now: int, later: int)
    | ResponseError(id: Id, now: int, later: int)
    | UpstreamError(id: Id, now: int, later: int)
    | Close(id: Id, now: int, later: int)

  function Init(limit: nat): State {
    State(limit, [], {}, map[], [], [], [], {})
  }

  // ---- the functions of the source ------------------------------------------------------

  /** `startUpstream` of a job already taken off the queue. */
  function Start(s: State, id: Id, now: int): State
    requires id in s.jobs
  {
    var job := s.jobs[id];
    if job.cancelled || job.finished then s
    else s.(jobs := s.jobs[id := job.(startedAt := Some(now))], running := s.running + {id}, starts := s.starts + [id])
  }

  /** Every waiting job is known. */
  predicate Known(s: State) {
    forall id :: id in s.queue ==> id in s.jobs
  }

  function Drain(s: State, now: int): (r: State)
    requires Known(s)
    ensures Known(r)
    decreases |s.queue|
  {
    if |s.running| < s.limit && s.queue != [] then
      Drain(Start(s.(queue := s.queue[1..]), s.queue[0], now), now)
    else s
  }

  function RecordOf(job: Job, id: Id, outcome: Outcome, now: int): Record {
    Record(id, outcome,
      if job.startedAt.Some? then Some(job.startedAt.value - job.receivedAt) else None,
      if job.firstTokenAt.Some? then Some(job.firstTokenAt.value - job.receivedAt) else None,
      now - job.receivedAt)
  }

  /** `finishJob` up to its call of `drainQueue`. */
  function Retire(s: State, id: Id, outcome: Outcome, now: int): State
    requires id in s.jobs
  {
    s.(jobs := s.jobs[id := s.jobs[id].(finished := true)],
       running := s.running - {id},
       records := s.records + [RecordOf(s.jobs[id], id, outcome, now)])
  }

  function Finish(s: State, id: Id, outcome: Outcome, now: int, later: int): (r: State)
    requires Known(s) && id in s.jobs
    ensures Known(r)
  {
    if s.jobs[id].finished then s else Drain(Retire(s, id, outcome, now), later)
  }

  function Push(s: State, id: Id, now: int): State {
    s.(jobs := s.jobs[id := Job(now, None, None, 0, false, false, false, false)],
       queue := s.queue + [id], arrivals := s.arrivals + [id])
  }

  function RemoveFirst(q: seq<Id>, id: Id): (r: seq<Id>)
    ensures forall x :: x in r ==> x in q
  {
    if q == [] then [] else if q[0] == id then q[1..] else [q[0]] + RemoveFirst(q[1..], id)
  }

  /** The close handler up to its call of `finishJob`. */
  function Cancel(s: State, id: Id): State
    requires id in s.jobs
  {
    s.(jobs := s.jobs[id := s.jobs[id].(closed := true, cancelled := true)],
       queue := RemoveFirst(s.queue, id),
       dropped := if id in s.queue then s.dropped + {id} else s.dropped)
  }

  function SetJob(s: State, id: Id, job: Job): State {
    s.(jobs := s.jobs[id := job])
  }

  /** Ends the response unless it is gone already. */
  function EndResponse(s: State, id: Id): State
    requires id in s.jobs
  {
    SetJob(s, id, s.jobs[id].(ended := s.jobs[id].ended || !s.jobs[id].closed))
  }

  /** Which handlers can run: ids are fresh on arrival, upstream handlers exist once the job has
      been started. */
  predicate Enabled(s: State, e: Event) {
    match e
    case Arrive(id, _, _) => id !in s.jobs
    case Close(id, _, _) => id in s.jobs
    case _ => e.id in s.jobs && s.jobs[e.id].startedAt.Some?
  }

  function Step(s: State, e: Event): (r: State)
    requires Known(s) && Enabled(s, e)
    ensures Known(r)
  {
    match e
    case Arrive(id, now, later) => Drain(Push(s, id, now), later)
    case Content(id, now, _) =>
      var job := s.jobs[id];
      SetJob(s, id, job.(outputChunks := job.outputChunks + 1,
                         firstTokenAt := if job.firstTokenAt.None? then Some(now) else job.firstTokenAt))
    case End(id, ok, now, later) =>
      var t := Finish(s, id, if ok then Completed else Failed, now, later);
      if id in t.jobs then EndResponse(t, id) else t
    case ResponseError(id, now, later) => Finish(s, id, Failed, now, later)
    case UpstreamError(id, now, later) => Finish(EndResponse(s, id), id, Failed, now, later)
    case Close(id, now, later) =>
      var job := s.jobs[id];
      if job.ended || job.finished then SetJob(s, id, job.(closed := true))
      else Finish(Cancel(s, id), id, Cancelled, now, later)
  }

  // ---- runs -------------------------------------------------------------------------------

  /** A run of handlers from the start of the gateway. */
  ghost predicate Reaches(limit: nat, events: seq<Event>, s: State)
    decreases |events|
  {
    if events == [] then s == Init(limit)
    else
      var n := |events| - 1;
      exists r: State :: Reaches(limit, events[..n], r) && Known(r) && Enabled(r, events[n]) && s == Step(r, events[n])
  }

  // ---- what every handler keeps --------------------------------------------------------------

  predicate Distinct(xs: seq<Id>) {
    forall i, j :: 0 <= i < j < |xs| ==> xs[i] != xs[j]
  }

  function Without(xs: seq<Id>, gone: set<Id>): seq<Id> {
    if xs == [] then []
    else if xs[|xs| - 1] in gone then Without(xs[..|xs| - 1], gone)
    else Without(xs[..|xs| - 1], gone) + [xs[|xs| - 1]]
  }

  /** Where each job is: waiting, running or finished, and only one of these. */
  ghost predicate Placed(s: State) {
    Distinct(s.queue) && |s.running| <= s.limit
    && (forall id :: id in s.queue ==> id in s.jobs && id !in s.running && s.jobs[id].startedAt.None?)
    && (forall id :: id in s.running ==> id in s.jobs && s.jobs[id].startedAt.Some?)
    && (forall id :: id in s.jobs ==> (!s.jobs[id].finished <==> id in s.queue || id in s.running))
    && (forall id :: id in s.jobs && (s.jobs[id].cancelled || s.jobs[id].ended) ==> s.jobs[id].finished)
  }

  /** First in, first out: the arrivals that were not dropped are the starts and then the queue. */
  ghost predicate Ordered(s: State) {
    Distinct(s.arrivals) && (forall id :: id in s.arrivals <==> id in s.jobs)
    && Without(s.arrivals, s.dropped) == s.starts + s.queue
    && (forall id :: id in s.dropped ==> id in s.jobs && s.jobs[id].finished && s.jobs[id].cancelled)
    && (forall id :: id in s.starts <==> id in s.jobs && s.jobs[id].startedAt.Some?)
  }

  /** Each finished job has one record, and no other job has any. */
  ghost predicate Recorded(s: State) {
    (forall i, j :: 0 <= i < j < |s.records| ==> s.records[i].id != s.records[j].id)
    && (forall i :: 0 <= i < |s.records| ==> s.records[i].id in s.jobs && s.jobs[s.records[i].id].finished)
    && (forall id :: id in s.jobs && s.jobs[id].finished ==> exists i :: 0 <= i < |s.records| && s.records[i].id == id)
  }

  /** No job waits while a slot is free. */
  predicate Busy(s: State) {
    s.queue != [] ==> |s.running| == s.limit
  }

  ghost predicate Sound(s: State) {
    s.limit >= 1 && Known(s) && Placed(s) && Ordered(s) && Recorded(s)
  }

  lemma {:induction false} WithoutIn(xs: seq<Id>, gone: set<Id>)
    ensures forall id :: id in Without(xs, gone) <==> id in xs && id !in gone
  {
    if xs != [] { WithoutIn(xs[..|xs| - 1], gone); }
  }

  lemma {:induction false} WithoutMore(xs: seq<Id>, gone: set<Id>, id: Id)
    requires id !in xs
    ensures Without(xs, gone + {id}) == Without(xs, gone)
  {
    if xs != [] { WithoutMore(xs[..|xs| - 1], gone, id); }
  }

  lemma {:induction false} RemoveAppend(a: seq<Id>, b: seq<Id>, id: Id)
    ensures RemoveFirst(a + b, id) == if id in a then RemoveFirst(a, id) + b else a + RemoveFirst(b, id)
  {
    if a == [] {
      assert a + b == b;
    } else {
      assert (a + b)[1..] == a[1..] + b;
      if a[0] != id {
        RemoveAppend(a[1..], b, id);
        if id in a[1..] {
          assert [a[0]] + (RemoveFirst(a[1..], id) + b) == ([a[0]] + RemoveFirst(a[1..], id)) + b;
        } else {
          assert [a[0]] + (a[1..] + RemoveFirst(b, id)) == a + RemoveFirst(b, id);
        }
      }
    }
  }

  lemma {:induction false} RemoveAbsent(q: seq<Id>, id: Id)
    requires id !in q
    ensures RemoveFirst(q, id) == q
  {
    if q != [] { RemoveAbsent(q[1..], id); }
  }

  lemma {:induction false} RemoveKeeps(q: seq<Id>, id: Id)
    requires Distinct(q)
    ensures Distinct(RemoveFirst(q, id))
    ensures forall x :: x in RemoveFirst(q, id) <==> x in q && x != id
  {
    if q != [] {
      HeadFacts(q);
      RemoveKeeps(q[1..], id);
      if q[0] != id { ConsDistinct(q[0], RemoveFirst(q[1..], id)); }
    }
  }

  lemma HeadFacts(q: seq<Id>)
    requires q != [] && Distinct(q)
    ensures Distinct(q[1..]) && q[0] !in q[1..]
    ensures forall x :: x in q <==> x == q[0] || x in q[1..]
  {
    assert forall i :: 0 <= i < |q[1..]| ==> q[1..][i] == q[i + 1];
    assert q == [q[0]] + q[1..];
  }

  lemma ConsDistinct(x: Id, q: seq<Id>)
    requires Distinct(q) && x !in q
    ensures Distinct([x] + q)
  {
  }

  lemma SnocDistinct(q: seq<Id>, x: Id)
    requires Distinct(q) && x !in q
    ensures Distinct(q + [x])
  {
  }

  /** Dropping a job that has arrived removes it from the jobs to be started. */
  lemma {:induction false} WithoutDropped(xs: seq<Id>, gone: set<Id>, id: Id)
    requires Distinct(xs) && id !in gone
    ensures Without(xs, gone + {id}) == RemoveFirst(Without(xs, gone), id)
  {
    if xs != [] {
      var n := |xs| - 1;
      var ys, x := xs[..n], xs[n];
      WithoutDropped(ys, gone, id);
      WithoutIn(ys, gone);
      if x == id {
        assert id !in ys;
        RemoveAppend(Without(ys, gone), [x], id);
        RemoveAbsent(Without(ys, gone), id);
        assert RemoveFirst([x], id) == [];
      } else if x !in gone {
        RemoveAppend(Without(ys, gone), [x], id);
        RemoveAbsent([x], id);
        if id !in Without(ys, gone) { RemoveAbsent(Without(ys, gone), id); }
      }
    }
  }

  /** Starting the oldest waiting job. */
  lemma StartKeeps(s: State, now: int)
    requires Sound(s) && |s.running| < s.limit && s.queue != []
    ensures Sound(Start(s.(queue := s.queue[1..]), s.queue[0], now))
    ensures Start(s.(queue := s.queue[1..]), s.queue[0], now).running == s.running + {s.queue[0]}
  {
    hide Ordered, Recorded, Distinct;
    var id := s.queue[0];
    var t := Start(s.(queue := s.queue[1..]), id, now);
    HeadFacts(s.queue);
    assert t.jobs == s.jobs[id := s.jobs[id].(startedAt := Some(now))];
    StartOrdered(s, t, now);
    RecordedGrows(s, t);
    assert |t.running| == |s.running| + 1;
    assert Placed(t);
  }

  lemma StartOrdered(s: State, t: State, now: int)
    requires Ordered(s) && s.queue != [] && s.queue[0] in s.jobs
    requires t == s.(queue := s.queue[1..], running := t.running, starts := s.starts + [s.queue[0]],
                     jobs := s.jobs[s.queue[0] := s.jobs[s.queue[0]].(startedAt := Some(now))])
    ensures Ordered(t)
  {
    hide Distinct, Without;
    assert s.queue == [s.queue[0]] + t.queue;
    assert t.starts + t.queue == s.starts + s.queue;
  }

  /** Draining keeps all of it, and leaves no slot free while a job waits. */
  lemma {:induction false} DrainKeeps(s: State, now: int)
    requires Sound(s)
    ensures Sound(Drain(s, now)) && Busy(Drain(s, now)) && Drain(s, now).limit == s.limit
    ensures Drain(s, now).records == s.records && Drain(s, now).jobs.Keys == s.jobs.Keys
    decreases |s.queue|
  {
    hide Placed, Ordered, Recorded;
    if |s.running| < s.limit && s.queue != [] {
      StartKeeps(s, now);
      DrainKeeps(Start(s.(queue := s.queue[1..]), s.queue[0], now), now);
    } else {
      RunningBound(s);
    }
  }

  lemma RunningBound(s: State)
    requires Placed(s)
    ensures |s.running| <= s.limit
  {
  }

  lemma PushKeeps(s: State, id: Id, now: int)
    requires Sound(s) && id !in s.jobs
    ensures Sound(Push(s, id, now))
  {
    hide Ordered, Recorded, Distinct;
    var t := Push(s, id, now);
    SnocDistinct(s.queue, id);
    assert forall x :: x in t.queue <==> x in s.queue || x == id;
    assert Placed(t);
    PushOrdered(s, id, now);
    RecordedGrows(s, t);
  }

  lemma PushOrdered(s: State, id: Id, now: int)
    requires Ordered(s) && id !in s.jobs
    ensures Ordered(Push(s, id, now))
  {
    hide Distinct, Without;
    var t := Push(s, id, now);
    SnocDistinct(s.arrivals, id);
    WithoutSnoc(s.arrivals, s.dropped, id);
    assert t.starts + t.queue == (s.starts + s.queue) + [id];
  }

  lemma WithoutSnoc(xs: seq<Id>, gone: set<Id>, id: Id)
    requires id !in gone
    ensures Without(xs + [id], gone) == Without(xs, gone) + [id]
  {
    assert (xs + [id])[..|xs|] == xs;
  }

  /** New or changed jobs do not matter to the records while `finished` stays. */
  lemma RecordedGrows(s: State, t: State)
    requires Recorded(s) && t.records == s.records
    requires forall id :: id in s.jobs ==> id in t.jobs && t.jobs[id].finished == s.jobs[id].finished
    requires forall id :: id in t.jobs && id !in s.jobs ==> !t.jobs[id].finished
    ensures Recorded(t)
  {
  }

  /** Finishing an unfinished job that has left the queue. */
  lemma RetireRecords(s: State, id: Id, outcome: Outcome, now: int)
    requires Recorded(s) && id in s.jobs && !s.jobs[id].finished
    ensures Recorded(Retire(s, id, outcome, now))
  {
    var t := Retire(s, id, outcome, now);
    assert t.records[|s.records|].id == id;
    forall x | x in t.jobs && t.jobs[x].finished ensures exists i :: 0 <= i < |t.records| && t.records[i].id == x {
      if x != id {
        var i :| 0 <= i < |s.records| && s.records[i].id == x;
        assert t.records[i].id == x;
      }
    }
  }

  lemma RetireKeeps(s: State, id: Id, outcome: Outcome, now: int)
    requires Sound(s) && id in s.running
    ensures Sound(Retire(s, id, outcome, now))
  {
    RetireRecords(s, id, outcome, now);
    var t := Retire(s, id, outcome, now);
    assert Placed(t);
    assert Ordered(t);
  }

  /** The close handler's part before draining, for a job that waits or runs. */
  lemma CancelKeeps(s: State, id: Id, now: int)
    requires Sound(s) && id in s.jobs && !s.jobs[id].finished
    ensures Sound(Retire(Cancel(s, id), id, Cancelled, now))
  {
    hide Ordered, Recorded, Distinct;
    var c := Cancel(s, id);
    var t := Retire(c, id, Cancelled, now);
    RemoveKeeps(s.queue, id);
    assert Placed(t);
    RecordedGrows(s, c);
    RetireRecords(c, id, Cancelled, now);
    CancelOrdered(s, id, now);
  }

  lemma CancelOrdered(s: State, id: Id, now: int)
    requires Placed(s) && Ordered(s) && id in s.jobs && !s.jobs[id].finished
    ensures Ordered(Retire(Cancel(s, id), id, Cancelled, now))
  {
    hide Distinct, Without, RemoveFirst;
    if id in s.queue {
      WithoutDropped(s.arrivals, s.dropped, id);
      assert id !in s.starts;
      RemoveAppend(s.starts, s.queue, id);
    } else {
      RemoveAbsent(s.queue, id);
    }
  }

  /** Changing fields of a job that the scheduler does not look at. */
  lemma SetJobKeeps(s: State, id: Id, job: Job)
    requires Sound(s) && id in s.jobs
    requires var was := s.jobs[id];
             job.startedAt == was.startedAt && job.finished == was.finished && job.cancelled == was.cancelled
             && (job.ended ==> job.finished)
    ensures Sound(SetJob(s, id, job))
  {
    var t := SetJob(s, id, job);
    assert Placed(t);
    assert Ordered(t);
    RecordedGrows(s, t);
  }

  lemma FinishKeeps(s: State, id: Id, outcome: Outcome, now: int, later: int)
    requires Sound(s) && Busy(s) && id in s.jobs && (s.jobs[id].finished || id in s.running)
    ensures var t := Finish(s, id, outcome, now, later);
            Sound(t) && Busy(t) && id in t.jobs && t.jobs[id].finished && t.limit == s.limit
  {
    hide Placed, Ordered, Recorded, Drain;
    if !s.jobs[id].finished {
      RetireKeeps(s, id, outcome, now);
      DrainKeeps(Retire(s, id, outcome, now), later);
      DrainFinished(Retire(s, id, outcome, now), later, id);
    }
  }

  lemma {:induction false} DrainFinished(s: State, now: int, id: Id)
    requires Known(s) && id in s.jobs
    ensures id in Drain(s, now).jobs && Drain(s, now).jobs[id].finished == s.jobs[id].finished
    ensures Drain(s, now).jobs[id].receivedAt == s.jobs[id].receivedAt
    decreases |s.queue|
  {
    if |s.running| < s.limit && s.queue != [] {
      DrainFinished(Start(s.(queue := s.queue[1..]), s.queue[0], now), now, id);
    }
  }

  lemma StartedRuns(s: State, id: Id)
    requires Placed(s) && id in s.jobs && s.jobs[id].startedAt.Some?
    ensures s.jobs[id].finished || id in s.running
  {
  }

  /** Every handler keeps the invariant. */
  lemma StepKeeps(s: State, e: Event)
    requires Sound(s) && Busy(s) && Enabled(s, e)
    ensures Sound(Step(s, e)) && Busy(Step(s, e)) && Step(s, e).limit == s.limit
  {
    hide Placed, Ordered, Recorded, Drain, Finish, Retire;
    match e {
      case Arrive(id, now, later) =>
        PushKeeps(s, id, now);
        DrainKeeps(Push(s, id, now), later);
      case Content(id, now, _) =>
        var job := s.jobs[id];
        SafeJob(s, id);
        SetJobKeeps(s, id, job.(outputChunks := job.outputChunks + 1,
                                firstTokenAt := if job.firstTokenAt.None? then Some(now) else job.firstTokenAt));
      case End(id, ok, now, later) =>
        StartedRuns(s, id);
        var outcome := if ok then Completed else Failed;
        FinishKeeps(s, id, outcome, now, later);
        var t := Finish(s, id, outcome, now, later);
        SafeJob(t, id);
        SetJobKeeps(t, id, t.jobs[id].(ended := t.jobs[id].ended || !t.jobs[id].closed));
      case ResponseError(id, now, later) =>
        StartedRuns(s, id);
        FinishKeeps(s, id, Failed, now, later);
      case UpstreamError(id, now, later) =>
        StartedRuns(s, id);
        UpstreamErrorKeeps(s, id, now, later);
      case Close(id, now, later) =>
        var job := s.jobs[id];
        SafeJob(s, id);
        if job.ended || job.finished {
          SetJobKeeps(s, id, job.(closed := true));
        } else {
          CloseKeeps(s, id, now, later);
        }
    }
  }

  lemma SafeJob(s: State, id: Id)
    requires Placed(s) && id in s.jobs
    ensures s.jobs[id].ended || s.jobs[id].cancelled ==> s.jobs[id].finished
  {
  }

  lemma CloseKeeps(s: State, id: Id, now: int, later: int)
    requires Sound(s) && id in s.jobs && !s.jobs[id].finished
    ensures Known(Cancel(s, id)) && id in Cancel(s, id).jobs
    ensures var t := Finish(Cancel(s, id), id, Cancelled, now, later); Sound(t) && Busy(t) && t.limit == s.limit
  {
    hide Placed, Ordered, Recorded, Drain;
    CancelKeeps(s, id, now);
    DrainKeeps(Retire(Cancel(s, id), id, Cancelled, now), later);
  }

  /** The error handler ends the response before it finishes the job. */
  lemma UpstreamErrorKeeps(s: State, id: Id, now: int, later: int)
    requires Sound(s) && Busy(s) && id in s.jobs && (s.jobs[id].finished || id in s.running)
    ensures var t := Finish(EndResponse(s, id), id, Failed, now, later); Sound(t) && Busy(t) && t.limit == s.limit
  {
    hide Ordered, Recorded, Drain;
    var job := s.jobs[id].(ended := s.jobs[id].ended || !s.jobs[id].closed);
    if s.jobs[id].finished {
      SetJobKeeps(s, id, job);
    } else {
      RetireKeeps(s, id, Failed, now);
      var r := Retire(s, id, Failed, now);
      SetJobKeeps(r, id, job.(finished := true));
      var t := Retire(EndResponse(s, id), id, Failed, now);
      assert t.jobs == SetJob(r, id, job.(finished := true)).jobs;
      assert t == SetJob(r, id, job.(finished := true));
      DrainKeeps(t, later);
    }
  }

  /** In every reachable state. */
  lemma {:induction false} ReachableSound(limit: nat, events: seq<Event>, s: State)
    requires limit >= 1 && Reaches(limit, events, s)
    ensures Sound(s) && Busy(s) && s.limit == limit
    decreases |events|
  {
    hide Step, Placed, Ordered, Recorded;
    if events == [] {
      InitSound(limit);
    } else {
      var n := |events| - 1;
      var r: State :| Reaches(limit, events[..n], r) && Known(r) && Enabled(r, events[n]) && s == Step(r, events[n]);
      ReachableSound(limit, events[..n], r);
      StepKeeps(r, events[n]);
    }
  }

  lemma InitSound(limit: nat)
    requires limit >= 1
    ensures Sound(Init(limit)) && Busy(Init(limit))
  {
  }

  // ---- what that means -------------------------------------------------------------------

  /** No job is lost, duplicated or overtaken: the jobs started, in the order they were started,
      are those that arrived, in the order they arrived, without the ones cancelled while waiting
      and without the ones still in the queue. */
  lemma FifoConservation(limit: nat, events: seq<Event>, s: State)
    requires limit >= 1 && Reaches(limit, events, s)
    ensures Without(s.arrivals, s.dropped) == s.starts + s.queue
    ensures Distinct(s.arrivals) && Distinct(s.starts + s.queue)
    ensures forall id :: id in s.arrivals <==> id in s.starts || id in s.queue || id in s.dropped
    ensures forall id :: id in s.dropped ==> id in s.jobs && s.jobs[id].cancelled && id !in s.starts && id !in s.queue
  {
    hide Reaches, Without, Distinct;
    ReachableSound(limit, events, s);
    WithoutIn(s.arrivals, s.dropped);
    WithoutDistinct(s.arrivals, s.dropped);
    assert forall id :: id in s.starts + s.queue <==> id in s.starts || id in s.queue;
  }

  lemma {:induction false} WithoutDistinct(xs: seq<Id>, gone: set<Id>)
    requires Distinct(xs)
    ensures Distinct(Without(xs, gone))
  {
    if xs != [] {
      var n := |xs| - 1;
      WithoutDistinct(xs[..n], gone);
      WithoutIn(xs[..n], gone);
      if xs[n] !in gone { SnocDistinct(Without(xs[..n], gone), xs[n]); }
    }
  }

  /** The slots are never overbooked and never idle while a job waits; waiting and running jobs
      are unfinished and not cancelled, and every other job is finished. */
  lemma SlotsWellUsed(limit: nat, events: seq<Event>, s: State)
    requires limit >= 1 && Reaches(limit, events, s)
    ensures |s.running| <= limit && (s.queue != [] ==> |s.running| == limit && s.running != {})
    ensures forall id :: id in s.jobs ==>
              ((id in s.queue || id in s.running) <==> !s.jobs[id].finished)
              && !(id in s.queue && id in s.running)
              && (id in s.queue || id in s.running ==> !s.jobs[id].cancelled)
  {
    hide Reaches, Ordered, Recorded;
    ReachableSound(limit, events, s);
  }

  /** Whichever of end, error and close come and in whatever order: a job has at most one record,
      and has one exactly when it is finished. */
  lemma ExactlyOneOutcome(limit: nat, events: seq<Event>, s: State, id: Id)
    requires limit >= 1 && Reaches(limit, events, s)
    ensures id in s.jobs && s.jobs[id].finished <==> exists i :: 0 <= i < |s.records| && s.records[i].id == id
    ensures forall i, j :: 0 <= i < j < |s.records| ==> !(s.records[i].id == id && s.records[j].id == id)
  {
    hide Reaches, Ordered, Placed;
    ReachableSound(limit, events, s);
  }

  /** A client that goes away before its response has ended always gets its job recorded as
      cancelled, whether the job waits or runs. */
  lemma CloseCancels(limit: nat, events: seq<Event>, s: State, id: Id, now: int, later: int)
    requires limit >= 1 && Reaches(limit, events, s) && id in s.jobs && !s.jobs[id].finished
    ensures Known(s) && var t := Step(s, Close(id, now, later));
            |t.records| == |s.records| + 1 && t.records[..|s.records|] == s.records
            && t.records[|s.records|].id == id && t.records[|s.records|].outcome == Cancelled
            && id !in t.queue && id !in t.running
  {
    hide Reaches, Ordered, Recorded, Drain;
    ReachableSound(limit, events, s);
    StepKeeps(s, Close(id, now, later));
    CancelKeeps(s, id, now);
    var r := Retire(Cancel(s, id), id, Cancelled, now);
    DrainKeeps(r, later);
    DrainFinished(r, later, id);
  }

  /** One handler starts at most one job, so one reading of the clock for its starts is enough. */
  lemma AtMostOneStart(limit: nat, events: seq<Event>, s: State, e: Event)
    requires limit >= 1 && Reaches(limit, events, s) && Known(s) && Enabled(s, e)
    ensures s.starts <= Step(s, e).starts && |Step(s, e).starts| <= |s.starts| + 1
  {
    hide Reaches, Ordered, Recorded;
    ReachableSound(limit, events, s);
    match e {
      case Arrive(id, now, later) => OneStart(Push(s, id, now), later);
      case Content(_, _, _) =>
      case End(id, ok, now, later) =>
        if !s.jobs[id].finished { OneStart(Retire(s, id, if ok then Completed else Failed, now), later); }
      case ResponseError(id, now, later) =>
        if !s.jobs[id].finished { OneStart(Retire(s, id, Failed, now), later); }
      case UpstreamError(id, now, later) =>
        if !s.jobs[id].finished { OneStart(Retire(EndResponse(s, id), id, Failed, now), later); }
      case Close(id, now, later) =>
        if !s.jobs[id].finished && !s.jobs[id].ended {
          CancelOneStart(s, id, now, later);
        }
    }
  }

  /** With one free slot at most, or one waiting job at most, draining starts at most one job. */
  lemma OneStart(s: State, now: int)
    requires Known(s) && (|s.queue| <= 1 || |s.running| + 1 >= s.limit)
    requires s.queue != [] ==> s.queue[0] !in s.running && !s.jobs[s.queue[0]].finished && !s.jobs[s.queue[0]].cancelled
    ensures s.starts <= Drain(s, now).starts && |Drain(s, now).starts| <= |s.starts| + 1
  {
    if |s.running| < s.limit && s.queue != [] {
      var t := Start(s.(queue := s.queue[1..]), s.queue[0], now);
      assert |t.running| == |s.running| + 1;
      assert Drain(t, now) == t;
    }
  }

  lemma CancelOneStart(s: State, id: Id, now: int, later: int)
    requires Sound(s) && Busy(s) && id in s.jobs && !s.jobs[id].finished
    ensures Known(Cancel(s, id))
    ensures var t := Drain(Retire(Cancel(s, id), id, Cancelled, now), later);
            s.starts <= t.starts && |t.starts| <= |s.starts| + 1
  {
    hide Ordered, Recorded, Drain;
    RemoveKeeps(s.queue, id);
    var r := Retire(Cancel(s, id), id, Cancelled, now);
    CancelKeeps(s, id, now);
    OneStart(r, later);
  }

  // ---- timing -----------------------------------------------------------------------------

  /** The clock never goes back, neither inside a handler nor from one to the next. */
  ghost predicate Steady(events: seq<Event>) {
    forall i :: 0 <= i < |events| ==> events[i].now <= events[i].later
                                      && (i > 0 ==> events[i - 1].later <= events[i].now)
  }

  ghost predicate JobTimed(job: Job, t: int) {
    job.receivedAt <= t
    && (job.startedAt.Some? ==> job.receivedAt <= job.startedAt.value <= t)
    && (job.firstTokenAt.Some? ==> job.startedAt.Some? && job.startedAt.value <= job.firstTokenAt.value <= t)
  }

  /** 0 <= queue_ms <= ttft_ms <= latency_ms, for those that are present. */
  predicate RecordTimed(r: Record) {
    0 <= r.latencyMs && (r.queueMs.Some? ==> 0 <= r.queueMs.value <= r.latencyMs)
    && (r.ttftMs.Some? ==> r.queueMs.Some? && r.queueMs.value <= r.ttftMs.value <= r.latencyMs)
  }

  ghost predicate Timed(s: State, t: int) {
    (forall id :: id in s.jobs ==> JobTimed(s.jobs[id], t))
    && (forall i :: 0 <= i < |s.records| ==> RecordTimed(s.records[i]))
  }

  lemma TimedLater(s: State, t: int, u: int)
    requires Timed(s, t) && t <= u
    ensures Timed(s, u)
  {
    forall id | id in s.jobs ensures JobTimed(s.jobs[id], u) { assert JobTimed(s.jobs[id], t); }
  }

  /** Waiting jobs have not been started. */
  ghost predicate Unstarted(s: State) {
    forall id :: id in s.queue ==> id in s.jobs && s.jobs[id].startedAt.None? && s.jobs[id].firstTokenAt.None?
  }

  lemma {:induction false} DrainTimed(s: State, now: int)
    requires Known(s) && Distinct(s.queue) && Unstarted(s) && Timed(s, now)
    ensures Timed(Drain(s, now), now) && Unstarted(Drain(s, now))
    decreases |s.queue|
  {
    hide Distinct;
    if |s.running| < s.limit && s.queue != [] {
      HeadFacts(s.queue);
      var t := Start(s.(queue := s.queue[1..]), s.queue[0], now);
      assert JobTimed(s.jobs[s.queue[0]], now);
      assert Timed(t, now) && Unstarted(t);
      DrainTimed(t, now);
    }
  }

  lemma RetireTimed(s: State, id: Id, outcome: Outcome, now: int)
    requires id in s.jobs && Timed(s, now)
    ensures Timed(Retire(s, id, outcome, now), now)
  {
    var r := Retire(s, id, outcome, now);
    assert JobTimed(s.jobs[id], now);
    forall i | 0 <= i < |r.records| ensures RecordTimed(r.records[i]) {
      if i < |s.records| { assert r.records[i] == s.records[i]; }
    }
  }

  lemma StepTimed(s: State, e: Event, t: int)
    requires Sound(s) && Unstarted(s) && Enabled(s, e) && Timed(s, t) && t <= e.now <= e.later
    ensures Timed(Step(s, e), e.later) && Unstarted(Step(s, e))
  {
    hide Ordered, Recorded, Distinct, Drain, Retire;
    TimedLater(s, t, e.now);
    match e {
      case Arrive(id, now, later) =>
        var r := Push(s, id, now);
        PushKeeps(s, id, now);
        assert Timed(r, now) && Unstarted(r);
        TimedLater(r, now, later);
        DrainTimed(r, later);
      case Content(id, now, later) =>
        ContentTimed(s, id, now, later);
      case End(id, ok, now, later) =>
        FinishTimed(s, id, if ok then Completed else Failed, now, later);
        EndTimed(Finish(s, id, if ok then Completed else Failed, now, later), id, later);
      case ResponseError(id, now, later) => FinishTimed(s, id, Failed, now, later);
      case UpstreamError(id, now, later) =>
        EndTimed(s, id, now);
        FinishTimed(EndResponse(s, id), id, Failed, now, later);
      case Close(id, now, later) =>
        if s.jobs[id].ended || s.jobs[id].finished {
          assert JobTimed(s.jobs[id], now);
          assert Timed(Step(s, e), now);
          TimedLater(Step(s, e), now, later);
        } else {
          CancelTimed(s, id, now);
          FinishTimed(Cancel(s, id), id, Cancelled, now, later);
        }
    }
  }

  lemma ContentTimed(s: State, id: Id, now: int, later: int)
    requires Known(s) && Unstarted(s) && id in s.jobs && s.jobs[id].startedAt.Some? && Timed(s, now) && now <= later
    ensures var t := Step(s, Content(id, now, later)); Timed(t, later) && Unstarted(t)
  {
    var t := Step(s, Content(id, now, later));
    assert JobTimed(s.jobs[id], now);
    assert Timed(t, now);
    TimedLater(t, now, later);
  }

  lemma EndTimed(s: State, id: Id, t: int)
    requires Unstarted(s) && Timed(s, t)
    ensures id in s.jobs ==> Timed(EndResponse(s, id), t) && Unstarted(EndResponse(s, id))
  {
    if id in s.jobs { assert JobTimed(s.jobs[id], t); }
  }

  lemma CancelTimed(s: State, id: Id, now: int)
    requires Known(s) && Distinct(s.queue) && Unstarted(s) && id in s.jobs && Timed(s, now)
    ensures var c := Cancel(s, id); Known(c) && Distinct(c.queue) && Unstarted(c) && Timed(c, now)
  {
    hide Distinct;
    RemoveKeeps(s.queue, id);
    assert JobTimed(s.jobs[id], now);
  }

  lemma FinishTimed(s: State, id: Id, outcome: Outcome, now: int, later: int)
    requires Known(s) && Distinct(s.queue) && Unstarted(s) && id in s.jobs && Timed(s, now) && now <= later
    ensures var t := Finish(s, id, outcome, now, later); Timed(t, later) && Unstarted(t)
  {
    hide Distinct, Drain;
    if s.jobs[id].finished {
      TimedLater(s, now, later);
    } else {
      var r := Retire(s, id, outcome, now);
      RetireTimed(s, id, outcome, now);
      TimedLater(r, now, later);
      DrainTimed(r, later);
    }
  }

  lemma {:induction false} ReachableTimed(limit: nat, events: seq<Event>, s: State)
    requires limit >= 1 && Reaches(limit, events, s) && Steady(events)
    ensures Unstarted(s) && (if events == [] then s == Init(limit) else Timed(s, events[|events| - 1].later))
    decreases |events|
  {
    hide Step, Placed, Ordered, Recorded, Timed;
    if events != [] {
      var n := |events| - 1;
      var r: State :| Reaches(limit, events[..n], r) && Known(r) && Enabled(r, events[n]) && s == Step(r, events[n]);
      ReachableSound(limit, events[..n], r);
      ReachableTimed(limit, events[..n], r);
      if n == 0 {
        InitTimed(limit, events[0].now);
        StepTimed(r, events[n], events[0].now);
      } else {
        assert events[..n][n - 1] == events[n - 1];
        StepTimed(r, events[n], events[n - 1].later);
      }
    }
  }

  lemma InitTimed(limit: nat, t: int)
    ensures Timed(Init(limit), t)
  {
  }

  /** Under a steady clock all recorded durations are in order. */
  lemma ConsistentTiming(limit: nat, events: seq<Event>, s: State)
    requires limit >= 1 && Reaches(limit, events, s) && Steady(events)
    ensures forall i :: 0 <= i < |s.records| ==> RecordTimed(s.records[i])
  {
    ReachableTimed(limit, events, s);
  }

  // ---- the gateway object -------------------------------------------------------------------

  /** The gateway's variables and handlers, with the calls between them as they are in the
      source: finishing a job drains the queue, draining starts jobs, and starting a job that is
      already over drains again. */
  class Gateway {
    const parallelLimit: nat
    var queue: seq<Id>
    var running: set<Id>
    var jobs: map<Id, Job>
    var records: seq<Record>
    ghost var arrivals: seq<Id>
    ghost var starts: seq<Id>
    ghost var dropped: set<Id>

    ghost function View(): State
      reads this
    {
      State(parallelLimit, queue, running, jobs, records, arrivals, starts, dropped)
    }

    constructor (limit: nat)
      ensures View() == Init(limit)
    {
      parallelLimit := limit;
      queue, running, jobs, records := [], {}, map[], [];
      arrivals, starts, dropped := [], [], {};
    }

    method StartUpstream(id: Id, now: int)
      requires Known(View()) && id in jobs
      modifies this
      ensures var s := old(View());
              View() == if s.jobs[id].cancelled || s.jobs[id].finished then Drain(s, now) else Start(s, id, now)
      ensures Known(View()) && |queue| <= old(|queue|)
      decreases |queue|, 2
    {
      if jobs[id].cancelled || jobs[id].finished {
        DrainQueue(now);
        return;
      }
      jobs := jobs[id := jobs[id].(startedAt := Some(now))];
      running := running + {id};
      starts := starts + [id];
    }

    method DrainQueue(now: int)
      requires Known(View())
      modifies this
      ensures View() == Drain(old(View()), now) && |queue| <= old(|queue|)
      decreases |queue|, 1
    {
      while |running| < parallelLimit && queue != []
        invariant Known(View()) && |queue| <= old(|queue|)
        invariant Drain(View(), now) == Drain(old(View()), now)
        decreases |queue|
      {
        var id := queue[0];
        queue := queue[1..];
        ghost var s := View();
        StartUpstream(id, now);
        DrainTwice(s, now);
      }
    }

    method FinishJob(id: Id, outcome: Outcome, now: int, later: int)
      requires Known(View()) && id in jobs
      modifies this
      ensures View() == Finish(old(View()), id, outcome, now, later)
      ensures if old(jobs)[id].finished then records == old(records)
              else |records| == |old(records)| + 1 && records[..|old(records)|] == old(records)
                   && records[|old(records)|].id == id && records[|old(records)|].outcome == outcome
    {
      if jobs[id].finished { return; }
      var job := jobs[id];
      jobs := jobs[id := job.(finished := true)];
      running := running - {id};
      records := records + [RecordOf(job, id, outcome, now)];
      DrainRecords(View(), later);
      DrainQueue(later);
    }

    method Enqueue(id: Id, now: int, later: int)
      requires Known(View()) && Enabled(View(), Arrive(id, now, later))
      modifies this
      ensures View() == Step(old(View()), Arrive(id, now, later))
    {
      jobs := jobs[id := Job(now, None, None, 0, false, false, false, false)];
      arrivals := arrivals + [id];
      queue := queue + [id];
      DrainQueue(later);
    }

    method OnContent(id: Id, now: int, later: int)
      requires Known(View()) && Enabled(View(), Content(id, now, later))
      modifies this
      ensures View() == Step(old(View()), Content(id, now, later))
    {
      var job := jobs[id];
      if job.firstTokenAt.None? { job := job.(firstTokenAt := Some(now)); }
      jobs := jobs[id := job.(outputChunks := job.outputChunks + 1)];
    }

    method EndIfOpen(id: Id)
      requires id in jobs
      modifies this`jobs
      ensures View() == EndResponse(old(View()), id)
    {
      if !jobs[id].closed && !jobs[id].ended {
        jobs := jobs[id := jobs[id].(ended := true)];
      } else {
        assert jobs == jobs[id := jobs[id].(ended := jobs[id].ended || !jobs[id].closed)];
      }
    }

    method OnEnd(id: Id, ok: bool, now: int, later: int)
      requires Known(View()) && Enabled(View(), End(id, ok, now, later))
      modifies this
      ensures View() == Step(old(View()), End(id, ok, now, later))
      ensures !old(jobs)[id].finished ==>
              |records| == |old(records)| + 1 && records[|old(records)|].id == id
              && (if ok then records[|old(records)|].outcome == Completed else records[|old(records)|].outcome == Failed)
    {
      hide Drain;
      FinishJob(id, if ok then Completed else Failed, now, later);
      if id in jobs { EndIfOpen(id); }
    }

    method OnResponseError(id: Id, now: int, later: int)
      requires Known(View()) && Enabled(View(), ResponseError(id, now, later))
      modifies this
      ensures View() == Step(old(View()), ResponseError(id, now, later))
    {
      FinishJob(id, Failed, now, later);
    }

    method OnUpstreamError(id: Id, now: int, later: int)
      requires Known(View()) && Enabled(View(), UpstreamError(id, now, later))
      modifies this
      ensures View() == Step(old(View()), UpstreamError(id, now, later))
    {
      EndIfOpen(id);
      FinishJob(id, Failed, now, later);
    }

    method OnClose(id: Id, now: int, later: int)
      requires Known(View()) && Enabled(View(), Close(id, now, later))
      modifies this
      ensures View() == Step(old(View()), Close(id, now, later))
    {
      hide Drain;
      var job := jobs[id].(closed := true);
      jobs := jobs[id := job];
      if job.ended || job.finished { return; }
      jobs := jobs[id := job.(cancelled := true)];
      assert jobs == old(jobs)[id := job.(cancelled := true)];
      if id in queue {
        dropped := dropped + {id};
        queue := RemoveFirst(queue, id);
      } else {
        RemoveAbsent(queue, id);
      }
      FinishJob(id, Cancelled, now, later);
    }
  }

  /** Starting jobs writes no record. */
  lemma {:induction false} DrainRecords(s: State, now: int)
    requires Known(s)
    ensures Drain(s, now).records == s.records
    decreases |s.queue|
  {
    if |s.running| < s.limit && s.queue != [] {
      DrainRecords(Start(s.(queue := s.queue[1..]), s.queue[0], now), now);
    }
  }

  lemma {:induction false} DrainTwice(s: State, now: int)
    requires Known(s)
    ensures Drain(Drain(s, now), now) == Drain(s, now)
    decreases |s.queue|
  {
    if |s.running| < s.limit && s.queue != [] {
      DrainTwice(Start(s.(queue := s.queue[1..]), s.queue[0], now), now);
    }
  }
}
