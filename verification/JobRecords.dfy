/** What the record of a gateway job says, told from the events of the run: which event ended it, how,
    and the times between its events. */
module JobRecords {
  import opened Text
  import opened Scheduler

  // ---- the events of a job -----------------------------------------------------------------------

  /** When the job arrived. */
  function ArrivalOf(events: seq<Event>, id: Id): Option<int> {
    if events == [] then None
    else
      var before, last := ArrivalOf(events[..|events| - 1], id), events[|events| - 1];
      if before.Some? then before else if last.Arrive? && last.id == id then Some(last.now) else None
  }

  /** When its first content came. */
  function FirstContentOf(events: seq<Event>, id: Id): Option<int> {
    if events == [] then None
    else
      var before, last := FirstContentOf(events[..|events| - 1], id), events[|events| - 1];
      if before.Some? then before else if last.Content? && last.id == id then Some(last.now) else None
  }

  function ContentsOf(events: seq<Event>, id: Id): nat {
    if events == [] then 0
    else
      var last := events[|events| - 1];
      ContentsOf(events[..|events| - 1], id) + if last.Content? && last.id == id then 1 else 0
  }

  /** An event that ends a job: the engine's response ends or breaks off, the engine fails, or the
      client goes away. */
  predicate Ends(e: Event, id: Id) {
    e.id == id && (e.End? || e.ResponseError? || e.UpstreamError? || e.Close?)
  }

  /** The position of the first event that ends the job. */
  function EndOf(events: seq<Event>, id: Id): (f: Option<nat>)
    ensures f.Some? ==> f.value < |events| && Ends(events[f.value], id)
  {
    if events == [] then None
    else
      var before, last := EndOf(events[..|events| - 1], id), events[|events| - 1];
      if before.Some? then before else if Ends(last, id) then Some(|events| - 1) else None
  }

  function OutcomeOf(e: Event): Outcome {
    match e
    case End(_, ok, _, _) => if ok then Completed else Failed
    case Close(_, _, _) => Cancelled
    case _ => Failed
  }

  /** The job was started by event `i`. */
  ghost predicate StartsAt(limit: nat, events: seq<Event>, i: nat, id: Id) {
    i < |events|
    && exists a, b :: Reaches(limit, events[..i], a) && Reaches(limit, events[..i + 1], b) && id !in a.starts && id in b.starts
  }

  // ---- one event ------------------------------------------------------------------------------------

  /** The event ends a job that has not ended. */
  predicate EndsNow(s: State, e: Event) {
    Ends(e, e.id) && e.id in s.jobs && !s.jobs[e.id].finished
  }

  /** What an event does to a job that was there before. */
  predicate JobMoves(s: State, e: Event, id: Id, a: Job, b: Job) {
    b.receivedAt == a.receivedAt
    && (b.finished <==> a.finished || (EndsNow(s, e) && e.id == id))
    && (if e.Content? && e.id == id
        then b.firstTokenAt == (if a.firstTokenAt.None? then Some(e.now) else a.firstTokenAt) && b.outputChunks == a.outputChunks + 1
        else b.firstTokenAt == a.firstTokenAt && b.outputChunks == a.outputChunks)
    && (b.startedAt == a.startedAt || (a.startedAt.None? && !a.finished && !b.finished && b.startedAt == Some(e.later)))
  }

  ghost predicate JobsMove(s: State, e: Event, t: State) {
    forall id :: id in s.jobs ==> id in t.jobs && JobMoves(s, e, id, s.jobs[id], t.jobs[id])
  }

  ghost predicate JobsArrive(s: State, e: Event, t: State) {
    forall id :: id in t.jobs && id !in s.jobs ==>
      e.Arrive? && e.id == id && t.jobs[id].receivedAt == e.now && t.jobs[id].firstTokenAt.None?
      && t.jobs[id].outputChunks == 0 && !t.jobs[id].finished
      && (t.jobs[id].startedAt.Some? ==> t.jobs[id].startedAt == Some(e.later))
  }

  /** The record of a job that ends now. */
  predicate RecordsNow(s: State, e: Event, t: State) {
    if EndsNow(s, e) then t.records == s.records + [RecordOf(s.jobs[e.id], e.id, OutcomeOf(e), e.now)]
    else t.records == s.records
  }

  /** Draining starts waiting jobs and leaves everything else of every job as it is. */
  predicate Drained(a: Job, b: Job, now: int) {
    b == a || (a.startedAt.None? && !a.finished && b == a.(startedAt := Some(now)))
  }

  ghost predicate AllDrained(s: State, t: State, now: int) {
    t.records == s.records && t.jobs.Keys == s.jobs.Keys && forall id :: id in s.jobs ==> Drained(s.jobs[id], t.jobs[id], now)
  }

  lemma {:induction false} DrainMoves(s: State, now: int)
    requires Sound(s)
    ensures AllDrained(s, Drain(s, now), now)
    decreases |s.queue|
  {
    hide Ordered, Recorded, Distinct, Without;
    if |s.running| < s.limit && s.queue != [] {
      var r := Start(s.(queue := s.queue[1..]), s.queue[0], now);
      StartKeeps(s, now);
      DrainMoves(r, now);
      assert AllDrained(s, r, now);
      DrainedTwice(s, r, Drain(r, now), now);
    }
  }

  lemma DrainedTwice(s: State, r: State, t: State, now: int)
    requires AllDrained(s, r, now) && AllDrained(r, t, now)
    ensures AllDrained(s, t, now)
  {
    forall id | id in s.jobs ensures Drained(s.jobs[id], t.jobs[id], now) {
      assert Drained(s.jobs[id], r.jobs[id], now) && Drained(r.jobs[id], t.jobs[id], now);
    }
  }

  lemma ArriveMoves(s: State, e: Event)
    requires Sound(s) && e.Arrive? && Enabled(s, e)
    ensures var t := Step(s, e); JobsMove(s, e, t) && JobsArrive(s, e, t) && RecordsNow(s, e, t)
  {
    hide Placed, Ordered, Recorded, Drain;
    var r := Push(s, e.id, e.now);
    PushKeeps(s, e.id, e.now);
    DrainMoves(r, e.later);
    var t := Drain(r, e.later);
    forall id | id in t.jobs ensures Drained(r.jobs[id], t.jobs[id], e.later) {
      assert id in r.jobs;
    }
  }

  /** Ending a job, once its response may have been ended and it has left the queue. */
  lemma RetireMoves(s: State, e: Event, r: State)
    requires Sound(s) && EndsNow(s, e) && r.jobs.Keys == s.jobs.Keys && Sound(r)
    requires forall id :: id in s.jobs && id != e.id ==> r.jobs[id] == s.jobs[id]
    requires var a, b := s.jobs[e.id], r.jobs[e.id];
             b.finished && b.receivedAt == a.receivedAt && b.startedAt == a.startedAt && b.firstTokenAt == a.firstTokenAt
             && b.outputChunks == a.outputChunks
    requires r.records == s.records + [RecordOf(s.jobs[e.id], e.id, OutcomeOf(e), e.now)]
    ensures var t := Drain(r, e.later); JobsMove(s, e, t) && JobsArrive(s, e, t) && RecordsNow(s, e, t)
  {
    hide Sound, Drain, RecordOf, OutcomeOf;
    SoundKnown(r);
    DrainMoves(r, e.later);
    var t := Drain(r, e.later);
    forall id | id in s.jobs ensures id in t.jobs && JobMoves(s, e, id, s.jobs[id], t.jobs[id]) {
      assert Drained(r.jobs[id], t.jobs[id], e.later);
    }
  }

  lemma EndedMoves(s: State, e: Event, id: Id, a: Job, b: Job, ended: bool)
    requires JobMoves(s, e, id, a, b)
    ensures JobMoves(s, e, id, a, b.(ended := ended))
  {
  }

  /** Ending the response changes nothing a record is made of. */
  lemma ResponseMoves(s: State, e: Event, t: State, id: Id)
    requires JobsMove(s, e, t) && JobsArrive(s, e, t) && RecordsNow(s, e, t) && id in s.jobs && id in t.jobs
    ensures var u := EndResponse(t, id); JobsMove(s, e, u) && JobsArrive(s, e, u) && RecordsNow(s, e, u)
  {
    hide RecordOf, OutcomeOf, JobMoves, EndsNow;
    var u := EndResponse(t, id);
    var ended := u.jobs[id].ended;
    assert u.jobs[id] == t.jobs[id].(ended := ended);
    EndedMoves(s, e, id, s.jobs[id], t.jobs[id], ended);
  }

  lemma StillMoves(s: State, e: Event)
    requires !EndsNow(s, e) && !e.Arrive? && !e.Content?
    ensures JobsMove(s, e, s) && JobsArrive(s, e, s) && RecordsNow(s, e, s)
  {
  }

  lemma EndMoves(s: State, e: Event)
    requires Sound(s) && Enabled(s, e) && (e.End? || e.ResponseError?)
    ensures var t := Step(s, e); JobsMove(s, e, t) && JobsArrive(s, e, t) && RecordsNow(s, e, t)
  {
    hide Placed, Ordered, Recorded, Drain, RecordOf;
    var id, outcome := e.id, OutcomeOf(e);
    StartedRuns(s, id);
    var t := Finish(s, id, outcome, e.now, e.later);
    if EndsNow(s, e) {
      RetireKeeps(s, id, outcome, e.now);
      RetireMoves(s, e, Retire(s, id, outcome, e.now));
    } else {
      StillMoves(s, e);
    }
    if e.End? { ResponseMoves(s, e, t, id); }
  }

  lemma UpstreamErrorMoves(s: State, e: Event)
    requires Sound(s) && Enabled(s, e) && e.UpstreamError?
    ensures var t := Step(s, e); JobsMove(s, e, t) && JobsArrive(s, e, t) && RecordsNow(s, e, t)
  {
    hide Placed, Ordered, Recorded, Drain;
    var id := e.id;
    StartedRuns(s, id);
    if EndsNow(s, e) {
      var job := s.jobs[id].(ended := s.jobs[id].ended || !s.jobs[id].closed);
      RetireKeeps(s, id, Failed, e.now);
      var r := Retire(s, id, Failed, e.now);
      SetJobKeeps(r, id, job.(finished := true));
      var u := Retire(EndResponse(s, id), id, Failed, e.now);
      assert u.jobs == SetJob(r, id, job.(finished := true)).jobs;
      assert u == SetJob(r, id, job.(finished := true));
      RetireMoves(s, e, u);
    } else {
      StillMoves(s, e);
      ResponseMoves(s, e, s, id);
    }
  }

  lemma CloseMoves(s: State, e: Event)
    requires Sound(s) && Enabled(s, e) && e.Close?
    ensures var t := Step(s, e); JobsMove(s, e, t) && JobsArrive(s, e, t) && RecordsNow(s, e, t)
  {
    hide Placed, Ordered, Recorded, Drain;
    var id := e.id;
    SafeJob(s, id);
    if EndsNow(s, e) {
      CancelKeeps(s, id, e.now);
      RetireMoves(s, e, Retire(Cancel(s, id), id, Cancelled, e.now));
    }
  }

  lemma ContentMoves(s: State, e: Event)
    requires Enabled(s, e) && Known(s) && e.Content?
    ensures var t := Step(s, e); JobsMove(s, e, t) && JobsArrive(s, e, t) && RecordsNow(s, e, t)
  {
  }

  /** Every event: how the jobs change, and that exactly an event which ends an unfinished job writes a
      record, with the outcome of that event and the job's times. */
  lemma StepMoves(s: State, e: Event)
    requires Sound(s) && Enabled(s, e)
    ensures var t := Step(s, e); JobsMove(s, e, t) && JobsArrive(s, e, t) && RecordsNow(s, e, t)
  {
    hide Sound, Step, JobsMove, JobsArrive, RecordsNow, Enabled;
    match e {
      case Arrive(_, _, _) => ArriveMoves(s, e);
      case Content(_, _, _) => SoundKnown(s); ContentMoves(s, e);
      case UpstreamError(_, _, _) => UpstreamErrorMoves(s, e);
      case Close(_, _, _) => CloseMoves(s, e);
      case _ => EndMoves(s, e);
    }
  }

  lemma SoundKnown(s: State)
    requires Sound(s)
    ensures Known(s)
  {
  }

  // ---- a run -------------------------------------------------------------------------------------------

  /** The state knows of each job what the events tell. */
  ghost predicate JobTold(limit: nat, events: seq<Event>, id: Id, job: Job) {
    ArrivalOf(events, id) == Some(job.receivedAt)
    && job.firstTokenAt == FirstContentOf(events, id) && job.outputChunks == ContentsOf(events, id)
    && (job.finished <==> EndOf(events, id).Some?)
    && (job.startedAt.Some? ==>
          exists i :: 0 <= i < |events| && StartsAt(limit, events, i, id) && job.startedAt.value == events[i].later)
  }

  ghost predicate JobsTold(limit: nat, events: seq<Event>, s: State) {
    (forall id :: id in s.jobs ==> JobTold(limit, events, id, s.jobs[id]))
    && forall id :: id !in s.jobs ==>
         ArrivalOf(events, id).None? && FirstContentOf(events, id).None? && ContentsOf(events, id) == 0 && EndOf(events, id).None?
  }

  /** A record tells the outcome of the event that ended the job, and the times from its arrival to its
      start, to its first content before the end, and to the end. */
  ghost predicate RecordTold(limit: nat, events: seq<Event>, s: State, r: Record) {
    EndOf(events, r.id).Some? && ArrivalOf(events, r.id).Some?
    && var f, arrival := EndOf(events, r.id).value, ArrivalOf(events, r.id).value;
       r.outcome == OutcomeOf(events[f])
       && r.latencyMs == events[f].now - arrival
       && (match FirstContentOf(events[..f], r.id) case Some(t) => r.ttftMs == Some(t - arrival) case None => r.ttftMs == None)
       && (r.queueMs.Some? <==> r.id in s.starts)
       && (r.queueMs.Some? ==> exists i :: 0 <= i < f && StartsAt(limit, events, i, r.id) && r.queueMs.value == events[i].later - arrival)
  }

  ghost predicate RecordsTold(limit: nat, events: seq<Event>, s: State) {
    forall k :: 0 <= k < |s.records| ==> RecordTold(limit, events, s, s.records[k])
  }

  /** The events of a run with one more. */
  lemma OneMoreEvent(events: seq<Event>, e: Event, id: Id)
    ensures var all := events + [e];
            ArrivalOf(all, id) == (if ArrivalOf(events, id).Some? then ArrivalOf(events, id)
                                   else if e.Arrive? && e.id == id then Some(e.now) else None)
            && FirstContentOf(all, id) == (if FirstContentOf(events, id).Some? then FirstContentOf(events, id)
                                           else if e.Content? && e.id == id then Some(e.now) else None)
            && ContentsOf(all, id) == ContentsOf(events, id) + (if e.Content? && e.id == id then 1 else 0)
            && EndOf(all, id) == if EndOf(events, id).Some? then EndOf(events, id) else if Ends(e, id) then Some(|events|) else None
  {
    assert (events + [e])[..|events|] == events;
  }

  lemma StartsEarlier(limit: nat, events: seq<Event>, e: Event, i: nat, id: Id)
    requires StartsAt(limit, events, i, id)
    ensures StartsAt(limit, events + [e], i, id)
  {
    hide Reaches;
    assert (events + [e])[..i] == events[..i] && (events + [e])[..i + 1] == events[..i + 1];
  }

  lemma StartsNow(limit: nat, events: seq<Event>, s: State, e: Event, t: State, id: Id)
    requires Reaches(limit, events, s) && Reaches(limit, events + [e], t) && id !in s.starts && id in t.starts
    ensures StartsAt(limit, events + [e], |events|, id)
  {
    hide Reaches;
    assert (events + [e])[..|events|] == events && (events + [e])[..|events| + 1] == events + [e];
  }

  lemma StartsAreStarted(s: State, id: Id)
    requires Sound(s) && id in s.jobs
    ensures id in s.starts <==> s.jobs[id].startedAt.Some?
  {
    hide Placed, Recorded, Distinct, Without;
  }

  /** The job's start, told by the longer run. */
  lemma StartTold(limit: nat, events: seq<Event>, s: State, e: Event, t: State, id: Id)
    requires Sound(s) && Sound(t) && Reaches(limit, events, s) && Reaches(limit, events + [e], t)
    requires id in t.jobs && t.jobs[id].startedAt.Some?
    requires id in s.jobs ==> JobTold(limit, events, id, s.jobs[id]) && JobMoves(s, e, id, s.jobs[id], t.jobs[id])
    requires id !in s.jobs ==> t.jobs[id].startedAt == Some(e.later)
    ensures exists i :: 0 <= i < |events + [e]| && StartsAt(limit, events + [e], i, id) && t.jobs[id].startedAt.value == (events + [e])[i].later
  {
    hide Reaches, Sound, StartsAt, ArrivalOf, FirstContentOf, ContentsOf, EndOf;
    var all := events + [e];
    StartsAreStarted(t, id);
    if id in s.jobs && s.jobs[id].startedAt.Some? {
      var i :| 0 <= i < |events| && StartsAt(limit, events, i, id) && s.jobs[id].startedAt.value == events[i].later;
      StartsEarlier(limit, events, e, i, id);
      assert all[i] == events[i];
    } else {
      if id in s.jobs { StartsAreStarted(s, id); } else { UnknownNotStarted(s, id); }
      StartsNow(limit, events, s, e, t, id);
      assert all[|events|] == e;
    }
  }

  lemma UnknownNotStarted(s: State, id: Id)
    requires Sound(s) && id !in s.jobs
    ensures id !in s.starts
  {
    hide Placed, Recorded, Distinct, Without;
  }

  lemma JobsToldNext(limit: nat, events: seq<Event>, s: State, e: Event, t: State)
    requires Sound(s) && Sound(t) && Enabled(s, e) && Reaches(limit, events, s) && Reaches(limit, events + [e], t)
    requires JobsTold(limit, events, s) && JobsMove(s, e, t) && JobsArrive(s, e, t)
    requires forall id :: id in t.jobs <==> id in s.jobs || (e.Arrive? && e.id == id)
    ensures JobsTold(limit, events + [e], t)
  {
    hide Reaches, Sound, StartsAt, ArrivalOf, FirstContentOf, ContentsOf, EndOf;
    forall id | id in t.jobs ensures JobTold(limit, events + [e], id, t.jobs[id]) {
      OneMoreEvent(events, e, id);
      if t.jobs[id].startedAt.Some? { StartTold(limit, events, s, e, t, id); }
    }
    forall id | id !in t.jobs
      ensures var all := events + [e];
              ArrivalOf(all, id).None? && FirstContentOf(all, id).None? && ContentsOf(all, id) == 0 && EndOf(all, id).None? {
      OneMoreEvent(events, e, id);
    }
  }

  /** A record that was told stays told: later events change nothing it speaks of. */
  lemma StillTold(limit: nat, events: seq<Event>, s: State, e: Event, t: State, r: Record)
    requires RecordTold(limit, events, s, r) && (r.id in t.starts <==> r.id in s.starts)
    ensures RecordTold(limit, events + [e], t, r)
  {
    hide StartsAt, ArrivalOf, FirstContentOf, EndOf;
    OneMoreEvent(events, e, r.id);
    var f, arrival := EndOf(events, r.id).value, ArrivalOf(events, r.id).value;
    var all := events + [e];
    assert all[..f] == events[..f] && all[f] == events[f];
    if r.queueMs.Some? {
      var i :| 0 <= i < f && StartsAt(limit, events, i, r.id) && r.queueMs.value == events[i].later - arrival;
      StartsEarlier(limit, events, e, i, r.id);
      assert all[i] == events[i];
    }
  }

  lemma NowTold(limit: nat, events: seq<Event>, s: State, e: Event, t: State)
    requires Sound(s) && EndsNow(s, e) && JobTold(limit, events, e.id, s.jobs[e.id])
    requires e.id in t.starts <==> e.id in s.starts
    ensures RecordTold(limit, events + [e], t, RecordOf(s.jobs[e.id], e.id, OutcomeOf(e), e.now))
  {
    hide StartsAt, ArrivalOf, FirstContentOf, ContentsOf, EndOf, Sound, OutcomeOf;
    var id := e.id;
    OneMoreEvent(events, e, id);
    StartsAreStarted(s, id);
    var all := events + [e];
    assert all[..|events|] == events && all[|events|] == e;
    if s.jobs[id].startedAt.Some? {
      var i :| 0 <= i < |events| && StartsAt(limit, events, i, id) && s.jobs[id].startedAt.value == events[i].later;
      StartsEarlier(limit, events, e, i, id);
      assert all[i] == events[i];
    }
  }

  /** A finished job is not started. */
  lemma SameStarts(s: State, e: Event, t: State, id: Id)
    requires Sound(s) && Sound(t) && JobsMove(s, e, t) && id in s.jobs && t.jobs[id].finished
    ensures id in t.starts <==> id in s.starts
  {
    hide Sound;
    StartsAreStarted(s, id);
    StartsAreStarted(t, id);
    assert JobMoves(s, e, id, s.jobs[id], t.jobs[id]);
  }

  lemma RecordsAreFinished(s: State, k: nat)
    requires Sound(s) && k < |s.records|
    ensures s.records[k].id in s.jobs && s.jobs[s.records[k].id].finished
  {
    hide Placed, Ordered;
  }

  lemma RecordsToldNext(limit: nat, events: seq<Event>, s: State, e: Event, t: State)
    requires Sound(s) && Sound(t) && JobsTold(limit, events, s) && RecordsTold(limit, events, s)
    requires JobsMove(s, e, t) && RecordsNow(s, e, t)
    ensures RecordsTold(limit, events + [e], t)
  {
    hide Sound, RecordTold, JobTold, OutcomeOf, RecordOf;
    forall k | 0 <= k < |t.records| ensures RecordTold(limit, events + [e], t, t.records[k]) {
      RecordsAreFinished(t, k);
      if k < |s.records| {
        var r := s.records[k];
        assert t.records[k] == r;
        RecordsAreFinished(s, k);
        SameStarts(s, e, t, r.id);
        StillTold(limit, events, s, e, t, r);
      } else {
        assert EndsNow(s, e) && e.id in t.jobs;
        assert JobMoves(s, e, e.id, s.jobs[e.id], t.jobs[e.id]);
        SameStarts(s, e, t, e.id);
        NowTold(limit, events, s, e, t);
      }
    }
  }

  lemma StepKeys(s: State, e: Event)
    requires Sound(s) && Enabled(s, e)
    ensures Known(s) && forall id :: id in Step(s, e).jobs <==> id in s.jobs || (e.Arrive? && e.id == id)
  {
    hide Placed, Ordered, Recorded, Drain, RecordOf;
    StepMoves(s, e);
    if e.Arrive? {
      PushKeeps(s, e.id, e.now);
      DrainKeeps(Push(s, e.id, e.now), e.later);
    }
  }

  lemma {:induction false} AllTold(limit: nat, events: seq<Event>, s: State)
    requires limit >= 1 && Reaches(limit, events, s)
    ensures JobsTold(limit, events, s) && RecordsTold(limit, events, s)
    decreases |events|
  {
    hide Step, Sound, Enabled, JobsTold, RecordsTold, JobsMove, JobsArrive, RecordsNow;
    ReachableSound(limit, events, s);
    if events == [] {
      NothingTold(limit, s);
    } else {
      var n := |events| - 1;
      var r: State :| Reaches(limit, events[..n], r) && Known(r) && Enabled(r, events[n]) && s == Step(r, events[n]);
      assert events == events[..n] + [events[n]];
      ReachableSound(limit, events[..n], r);
      AllTold(limit, events[..n], r);
      StepMoves(r, events[n]);
      StepKeys(r, events[n]);
      JobsToldNext(limit, events[..n], r, events[n], s);
      RecordsToldNext(limit, events[..n], r, events[n], s);
    }
  }

  lemma NothingTold(limit: nat, s: State)
    requires s == Init(limit)
    ensures JobsTold(limit, [], s) && RecordsTold(limit, [], s)
  {
  }

  // ---- the results ----------------------------------------------------------------------------------------

  /** In every reachable state, an event that ends an unfinished job writes exactly one record, for that
      job: completed when the engine's response ended with a good status, failed when it ended with
      another one or broke off or the engine failed, cancelled when the client went away. Other events write none. */
  lemma EndWritesOutcome(limit: nat, events: seq<Event>, s: State, e: Event)
    requires limit >= 1 && Reaches(limit, events, s) && Enabled(s, e)
    ensures Known(s) && var t := Step(s, e);
            if e.id in s.jobs && !s.jobs[e.id].finished && !e.Content? then
              |t.records| == |s.records| + 1 && t.records[..|s.records|] == s.records
              && var r := t.records[|s.records|];
                 r.id == e.id
                 && (r.outcome == Completed <==> e.End? && e.ok)
                 && (r.outcome == Failed <==> (e.End? && !e.ok) || e.ResponseError? || e.UpstreamError?)
                 && (r.outcome == Cancelled <==> e.Close?)
            else t.records == s.records
  {
    hide Reaches, Step, Sound, RecordsNow;
    ReachableSound(limit, events, s);
    SoundKnown(s);
    StepMoves(s, e);
    OutcomeWritten(s, e, Step(s, e));
  }

  lemma OutcomeWritten(s: State, e: Event, t: State)
    requires RecordsNow(s, e, t) && Enabled(s, e)
    ensures if e.id in s.jobs && !s.jobs[e.id].finished && !e.Content? then
              |t.records| == |s.records| + 1 && t.records[..|s.records|] == s.records
              && var r := t.records[|s.records|];
                 r.id == e.id
                 && (r.outcome == Completed <==> e.End? && e.ok)
                 && (r.outcome == Failed <==> (e.End? && !e.ok) || e.ResponseError? || e.UpstreamError?)
                 && (r.outcome == Cancelled <==> e.Close?)
            else t.records == s.records
  {
  }

  /** Over any run: a job has a record exactly when one of its events ended it; the record tells the
      outcome of the first that did, and the times between the job's events. */
  lemma RecordsTell(limit: nat, events: seq<Event>, s: State)
    requires limit >= 1 && Reaches(limit, events, s)
    ensures RecordsTold(limit, events, s) && JobsTold(limit, events, s)
    ensures forall id :: EndOf(events, id).Some? <==> exists k :: 0 <= k < |s.records| && s.records[k].id == id
  {
    hide Reaches, RecordsTold, ArrivalOf, FirstContentOf, ContentsOf, EndOf, StartsAt;
    AllTold(limit, events, s);
    forall id ensures EndOf(events, id).Some? <==> exists k :: 0 <= k < |s.records| && s.records[k].id == id {
      ExactlyOneOutcome(limit, events, s, id);
      if id in s.jobs { assert JobTold(limit, events, id, s.jobs[id]); }
    }
  }
}
