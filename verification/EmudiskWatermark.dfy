/** The hang at the watermark is real: a thread that wakes exactly on time leaves the clock at the watermark, and a
    request submitted before the clock moves on stops the driver for good. */
module EmudiskWatermark {
  import opened Block
  import opened Sleep
  import opened SsdSim
  import opened Emudisk
  import opened EmudiskInv
  import opened EmudiskSteps
  import opened EmudiskDrain
  import opened EmudiskRuns

  /** What deliveries leave as it was: the requests known by their tags, and the packet ids. */
  ghost predicate NothingNew(s: State, t: State) {
    t.nextId == s.nextId && forall tag: nat | KnownTag(t.log, tag) :: KnownTag(s.log, tag)
  }

  lemma DeliverTags(s: State, id: int)
    requires Deliver(s, id).Moves?
    ensures NothingNew(s, Deliver(s, id).s)
  {
    hide FindId, Scatter, Flat;
    var t := Deliver(s, id).s;
    forall tag: nat | KnownTag(t.log, tag) ensures KnownTag(s.log, tag) {
      var i :| 0 <= i < |t.log| && t.log[i].Submitted? && t.log[i].req.tag == tag;
      assert s.log[i] == t.log[i];
    }
  }

  lemma {:induction false} DeliverAllTags(s: State, ids: seq<int>)
    requires DeliverAll(s, ids).Moves?
    ensures NothingNew(s, DeliverAll(s, ids).s)
    decreases |ids|
  {
    hide Deliver, KnownTag;
    if |ids| == 0 {
    } else {
      DeliverTags(s, ids[0]);
      DeliverAllTags(Deliver(s, ids[0]).s, ids[1..]);
    }
  }

  /** A thread that fires exactly on time. */
  predicate OnTime(t: State) {
    t.thread.Fired? && t.clock == t.nextTime
  }

  lemma DueDelivered(t: State)
    requires RoundDue(t)
    ensures var d := DeliverAll(t, t.nextIds);
            && d.Moves? && d.s.latest == t.nextTime && NothingNew(t, d.s) && d.s.stopped == t.stopped
            && |d.s.slots| == |t.slots|
  {
    hide Core, Cached, DeliverAll, HeldIds, Delivering, KnownTag;
    StartDelivering(t);
    DeliverAllKeeps(t, t.nextIds);
    DeliverAllTags(t, t.nextIds);
  }

  /** A drain on time takes one round, and leaves the clock at the watermark. */
  lemma OnTimeDrain(t: State)
    requires RoundDue(t) && OnTime(t)
    ensures Drain(t, [(t.clock, t.clock)]).Moves?
    ensures var u := Drain(t, [(t.clock, t.clock)]).s;
            && u.latest == u.clock == t.clock && u.stopped == t.stopped && u.nextId == t.nextId + 1
            && |u.retiring| > 0
            && (forall tag: nat | KnownTag(u.log, tag) :: KnownTag(t.log, tag))
  {
    hide Core, Cached, DeliverAll, HeldIds, KnownTag, NextResponses, Drain;
    var now := t.clock;
    RoundKeeps(t, now, now);
    DrainUnfolds(t, [(now, now)]);
    DueDelivered(t);
    assert RoundStart(t, now) == t;
    CountFacts(t);
    CountFacts(RoundEnd(DeliverAll(t, t.nextIds).s, now));
  }

  lemma CountFacts(s: State)
    requires Core(s)
    ensures s.inflight == |HeldIds(s.slots)| + |s.retiring|
  {
    hide HeldIds;
  }

  lemma RetireFacts(s: State, r: Request)
    ensures var t := Retire(s, r);
            && t.latest == s.latest && t.clock == s.clock && !t.stopped && t.nextId == s.nextId
            && (forall tag: nat | KnownTag(t.log, tag) :: KnownTag(s.log, tag))
  {
    var t := Retire(s, r);
    forall tag: nat | KnownTag(t.log, tag) ensures KnownTag(s.log, tag) {
      var i :| 0 <= i < |t.log| && t.log[i].Submitted? && t.log[i].req.tag == tag;
      assert s.log[i] == t.log[i];
    }
  }

  lemma OneIsPromised(log: seq<Event>, req: Request, now: int)
    requires req.WellFormed() && !KnownTag(log, req.tag)
    ensures Promised(log, [(req, now)]) && BatchClimbs(now, [(req, now)])
  {
    hide Flat;
  }

  lemma LockIsDrain(t: State)
    requires RoundDue(t) && OnTime(t) && t.nextId < ID_LIMIT
    ensures Next(t, TakeLock([(t.clock, t.clock)])) == Drain(t, [(t.clock, t.clock)])
  {
    hide Drain, RoundDue, KnownTag;
    OnTimeDrain(t);
  }

  /** A submission at the watermark, in a state that satisfies the invariant. */
  lemma HangsNow(u: State, req: Request)
    requires Inv(u) && u.latest == u.clock && !u.stopped && req.WellFormed() && !KnownTag(u.log, req.tag)
    ensures Run(u, [Queue([(req, u.clock)])]) == Hangs(ClockNotPastWatermark)
  {
    hide Inv, Next, Promised, BatchClimbs, KnownTag, Run, Flat;
    OneIsPromised(u.log, req, u.clock);
    RunOne(u, Queue([(req, u.clock)]));
    NextKeeps(u, Queue([(req, u.clock)]));
  }

  /** Whenever the thread fires on time, the next request submitted before the clock moves on hangs the driver. */
  lemma OnTimeThenHang(t: State, req: Request)
    requires Inv(t) && OnTime(t) && !t.stopped && req.WellFormed() && !KnownTag(t.log, req.tag) && t.nextId < ID_LIMIT
    ensures Run(t, [TakeLock([(t.clock, t.clock)])] + [Queue([(req, t.clock)])]) == Hangs(ClockNotPastWatermark)
  {
    hide Inv, Drain, KnownTag, RoundDue, Next, Run, Flat;
    FiredIsDue(t);
    OnTimeDrain(t);
    LockIsDrain(t);
    var a := TakeLock([(t.clock, t.clock)]);
    NextKeeps(t, a);
    HangsNow(Next(t, a).s, req);
    RunFirst(t, a, [Queue([(req, t.clock)])]);
  }

  /** Also if the queue was stopped: once the softirq has retired one of the requests just delivered. */
  lemma OnTimeRetireThenHang(t: State, req: Request) returns (done: Request)
    requires Inv(t) && OnTime(t) && req.WellFormed() && !KnownTag(t.log, req.tag) && t.nextId < ID_LIMIT
    ensures Run(t, [TakeLock([(t.clock, t.clock)])] + ([Softirq(done)] + [Queue([(req, t.clock)])])) ==
            Hangs(ClockNotPastWatermark)
  {
    hide Inv, Drain, KnownTag, RoundDue, Next, Run, Flat, Retire;
    FiredIsDue(t);
    OnTimeDrain(t);
    LockIsDrain(t);
    var a := TakeLock([(t.clock, t.clock)]);
    NextKeeps(t, a);
    var u := Next(t, a).s;
    done :| done in u.retiring;
    RetireKeeps(u, done);
    RetireFacts(u, done);
    SoftirqIs(u, done);
    HangsNow(Retire(u, done), req);
    RunFirst(u, Softirq(done), [Queue([(req, t.clock)])]);
    RunFirst(t, a, [Softirq(done)] + [Queue([(req, t.clock)])]);
  }

  lemma SoftirqIs(u: State, done: Request)
    requires done in u.retiring
    ensures Next(u, Softirq(done)) == Moves(Retire(u, done))
  {
    hide Retire;
  }

  // From the start to a thread that fires on time.

  /** After one submission everything outstanding completes at or after it. */
  lemma FirstSubmission(s: State, req: Request)
    requires Starts(s) && req.WellFormed()
    ensures Submit(s, req, s.clock).Moves?
    ensures var t := Submit(s, req, s.clock).s;
            && t.clock == s.clock && !t.stopped && t.inflight == 1 && |t.slots| == |s.slots| && t.latest == 0
            && t.nextId == s.nextId + 1 + req.Sectors() && t.thread == s.thread
            && (forall tag: nat | KnownTag(t.log, tag) :: tag == req.tag)
            && (forall i | 0 <= i < |t.sim.chans| :: t.sim.chans[i].completion == 0
                  || t.sim.chans[i].completion >= s.clock)
            && (exists i | 0 <= i < |t.sim.chans| :: t.sim.chans[i].completion > 0)
  {
    StartsInv(s);
    var slot, v, completion, sim := SubmitShape(s, req, s.clock);
    hide Flat, Inv, Submit, Staged, CompletionOf;
    var t := Submit(s, req, s.clock).s;
    assert t.sim.chans[v].completion > 0;
  }

  lemma AnswerIsLater(chans: seq<SsdChannel>, clock: int)
    requires forall i | 0 <= i < |chans| :: chans[i].completion == 0 || chans[i].completion >= clock
    requires exists i | 0 <= i < |chans| :: chans[i].completion > 0
    ensures NextResponses(chans, 0).ids != [] && NextResponses(chans, 0).time >= clock
  {
    hide NextResponses;
    NextResponsesSome(chans, 0);
    var keys := AfterKeys(chans, 0);
    var i :| 0 <= i < |keys| && keys[i] == Some(NextResponses(chans, 0).time);
  }

  lemma RefreshFrame(s: State)
    ensures var t := Refresh(s);
            && t.clock == s.clock && t.stopped == s.stopped && t.nextId == s.nextId + 1 && t.log == s.log
            && t.latest == s.latest
            && t.sim.chans == s.sim.chans
  {
    hide NextResponses;
  }

  lemma StartRuns(s: State)
    requires Starts(s)
    ensures !s.stopped && s.log == [] && s.thread.Idle? && forall tag: nat :: !KnownTag(s.log, tag)
  {
  }

  /** The queue after one submission is stopped if that was all it could take. */
  function Filled(t: State): State {
    if t.inflight >= |t.slots| then t.(stopped := true) else t
  }

  /** A queue that hands out one request. */
  lemma QueueOne(s: State, req: Request, now: int)
    requires !s.stopped && Promised(s.log, [(req, now)]) && BatchClimbs(s.clock, [(req, now)])
    requires Submit(s, req, now).Moves? && Refresh(Filled(Submit(s, req, now).s)).nextId <= ID_LIMIT
    ensures Next(s, Queue([(req, now)])) == Moves(Refresh(Filled(Submit(s, req, now).s)))
  {
    hide Submit, Promised, BatchClimbs, Refresh;
    var t := Submit(s, req, now).s;
    assert [(req, now)][1..] == [];
    assert SubmitAll(t, []) == Moves(t);
    assert SubmitAll(s, [(req, now)]) == Moves(Filled(t));
  }

  lemma FilledFrame(t: State)
    ensures Filled(t) == t.(stopped := Filled(t).stopped)
  {
  }

  /** The first request is submitted at the first clock reading. */
  lemma FirstQueue(s: State, req: Request)
    requires Starts(s) && req.WellFormed() && s.nextId + 2 + req.Sectors() <= ID_LIMIT
    ensures Next(s, Queue([(req, s.clock)])).Moves?
    ensures var t := Next(s, Queue([(req, s.clock)])).s;
            && Inv(t) && t.nextIds != [] && t.nextTime >= t.clock && t.nextId == s.nextId + 2 + req.Sectors()
            && t.thread.IdleWoken?
            && (forall tag: nat | KnownTag(t.log, tag) :: tag == req.tag)
  {
    hide *;
    FirstSubmission(s, req);
    StartsInv(s);
    StartRuns(s);
    OneIsPromised(s.log, req, s.clock);
    var l, t := Queue([(req, s.clock)]), Submit(s, req, s.clock).s;
    FilledFrame(t);
    RefreshFrame(Filled(t));
    QueueOne(s, req, s.clock);
    NextKeeps(s, l);
    AnswerIsLater(t.sim.chans, s.clock);
    AnswerIsCached(Refresh(Filled(t)));
    FirstWake(s, Filled(t));
  }

  lemma AnswerIsCached(t: State)
    requires Inv(t) && NextResponses(t.sim.chans, t.latest).ids != []
    ensures t.nextIds != [] && t.nextTime == NextResponses(t.sim.chans, t.latest).time && !t.thread.Idle?
  {
    hide Core, NextResponses;
  }

  lemma FirstWake(s: State, t: State)
    requires s.thread.Idle? && t.thread == s.thread && !Refresh(t).thread.Idle?
    ensures Refresh(t).thread.IdleWoken?
  {
    hide NextResponses;
  }

  /** From there the thread starts its timer, the clock moves to the deadline, and the timer fires. */
  lemma ThenFires(t: State)
    requires Inv(t) && t.thread.IdleWoken? && t.nextIds != [] && t.nextTime >= t.clock && t.nextId <= ID_LIMIT
    ensures var u := t.(thread := Fired(t.nextTime), clock := t.nextTime);
            && Inv(u) && OnTime(u)
            && Run(t, [TakeLock([])] + ([Tick(t.nextTime)] + [TimerFires])) == Moves(u)
  {
    hide Inv;
    var a, b := t.(thread := Timed(t.nextTime)), t.(thread := Timed(t.nextTime), clock := t.nextTime);
    assert Next(t, TakeLock([])) == Moves(a);
    assert Next(a, Tick(t.nextTime)) == Moves(b);
    assert Next(b, TimerFires) == Moves(t.(thread := Fired(t.nextTime), clock := t.nextTime));
    NextKeeps(t, TakeLock([]));
    NextKeeps(a, Tick(t.nextTime));
    NextKeeps(b, TimerFires);
    hide Next;
    RunFirst(t, TakeLock([]), [Tick(t.nextTime)] + [TimerFires]);
    RunFirst(a, Tick(t.nextTime), [TimerFires]);
    RunOne(b, TimerFires);
  }

  /** From every start, whatever the number of channels, two requests and a timer that is on time reach the hang. */
  lemma WatermarkHangIsReachable(s: State, first: Request, second: Request) returns (labels: seq<Label>)
    requires Starts(s) && s.nextId + 2 + first.Sectors() < ID_LIMIT
    requires first.WellFormed() && second.WellFormed() && first.tag != second.tag
    ensures Run(s, labels) == Hangs(ClockNotPastWatermark)
  {
    hide *;
    FirstQueue(s, first);
    var submit := Queue([(first, s.clock)]);
    var t := Next(s, submit).s;
    ThenFires(t);
    var u := t.(thread := Fired(t.nextTime), clock := t.nextTime);
    var done := OnTimeRetireThenHang(u, second);
    var wait := [TakeLock([])] + ([Tick(t.nextTime)] + [TimerFires]);
    var end := [TakeLock([(u.clock, u.clock)])] + ([Softirq(done)] + [Queue([(second, u.clock)])]);
    labels := [submit] + (wait + end);
    RunFirst(s, submit, wait + end);
    RunJoins(t, wait, end);
  }
}
