/** What the server is told: exactly the submissions of the run, in order, each with its time, direction, sectors and
    id; and every request completes when the server's table of response times says, counted from its submission. */
module EmudiskTold {
  import opened Block
  import opened Latency
  import opened Scan
  import opened SsdSim
  import opened Emudisk
  import opened EmudiskInv
  import opened EmudiskSteps
  import opened EmudiskRefresh
  import opened EmudiskRuns
  import opened EmudiskPlan

  // The specification: the server's simulation fed with the submissions of a log.

  function ToldOne(sim: Sim, e: Event): Option<Sim> {
    if e.Submitted? then
      match SubmitRequest(sim, e.now, e.req.dir, e.req.pos, e.req.Sectors(), e.id)
      case Accepted(after) => Some(after)
      case _ => None
    else
      Some(sim)
  }

  /** The server after the submissions of `log`, or none if it refuses one. */
  function Told(sim: Sim, log: seq<Event>): Option<Sim> {
    if |log| == 0 then
      Some(sim)
    else
      match Told(sim, log[..|log| - 1])
      case None => None
      case Some(before) => ToldOne(before, log[|log| - 1])
  }

  /** The submission completes after the response time of its kind, the kind being decided by the submissions before. */
  predicate InTime(sim: Sim, log: seq<Event>, k: nat)
    requires k < |log| && log[k].Submitted?
  {
    var e, before := log[k], Told(sim, log[..k]);
    var size := SizeClass(e.req.Sectors() * SECTOR_SIZE);
    && before.Some? && size.Some?
    && e.completion == e.now + sim.latency.Of(FollowsChannel(before.value.chans, Code(e.req.dir), e.req.pos),
                                              e.req.dir, size.value)
  }

  predicate AllInTime(sim: Sim, log: seq<Event>) {
    forall k | 0 <= k < |log| && log[k].Submitted? :: InTime(sim, log, k)
  }

  /** The server of the run is where the submissions of the log lead it, but for the last time it was asked about. */
  predicate WasTold(start: Sim, s: State) {
    && Told(start, s.log) == Some(s.sim.(time := start.time))
    && s.sim.latency == start.latency
    && AllInTime(start, s.log)
  }

  lemma ToldMore(sim: Sim, log: seq<Event>, e: Event)
    ensures Told(sim, log + [e]) == match Told(sim, log) case None => None case Some(before) => ToldOne(before, e)
  {
    hide ToldOne;
    assert (log + [e])[..|log|] == log;
  }

  lemma InTimeStays(sim: Sim, log: seq<Event>, e: Event)
    requires AllInTime(sim, log) && (e.Submitted? ==> InTime(sim, log + [e], |log|))
    ensures AllInTime(sim, log + [e])
  {
    hide Told, SizeClass, FollowsChannel, Flat;
    forall k | 0 <= k < |log| && log[k].Submitted? ensures InTime(sim, log + [e], k) {
      assert InTime(sim, log, k);
      assert (log + [e])[..k] == log[..k];
    }
  }

  /** Another event tells the server nothing. */
  lemma OtherEvent(start: Sim, s: State, t: State, e: Event)
    requires WasTold(start, s) && !e.Submitted? && t.log == s.log + [e]
    requires t.sim.(time := start.time) == s.sim.(time := start.time)
    ensures WasTold(start, t)
  {
    hide Told, AllInTime;
    ToldMore(start, s.log, e);
    InTimeStays(start, s.log, e);
  }

  // Submission.

  /** What an accepted submission does. */
  lemma AcceptedIs(sim: Sim, time: int, rw: Dir, sector: nat, count: nat, ioId: int) returns (v: nat)
    requires SubmitRequest(sim, time, rw, sector, count, ioId).Accepted?
    ensures v < |sim.chans| && SizeClass(count * SECTOR_SIZE).Some?
    ensures var completion := time + sim.latency.Of(FollowsChannel(sim.chans, Code(rw), sector), rw,
                                                    SizeClass(count * SECTOR_SIZE).value);
            SubmitRequest(sim, time, rw, sector, count, ioId).sim ==
            sim.(chans := sim.chans[v := SsdChannel(ioId, completion, sector + count, Code(rw))])
  {
    hide FollowsChannel, SizeClass;
    v := FirstLeast(CompletionKeys(sim.chans)).value;
  }

  /** The last time the server was asked about plays no part in it. */
  lemma TimeIsApart(sim: Sim, at: int, time: int, rw: Dir, sector: nat, count: nat, ioId: int)
    requires SubmitRequest(sim, time, rw, sector, count, ioId).Accepted?
    ensures SubmitRequest(sim.(time := at), time, rw, sector, count, ioId) ==
            Accepted(SubmitRequest(sim, time, rw, sector, count, ioId).sim.(time := at))
  {
    hide FollowsChannel, SizeClass, FirstLeast;
  }

  lemma SubmitSim(s: State, req: Request, now: int)
    requires Submit(s, req, now).Moves?
      && SubmitRequest(s.sim, now, req.dir, req.pos, req.Sectors(), s.nextId).Accepted?
    ensures var after, t := SubmitRequest(s.sim, now, req.dir, req.pos, req.Sectors(), s.nextId).sim,
                            Submit(s, req, now).s;
            && t.sim == after
            && t.log == s.log + [Submitted(req, s.nextId, now, CompletionOf(after.chans, s.nextId))]
  {
    hide FindId, Flat, Splice, SubmitRequest, CompletionOf;
  }

  lemma SubmitTold(start: Sim, s: State, req: Request, now: int)
    requires Ready(s) && req.WellFormed() && s.clock <= now && s.latest < now && !KnownTag(s.log, req.tag)
    requires WasTold(start, s) && Submit(s, req, now).Moves?
    ensures WasTold(start, Submit(s, req, now).s)
  {
    hide Told, AllInTime, Submit, SubmitRequest, FollowsChannel, SizeClass, CompletionOf, Flat, Shape, Counted,
      Watermark,
      Conserved, UniqueTags, IdsGrow, SlotsFaithful, TimesFaithful, CommitsFaithful, Ordered, DiskAfter, KnownTag,
          HeldIds,
      LiveIds, Takes;
    var w, c, x := ServerAccepts(s, req, now);
    var v := AcceptedIs(s.sim, now, req.dir, req.pos, req.Sectors(), s.nextId);
    SubmitSim(s, req, now);
    TimeIsApart(s.sim, start.time, now, req.dir, req.pos, req.Sectors(), s.nextId);
    CompletionFound(x.chans, v, s.nextId);
    var e := Submit(s, req, now).s.log[|s.log|];
    ToldMore(start, s.log, e);
    NewInTime(start, s, e);
    InTimeStays(start, s.log, e);
  }

  lemma NewInTime(start: Sim, s: State, e: Event)
    requires WasTold(start, s) && e.Submitted? && SizeClass(e.req.Sectors() * SECTOR_SIZE).Some?
    requires e.completion == e.now + s.sim.latency.Of(FollowsChannel(s.sim.chans, Code(e.req.dir), e.req.pos),
      e.req.dir,
                                                      SizeClass(e.req.Sectors() * SECTOR_SIZE).value)
    ensures InTime(start, s.log + [e], |s.log|)
  {
    hide Told, AllInTime, FollowsChannel, SizeClass, Flat;
    assert (s.log + [e])[..|s.log|] == s.log;
  }

  lemma {:induction false} SubmitAllTold(start: Sim, s: State, batch: seq<(Request, int)>)
    requires Ready(s) && !s.stopped && BatchClimbs(s.clock, batch) && Promised(s.log, batch) && WasTold(start, s)
    requires |batch| > 0 ==> s.latest < batch[0].1
    ensures SubmitAll(s, batch).Moves? ==> WasTold(start, SubmitAll(s, batch).s)
    decreases |batch|
  {
    hide Core, Submit, KnownTag, Promised, BatchClimbs, Extends, Told, AllInTime;
    if |batch| == 0 {
    } else {
      BatchHead(s, batch);
      var req, now := batch[0].0, batch[0].1;
      SubmitKeeps(s, req, now);
      SubmitTold(start, s, req, now);
      var t := Submit(s, req, now).s;
      CoreFacts(t);
      if t.inflight < |t.slots| {
        PromisedRest(s.log, batch, t.log[|s.log|]);
        LaterStill(s.clock, batch);
        SubmitAllTold(start, t, batch[1..]);
      }
    }
  }

  lemma RefreshTold(start: Sim, s: State)
    requires WasTold(start, s)
    ensures WasTold(start, Refresh(s))
  {
    hide Told, AllInTime, NextResponses;
  }

  lemma StrategyTold(start: Sim, s: State, batch: seq<(Request, int)>)
    requires Inv(s) && !s.stopped && BatchClimbs(s.clock, batch) && Promised(s.log, batch) && WasTold(start, s)
    requires Strategy(s, batch).Moves?
    ensures WasTold(start, Strategy(s, batch).s)
  {
    hide Core, Cached, SubmitAll, Promised, WasTold, Refresh, BatchClimbs;
    if |batch| > 0 {
      InvReady(s);
      LateStart(s, batch);
      SubmitAllTold(start, s, batch);
      RefreshTold(start, SubmitAll(s, batch).s);
    }
  }

  lemma LateStart(s: State, batch: seq<(Request, int)>)
    requires Inv(s) && !s.stopped && BatchClimbs(s.clock, batch) && Promised(s.log, batch)
    requires |batch| > 0 && Strategy(s, batch).Moves?
    ensures s.latest < batch[0].1
  {
    hide Core, Cached, Strategy, Promised;
    StrategyHangs(s, batch);
    CoreFacts(s);
  }

  // Delivery.

  lemma DeliverTold(start: Sim, s: State, id: int)
    requires WasTold(start, s) && Deliver(s, id).Moves?
    ensures WasTold(start, Deliver(s, id).s)
  {
    hide Told, AllInTime, FindId, Scatter, Flat;
    var t := Deliver(s, id).s;
    OtherEvent(start, s, t, t.log[|s.log|]);
  }

  lemma {:induction false} DeliverAllTold(start: Sim, s: State, ids: seq<int>)
    requires WasTold(start, s) && DeliverAll(s, ids).Moves?
    ensures WasTold(start, DeliverAll(s, ids).s)
    decreases |ids|
  {
    hide Deliver, WasTold;
    if |ids| == 0 {
    } else {
      DeliverTold(start, s, ids[0]);
      DeliverAllTold(start, Deliver(s, ids[0]).s, ids[1..]);
    }
  }

  lemma {:induction false} DrainTold(start: Sim, s: State, rounds: seq<(int, int)>)
    requires WasTold(start, s) && Drain(s, rounds).Moves?
    ensures WasTold(start, Drain(s, rounds).s)
    decreases |rounds|
  {
    hide DeliverAll, NextResponses, Told, AllInTime;
    if |rounds| == 0 {
    } else {
      var s0 := s.(clock := rounds[0].0);
      DeliverAllTold(start, s0, s0.nextIds);
      DrainFirst(s, rounds);
      var t := DrainOn(s, rounds[0]);
      if t.Some? {
        DrainTold(start, t.value, rounds[1..]);
      }
    }
  }

  // Whole runs.

  lemma NextTold(start: Sim, s: State, l: Label)
    requires Inv(s) && WasTold(start, s) && Next(s, l).Moves?
    ensures WasTold(start, Next(s, l).s)
  {
    hide Inv, Drain, Strategy, Promised, BatchClimbs, RoundsClimb, Told, AllInTime;
    match l
    case Queue(batch) => StrategyTold(start, s, batch);
    case TakeLock(rounds) => if s.thread.Fired? { DrainTold(start, s, rounds); }
    case Softirq(req) => OtherEvent(start, s, Retire(s, req), Retired(req));
    case _ =>
  }

  lemma {:induction false} RunTold(start: Sim, s: State, labels: seq<Label>)
    requires Inv(s) && WasTold(start, s) && Run(s, labels).Moves?
    ensures WasTold(start, Run(s, labels).s)
    decreases |labels|
  {
    hide Next, Inv, WasTold;
    if |labels| == 0 {
    } else {
      NextKeeps(s, labels[0]);
      NextTold(start, s, labels[0]);
      RunTold(start, Next(s, labels[0]).s, labels[1..]);
    }
  }

  /** Over every run the server is told the submissions of the log and nothing else: its channels are what they make
      of the server the run started with; and every request completes after the exact response time of its kind. */
  lemma ServerWasTold(s: State, labels: seq<Label>, speed: int)
    requires Starts(s) && Run(s, labels).Moves? && speed > 0 && s.sim.latency == ServerTables(speed)
    ensures var t := Run(s, labels).s;
            && Told(s.sim, t.log).Some? && Told(s.sim, t.log).value.chans == t.sim.chans
            && (forall k | 0 <= k < |t.log| && t.log[k].Submitted? ::
                  && Told(s.sim, t.log[..k]).Some?
                  && OnSchedule(t.log[k], FollowsChannel(Told(s.sim, t.log[..k]).value.chans, Code(t.log[k].req.dir),
                                                         t.log[k].req.pos), speed))
  {
    hide Inv, Run, Starts, ServerTables, Told, InTime, OnSchedule, AllInTime, FollowsChannel;
    StartsInv(s);
    StartsTold(s);
    RunTold(s.sim, s, labels);
    var t := Run(s, labels).s;
    TimesTold(s.sim, t.log, speed);
  }

  lemma StartsTold(s: State)
    requires Starts(s)
    ensures WasTold(s.sim, s)
  {
  }

  /** A request completes after exactly the response time of its kind. */
  predicate OnSchedule(e: Event, isSequential: bool, speed: int)
    requires e.Submitted?
  {
    var size := SizeClass(e.req.Sectors() * SECTOR_SIZE);
    size.Some? && e.completion == e.now + Nanoseconds(isSequential, e.req.dir, size.value, speed)
  }

  lemma TimesTold(sim: Sim, log: seq<Event>, speed: int)
    requires AllInTime(sim, log) && speed > 0 && sim.latency == ServerTables(speed)
    ensures forall k | 0 <= k < |log| && log[k].Submitted? ::
              && Told(sim, log[..k]).Some?
              && OnSchedule(log[k], FollowsChannel(Told(sim, log[..k]).value.chans, Code(log[k].req.dir),
                   log[k].req.pos),
                            speed)
  {
    hide ServerTables, Told, FollowsChannel, SizeClass, Nanoseconds, Flat;
    forall k | 0 <= k < |log| && log[k].Submitted?
      ensures Told(sim, log[..k]).Some?
      ensures OnSchedule(log[k], FollowsChannel(Told(sim, log[..k]).value.chans, Code(log[k].req.dir), log[k].req.pos),
                         speed)
    {
      assert InTime(sim, log, k);
      var e := log[k];
      ServerTimes(speed, FollowsChannel(Told(sim, log[..k]).value.chans, Code(e.req.dir), e.req.pos), e.req.dir,
                  SizeClass(e.req.Sectors() * SECTOR_SIZE).value);
    }
  }
}
