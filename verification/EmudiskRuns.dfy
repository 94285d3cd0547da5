/** Whole runs of the emudisk with its server. */
module EmudiskRuns {
  import opened Block
  import opened Sleep
  import opened SsdSim
  import opened Emudisk
  import opened EmudiskInv
  import opened EmudiskSteps
  import opened EmudiskRefresh
  import opened EmudiskDrain

  lemma StartsInv(s: State)
    requires Starts(s)
    ensures Inv(s)
  {
    hide HeldIds, LiveIds, NextResponses;
    HeldNone(s.slots);
    LiveNone(s.sim.chans, s.latest);
    NextResponsesSome(s.sim.chans, s.latest);
  }

  lemma TickKeeps(s: State, to: int)
    requires Inv(s) && s.clock <= to
    ensures Inv(s.(clock := to))
  {
    hide Core, NextResponses;
    ClockFrame(s, to);
  }

  lemma ThreadKeeps(s: State, t: State)
    requires Inv(s) && t == s.(thread := t.thread) && Attentive(t.thread, s.nextIds != [], s.nextTime, s.clock)
    ensures Inv(t)
  {
    hide Core, NextResponses;
    CoreFrame(s, t);
  }

  lemma RetireCore(s: State, req: Request)
    requires Core(s) && req in s.retiring
    ensures Core(Retire(s, req))
  {
    hide DiskAfter, SlotFaithful, CommitsFaithful, HeldIds, LiveIds, SubmittedIds, CommittedIds, GivenTime, Flat;
    var t := Retire(s, req);
    var e := Retired(req);
    Append(s.log, e, s.image);
    CommitsStay(s.log, e, s.image);
    assert |s.retiring - multiset{req}| == |s.retiring| - 1;
    assert SubmittedIds(s.log) + multiset{} == SubmittedIds(s.log);
    assert CommittedIds(s.log) + multiset{} == CommittedIds(s.log);
    forall j | 0 <= j < |t.sim.chans| && t.sim.chans[j].completion > t.latest
      ensures GivenTime(t.log, t.sim.chans[j].ioId, t.sim.chans[j].completion)
    {
      GivenStays(s.log, e, s.sim.chans[j].ioId, s.sim.chans[j].completion);
    }
    forall j | 0 <= j < |t.slots| ensures SlotFaithful(t.log, t.image, t.slots[j]) {
      SlotStays(s.log, e, s.image, s.slots[j]);
    }
  }

  lemma RetireKeeps(s: State, req: Request)
    requires Inv(s) && req in s.retiring
    ensures Inv(Retire(s, req))
  {
    hide Core, NextResponses;
    RetireCore(s, req);
    CoreFacts(s);
  }

  lemma FiredIsDue(s: State)
    requires Inv(s) && s.thread.Fired?
    ensures RoundDue(s)
  {
    hide Core, NextResponses;
  }

  lemma ProceedKeeps(s: State, rounds: seq<(int, int)>)
    requires Inv(s) && RoundsClimb(s.clock, rounds)
    ensures !Proceed(s, rounds).Hangs?
    ensures Proceed(s, rounds).Moves? ==> Inv(Proceed(s, rounds).s)
    ensures Proceed(s, rounds).Moves? && s.thread.Fired? ==> Drained(s, Proceed(s, rounds).s)
  {
    hide Core, Drain, Cached, RoundDue;
    if s.thread.Fired? {
      FiredIsDue(s);
      DrainKeeps(s, rounds);
    } else if s.thread.IdleWoken? || s.thread.Interrupted? {
      ThreadKeeps(s, s.(thread := Timed(s.nextTime)));
    }
  }

  lemma FireKeeps(s: State)
    requires Inv(s) && s.thread.CanFire(s.clock)
    ensures Inv(s.(thread := Fired(s.thread.until)))
  {
    hide Core, Cached;
    ThreadKeeps(s, s.(thread := Fired(s.thread.until)));
  }

  /** The first clock reading of a batch equals the watermark. */
  predicate SubmitsAtWatermark(s: State, l: Label) {
    l.Queue? && |l.batch| > 0 && !s.stopped && BatchClimbs(s.clock, l.batch) && Promised(s.log, l.batch)
        && l.batch[0].1 == s.latest
  }

  /** From a good state the only step that hangs is a submission that reads the clock at the watermark; every other step
      leads to a good state. */
  lemma NextKeeps(s: State, l: Label)
    requires Inv(s)
    ensures Next(s, l).Hangs? <==> SubmitsAtWatermark(s, l)
    ensures Next(s, l).Hangs? ==> Next(s, l).at == ClockNotPastWatermark
    ensures Next(s, l).Moves? ==> Inv(Next(s, l).s)
  {
    hide Inv, Strategy, Promised, BatchClimbs, RoundsClimb, Proceed, Retire;
    match l
    case Tick(to) =>
      if s.clock <= to { TickKeeps(s, to); }
    case Queue(batch) =>
      if !s.stopped && BatchClimbs(s.clock, batch) && Promised(s.log, batch) { StrategyHangs(s, batch); }
    case TimerFires =>
      if s.thread.CanFire(s.clock) { FireKeeps(s); }
    case TakeLock(rounds) =>
      if RoundsClimb(s.clock, rounds) { ProceedKeeps(s, rounds); }
    case Softirq(req) =>
      if req in s.retiring { RetireKeeps(s, req); }
  }

  lemma {:induction false} RunKeeps(s: State, labels: seq<Label>)
    requires Inv(s)
    ensures Run(s, labels).Hangs? ==> Run(s, labels).at == ClockNotPastWatermark
    ensures Run(s, labels).Moves? ==> Inv(Run(s, labels).s)
    decreases |labels|
  {
    if |labels| == 0 {
    } else {
      hide Next, Inv;
      NextKeeps(s, labels[0]);
      if Next(s, labels[0]).Moves? {
        RunKeeps(Next(s, labels[0]).s, labels[1..]);
      }
    }
  }

  ghost predicate Reached(t: State) {
    exists s: State, labels: seq<Label> :: Starts(s) && Run(s, labels) == Moves(t)
  }

  lemma ReachedInv(t: State)
    requires Reached(t)
    ensures Inv(t)
  {
    hide Inv, Run, Starts;
    var s: State, labels: seq<Label> :| Starts(s) && Run(s, labels) == Moves(t);
    StartsInv(s);
    RunKeeps(s, labels);
  }

  lemma ReachedParts(t: State)
    requires Reached(t)
    ensures Core(t) && Cached(t) && Attentive(t.thread, t.nextIds != [], t.nextTime, t.clock)
    ensures t.stopped <==> t.inflight == |t.slots|
  {
    hide Reached;
    ReachedInv(t);
  }

  // Runs in pieces.

  lemma RunNone(u: State)
    ensures Run(u, []) == Moves(u)
  {
  }

  lemma RunOne(s: State, l: Label)
    ensures Run(s, [l]) == Next(s, l)
  {
    hide Next;
    assert [l][1..] == [];
    if Next(s, l).Moves? {
      assert Run(Next(s, l).s, []) == Moves(Next(s, l).s);
    }
  }

  lemma RunFirst(s: State, l: Label, rest: seq<Label>)
    requires Next(s, l).Moves?
    ensures Run(s, [l] + rest) == Run(Next(s, l).s, rest)
  {
    hide Next;
    assert ([l] + rest)[1..] == rest;
  }

  lemma {:induction false} RunJoins(s: State, labels: seq<Label>, more: seq<Label>)
    requires Run(s, labels).Moves?
    ensures Run(s, labels + more) == Run(Run(s, labels).s, more)
    decreases |labels|
  {
    hide Next;
    if |labels| == 0 {
      assert labels + more == more;
    } else {
      assert (labels + more)[1..] == labels[1..] + more;
      RunJoins(Next(s, labels[0]).s, labels[1..], more);
    }
  }
}
