/** The emudisk does what it is handed: what is fetched is submitted, to the server as well, what is woken goes back to
    sleep until the next response, and from every state everything outstanding can be brought to its end. */
module EmudiskProgress {
  import opened Block
  import opened Latency
  import opened Scan
  import opened Sleep
  import opened SsdSim
  import opened Emudisk
  import opened EmudiskInv
  import opened EmudiskSteps
  import opened EmudiskRefresh
  import opened EmudiskDrain
  import opened EmudiskRuns
  import opened EmudiskBooks
  import opened EmudiskTheorems
  import opened EmudiskPlan

  // Submission.

  lemma SubmitLogs(s: State, req: Request, now: int)
    requires Submit(s, req, now).Moves?
    ensures var t := Submit(s, req, now).s; Logs(s.log, t.log, [(req, now)]) && t.stopped == s.stopped
  {
    hide FindId, Flat, Splice, SubmitRequest, CompletionOf;
  }

  /** When exactly a submission hangs that the block layer may make, and why; no other does. */
  lemma SubmitHangsExactly(s: State, req: Request, now: int)
    requires req.WellFormed() && |s.memory| == DISK_BYTES
    requires forall i | 0 <= i < |s.slots| :: |s.slots[i].data| == MAX_REQUEST_BYTES
    ensures Submit(s, req, now) == Hangs(ClockNotPastWatermark) <==> now <= s.latest
    ensures Submit(s, req, now) == Hangs(NoFreeSlot) <==>
              now > s.latest && forall i | 0 <= i < |s.slots| :: s.slots[i].id != 0
    ensures Submit(s, req, now).Hangs? ==> Submit(s, req, now).at in {ClockNotPastWatermark, NoFreeSlot}
    ensures !Submit(s, req, now).Refused?
  {
    hide Flat, Splice, FollowsChannel, FirstLeast, CompletionOf, FindId;
    WholeSectors(req);
  }

  lemma LogsJoin(a: seq<Event>, b: seq<Event>, c: seq<Event>, one: seq<(Request, int)>, other: seq<(Request, int)>)
    requires Logs(a, b, one) && Logs(b, c, other)
    ensures Logs(a, c, one + other)
  {
    assert c[..|a|] == c[..|b|][..|a|];
    var both := one + other;
    forall i | 0 <= i < |both|
      ensures IsSubmission(c[|a| + i], both[i])
    {
      if i < |one| {
        assert both[i] == one[i] && IsSubmission(b[|a| + i], one[i]);
        assert c[..|b|][|a| + i] == b[|a| + i];
      } else {
        var k := i - |one|;
        assert both[i] == other[k] && c[|a| + i] == c[|b| + k] && IsSubmission(c[|b| + k], other[k]);
      }
    }
    assert |c| == |a| + |both| && c[..|a|] == a;
    assert Logs(a, c, both);
  }

  lemma LogsNone(log: seq<Event>)
    ensures Logs(log, log, [])
  {
  }

  /** The loop submits the requests it takes, in order, and leaves one only when it stops the queue. */
  lemma {:induction false} SubmitAllLogs(s: State, batch: seq<(Request, int)>) returns (n: nat)
    requires SubmitAll(s, batch).Moves?
    ensures n <= |batch| && Logs(s.log, SubmitAll(s, batch).s.log, batch[..n])
    ensures n == |batch| || SubmitAll(s, batch).s.stopped
    ensures |batch| > 0 ==> n > 0
    decreases |batch|
  {
    hide Submit, Logs;
    if |batch| == 0 {
      n := 0;
      LogsNone(s.log);
    } else {
      var t := Submit(s, batch[0].0, batch[0].1).s;
      SubmitLogs(s, batch[0].0, batch[0].1);
      assert batch[..1] == [batch[0]];
      if t.inflight >= |t.slots| {
        n := 1;
      } else {
        var m := SubmitAllLogs(t, batch[1..]);
        n := m + 1;
        LogsJoin(s.log, t.log, SubmitAll(s, batch).s.log, [batch[0]], batch[1..][..m]);
        assert [batch[0]] + batch[1..][..m] == batch[..n];
      }
    }
  }

  /** What the queue hands out is submitted, unless the first clock reading is at the watermark: the log grows by the
      submissions of the requests taken, in order and each at its own clock reading, and by nothing else; and only a
      queue that was stopped has requests left. */
  lemma QueueIsServed(s: State, batch: seq<(Request, int)>) returns (n: nat)
    requires Reached(s) && !s.stopped && BatchClimbs(s.clock, batch) && Promised(s.log, batch)
    requires |batch| > 0 ==> batch[0].1 != s.latest
    ensures Strategy(s, batch).Moves? && Next(s, Queue(batch)) == WithinIds(Strategy(s, batch))
    ensures var t := Strategy(s, batch).s;
            && n <= |batch| && Logs(s.log, t.log, batch[..n]) && (n == |batch| || t.stopped)
            && (|batch| > 0 ==> n > 0)
  {
    hide Reached, Inv, BatchClimbs, Promised, SubmitAll, Logs, Refresh;
    ReachedInv(s);
    StrategyHangs(s, batch);
    if |batch| == 0 {
      n := 0;
      LogsNone(s.log);
    } else {
      n := SubmitAllLogs(s, batch);
      RefreshLogs(SubmitAll(s, batch).s);
    }
  }

  lemma RefreshLogs(s: State)
    ensures Refresh(s).log == s.log && Refresh(s).stopped == s.stopped
  {
    hide NextResponses;
  }

  /** The turns of the driver's loop submit all they take. */
  lemma {:induction false} TurnsLog(s: State, queue: seq<Request>, pace: nat -> nat, k: nat)
    requires Turns(s, queue, pace, k).outcome.Moves?
    ensures Logs(s.log, Turns(s, queue, pace, k).outcome.s.log, Taken(s, queue, pace, k))
    decreases |queue|
  {
    hide Submit, Logs, Turns, Taken;
    TurnsStep(s, queue, pace, k);
    if |queue| == 0 {
      NoneTaken(s, pace, k, queue);
      LogsNone(s.log);
    } else {
      TakenIs(s, queue, pace, k);
      var now := s.clock + Lapse(pace, k);
      SubmitLogs(s, queue[0], now);
      var t := Submit(s, queue[0], now).s;
      var u := t.(clock := now + Lapse(pace, k + 1));
      if t.inflight >= |t.slots| {
        assert Taken(s, queue, pace, k) == [(queue[0], now)];
      } else if |queue| == 1 {
        NoneTaken(u, pace, k + 2, queue[1..]);
        assert Taken(s, queue, pace, k) == [(queue[0], now)];
      } else {
        TurnsLog(u, queue[1..], pace, k + 2);
        LogsJoin(s.log, t.log, Turns(s, queue, pace, k).outcome.s.log, [(queue[0], now)],
                 Taken(u, queue[1..], pace, k + 2));
      }
    }
  }

  /** So does the routine: every request it does not leave in the queue is in the log, once. */
  lemma StrategyLogs(s: State, queue: seq<Request>, pace: nat -> nat, k: nat)
    requires StrategyAt(s, queue, pace, k).outcome.Moves?
    ensures Logs(s.log, StrategyAt(s, queue, pace, k).outcome.s.log, Taken(s, queue, pace, k))
  {
    hide Logs, Turns, Taken, Refresh;
    TurnsLog(s, queue, pace, k);
    RefreshLogs(Turns(s, queue, pace, k).outcome.s);
  }

  // The completion thread.

  /** When it gives the lock back, the completion thread sleeps: without a timer if nothing is outstanding, and
      otherwise until the time the server would give for the next responses. */
  lemma LockLeavesAsleep(t: State, rounds: seq<(int, int)>)
    requires Reached(t) && Next(t, TakeLock(rounds)).Moves?
    ensures var u := Next(t, TakeLock(rounds)).s;
            var a := NextResponses(u.sim.chans, u.latest);
            u.thread == if HeldIds(u.slots) == multiset{} then Idle else Timed(a.time)
  {
    hide Reached, Inv, NextResponses, HeldIds, Proceed, Next;
    ReachedInv(t);
    LockMeansProceed(t, rounds);
    ProceedKeeps(t, rounds);
    ProceedSleeps(t, rounds);
    InvSleeps(Proceed(t, rounds).s);
  }

  lemma ProceedSleeps(t: State, rounds: seq<(int, int)>)
    requires Proceed(t, rounds).Moves?
    ensures Proceed(t, rounds).s.thread.Idle? || Proceed(t, rounds).s.thread.Timed?
  {
    hide Drain;
    if t.thread.Fired? {
      DrainSleeps(t, rounds);
    }
  }

  lemma {:induction false} DrainSleeps(s: State, rounds: seq<(int, int)>)
    requires Drain(s, rounds).Moves?
    ensures Drain(s, rounds).s.thread.Idle? || Drain(s, rounds).s.thread.Timed?
    decreases |rounds|
  {
    hide DeliverAll, NextResponses;
    if |rounds| == 0 {
    } else {
      DrainFirst(s, rounds);
      var t := DrainOn(s, rounds[0]);
      if t.Some? {
        DrainSleeps(t.value, rounds[1..]);
      }
    }
  }

  /** In a good state a sleeping thread sleeps as it should. */
  lemma InvSleeps(u: State)
    requires Inv(u) && (u.thread.Idle? || u.thread.Timed?)
    ensures var a := NextResponses(u.sim.chans, u.latest);
            u.thread == if HeldIds(u.slots) == multiset{} then Idle else Timed(a.time)
  {
    hide NextResponses, HeldIds, LiveIds, Shape, Conserved, Counted, UniqueTags, IdsGrow, SlotsFaithful, TimesFaithful,
      CommitsFaithful, Ordered, DiskAfter;
    NextResponsesSome(u.sim.chans, u.latest);
    if forall i | 0 <= i < |u.sim.chans| :: u.sim.chans[i].completion <= u.latest {
      LiveNone(u.sim.chans, u.latest);
    } else {
      var i :| 0 <= i < |u.sim.chans| && u.sim.chans[i].completion > u.latest;
      LiveIn(u.sim.chans, i, u.latest);
    }
  }

  // Both sides have asked, and been asked, about the watermark last.

  predicate AskedLast(s: State) {
    s.sim.time == s.maxQuery == s.latest
  }

  lemma {:induction false} SubmitAllTime(s: State, batch: seq<(Request, int)>)
    requires SubmitAll(s, batch).Moves?
    ensures var t := SubmitAll(s, batch).s; t.sim.time == s.sim.time && t.maxQuery == s.maxQuery && t.latest == s.latest
    decreases |batch|
  {
    hide Flat, FindId, Staged, CompletionOf, FollowsChannel, FirstLeast, SizeClass;
    if |batch| == 0 {
    } else {
      var t := Submit(s, batch[0].0, batch[0].1).s;
      if t.inflight < |t.slots| {
        SubmitAllTime(t, batch[1..]);
      }
    }
  }

  lemma StrategyAsks(s: State, batch: seq<(Request, int)>)
    requires AskedLast(s) && Strategy(s, batch).Moves?
    ensures AskedLast(Strategy(s, batch).s)
  {
    hide SubmitAll, NextResponses;
    if |batch| > 0 {
      SubmitAllTime(s, batch);
    }
  }

  lemma {:induction false} DrainAsks(s: State, rounds: seq<(int, int)>)
    requires RoundDue(s) && AskedLast(s) && RoundsClimb(s.clock, rounds) && Drain(s, rounds).Moves?
    ensures AskedLast(Drain(s, rounds).s)
    decreases |rounds|
  {
    hide Core, Cached, DeliverAll, HeldIds, NextResponses, Drain;
    DrainNone(s);
    var s0 := RoundStart(s, rounds[0].0);
    RoundsOn(s.clock, rounds);
    RoundKeeps(s, rounds[0].0, rounds[0].1);
    DrainUnfolds(s, rounds);
    DeliverAllFrame(s0, s0.nextIds);
    var t := RoundEnd(DeliverAll(s0, s0.nextIds).s, rounds[0].1);
    if t.nextIds != [] && t.nextTime < rounds[0].1 {
      DrainAsks(t, rounds[1..]);
    }
  }

  lemma {:induction false} DeliverAllFrame(s: State, ids: seq<int>)
    requires DeliverAll(s, ids).Moves?
    ensures var t := DeliverAll(s, ids).s; t.sim == s.sim && t.nextId == s.nextId && t.maxQuery == s.maxQuery
    decreases |ids|
  {
    hide FindId, Scatter, Flat;
    if |ids| == 0 {
    } else {
      DeliverAllFrame(Deliver(s, ids[0]).s, ids[1..]);
    }
  }

  lemma NextAsks(s: State, l: Label)
    requires Inv(s) && AskedLast(s) && Next(s, l).Moves?
    ensures AskedLast(Next(s, l).s)
  {
    hide Inv, Drain, Strategy, Promised, BatchClimbs, RoundsClimb, RoundDue;
    match l
    case Queue(batch) => StrategyAsks(s, batch);
    case TakeLock(rounds) =>
      if s.thread.Fired? {
        FiredIsDue(s);
        DrainAsks(s, rounds);
      }
    case _ =>
  }

  lemma {:induction false} RunAsks(s: State, labels: seq<Label>)
    requires Inv(s) && AskedLast(s) && Run(s, labels).Moves?
    ensures AskedLast(Run(s, labels).s)
    decreases |labels|
  {
    hide Next, Inv, AskedLast;
    if |labels| == 0 {
    } else {
      NextKeeps(s, labels[0]);
      NextAsks(s, labels[0]);
      RunAsks(Next(s, labels[0]).s, labels[1..]);
    }
  }

  /** Whenever the lock is free, the last time the driver has asked about, and the last the server was asked about,
      is the watermark. */
  lemma WatermarkWasAsked(t: State)
    requires Reached(t)
    ensures t.sim.time == t.maxQuery == t.latest
  {
    hide Inv, Run;
    var s: State, labels: seq<Label> :| Starts(s) && Run(s, labels) == Moves(t);
    StartsInv(s);
    hide Starts;
    RunAsks(s, labels);
  }

  // Everything can be brought to its end.

  predicate NoQueue(labels: seq<Label>) {
    forall k | 0 <= k < |labels| :: !labels[k].Queue?
  }

  lemma OneMore(t: State, labels: seq<Label>, u: State, l: Label) returns (longer: seq<Label>, v: State)
    requires Inv(t) && Run(t, labels) == Moves(u) && Inv(u) && Next(u, l).Moves?
    ensures longer == labels + [l] && v == Next(u, l).s && Run(t, longer) == Moves(v) && Inv(v)
  {
    hide Inv, Next, Run;
    NextKeeps(u, l);
    RunOne(u, l);
    RunJoins(t, labels, [l]);
    longer, v := labels + [l], Next(u, l).s;
  }

  /** A thread that is awake but without the lock goes to sleep; one that sleeps until a time is woken by its timer. */
  lemma ThreadFires(t: State) returns (labels: seq<Label>, u: State)
    requires Inv(t) && !t.thread.Idle? && t.nextId <= ID_LIMIT
    ensures Run(t, labels) == Moves(u) && Inv(u) && u.thread.Fired? && u.slots == t.slots
    ensures u.nextId == t.nextId && NoQueue(labels)
  {
    hide Inv, Drain;
    labels, u := [], t;
    RunNone(t);
    if t.thread.IdleWoken? {
      labels, u := OneMore(t, labels, u, TakeLock([]));
    }
    if !u.thread.Fired? {
      var time := if u.clock <= u.thread.until then u.thread.until else u.clock;
      labels, u := OneMore(t, labels, u, Tick(time));
      labels, u := OneMore(t, labels, u, TimerFires);
    }
  }

  predicate AllBefore(chans: seq<SsdChannel>, time: int) {
    forall i | 0 <= i < |chans| :: chans[i].completion < time
  }

  function LaterThanAll(chans: seq<SsdChannel>, from: int): (time: int)
    ensures from <= time && AllBefore(chans, time)
  {
    if |chans| == 0 then
      from
    else
      var time := LaterThanAll(chans[..|chans| - 1], from);
      var last := chans[|chans| - 1].completion + 1;
      assert forall i | 0 <= i < |chans| - 1 :: chans[i] == chans[..|chans| - 1][i];
      if time <= last then last else time
  }

  /** A drain whose readings are all at one time ends at that time; each of its rounds takes one packet id. */
  lemma {:induction false} LateDrain(s: State, rounds: seq<(int, int)>, time: int)
    requires Drain(s, rounds).Moves? && forall i | 0 <= i < |rounds| :: rounds[i] == (time, time)
    ensures var t := Drain(s, rounds).s;
            t.clock == time && t.sim.chans == s.sim.chans && t.nextId == s.nextId + |rounds|
    decreases |rounds|
  {
    hide DeliverAll, NextResponses;
    if |rounds| == 0 {
    } else {
      var s0 := s.(clock := rounds[0].0);
      DeliverAllFrame(s0, s0.nextIds);
      DrainFirst(s, rounds);
      var t := DrainOn(s, rounds[0]);
      if t.Some? {
        LateDrain(t.value, rounds[1..], time);
      }
    }
  }

  lemma SameRounds(from: int, n: nat, time: int, k: nat)
    requires from <= time && k <= n
    ensures RoundsClimb(from, seq(n, _ => (time, time)))
    ensures seq(n, _ => (time, time))[..k] == seq(k, _ => (time, time))
  {
  }

  /** A thread whose timer has run out can deliver all that is outstanding. */
  lemma AllDelivered(f: State) returns (labels: seq<Label>, u: State)
    requires Inv(f) && f.thread.Fired? && f.nextId + |HeldIds(f.slots)| <= ID_LIMIT
    ensures Run(f, labels) == Moves(u) && Inv(u) && HeldIds(u.slots) == multiset{} && NoQueue(labels)
  {
    hide Inv, Drain, Proceed, HeldIds, LaterThanAll, RoundsClimb, RoundDue, Drained, Next;
    var time, n := LaterThanAll(f.sim.chans, f.clock), |HeldIds(f.slots)|;
    SameRounds(f.clock, n, time, n);
    FiredIsDue(f);
    var k := DrainTerminates(f, seq(n, _ => (time, time)));
    SameRounds(f.clock, n, time, k);
    SameRounds(f.clock, k, time, k);
    var rounds := seq(k, _ => (time, time));
    LateDrain(f, rounds, time);
    ProceedIs(f);
    ProceedKeeps(f, rounds);
    LockMeansProceed(f, rounds);
    labels, u := [TakeLock(rounds)], Proceed(f, rounds).s;
    RunOne(f, TakeLock(rounds));
    NothingLeft(f, u);
  }

  lemma NothingLeft(f: State, u: State)
    requires Drained(f, u) && AllBefore(u.sim.chans, u.clock)
    ensures HeldIds(u.slots) == multiset{}
  {
    hide HeldIds, LiveIds, Shape, Conserved, Counted, UniqueTags, IdsGrow, SlotsFaithful, TimesFaithful,
      CommitsFaithful,
      Ordered, DiskAfter, IdsAt, Least;
    NextResponsesSome(u.sim.chans, u.latest);
    NextIsSomeones(u.sim.chans, u.latest);
    assert u.nextIds == [];
    LiveNone(u.sim.chans, u.latest);
  }

  lemma NextIsSomeones(chans: seq<SsdChannel>, time: int)
    ensures NextResponses(chans, time).ids != [] ==>
              exists i | 0 <= i < |chans| :: chans[i].completion == NextResponses(chans, time).time
  {
    hide Least;
    NextResponsesSome(chans, time);
    var a := NextResponses(chans, time);
    if a.ids != [] {
      var keys := AfterKeys(chans, time);
      var i :| 0 <= i < |keys| && keys[i] == Some(a.time);
      assert chans[i].completion == a.time;
    }
  }

  /** The softirq can retire all that was delivered. */
  lemma {:induction false} AllRetired(u: State) returns (labels: seq<Label>, v: State)
    requires Inv(u) && HeldIds(u.slots) == multiset{}
    ensures Run(u, labels) == Moves(v) && Inv(v)
    ensures v.slots == u.slots && v.retiring == multiset{} && NoQueue(labels)
    decreases |u.retiring|
  {
    hide Inv, Run, HeldIds;
    if u.retiring == multiset{} {
      labels, v := [], u;
      RunNone(u);
    } else {
      var req :| req in u.retiring;
      assert |u.retiring - multiset{req}| == |u.retiring| - 1;
      var w := Next(u, Softirq(req)).s;
      RunOne(u, Softirq(req));
      NextKeeps(u, Softirq(req));
      var rest;
      rest, v := AllRetired(w);
      RunJoins(u, [Softirq(req)], rest);
      labels := [Softirq(req)] + rest;
    }
  }

  /** From every reachable state with packet ids to spare, some run of the clock, the timer, the thread and the softirq
      brings every request submitted so far to its end, so none is ever stuck: every id submitted is delivered, every
      request delivered is retired, and the queue runs. */
  lemma EverythingCanFinish(t: State) returns (labels: seq<Label>)
    requires Reached(t) && t.nextId + |HeldIds(t.slots)| <= ID_LIMIT
    ensures Run(t, labels).Moves? && NoQueue(labels)
    ensures var u := Run(t, labels).s;
            && CommittedIds(u.log) == SubmittedIds(u.log) && RetiredOf(u.log) == DeliveredOf(u.log)
            && u.inflight == 0 && !u.stopped
  {
    hide Inv, Reached, Run, HeldIds, CommittedIds, SubmittedIds, RetiredOf, DeliveredOf, Balanced;
    ReachedInv(t);
    ReachedBalanced(t);
    var u := t;
    labels := [];
    RunNone(t);
    if HeldIds(t.slots) != multiset{} {
      SomethingPends(t);
      var more, f := ThreadFires(t);
      var last, w := AllDelivered(f);
      RunJoins(t, more, last);
      labels, u := more + last, w;
    }
    var end, v := AllRetired(u);
    RunJoins(t, labels, end);
    labels := labels + end;
    RunBalances(t, labels);
    AllAccounted(v);
  }

  lemma SomethingPends(t: State)
    requires Inv(t) && HeldIds(t.slots) != multiset{}
    ensures !t.thread.Idle?
  {
    hide Inv, HeldIds;
    if t.thread.Idle? {
      IdleHoldsNothing(t);
    }
  }

  lemma IdleHoldsNothing(t: State)
    requires Inv(t) && t.thread.Idle?
    ensures HeldIds(t.slots) == multiset{}
  {
    hide HeldIds, LiveIds, Shape, Conserved, Counted, UniqueTags, IdsGrow, SlotsFaithful, TimesFaithful,
      CommitsFaithful,
      Ordered, DiskAfter, NextResponses;
    NextResponsesSome(t.sim.chans, t.latest);
    LiveNone(t.sim.chans, t.latest);
  }

  lemma AllAccounted(v: State)
    requires Inv(v) && Balanced(v) && v.retiring == multiset{} && HeldIds(v.slots) == multiset{}
    ensures CommittedIds(v.log) == SubmittedIds(v.log) && RetiredOf(v.log) == DeliveredOf(v.log)
    ensures v.inflight == 0 && !v.stopped
  {
    hide HeldIds, LiveIds, Agreed, UniqueTags, IdsGrow, SlotsFaithful, TimesFaithful, CommitsFaithful, Ordered,
      DiskAfter,
      NextResponses, CommittedIds, SubmittedIds, RetiredOf, DeliveredOf;
    assert multiset{} + CommittedIds(v.log) == CommittedIds(v.log);
    assert multiset{} + RetiredOf(v.log) == RetiredOf(v.log);
  }
}
