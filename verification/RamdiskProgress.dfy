/** The ramdisk does what it is handed: what is fetched is submitted, what is woken goes back to sleep until the next
    deadline, and from every state everything outstanding can be brought to its end. */
module RamdiskProgress {
  import opened Block
  import opened Latency
  import opened Scan
  import opened Sleep
  import opened Ramdisk
  import opened RamdiskInv
  import opened RamdiskSteps
  import opened RamdiskDrain
  import opened RamdiskRuns
  import opened RamdiskTheorems

  // Submission.

  lemma SubmitLogs(s: State, req: Request, now: int)
    requires Submit(s, req, now).Moves?
    ensures var t := Submit(s, req, now).s; Logs(s.log, t.log, [(req, now)]) && t.stopped == s.stopped
  {
    hide FirstLeast, Least, SizeClass, Flat, Splice, IsSequential, OutstandingKeys, History, Wakes, Earliest;
  }

  /** When exactly a submission hangs, and why; no other does. */
  lemma SubmitHangsExactly(s: State, req: Request, now: int)
    ensures Submit(s, req, now) == Hangs(RequestTooLarge) <==> req.Bytes() > 65536
    ensures Submit(s, req, now) == Hangs(NoEmptySlot) <==>
              req.Bytes() <= 65536 && forall i | 0 <= i < |s.chans| :: !s.chans[i].completed
    ensures Submit(s, req, now) == Hangs(PastEndOfDevice) <==>
              && req.Bytes() <= 65536 && (exists i | 0 <= i < |s.chans| :: s.chans[i].completed)
              && req.dir == Write && req.Offset() + req.Bytes() > |s.disk|
    ensures Submit(s, req, now).Hangs? ==> Submit(s, req, now).at in {RequestTooLarge, NoEmptySlot, PastEndOfDevice}
    ensures !Submit(s, req, now).Refused?
  {
    hide Flat, Splice, IsSequential, Place, Wakes;
    var keys := CompletedKeys(s.chans);
    assert forall i | 0 <= i < |s.chans| :: keys[i].None? <==> !s.chans[i].completed;
  }

  lemma LogsJoin(a: seq<Event>, b: seq<Event>, c: seq<Event>, one: seq<(Request, int)>, other: seq<(Request, int)>)
    requires Logs(a, b, one) && Logs(b, c, other)
    ensures Logs(a, c, one + other)
  {
    assert c[..|a|] == c[..|b|][..|a|];
    var both := one + other;
    forall i | 0 <= i < |both|
      ensures IsSubmission(c[|a| + i], both[i])
    {
      if i < |one| {
        assert both[i] == one[i] && IsSubmission(b[|a| + i], one[i]);
        assert c[..|b|][|a| + i] == b[|a| + i];
      } else {
        var k := i - |one|;
        assert both[i] == other[k] && c[|a| + i] == c[|b| + k] && IsSubmission(c[|b| + k], other[k]);
      }
    }
    assert |c| == |a| + |both| && c[..|a|] == a;
    assert Logs(a, c, both);
  }

  /** The loop submits the requests it takes, in order, and leaves one only when it stops the queue. */
  lemma {:induction false} SubmitAllLogs(s: State, batch: seq<(Request, int)>, wake: bool) returns (n: nat)
    requires SubmitAll(s, batch, wake).Moves?
    ensures n <= |batch| && Logs(s.log, SubmitAll(s, batch, wake).s.log, batch[..n])
    ensures n == |batch| || SubmitAll(s, batch, wake).s.stopped
    ensures |batch| > 0 ==> n > 0
    decreases |batch|
  {
    hide Submit, Logs;
    if |batch| == 0 {
      n := 0;
      LogsNone(s.log);
    } else {
      var r := Submit(s, batch[0].0, batch[0].1);
      SubmitLogs(s, batch[0].0, batch[0].1);
      assert batch[..1] == [batch[0]];
      if r.s.inflight >= |r.s.chans| {
        n := 1;
      } else {
        var m := SubmitAllLogs(r.s, batch[1..], wake || r.wake);
        n := m + 1;
        LogsJoin(s.log, r.s.log, SubmitAll(s, batch, wake).s.log, [batch[0]], batch[1..][..m]);
        assert [batch[0]] + batch[1..][..m] == batch[..n];
      }
    }
  }

  lemma LogsNone(log: seq<Event>)
    ensures Logs(log, log, [])
  {
  }

  /** What the queue hands out is submitted: the log grows by the submissions of the requests taken, in order and
      each at its own clock reading, and by nothing else; and only a queue that was stopped has requests left. */
  lemma QueueIsServed(s: State, batch: seq<(Request, int)>) returns (n: nat)
    requires Reached(s) && !s.stopped && Climbs(s.clock, Times(batch)) && Promised(s.log, batch)
    ensures Next(s, Queue(batch)).Moves?
    ensures var t := Next(s, Queue(batch)).s;
            && n <= |batch| && Logs(s.log, t.log, batch[..n]) && (n == |batch| || t.stopped)
            && (|batch| > 0 ==> n > 0)
  {
    hide Reached, Inv, Climbs, Promised, SubmitAll, Logs;
    ReachedInv(s);
    StrategyKeeps(s, batch);
    n := SubmitAllLogs(s, batch, false);
  }

  // The completion thread.

  /** When it gives the lock back, the completion thread sleeps: without a timer if nothing is outstanding, and
      otherwise until the earliest outstanding completion time. */
  lemma LockLeavesAsleep(t: State, readings: seq<int>)
    requires Reached(t) && Next(t, TakeLock(readings)).Moves?
    ensures var u := Next(t, TakeLock(readings)).s;
            if forall i | 0 <= i < |u.chans| :: u.chans[i].completed then u.thread == Idle
            else Least(OutstandingKeys(u.chans)).Some? && u.thread == Timed(Least(OutstandingKeys(u.chans)).value)
  {
    hide Reached, Inv, Least;
    ReachedInv(t);
    LockMeansProceed(t, readings);
    ProceedKeeps(t, readings);
    ProceedSleeps(t, readings);
    hide Proceed, Next;
    var u := Proceed(t, readings).s;
    InvSleeps(u);
    NoneLeft(u.chans);
  }

  lemma ProceedSleeps(t: State, readings: seq<int>)
    requires Proceed(t, readings).Moves?
    ensures Proceed(t, readings).s.thread.Idle? || Proceed(t, readings).s.thread.Timed?
  {
    hide Drain;
    if t.thread.Fired? {
      DrainSleeps(t, t.again, readings);
    }
  }

  lemma {:induction false} DrainSleeps(s: State, again: bool, readings: seq<int>)
    requires Drain(s, again, readings).Moves?
    ensures Drain(s, again, readings).s.thread.Idle? || Drain(s, again, readings).s.thread.Timed?
    decreases |readings|
  {
    hide Commit, Flat, PagesOf, Least;
    if |readings| == 0 {
    } else {
      var s0 := s.(clock := readings[0]);
      match FirstLeast(DueKeys(s0.chans, s0.clock))
      case Some(i) => DrainSleeps(Commit(s0, i), false, readings[1..]);
      case None => if again { DrainSleeps(s0, false, readings[1..]); }
    }
  }

  lemma InvSleeps(u: State)
    requires Inv(u)
    ensures Cached(u) && Attentive(u.thread, u.pending, u.deadline, u.clock)
  {
    hide Core, Cached, Separated;
  }

  lemma NoneLeft(chans: seq<Channel>)
    ensures Least(OutstandingKeys(chans)).None? <==> forall i | 0 <= i < |chans| :: chans[i].completed
  {
    hide Least;
    var keys := OutstandingKeys(chans);
    assert forall i | 0 <= i < |chans| :: keys[i].None? <==> chans[i].completed;
  }

  // Everything can be brought to its end.

  predicate NoQueue(labels: seq<Label>) {
    forall k | 0 <= k < |labels| :: !labels[k].Queue?
  }

  /** A thread that is awake but without the lock goes to sleep; one that sleeps until a time is woken by its timer. */
  lemma ThreadFires(t: State) returns (labels: seq<Label>, u: State)
    requires Inv(t) && !t.thread.Idle?
    ensures Run(t, labels) == Moves(u, false) && Inv(u) && u.thread.Fired? && u.chans == t.chans
    ensures u.retiring == t.retiring && u.log == t.log && NoQueue(labels)
  {
    hide Inv;
    labels, u := [], t;
    assert Run(t, []) == Moves(t, false);
    if t.thread.IdleWoken? {
      labels, u := OneMore(t, labels, u, TakeLock([]));
    }
    if !u.thread.Fired? {
      var time := if u.clock <= u.thread.until then u.thread.until else u.clock;
      labels, u := OneMore(t, labels, u, Tick(time));
      labels, u := OneMore(t, labels, u, TimerFires);
    }
  }

  lemma OneMore(t: State, labels: seq<Label>, u: State, l: Label) returns (longer: seq<Label>, v: State)
    requires Inv(t) && Run(t, labels) == Moves(u, false) && Inv(u) && Next(u, l).Moves?
    ensures longer == labels + [l] && v == Next(u, l).s && Run(t, longer) == Moves(v, false) && Inv(v)
  {
    hide Inv, Next, Run;
    NextKeeps(u, l);
    RunOne(u, l);
    RunJoins(t, labels, [l]);
    longer, v := labels + [l], Next(u, l).s;
  }

  predicate AllBefore(chans: seq<Channel>, time: int) {
    forall i | 0 <= i < |chans| :: chans[i].completion < time
  }

  function LaterThanAll(chans: seq<Channel>, from: int): (time: int)
    ensures from <= time && AllBefore(chans, time)
  {
    if |chans| == 0 then
      from
    else
      var time := LaterThanAll(chans[..|chans| - 1], from);
      var last := chans[|chans| - 1].completion + 1;
      assert forall i | 0 <= i < |chans| - 1 :: chans[i] == chans[..|chans| - 1][i];
      if time <= last then last else time
  }

  /** A drain whose readings are all at one time later than every completion time leaves nothing overdue at that
      time. */
  lemma {:induction false} LateDrain(s: State, again: bool, readings: seq<int>, time: int)
    requires AllBefore(s.chans, time) && Drain(s, again, readings).Moves?
    requires forall i | 0 <= i < |readings| :: readings[i] == time
    ensures Drain(s, again, readings).s.clock == time && AllBefore(Drain(s, again, readings).s.chans, time)
    decreases |readings|
  {
    hide Flat, PagesOf, Least;
    if |readings| == 0 {
    } else {
      var s0 := s.(clock := readings[0]);
      match FirstLeast(DueKeys(s0.chans, s0.clock))
      case Some(i) => LateDrain(Commit(s0, i), false, readings[1..], time);
      case None => if again { LateDrain(s0, false, readings[1..], time); }
    }
  }

  lemma SameReadings(from: int, n: nat, time: int, k: nat)
    requires from <= time && k <= n
    ensures Climbs(from, seq(n, _ => time)) && seq(n, _ => time)[..k] == seq(k, _ => time)
  {
  }

  /** A thread whose timer has run out can commit all that is outstanding. */
  lemma AllCommitted(f: State) returns (labels: seq<Label>, u: State)
    requires Inv(f) && f.thread.Fired?
    ensures Run(f, labels) == Moves(u, false) && Inv(u) && NoQueue(labels)
    ensures forall i | 0 <= i < |u.chans| :: u.chans[i].completed
  {
    hide Inv, Drain, OutstandingOf, LaterThanAll, Climbs, Core, Drained;
    var time := LaterThanAll(f.chans, f.clock);
    var n := |OutstandingOf(f.chans)| + 2;
    SameReadings(f.clock, n, time, n);
    FiredParts(f);
    var passes := DrainEndsFrom(f, seq(n, _ => time));
    SameReadings(f.clock, n, time, passes);
    var readings := seq(passes, _ => time);
    ProceedKeeps(f, readings);
    LockMeansProceed(f, readings);
    FiredIsDrain(f, readings);
    LateDrain(f, f.again, readings, time);
    labels, u := [TakeLock(readings)], Proceed(f, readings).s;
    RunOne(f, TakeLock(readings));
    NoneIsOverdue(f, u);
  }

  lemma FiredParts(f: State)
    requires Inv(f) && f.thread.Fired?
    ensures Core(f) && f.deadline <= f.clock
  {
    hide Core, Separated, Cached;
  }

  lemma FiredIsDrain(f: State, readings: seq<int>)
    requires f.thread.Fired? && Proceed(f, readings).Moves?
    ensures Proceed(f, readings) == Drain(f, f.again, readings)
  {
    hide Drain;
  }

  lemma NoneIsOverdue(f: State, u: State)
    requires Drained(f, u) && AllBefore(u.chans, u.clock)
    ensures forall i | 0 <= i < |u.chans| :: u.chans[i].completed
  {
    hide Core, Separated, Cached;
  }

  /** The softirq can retire all that was committed. */
  lemma {:induction false} AllRetired(u: State) returns (labels: seq<Label>, v: State)
    requires Inv(u) && forall i | 0 <= i < |u.chans| :: u.chans[i].completed
    ensures Run(u, labels) == Moves(v, false) && Inv(v)
    ensures v.chans == u.chans && v.retiring == multiset{} && NoQueue(labels)
    decreases |u.retiring|
  {
    hide Inv, Run;
    if u.retiring == multiset{} {
      labels, v := [], u;
      RunNone(u);
    } else {
      var req :| req in u.retiring;
      assert |u.retiring - multiset{req}| == |u.retiring| - 1;
      var w := Next(u, Softirq(req)).s;
      RunOne(u, Softirq(req));
      NextKeeps(u, Softirq(req));
      var rest;
      rest, v := AllRetired(w);
      RunJoins(u, [Softirq(req)], rest);
      labels := [Softirq(req)] + rest;
    }
  }

  /** From every reachable state some run of the clock, the timer, the thread and the softirq brings every request
      submitted so far to its end, so none is ever stuck: neither asleep, nor waiting for the lock, nor in the table. */
  lemma EverythingCanFinish(t: State) returns (labels: seq<Label>)
    requires Reached(t)
    ensures Run(t, labels).Moves?
    ensures var u := Run(t, labels).s; RetiredOf(u.log) == SubmittedOf(u.log) && u.inflight == 0 && !u.stopped
    ensures NoQueue(labels)
  {
    hide Inv, Reached, Run, RetiredOf, SubmittedOf, OutstandingOf;
    ReachedInv(t);
    var u := t;
    labels := [];
    RunNone(t);
    if exists i | 0 <= i < |t.chans| :: !t.chans[i].completed {
      SomethingPends(t);
      var more, f := ThreadFires(t);
      var last, w := AllCommitted(f);
      RunJoins(t, more, last);
      labels, u := more + last, w;
    }
    var end, v := AllRetired(u);
    RunJoins(t, labels, end);
    labels := labels + end;
    AllAccounted(v);
  }

  lemma SomethingPends(t: State)
    requires Inv(t) && exists i | 0 <= i < |t.chans| :: !t.chans[i].completed
    ensures !t.thread.Idle?
  {
    hide Core, Separated, Least;
    NoneLeft(t.chans);
  }

  lemma AllAccounted(v: State)
    requires Inv(v) && v.retiring == multiset{} && forall i | 0 <= i < |v.chans| :: v.chans[i].completed
    ensures RetiredOf(v.log) == SubmittedOf(v.log) && v.inflight == 0 && !v.stopped
  {
    hide RetiredOf, SubmittedOf, Faithful, HoldsLatest, Timely, Legal, CommitOrder, UniqueTags, Ordered, Separated,
      Cached,
      DiskAfter, CommittedOf;
    OutstandingNone(v.chans);
    hide OutstandingOf;
    assert multiset{} + CommittedOf(v.log) == CommittedOf(v.log);
    assert multiset{} + RetiredOf(v.log) == RetiredOf(v.log);
  }
}
