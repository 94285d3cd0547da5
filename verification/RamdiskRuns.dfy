/** Whole runs of the ramdisk: every interleaving of submissions, sleeps, timers, drains and softirqs. */
module RamdiskRuns {
  import opened Block
  import opened Sleep
  import opened Ramdisk
  import opened RamdiskInv
  import opened RamdiskSteps
  import opened RamdiskDrain

  /** The state after the steps `labels`, unless a step hangs or is not possible. */
  function Run(s: State, labels: seq<Label>): Outcome
    decreases |labels|
  {
    if |labels| == 0 then Moves(s, false)
    else match Next(s, labels[0])
         case Moves(s', _) => Run(s', labels[1..])
         case other => other
  }

  // Every step keeps the invariant.

  lemma StartsInv(s: State)
    requires Starts(s)
    ensures Inv(s)
  {
    hide OutstandingOf;
    OutstandingNone(s.chans);
    assert FullHistory(s) == Zeros(|s.chans|);
    forall k | 0 <= k < |s.chans| ensures k in s.owner {
      assert s.owner[k] == k;
    }
  }

  lemma TickKeeps(s: State, to: int)
    requires Inv(s) && s.clock <= to
    ensures Inv(s.(clock := to))
  {
    hide Core;
    ClockFrame(s, to);
  }

  lemma ThreadKeeps(s: State, t: State)
    requires Inv(s) && t == s.(thread := t.thread) && Attentive(t.thread, s.pending, s.deadline, s.clock)
    ensures Inv(t)
  {
    hide Core, Separated;
    CoreFrame(s, t);
  }

  lemma BooksRetire(c: multiset<Request>, d: multiset<Request>, e: multiset<Request>, r: Request)
    requires c == d + e && r in d
    ensures c == (d - multiset{r}) + (e + multiset{r})
    ensures |d - multiset{r}| == |d| - 1
  {
    assert d == d - multiset{r} + multiset{r};
    assert (d - multiset{r}) + (e + multiset{r}) == d - multiset{r} + multiset{r} + e;
  }

  lemma RetireCore(s: State, req: Request)
    requires Core(s) && req in s.retiring
    ensures Core(Retire(s, req))
  {
    hide Flat, History, DiskAfter, OutstandingOf, CommittedOf, SubmittedOf, RetiredOf, PagesOf, Legal;
    var t := Retire(s, req);
    var e := Retired(req);
    Append(s.log, e, s.image);
    FreshTag(s.log, e);
    LegalAppend(s.image, s.log, e);
    BooksRetire(CommittedOf(s.log), s.retiring, RetiredOf(s.log), req);
    assert SubmittedOf(s.log) + multiset{} == SubmittedOf(s.log);
    assert CommittedOf(s.log) + multiset{} == CommittedOf(s.log);
    hide UniqueTags, HoldsLatest;
    RetireStory(s, req);
    RetireLatest(s, req);
  }

  lemma RetireLatest(s: State, req: Request)
    requires HoldsLatest(s)
    ensures HoldsLatest(Retire(s, req))
  {
    assert Retire(s, req).log[..|s.log|] == s.log;
    assert FullHistory(Retire(s, req)) == FullHistory(s);
  }

  lemma RetireStory(s: State, req: Request)
    requires Faithful(s) && CommitOrder(s.log) && Timely(s)
    ensures var t := Retire(s, req); Faithful(t) && CommitOrder(t.log) && Timely(t)
  {
    var t := Retire(s, req);
    forall j | 0 <= j < |t.chans| && !t.chans[j].completed && t.chans[j].request.Some?
      ensures WasSubmitted(t.log, t.chans[j].request.value, t.chans[j].completion)
    {
      SubmittedStays(s.log, Retired(req), s.chans[j].request.value, s.chans[j].completion);
    }
    forall k | 0 <= k < |t.log| && t.log[k].Committed?
      ensures WasSubmitted(t.log[..k], t.log[k].req, t.log[k].completion)
    {
      assert t.log[..k] == s.log[..k];
    }
  }

  lemma RetireKeeps(s: State, req: Request)
    requires Inv(s) && req in s.retiring
    ensures Inv(Retire(s, req))
  {
    hide Core;
    RetireCore(s, req);
    InvParts(s);
  }

  lemma ProceedKeeps(s: State, readings: seq<int>)
    requires Inv(s) && Climbs(s.clock, readings)
    ensures !Proceed(s, readings).Hangs?
    ensures Proceed(s, readings).Moves? ==> Inv(Proceed(s, readings).s)
    ensures Proceed(s, readings).Moves? && s.thread.Fired? ==> Drained(s, Proceed(s, readings).s)
  {
    hide Core, Separated, Cached, Drain, NoneOverdue;
    if s.thread.Fired? {
      DrainKeeps(s, s.again, readings);
    } else if s.thread.IdleWoken? || s.thread.Interrupted? {
      ThreadKeeps(s, s.(thread := Timed(s.deadline)));
    }
  }

  /** No step from a good state hangs, and every step leads to a good state. */
  lemma NextKeeps(s: State, l: Label)
    requires Inv(s)
    ensures !Next(s, l).Hangs?
    ensures Next(s, l).Moves? ==> Inv(Next(s, l).s)
  {
    hide Inv, Strategy, Promised, Climbs, Proceed, Retire;
    match l
    case Tick(to) =>
      if s.clock <= to { TickKeeps(s, to); }
    case Queue(batch) =>
      if !s.stopped && Climbs(s.clock, Times(batch)) && Promised(s.log, batch) { StrategyKeeps(s, batch); }
    case TimerFires =>
      if s.thread.CanFire(s.clock) { FireKeeps(s); }
    case TakeLock(readings) =>
      if Climbs(s.clock, readings) { ProceedKeeps(s, readings); }
    case Softirq(req) =>
      if req in s.retiring { RetireKeeps(s, req); }
  }

  lemma FireKeeps(s: State)
    requires Inv(s) && s.thread.CanFire(s.clock)
    ensures Inv(s.(thread := Fired(s.thread.until)))
  {
    hide Core, Separated, Cached;
    ThreadKeeps(s, s.(thread := Fired(s.thread.until)));
  }

  /** No run of the ramdisk, whatever the interleaving, reaches one of the loops that hang it, and every state a run
      reaches satisfies the invariant. */
  lemma {:induction false} RunKeeps(s: State, labels: seq<Label>)
    requires Inv(s)
    ensures !Run(s, labels).Hangs?
    ensures Run(s, labels).Moves? ==> Inv(Run(s, labels).s)
    decreases |labels|
  {
    if |labels| == 0 {
    } else {
      hide Next, Inv;
      NextKeeps(s, labels[0]);
      if Next(s, labels[0]).Moves? {
        RunKeeps(Next(s, labels[0]).s, labels[1..]);
      }
    }
  }

  /** `t` is reached from a start. */
  ghost predicate Reached(t: State) {
    exists s: State, labels: seq<Label> :: Starts(s) && Run(s, labels) == Moves(t, false)
  }

  lemma ReachedInv(t: State)
    requires Reached(t)
    ensures Inv(t)
  {
    hide Inv, Run, Starts;
    var s: State, labels: seq<Label> :| Starts(s) && Run(s, labels) == Moves(t, false);
    StartsInv(s);
    RunKeeps(s, labels);
  }

  lemma ReachedParts(t: State)
    requires Reached(t)
    ensures Core(t) && Separated(t) && Cached(t) && Attentive(t.thread, t.pending, t.deadline, t.clock)
  {
    hide Reached;
    ReachedInv(t);
  }

  // Runs in pieces.

  lemma RunNone(u: State)
    ensures Run(u, []) == Moves(u, false)
  {
  }

  lemma RunOne(s: State, l: Label)
    requires Next(s, l).Moves?
    ensures Run(s, [l]) == Moves(Next(s, l).s, false)
  {
    hide Next;
    assert [l][1..] == [];
    assert Run(Next(s, l).s, []) == Moves(Next(s, l).s, false);
  }

  lemma {:induction false} RunJoins(s: State, labels: seq<Label>, more: seq<Label>)
    requires Run(s, labels).Moves?
    ensures Run(s, labels + more) == Run(Run(s, labels).s, more)
    decreases |labels|
  {
    hide Next;
    if |labels| == 0 {
      assert labels + more == more;
    } else {
      assert (labels + more)[1..] == labels[1..] + more;
      RunJoins(Next(s, labels[0]).s, labels[1..], more);
    }
  }
}
