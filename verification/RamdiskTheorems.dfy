/** What every run of the ramdisk guarantees. */
module RamdiskTheorems {
  import opened Block
  import opened Scan
  import opened Sleep
  import opened Ramdisk
  import opened RamdiskInv
  import opened RamdiskSteps
  import opened RamdiskDrain
  import opened RamdiskRuns

  /** Responses are committed in the order of their completion times over the whole run, each after its own time and
      with the time computed when its request was submitted, and none is ever overtaken by one still outstanding. */
  lemma CommitsInOrder(t: State)
    requires Reached(t)
    ensures forall i, j | 0 <= i < j < |t.log| && t.log[i].Committed? && t.log[j].Committed? ::
              t.log[i].completion <= t.log[j].completion
    ensures forall k | 0 <= k < |t.log| && t.log[k].Committed? ::
              t.log[k].completion < t.log[k].at <= t.clock
                  && WasSubmitted(t.log[..k], t.log[k].req, t.log[k].completion)
    ensures forall k, i | 0 <= k < |t.log| && t.log[k].Committed? && 0 <= i < |t.chans| && !t.chans[i].completed ::
              t.log[k].completion <= t.chans[i].completion
  {
    hide Reached;
    ReachedInv(t);
    hide Shape, Ordered, HoldsLatest, Counted, Conserved, UniqueTags, Legal, DiskAfter, Separated, Cached, Attentive;
  }

  /** The channel table always holds as many entries of the history as there are channels, and no entry that is not
      in the table completes after one that is: eviction, which never looks at outstanding channels, keeps the
      latest. */
  lemma TableHoldsLatest(t: State)
    requires Reached(t)
    ensures |t.owner| == |t.chans|
    ensures forall i, j | 0 <= i < j < |t.owner| :: t.owner[i] != t.owner[j]
    ensures forall i | 0 <= i < |t.owner| ::
              t.owner[i] < |FullHistory(t)| && FullHistory(t)[t.owner[i]] == Remembers(t.chans[i])
    ensures forall k, i | 0 <= k < |FullHistory(t)| && k !in t.owner && 0 <= i < |t.chans| ::
              FullHistory(t)[k].completion <= t.chans[i].completion
  {
    hide Reached, FullHistory;
    ReachedInv(t);
  }

  // Classification against the history.

  /** How many entries complete strictly after `v`. */
  function LaterThan(h: seq<Entry>, v: int): set<nat> {
    set k | 0 <= k < |h| && h[k].completion > v
  }

  predicate Continues(e: Entry, dir: Dir, pos: nat) {
    e.rw == dir && e.lastSector == pos
  }

  /** Among the `n` latest-completing entries one has this direction and ends where the request starts. */
  predicate FollowsOneOfLatest(h: seq<Entry>, n: nat, dir: Dir, pos: nat) {
    exists k | 0 <= k < |h| :: Continues(h[k], dir, pos) && |LaterThan(h, h[k].completion)| < n
  }

  /** Entries with equal completion times are equal in what the classification reads. */
  predicate TiesAgree(h: seq<Entry>) {
    forall j, k | 0 <= j < |h| && 0 <= k < |h| && h[j].completion == h[k].completion :: h[j] == h[k]
  }

  function SetOf(xs: seq<nat>): set<nat> {
    set x | x in xs
  }

  lemma {:induction false} DistinctCount(xs: seq<nat>)
    requires forall i, j | 0 <= i < j < |xs| :: xs[i] != xs[j]
    ensures |SetOf(xs)| == |xs|
    decreases |xs|
  {
    if |xs| == 0 {
    } else {
      var front, last := xs[..|xs| - 1], xs[|xs| - 1];
      DistinctCount(front);
      assert xs == front + [last];
      assert last !in SetOf(front);
      assert SetOf(xs) == SetOf(front) + {last};
    }
  }

  lemma SubsetCount(a: set<nat>, b: set<nat>)
    requires a <= b
    ensures |a| <= |b|
  {
    assert b == a + (b - a);
  }

  /** A held entry is later than all but fewer than `n` entries. */
  lemma HeldIsLate(s: State, i: nat)
    requires HoldsLatest(s) && i < |s.chans|
    ensures |LaterThan(FullHistory(s), s.chans[i].completion)| < |s.chans|
  {
    hide FullHistory;
    var h := FullHistory(s);
    var held := SetOf(s.owner);
    DistinctCount(s.owner);
    assert s.owner[i] in held;
    assert held == held - {s.owner[i]} + {s.owner[i]};
    assert LaterThan(h, s.chans[i].completion) <= held - {s.owner[i]};
    SubsetCount(LaterThan(h, s.chans[i].completion), held - {s.owner[i]});
  }

  /** An entry that is not held but has fewer than `n` later ones ties with one that is held. */
  lemma LateTies(s: State, k: nat) returns (i: nat)
    requires HoldsLatest(s) && k < |FullHistory(s)| && |s.chans| > 0
    requires |LaterThan(FullHistory(s), FullHistory(s)[k].completion)| < |s.chans|
    ensures i < |s.chans| && s.chans[i].completion == FullHistory(s)[k].completion
  {
    hide FullHistory;
    var h := FullHistory(s);
    if k in s.owner {
      i :| 0 <= i < |s.owner| && s.owner[i] == k;
    } else {
      DistinctCount(s.owner);
      var held := SetOf(s.owner);
      if forall j | 0 <= j < |s.owner| :: s.chans[j].completion > h[k].completion {
        assert held <= LaterThan(h, h[k].completion);
        SubsetCount(held, LaterThan(h, h[k].completion));
        assert false;
      }
      i :| 0 <= i < |s.owner| && s.chans[i].completion <= h[k].completion;
    }
  }

  /** An entry that was evicted while one that completes at the same time is still held. */
  predicate EvictedTie(s: State, dir: Dir, pos: nat) {
    var h := FullHistory(s);
    exists k, i | 0 <= k < |h| && 0 <= i < |s.chans| ::
      k !in s.owner && Continues(h[k], dir, pos) && h[k].completion == s.chans[i].completion
  }

  /** The scan of the channel table answers the question about the whole history: the request follows one of the
      latest-completing entries if and only if it is classified sequential, or follows an entry evicted in a tie. When
      equal completion times do not hide a difference, the second makes no difference. */
  lemma ClassifiedByHistory(t: State, dir: Dir, pos: nat)
    requires Reached(t)
    ensures FollowsOneOfLatest(FullHistory(t), |t.chans|, dir, pos) <==>
            IsSequential(t.chans, dir, pos) || EvictedTie(t, dir, pos)
    ensures TiesAgree(FullHistory(t)) ==>
              (IsSequential(t.chans, dir, pos) <==> FollowsOneOfLatest(FullHistory(t), |t.chans|, dir, pos))
  {
    hide Reached, FullHistory, LaterThan, Inv, FollowsOneOfLatest, IsSequential, EvictedTie, TiesAgree;
    ReachedInv(t);
    InvHolds(t);
    ClassifiedTable(t, dir, pos);
  }

  lemma InvHolds(t: State)
    requires Inv(t)
    ensures HoldsLatest(t) && |t.chans| > 0
  {
    hide FullHistory, HoldsLatest;
  }

  lemma ClassifiedTable(t: State, dir: Dir, pos: nat)
    requires HoldsLatest(t) && |t.chans| > 0
    ensures FollowsOneOfLatest(FullHistory(t), |t.chans|, dir, pos) <==>
            IsSequential(t.chans, dir, pos) || EvictedTie(t, dir, pos)
    ensures TiesAgree(FullHistory(t)) && EvictedTie(t, dir, pos) ==> IsSequential(t.chans, dir, pos)
  {
    hide FullHistory, LaterThan;
    var h := FullHistory(t);
    if IsSequential(t.chans, dir, pos) {
      var i :| 0 <= i < |t.chans| && t.chans[i].rw == dir && t.chans[i].lastSector == pos;
      HeldIsLate(t, i);
      assert Continues(h[t.owner[i]], dir, pos);
    }
    if EvictedTie(t, dir, pos) {
      var k, i :| 0 <= k < |h| && 0 <= i < |t.chans| &&
        k !in t.owner && Continues(h[k], dir, pos) && h[k].completion == t.chans[i].completion;
      HeldIsLate(t, i);
      assert TiesAgree(h) ==> h[t.owner[i]] == h[k];
    }
    if FollowsOneOfLatest(h, |t.chans|, dir, pos) {
      var k :| 0 <= k < |h| && Continues(h[k], dir, pos) && |LaterThan(h, h[k].completion)| < |t.chans|;
      if k in t.owner {
        var i :| 0 <= i < |t.owner| && t.owner[i] == k;
        assert t.chans[i].rw == dir && t.chans[i].lastSector == pos;
      } else {
        var i := LateTies(t, k);
      }
    }
  }

  // Admission, conservation, wake-ups.

  lemma {:induction false} SubmittedOnce(log: seq<Event>, req: Request)
    requires UniqueTags(log)
    ensures SubmittedOf(log)[req] <= 1
    ensures SubmittedOf(log)[req] > 0 ==> exists k | 0 <= k < |log| :: log[k].Submitted? && log[k].req == req
    decreases |log|
  {
    if |log| == 0 {
    } else {
      var front := log[..|log| - 1];
      SubmittedOnce(front, req);
      if SubmittedOf(front)[req] > 0 {
        var k :| 0 <= k < |front| && front[k].Submitted? && front[k].req == req;
        assert log[k].Submitted? && log[k].req == req;
      }
      if log[|log| - 1].Submitted? && log[|log| - 1].req == req {
        assert SubmittedOf(front)[req] == 0;
      }
    }
  }

  /** Every request submitted is exactly one of outstanding, committed and not yet retired, or retired; the counter of
      requests in flight counts the first two kinds, never exceeds the number of channels, and reaches it exactly when
      the queue is stopped; so a running queue always finds a free channel. */
  lemma AdmissionConserved(t: State)
    requires Reached(t)
    ensures SubmittedOf(t.log) == OutstandingOf(t.chans) + t.retiring + RetiredOf(t.log)
    ensures forall r :: SubmittedOf(t.log)[r] <= 1
    ensures t.inflight == |OutstandingOf(t.chans)| + |t.retiring| <= |t.chans|
    ensures t.stopped <==> t.inflight == |t.chans|
    ensures !t.stopped ==> exists i | 0 <= i < |t.chans| :: t.chans[i].completed
  {
    hide Reached;
    ReachedInv(t);
    InvParts(t);
    hide Faithful, HoldsLatest, Legal, Timely, CommitOrder, Cached, OutstandingOf, SubmittedOf, CommittedOf, RetiredOf;
    assert OutstandingOf(t.chans) + (t.retiring + RetiredOf(t.log)) ==
      OutstandingOf(t.chans) + t.retiring + RetiredOf(t.log);
    forall r ensures SubmittedOf(t.log)[r] <= 1 {
      SubmittedOnce(t.log, r);
    }
    if !t.stopped {
      var i := FreeChannel(t);
    }
  }

  /** No wake-up is lost. A thread asleep without a timer means that nothing is outstanding; a thread asleep with a
      timer means that the timer is the earliest outstanding completion time, and when a timer has run out the earliest
      deadline has been reached. */
  lemma NoLostWakeUp(t: State)
    requires Reached(t)
    ensures t.thread.Idle? ==> forall i | 0 <= i < |t.chans| :: t.chans[i].completed
    ensures t.thread.Timed? ==> Least(OutstandingKeys(t.chans)) == Some(t.thread.until)
    ensures !t.thread.Idle? ==> Least(OutstandingKeys(t.chans)) == Some(t.deadline)
    ensures t.thread.Fired? ==> t.deadline <= t.clock
  {
    hide Reached, Core, Separated, Cached, Least;
    ReachedParts(t);
    AttentiveToEarliest(t);
  }

  lemma AttentiveToEarliest(t: State)
    requires Cached(t) && Attentive(t.thread, t.pending, t.deadline, t.clock)
    ensures t.thread.Idle? ==> forall i | 0 <= i < |t.chans| :: t.chans[i].completed
    ensures t.thread.Timed? ==> Least(OutstandingKeys(t.chans)) == Some(t.thread.until)
    ensures !t.thread.Idle? ==> Least(OutstandingKeys(t.chans)) == Some(t.deadline)
  {
    hide Least;
    if t.thread.Idle? {
      assert forall i | 0 <= i < |t.chans| :: OutstandingKeys(t.chans)[i].None? ==> t.chans[i].completed;
    }
  }

  /** A drain leaves nothing outstanding that is due before its last clock reading, and the deadline it recomputes is
      exactly the least completion time left. */
  lemma DrainIsExact(t: State, readings: seq<int>)
    requires Reached(t) && t.thread.Fired? && Next(t, TakeLock(readings)).Moves?
    ensures var t' := Next(t, TakeLock(readings)).s;
            && (forall i | 0 <= i < |t'.chans| && !t'.chans[i].completed :: t'.clock <= t'.chans[i].completion)
            && Least(OutstandingKeys(t'.chans)) == (if t'.pending then Some(t'.deadline) else None)
  {
    hide Reached;
    ReachedInv(t);
    hide Inv, Least, Proceed;
    LockMeansProceed(t, readings);
    ProceedKeeps(t, readings);
    hide Core, Next;
  }

  lemma LockMeansProceed(t: State, readings: seq<int>)
    ensures Next(t, TakeLock(readings)) == if Climbs(t.clock, readings) then Proceed(t, readings) else Refused
  {
    hide Proceed, Climbs;
  }

  /** A drain that may start also ends, after at most two passes more than there are outstanding requests. */
  lemma DrainEnds(t: State, readings: seq<int>) returns (passes: nat)
    requires Reached(t) && t.thread.Fired? && Climbs(t.clock, readings)
    requires |readings| >= |OutstandingOf(t.chans)| + 2
    ensures passes <= |OutstandingOf(t.chans)| + 2 <= |readings|
    ensures Next(t, TakeLock(readings[..passes])).Moves?
  {
    hide Reached, Core, Separated, Cached, Drain, OutstandingOf, Next, Climbs;
    ReachedParts(t);
    passes := DrainEndsFrom(t, readings);
    LockMeansProceed(t, readings[..passes]);
  }

  lemma DrainEndsFrom(t: State, readings: seq<int>) returns (passes: nat)
    requires Core(t) && t.thread.Fired? && Climbs(t.clock, readings) && t.deadline <= t.clock
    requires |readings| >= |OutstandingOf(t.chans)| + 2
    ensures passes <= |OutstandingOf(t.chans)| + 2
    ensures Climbs(t.clock, readings[..passes]) && Proceed(t, readings[..passes]).Moves?
  {
    hide Core, Drain, OutstandingOf;
    passes := DrainTerminates(t, t.again, readings);
  }
}
