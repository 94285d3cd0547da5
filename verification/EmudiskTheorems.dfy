/** What every run of the emudisk guarantees. */
module EmudiskTheorems {
  import opened Block
  import opened SsdSim
  import opened Emudisk
  import opened EmudiskInv
  import opened EmudiskSteps
  import opened EmudiskRefresh
  import opened EmudiskDrain
  import opened EmudiskRuns
  import opened EmudiskBooks

  /** In every reachable state the cached next-response time and ids are the answer the server would give now to a query
      about the watermark: the test after a submission never misses an update and the drain never leaves a stale one. */
  lemma CachedIsFresh(t: State)
    requires Reached(t)
    ensures var a := NextResponses(t.sim.chans, t.latest);
            if t.nextIds == [] then a.ids == [] else a == Answer(t.nextTime, t.nextIds)
  {
    hide Reached, Core, NextResponses;
    ReachedParts(t);
  }

  /** The driver hangs in exactly one way: a request is submitted with a clock reading equal to the completion time of
      the latest response. Any later reading is safe, and nothing else ever hangs. */
  lemma HangsOnlyAtWatermark(t: State, l: Label)
    requires Reached(t)
    ensures Next(t, l).Hangs? <==> SubmitsAtWatermark(t, l)
    ensures Next(t, l).Hangs? ==> Next(t, l).at == ClockNotPastWatermark
  {
    hide Reached, Next, SubmitsAtWatermark;
    ReachedInv(t);
    NextKeeps(t, l);
  }

  /** Responses are delivered in the order of their completion times and never before them; each carries the id and the
      time of its submission; and a read returns the bytes the server's disk held when it was submitted. */
  lemma ResponsesAreFaithful(t: State)
    requires Reached(t)
    ensures forall i, j | 0 <= i < j < |t.log| && t.log[i].Committed? && t.log[j].Committed? ::
      t.log[i].due <= t.log[j].due
    ensures forall k | 0 <= k < |t.log| && t.log[k].Committed? ::
              t.log[k].due <= t.log[k].at && GivenTime(t.log[..k], t.log[k].id, t.log[k].due)
              && exists j | 0 <= j < k :: Answers(t.log, t.image, k, j)
    ensures t.memory == DiskAfter(t.image, t.log)
  {
    hide Reached, Cached, Shape, Watermark, Agreed, Conserved, Counted, UniqueTags, IdsGrow, SlotsFaithful,
      TimesFaithful, GivenTime, Answers, DiskAfter;
    ReachedParts(t);
  }

  /** Driver and server agree on which ids are outstanding, every outstanding completion time is past the watermark, the
      watermark never passes the clock, and the times asked about never decrease on either side. */
  lemma WatermarkIsSound(t: State)
    requires Reached(t)
    ensures HeldIds(t.slots) == LiveIds(t.sim.chans, t.latest)
    ensures forall i | 0 <= i < |t.slots| && t.slots[i].id != 0 ::
              exists c | 0 <= c < |t.sim.chans| :: t.sim.chans[c].ioId == t.slots[i].id
                  && t.sim.chans[c].completion > t.latest
    ensures t.sim.time == t.maxQuery <= t.latest <= t.clock
  {
    hide Reached, Cached, Shape, Conserved, Counted, UniqueTags, IdsGrow, SlotsFaithful, TimesFaithful,
      CommitsFaithful, DiskAfter, Ordered, HeldIds, LiveIds;
    ReachedParts(t);
    forall i | 0 <= i < |t.slots| && t.slots[i].id != 0
      ensures exists c | 0 <= c < |t.sim.chans| ::
                t.sim.chans[c].ioId == t.slots[i].id && t.sim.chans[c].completion > t.latest
    {
      HeldIn(t.slots, i);
      var c := LiveOnly(t.sim.chans, t.latest, t.slots[i].id);
    }
  }

  lemma {:induction false} LiveOnly(chans: seq<SsdChannel>, after: int, id: int) returns (c: nat)
    requires id in LiveIds(chans, after)
    ensures c < |chans| && chans[c].ioId == id && chans[c].completion > after
    decreases |chans|
  {
    var last := |chans| - 1;
    if id in LiveId(chans[last], after) {
      c := last;
    } else {
      c := LiveOnly(chans[..last], after, id);
    }
  }

  lemma {:induction false} SubmittedIdOnce(log: seq<Event>, id: int)
    requires forall i, j | 0 <= i < j < |log| && log[i].Submitted? && log[j].Submitted? :: log[i].id < log[j].id
    ensures SubmittedIds(log)[id] <= 1
    ensures SubmittedIds(log)[id] > 0 ==> exists k | 0 <= k < |log| :: log[k].Submitted? && log[k].id == id
    decreases |log|
  {
    if |log| == 0 {
    } else {
      var front := log[..|log| - 1];
      SubmittedIdOnce(front, id);
      if SubmittedIds(front)[id] > 0 {
        var k :| 0 <= k < |front| && front[k].Submitted? && front[k].id == id;
        assert log[k].Submitted? && log[k].id == id;
      }
      if log[|log| - 1].Submitted? && log[|log| - 1].id == id {
        assert SubmittedIds(front)[id] == 0;
      }
    }
  }

  /** Every id submitted is in exactly one place: in one entry of the table, or in one delivered response. So no request
      is completed twice and none is lost. */
  lemma EachIdOnce(t: State, id: int)
    requires Reached(t)
    ensures SubmittedIds(t.log)[id] == HeldIds(t.slots)[id] + CommittedIds(t.log)[id] <= 1
    ensures id in HeldIds(t.slots) ==> 0 < id < t.nextId
  {
    hide Reached, Cached, Shape, Counted, UniqueTags, SlotsFaithful, TimesFaithful, CommitsFaithful, DiskAfter,
      Ordered, HeldIds, LiveIds, SubmittedIds, CommittedIds;
    ReachedParts(t);
    SubmittedIdOnce(t.log, id);
  }

  /** Requests in flight are those in the table and those delivered but not yet retired; there are never more than there
      are channels, as many exactly when the queue is stopped, and so a running queue finds a free entry. Every request
      delivered waits for its softirq or has been retired, once, and nothing else has. */
  lemma AdmissionConserved(t: State)
    requires Reached(t)
    ensures t.inflight == |HeldIds(t.slots)| + |t.retiring| <= |t.slots|
    ensures t.stopped <==> t.inflight == |t.slots|
    ensures !t.stopped ==> FindId(t.slots, 0).Some?
    ensures DeliveredOf(t.log) == t.retiring + RetiredOf(t.log) && forall r :: DeliveredOf(t.log)[r] <= 1
  {
    hide Reached, Cached, Shape, UniqueTags, SlotsFaithful, TimesFaithful, CommitsFaithful, DiskAfter, Ordered,
      HeldIds, FindId, Conserved, Agreed, IdsGrow, DeliveredOf, RetiredOf, CommittedIds;
    ReachedParts(t);
    ReachedBalanced(t);
    forall id ensures CommittedIds(t.log)[id] <= 1 {
      EachIdOnce(t, id);
    }
    forall r ensures DeliveredOf(t.log)[r] <= 1 {
      DeliveredOnce(t, r);
    }
    if !t.stopped {
      FreeSlot(t);
    }
  }

  /** A thread asleep without a timer means nothing is outstanding; a timer is the time of the next response; and a
      timer that ran out has not run out early. */
  lemma NoLostWakeUp(t: State)
    requires Reached(t)
    ensures t.thread.Idle? ==> forall i | 0 <= i < |t.sim.chans| :: t.sim.chans[i].completion <= t.latest
    ensures t.thread.Timed? ==> t.thread.until == NextResponses(t.sim.chans, t.latest).time
    ensures !t.thread.Idle? ==> NextResponses(t.sim.chans, t.latest) == Answer(t.nextTime, t.nextIds) && t.nextIds != []
    ensures t.thread.Fired? ==> t.nextTime <= t.clock
  {
    hide Reached, Core, NextResponses;
    ReachedParts(t);
    NextResponsesSome(t.sim.chans, t.latest);
  }

  /** A drain delivers everything due before its last clock reading, and leaves the thread asleep until the next
      response. */
  lemma DrainIsExact(t: State, rounds: seq<(int, int)>)
    requires Reached(t) && t.thread.Fired? && Next(t, TakeLock(rounds)).Moves?
    ensures var t' := Next(t, TakeLock(rounds)).s;
            && (t'.nextIds != [] ==> t'.clock <= t'.nextTime)
            && (forall i | 0 <= i < |t'.sim.chans| && t'.sim.chans[i].completion > t'.latest ::
                  t'.clock <= t'.sim.chans[i].completion)
            && t'.latest >= t.latest
  {
    hide Reached, Core, NextResponses, Proceed;
    ReachedInv(t);
    LockMeansProceed(t, rounds);
    ProceedKeeps(t, rounds);
    hide Next;
    var t' := Next(t, TakeLock(rounds)).s;
    NextResponsesSome(t'.sim.chans, t'.latest);
    LeastIsLeast(t'.sim.chans, t'.latest);
  }

  lemma LeastIsLeast(chans: seq<SsdChannel>, latest: int)
    ensures forall i | 0 <= i < |chans| && chans[i].completion > latest ::
              NextResponses(chans, latest).ids != [] && NextResponses(chans, latest).time <= chans[i].completion
  {
    hide IdsAt;
    NextResponsesSome(chans, latest);
    forall i | 0 <= i < |chans| && chans[i].completion > latest
      ensures NextResponses(chans, latest).ids != [] && NextResponses(chans, latest).time <= chans[i].completion
    {
      assert AfterKeys(chans, latest)[i] == Some(chans[i].completion);
    }
  }

  lemma LockMeansProceed(t: State, rounds: seq<(int, int)>)
    ensures Next(t, TakeLock(rounds)) == if RoundsClimb(t.clock, rounds) then WithinIds(Proceed(t, rounds)) else Refused
  {
    hide Proceed, RoundsClimb;
  }

  /** Neither the watermark nor the clock goes back in a step. */
  lemma NothingGoesBack(t: State, l: Label)
    requires Reached(t) && Next(t, l).Moves?
    ensures var t' := Next(t, l).s; t.latest <= t'.latest && t.clock <= t'.clock
  {
    hide Reached, Core, NextResponses, Strategy, Promised, BatchClimbs, RoundsClimb, Drain, Refresh, SubmitAll;
    ReachedInv(t);
    match l
    case TakeLock(rounds) =>
      ProceedKeeps(t, rounds);
    case Queue(batch) =>
      StrategyHangs(t, batch);
      StrategyIs(t, batch);
      if |batch| > 0 {
        CoreFacts(t);
        BatchHead(t, batch);
        InvReady(t);
        SubmitAllKeeps(t, batch);
        RefreshTimes(SubmitAll(t, batch).s);
      }
    case _ =>
  }

  lemma RefreshTimes(s: State)
    ensures Refresh(s).latest == s.latest && Refresh(s).clock == s.clock
  {
    hide NextResponses;
  }

  lemma StrategyIs(s: State, batch: seq<(Request, int)>)
    ensures Strategy(s, batch) ==
            if |batch| == 0 then Moves(s)
            else match SubmitAll(s, batch)
                 case Moves(t) => Moves(Refresh(t))
                 case other => other
  {
    hide SubmitAll, Refresh;
  }

  /** A drain that starts also ends: some number of rounds, at most one for each outstanding request, completes it. */
  lemma DrainEnds(t: State, rounds: seq<(int, int)>) returns (n: nat)
    requires Reached(t) && t.thread.Fired? && RoundsClimb(t.clock, rounds) && |rounds| >= |HeldIds(t.slots)|
    ensures n <= |HeldIds(t.slots)| && Proceed(t, rounds[..n]).Moves?
  {
    hide Reached, Inv, RoundDue, HeldIds, Drain, RoundsClimb;
    ReachedInv(t);
    FiredIsDue(t);
    n := DrainTerminates(t, rounds);
  }
}
