/** The cached answer of the emudisk: the three-way test after a batch of submissions is exactly sufficient. */
module EmudiskRefresh {
  import opened Block
  import opened Scan
  import opened Sleep
  import opened SsdSim
  import opened Emudisk
  import opened EmudiskInv
  import opened EmudiskSteps

  // How the server's answer changes when requests are added.

  lemma {:induction false} IdsAtExtend(before: seq<SsdChannel>, after: seq<SsdChannel>, latest: int, time: int)
    requires Extends(before, after, latest) && latest < time
    ensures |IdsAt(before, time)| <= |IdsAt(after, time)|
    ensures |IdsAt(before, time)| == |IdsAt(after, time)| ==> IdsAt(before, time) == IdsAt(after, time)
    decreases |before|
  {
    if |before| == 0 {
    } else {
      var last := |before| - 1;
      IdsAtExtend(before[..last], after[..last], latest, time);
    }
  }

  /** With more requests outstanding the next responses come no later, and at the same time no fewer of them come; if as
      many come at the same time they are the same. */
  lemma AnswerExtends(before: seq<SsdChannel>, after: seq<SsdChannel>, latest: int)
    requires Extends(before, after, latest)
    ensures var a, b := NextResponses(before, latest), NextResponses(after, latest);
            a.ids != [] ==>
              && b.ids != [] && b.time <= a.time
              && (b.time == a.time ==> |a.ids| <= |b.ids| && (|a.ids| == |b.ids| ==> a == b))
  {
    hide IdsAt, Least;
    var a, b := NextResponses(before, latest), NextResponses(after, latest);
    NextResponsesSome(before, latest);
    NextResponsesSome(after, latest);
    if a.ids != [] {
      var keys := AfterKeys(before, latest);
      var i :| 0 <= i < |keys| && keys[i] == Some(a.time);
      assert AfterKeys(after, latest)[i] == Some(a.time);
      IdsAtExtend(before, after, latest, a.time);
    }
  }

  lemma ExtendsTransitive(a: seq<SsdChannel>, b: seq<SsdChannel>, c: seq<SsdChannel>, latest: int)
    requires Extends(a, b, latest) && Extends(b, c, latest)
    ensures Extends(a, c, latest)
  {
  }

  // The submission loop.

  lemma BatchHead(s: State, batch: seq<(Request, int)>)
    requires |batch| > 0 && BatchClimbs(s.clock, batch) && Promised(s.log, batch)
    ensures s.clock <= batch[0].1 && batch[0].0.WellFormed() && !KnownTag(s.log, batch[0].0.tag)
    ensures BatchClimbs(batch[0].1, batch[1..])
  {
  }

  lemma PromisedRest(log: seq<Event>, batch: seq<(Request, int)>, e: Event)
    requires |batch| > 0 && Promised(log, batch) && e.Submitted? && e.req == batch[0].0
    ensures Promised(log + [e], batch[1..])
  {
    var rest := batch[1..];
    forall i | 0 <= i < |rest| ensures rest[i].0.WellFormed() && !KnownTag(log + [e], rest[i].0.tag) {
      assert rest[i] == batch[i + 1];
      forall k | 0 <= k < |log + [e]| && (log + [e])[k].Submitted? ensures (log + [e])[k].req.tag != rest[i].0.tag {
        assert k < |log| ==> (log + [e])[k] == log[k];
      }
    }
  }

  /** The stop flag, the thread, the cached answer and the packet counter are no part of the core invariant, except that
      the counter must stay beyond every id. */
  lemma CoreFrame(s: State, t: State)
    requires Core(s) && s.nextId <= t.nextId
    requires t == s.(stopped := t.stopped, thread := t.thread, nextIds := t.nextIds, nextTime := t.nextTime,
      nextId := t.nextId)
    ensures Core(t)
  {
    hide DiskAfter, SlotFaithful, CommitsFaithful, UniqueTags, HeldIds, LiveIds, SubmittedIds, CommittedIds;
  }

  lemma CoreFacts(s: State)
    requires Core(s)
    ensures s.inflight <= |s.slots| && s.latest <= s.clock && s.maxQuery <= s.latest && s.sim.time <= s.latest
  {
  }

  predicate Batched(s: State, t: State) {
    && Core(t) && t.latest == s.latest && t.nextIds == s.nextIds && t.nextTime == s.nextTime && t.thread == s.thread
    && |t.slots| == |s.slots| && Extends(s.sim.chans, t.sim.chans, s.latest) && t.clock >= s.clock
    && (t.stopped <==> t.inflight == |t.slots|) && t.maxQuery == s.maxQuery
  }

  lemma {:induction false} SubmitAllKeeps(s: State, batch: seq<(Request, int)>)
    requires Ready(s) && !s.stopped && BatchClimbs(s.clock, batch) && Promised(s.log, batch)
    requires |batch| > 0 ==> s.latest < batch[0].1
    ensures SubmitAll(s, batch).Moves? && Batched(s, SubmitAll(s, batch).s)
    ensures |batch| > 0 ==> var t := SubmitAll(s, batch).s;
              exists i | 0 <= i < |t.sim.chans| :: t.sim.chans[i].completion > t.latest
    decreases |batch|
  {
    hide Core, Submit, KnownTag, Promised, BatchClimbs, Extends;
    if |batch| == 0 {
      ExtendsSelf(s.sim.chans, s.latest);
    } else {
      BatchHead(s, batch);
      var req, now := batch[0].0, batch[0].1;
      SubmitKeeps(s, req, now);
      var t := Submit(s, req, now).s;
      CoreFacts(t);
      if t.inflight >= |t.slots| {
        CoreFrame(t, t.(stopped := true));
      } else {
        PromisedRest(s.log, batch, t.log[|s.log|]);
        LaterStill(s.clock, batch);
        SubmitAllKeeps(t, batch[1..]);
        var r := SubmitAll(t, batch[1..]).s;
        ExtendsTransitive(s.sim.chans, t.sim.chans, r.sim.chans, s.latest);
        LiveStays(t.sim.chans, r.sim.chans, s.latest);
      }
    }
  }

  lemma LaterStill(from: int, batch: seq<(Request, int)>)
    requires |batch| > 0 && BatchClimbs(from, batch)
    ensures |batch| > 1 ==> batch[0].1 <= batch[1..][0].1
  {
  }

  lemma ExtendsSelf(chans: seq<SsdChannel>, latest: int)
    ensures Extends(chans, chans, latest)
  {
  }

  lemma LiveStays(before: seq<SsdChannel>, after: seq<SsdChannel>, latest: int)
    requires Extends(before, after, latest) && exists i | 0 <= i < |before| :: before[i].completion > latest
    ensures exists i | 0 <= i < |after| :: after[i].completion > latest
  {
    var i :| 0 <= i < |before| && before[i].completion > latest;
    assert after[i] == before[i];
  }

  // The refresh.

  lemma AskedKeeps(s: State)
    requires Core(s)
    ensures Core(Asked(s)) && Asked(s).sim.chans == s.sim.chans
  {
    hide DiskAfter, SlotFaithful, CommitsFaithful, UniqueTags, HeldIds, LiveIds, SubmittedIds, CommittedIds;
  }

  /** The answer of the server is news exactly when it differs from the cached one. */
  lemma NewsIsChange(s: State, before: seq<SsdChannel>)
    requires Extends(before, s.sim.chans, s.latest)
    requires exists i | 0 <= i < |s.sim.chans| :: s.sim.chans[i].completion > s.latest
    requires var a := NextResponses(before, s.latest);
             if s.nextIds == [] then a.ids == [] else a.time == s.nextTime && a.ids == s.nextIds && |a.ids| > 0
    ensures var b := NextResponses(s.sim.chans, s.latest);
            && |b.ids| > 0
            && (IsNews(s, b) <==> !(s.nextIds != [] && b == NextResponses(before, s.latest)))
            && (s.nextIds != [] ==> b.time <= s.nextTime)
  {
    hide NextResponses, Extends;
    AnswerExtends(before, s.sim.chans, s.latest);
    NextResponsesSome(s.sim.chans, s.latest);
  }

  lemma RefreshKeeps(s: State, t: State)
    requires Cached(s) && Attentive(s.thread, s.nextIds != [], s.nextTime, s.clock) && Batched(s, t)
    requires exists i | 0 <= i < |t.sim.chans| :: t.sim.chans[i].completion > t.latest
    ensures Inv(Refresh(t))
  {
    hide Core, NextResponses, Extends;
    NewsIsChange(t, s.sim.chans);
    AskedKeeps(t);
    CoreFrame(Asked(t), Refresh(t));
  }

  lemma InvReady(s: State)
    requires Inv(s) && !s.stopped
    ensures Ready(s)
  {
    hide Core;
    CoreFacts(s);
  }

  /** Whatever the queue hands out: if the first clock reading is past the watermark, the whole batch is submitted. */
  lemma StrategyKeeps(s: State, batch: seq<(Request, int)>)
    requires Inv(s) && !s.stopped && BatchClimbs(s.clock, batch) && Promised(s.log, batch)
    requires |batch| > 0 ==> s.latest < batch[0].1
    ensures Strategy(s, batch).Moves? && Inv(Strategy(s, batch).s)
  {
    hide Core, SubmitAll, Promised, BatchClimbs, Refresh, Cached;
    InvReady(s);
    if |batch| > 0 {
      SubmitAllKeeps(s, batch);
      RefreshKeeps(s, SubmitAll(s, batch).s);
    }
  }

  /** The one hang the driver can reach: a submission whose clock reading is not past the watermark. Time cannot have
      gone back, so the reading equals the watermark, and this is so for the first request of the batch. */
  lemma StrategyHangs(s: State, batch: seq<(Request, int)>)
    requires Inv(s) && !s.stopped && BatchClimbs(s.clock, batch) && Promised(s.log, batch)
    ensures Strategy(s, batch).Hangs? <==> |batch| > 0 && batch[0].1 == s.latest
    ensures Strategy(s, batch).Hangs? ==> Strategy(s, batch).at == ClockNotPastWatermark
    ensures Strategy(s, batch).Moves? ==> Inv(Strategy(s, batch).s)
    ensures !Strategy(s, batch).Refused?
  {
    hide Core, Promised, Refresh, Cached;
    CoreFacts(s);
    if |batch| > 0 && batch[0].1 <= s.latest {
      assert Submit(s, batch[0].0, batch[0].1) == Hangs(ClockNotPastWatermark);
    } else {
      StrategyKeeps(s, batch);
    }
  }
}
