/** Every step of the ramdisk keeps its invariant, and no step reaches one of the loops that hang the machine. */
module RamdiskSteps {
  import opened Block
  import opened Latency
  import opened Scan
  import opened Sleep
  import opened Ramdisk
  import opened RamdiskInv

  /** One event more. */
  lemma Append(log: seq<Event>, e: Event, image: seq<Byte>)
    ensures (log + [e])[..|log|] == log
    ensures SubmittedOf(log + [e]) == SubmittedOf(log) + (if e.Submitted? then multiset{e.req} else multiset{})
    ensures CommittedOf(log + [e]) == CommittedOf(log) + (if e.Committed? then multiset{e.req} else multiset{})
    ensures RetiredOf(log + [e]) == RetiredOf(log) + (if e.Retired? then multiset{e.req} else multiset{})
    ensures History(log + [e]) ==
            History(log) + (if e.Submitted? then [Entry(e.completion, e.req.dir, e.req.pos + e.req.Sectors())] else [])
    ensures DiskAfter(image, log + [e]) ==
            if e.Submitted? && e.req.dir == Write && e.req.Offset() + e.req.Bytes() <= |image|
            then Splice(DiskAfter(image, log), e.req.Offset(), Flat(e.req.segments)) else DiskAfter(image, log)
  {
    hide *;
    assert (log + [e])[..|log|] == log;
    AppendRequests(log, e);
    AppendHistory(log, e);
    AppendDisk(log, e, image);
  }

  lemma AppendRequests(log: seq<Event>, e: Event)
    ensures SubmittedOf(log + [e]) == SubmittedOf(log) + (if e.Submitted? then multiset{e.req} else multiset{})
    ensures CommittedOf(log + [e]) == CommittedOf(log) + (if e.Committed? then multiset{e.req} else multiset{})
    ensures RetiredOf(log + [e]) == RetiredOf(log) + (if e.Retired? then multiset{e.req} else multiset{})
  {
    assert (log + [e])[..|log|] == log;
  }

  lemma AppendHistory(log: seq<Event>, e: Event)
    ensures History(log + [e]) ==
            History(log) + (if e.Submitted? then [Entry(e.completion, e.req.dir, e.req.pos + e.req.Sectors())] else [])
  {
    hide Flat;
    assert (log + [e])[..|log|] == log;
  }

  lemma AppendDisk(log: seq<Event>, e: Event, image: seq<Byte>)
    ensures DiskAfter(image, log + [e]) ==
            if e.Submitted? && e.req.dir == Write && e.req.Offset() + e.req.Bytes() <= |image|
            then Splice(DiskAfter(image, log), e.req.Offset(), Flat(e.req.segments)) else DiskAfter(image, log)
  {
    hide Flat, Splice;
    assert (log + [e])[..|log|] == log;
  }

  lemma LegalAtStays(image: seq<Byte>, log: seq<Event>, e: Event, k: nat)
    requires k < |log| && log[k].Committed? && LegalAt(image, log, k)
    ensures LegalAt(image, log + [e], k)
  {
    hide DiskAfter, PagesOf, Flat;
    assert (log + [e])[..k] == log[..k];
  }

  lemma LegalAppend(image: seq<Byte>, log: seq<Event>, e: Event)
    requires Legal(image, log)
    requires e.Committed? && e.req.dir == Read ==> LegalAt(image, log + [e], |log|)
    ensures Legal(image, log + [e])
  {
    hide LegalAt;
    forall k | 0 <= k < |log| && log[k].Committed? && log[k].req.dir == Read
      ensures LegalAt(image, log + [e], k)
    {
      LegalAtStays(image, log, e, k);
    }
  }

  lemma SubmittedStays(log: seq<Event>, e: Event, req: Request, completion: int)
    requires WasSubmitted(log, req, completion)
    ensures WasSubmitted(log + [e], req, completion)
  {
    var k :| 0 <= k < |log| && log[k].Submitted? && log[k].req == req && log[k].completion == completion;
    assert (log + [e])[k] == log[k];
  }

  // Submission.

  /** What is known inside the submission loop. */
  predicate Ready(s: State) {
    Core(s) && Separated(s) && Cached(s) && s.inflight < |s.chans|
  }

  /** The channel the scan chooses: completed, and before every other. */
  predicate Chosen(s: State, slot: nat) {
    && slot < |s.chans| == |s.owner|
    && s.chans[slot].completed
    && (forall i | 0 <= i < |s.chans| :: s.chans[slot].completion <= s.chans[i].completion)
  }

  lemma FreeChannel(s: State) returns (i: nat)
    requires Held(s.chans) && Counted(s) && s.inflight < |s.chans|
    ensures i < |s.chans| && s.chans[i].completed
  {
    OutstandingCount(s.chans);
    i :| 0 <= i < |s.chans| && s.chans[i].completed;
  }

  /** The scan looks at completed channels only, and still finds the oldest of all. */
  lemma OldestCompletedIsOldest(s: State) returns (slot: nat)
    requires Held(s.chans) && Separated(s) && Counted(s) && s.inflight < |s.chans| == |s.owner|
    ensures Chosen(s, slot) && FirstLeast(CompletedKeys(s.chans)) == Some(slot)
  {
    var keys := CompletedKeys(s.chans);
    var i := FreeChannel(s);
    assert keys[i].Some?;
    slot := FirstLeast(keys).value;
    forall j | 0 <= j < |s.chans| ensures s.chans[slot].completion <= s.chans[j].completion {
      assert keys[j] == CompletedKey(s.chans[j]);
    }
  }

  lemma SubmitShape(s: State, req: Request, now: int) returns (slot: nat, completion: int, sequential: bool)
    requires Shape(s) && Separated(s) && Counted(s) && s.inflight < |s.chans| && req.WellFormed()
    ensures Chosen(s, slot) && FirstLeast(CompletedKeys(s.chans)) == Some(slot) && completion >= now
    ensures sequential == IsSequential(s.chans, req.dir, req.pos)
    ensures var size := SizeClass(req.Bytes());
            size.Some? && completion == now + s.cfg.Of(sequential, req.dir, size.value)
    ensures Submit(s, req, now) == Moves(Place(s, slot, req, now, completion, sequential),
      Wakes(s, slot, req, completion))
  {
    hide Wakes, Place, Flat, OutstandingOf, IsSequential;
    slot := OldestCompletedIsOldest(s);
    sequential := IsSequential(s.chans, req.dir, req.pos);
    completion := now + s.cfg.Of(sequential, req.dir, SizeClass(req.Bytes()).value);
  }

  /** The evicted channel completed before every other and before the new request: the table keeps the latest. */
  lemma PlaceHoldsLatest(s: State, slot: nat, req: Request, now: int, completion: int, sequential: bool)
    requires HoldsLatest(s) && Chosen(s, slot) && s.chans[slot].completion <= completion
    requires req.dir == Write ==> req.Offset() + req.Bytes() <= |s.disk|
    ensures HoldsLatest(Place(s, slot, req, now, completion, sequential))
  {
    hide Wakes, Earliest, Flat, Splice;
    var s' := Place(s, slot, req, now, completion, sequential);
    var h := FullHistory(s);
    HistoryGrows(s.log, Submitted(req, now, completion, sequential));
    var h' := h + [Entry(completion, req.dir, req.pos + req.Sectors())];
    assert FullHistory(s') == h';
    assert s'.owner == s.owner[slot := |h|];
    forall k, i | 0 <= k < |h'| && k !in s'.owner && 0 <= i < |s'.chans|
      ensures h'[k].completion <= s'.chans[i].completion
    {
      Evicted(s, slot, k);
    }
  }

  lemma HistoryGrows(log: seq<Event>, e: Event)
    requires e.Submitted?
    ensures History(log + [e]) == History(log) + [Entry(e.completion, e.req.dir, e.req.pos + e.req.Sectors())]
  {
    var after := log + [e];
    assert after[..|after| - 1] == log;
  }

  /** An entry outside the new table is no later than the channel that was replaced. */
  lemma Evicted(s: State, slot: nat, k: nat)
    requires HoldsLatest(s) && slot < |s.chans|
    requires k !in s.owner[slot := |FullHistory(s)|] && k <= |FullHistory(s)|
    ensures k < |FullHistory(s)| && FullHistory(s)[k].completion <= s.chans[slot].completion
  {
    hide FullHistory;
    var h, after := FullHistory(s), s.owner[slot := |FullHistory(s)|];
    assert after[slot] == |h|;
    assert forall j | 0 <= j < |after| && j != slot :: s.owner[j] == after[j] && after[j] in after;
    if k in s.owner {
      var j :| 0 <= j < |s.owner| && s.owner[j] == k;
      assert j == slot;
    }
  }

  lemma PlaceOrdered(s: State, slot: nat, req: Request, now: int, completion: int, sequential: bool)
    requires Shape(s) && Ordered(s) && Separated(s) && Chosen(s, slot) && req.WellFormed()
      && s.clock <= now <= completion
    ensures var s' := Place(s, slot, req, now, completion, sequential);
            Shape(s') && Ordered(s') && Separated(s')
  {
    hide Wakes, Earliest, Flat, History;
  }

  /** The cached deadline is updated incrementally and stays the exact minimum. */
  lemma PlaceCached(s: State, slot: nat, req: Request, now: int, completion: int, sequential: bool)
    requires Cached(s) && Chosen(s, slot)
    requires req.dir == Write ==> req.Offset() + req.Bytes() <= |s.disk|
    ensures Cached(Place(s, slot, req, now, completion, sequential))
    ensures s.pending ==> Place(s, slot, req, now, completion, sequential).deadline <= s.deadline
  {
    hide Flat, History, Splice, Least;
    KeysUpdate(s.chans, slot, Occupied(req, completion));
    LeastWith(OutstandingKeys(s.chans), slot, completion);
  }

  lemma KeysUpdate(chans: seq<Channel>, slot: nat, c: Channel)
    requires slot < |chans| && chans[slot].completed
    ensures OutstandingKeys(chans)[slot] == None
    ensures OutstandingKeys(chans[slot := c]) == OutstandingKeys(chans)[slot := OutstandingKey(c)]
  {
  }

  lemma FreshTag(log: seq<Event>, e: Event)
    requires UniqueTags(log) && (e.Submitted? ==> !KnownTag(log, e.req.tag))
    ensures UniqueTags(log + [e])
  {
    var after := log + [e];
    forall i, j | 0 <= i < j < |after| && after[i].Submitted? && after[j].Submitted?
      ensures after[i].req.tag != after[j].req.tag
    {
      assert after[i] == log[i];
    }
  }

  lemma BooksAdd(a: multiset<Request>, b: multiset<Request>, c: multiset<Request>, r: Request)
    requires a == b + c
    ensures a + multiset{r} == b + multiset{r} + c
  {
    assert b + c + multiset{r} == b + multiset{r} + c;
  }

  lemma OutstandingGains(chans: seq<Channel>, slot: nat, c: Channel, req: Request)
    requires slot < |chans| && chans[slot].completed && !c.completed && c.request == Some(req)
    ensures OutstandingOf(chans[slot := c]) == OutstandingOf(chans) + multiset{req}
  {
    hide OutstandingOf;
    OutstandingOfUpdate(chans, slot, c);
    assert OutstandingOf(chans[slot := c]) + multiset{} == OutstandingOf(chans[slot := c]);
  }

  lemma PlaceBooks(s: State, slot: nat, req: Request, now: int, completion: int, sequential: bool)
    requires Counted(s) && Conserved(s) && Chosen(s, slot) && s.inflight < |s.chans|
    requires req.dir == Write ==> req.Offset() + req.Bytes() <= |s.disk|
    ensures var s' := Place(s, slot, req, now, completion, sequential);
            Counted(s') && Conserved(s')
  {
    hide Wakes, Earliest, Flat, History, Splice, DiskAfter, OutstandingOf, CommittedOf, SubmittedOf, RetiredOf;
    Append(s.log, Submitted(req, now, completion, sequential), s.image);
    OutstandingGains(s.chans, slot, Occupied(req, completion), req);
    hide Chosen;
    BooksAdd(SubmittedOf(s.log), OutstandingOf(s.chans), CommittedOf(s.log), req);
    assert CommittedOf(s.log) + multiset{} == CommittedOf(s.log);
    assert RetiredOf(s.log) + multiset{} == RetiredOf(s.log);
  }

  lemma PlaceFaithful(s: State, slot: nat, req: Request, now: int, completion: int, sequential: bool)
    requires Faithful(s) && CommitOrder(s.log) && Timely(s) && Chosen(s, slot) && s.clock <= now <= completion
    requires req.dir == Write ==> req.Offset() + req.Bytes() <= |s.disk|
    ensures var s' := Place(s, slot, req, now, completion, sequential);
            Faithful(s') && CommitOrder(s'.log) && Timely(s')
  {
    hide Wakes, Earliest, Flat, History, Splice;
    var s' := Place(s, slot, req, now, completion, sequential);
    var e := Submitted(req, now, completion, sequential);
    forall i | 0 <= i < |s'.chans| && !s'.chans[i].completed && s'.chans[i].request.Some?
      ensures WasSubmitted(s'.log, s'.chans[i].request.value, s'.chans[i].completion)
    {
      if i == slot {
        assert s'.log[|s.log|] == e;
      } else {
        SubmittedStays(s.log, e, s.chans[i].request.value, s.chans[i].completion);
      }
    }
    forall k | 0 <= k < |s'.log| && s'.log[k].Committed?
      ensures WasSubmitted(s'.log[..k], s'.log[k].req, s'.log[k].completion)
    {
      assert s'.log[..k] == s.log[..k];
    }
  }

  lemma PlaceData(s: State, slot: nat, req: Request, now: int, completion: int, sequential: bool)
    requires s.disk == DiskAfter(s.image, s.log) && Legal(s.image, s.log) && Chosen(s, slot)
    requires req.Offset() + req.Bytes() <= |s.disk|
    ensures var s' := Place(s, slot, req, now, completion, sequential);
            s'.disk == DiskAfter(s'.image, s'.log) && Legal(s'.image, s'.log)
  {
    hide Wakes, Earliest, History, Legal, Chosen;
    var e := Submitted(req, now, completion, sequential);
    Append(s.log, e, s.image);
    LegalAppend(s.image, s.log, e);
  }

  /** What one submission leaves behind. */
  predicate Accepted(s: State, s': State, wake: bool, req: Request, now: int) {
    && Core(s') && Separated(s') && Cached(s') && s'.pending && s'.clock == now
    && s'.cfg == s.cfg && |s'.owner| == |s.owner|
    && |s'.log| == |s.log| + 1 && s'.log[|s.log|].Submitted? && s'.log[|s.log|].req == req
    && s'.log == s.log + [s'.log[|s.log|]]
    && s'.inflight == s.inflight + 1 && |s'.chans| == |s.chans| && s'.stopped == s.stopped && s'.thread == s.thread
    && (s.pending ==> s'.deadline <= s.deadline)
    && (!wake ==> s.pending && s'.deadline == s.deadline)
    && (wake ==> !s.pending || s'.deadline < s.deadline)
  }

  lemma SubmitKeeps(s: State, req: Request, now: int)
    requires Ready(s) && req.WellFormed() && s.clock <= now && !KnownTag(s.log, req.tag)
    ensures Submit(s, req, now).Moves? && Accepted(s, Submit(s, req, now).s, Submit(s, req, now).wake, req, now)
  {
    hide Flat, History, Splice, DiskAfter, KnownTag, UniqueTags, Legal, Faithful, CommitOrder, Timely, Conserved,
      HoldsLatest, Cached, Submit, OutstandingOf;
    var slot, completion, sequential := SubmitShape(s, req, now);
    PlaceHoldsLatest(s, slot, req, now, completion, sequential);
    PlaceOrdered(s, slot, req, now, completion, sequential);
    PlaceCached(s, slot, req, now, completion, sequential);
    PlaceBooks(s, slot, req, now, completion, sequential);
    PlaceFaithful(s, slot, req, now, completion, sequential);
    PlaceData(s, slot, req, now, completion, sequential);
    FreshTag(s.log, Submitted(req, now, completion, sequential));
    hide Earliest, Chosen, Ordered, Separated, Counted;
  }

  /** The thread, the stop flag and the cached deadline are no part of the core invariant. */
  lemma CoreFrame(s: State, t: State)
    requires Core(s) && Separated(s)
    requires t == s.(stopped := t.stopped, thread := t.thread, pending := t.pending, deadline := t.deadline,
      again := t.again)
    ensures Core(t) && Separated(t)
  {
    hide Flat, History, DiskAfter, UniqueTags, Legal, CommitOrder, OutstandingOf, CommittedOf, SubmittedOf, RetiredOf;
  }

  lemma CachedFrame(s: State, t: State)
    requires Cached(s) && t.chans == s.chans && t.pending == s.pending && t.deadline == s.deadline
    ensures Cached(t)
  {
  }

  lemma InflightBound(s: State)
    requires Core(s)
    ensures s.inflight <= |s.chans|
  {
  }

  lemma PromisedRest(log: seq<Event>, batch: seq<(Request, int)>, e: Event)
    requires |batch| > 0 && Promised(log, batch) && e.Submitted? && e.req == batch[0].0
    ensures Promised(log + [e], batch[1..])
  {
    var rest := batch[1..];
    forall i | 0 <= i < |rest| ensures rest[i].0.WellFormed() && !KnownTag(log + [e], rest[i].0.tag) {
      assert rest[i] == batch[i + 1];
      forall k | 0 <= k < |log + [e]| && (log + [e])[k].Submitted? ensures (log + [e])[k].req.tag != rest[i].0.tag {
        assert k < |log| ==> (log + [e])[k] == log[k];
      }
    }
  }

  lemma PromisedHead(log: seq<Event>, batch: seq<(Request, int)>)
    requires |batch| > 0 && Promised(log, batch)
    ensures batch[0].0.WellFormed() && !KnownTag(log, batch[0].0.tag)
  {
  }

  lemma ClimbsRest(from: int, batch: seq<(Request, int)>)
    requires |batch| > 0 && Climbs(from, Times(batch))
    ensures from <= batch[0].1 && Climbs(batch[0].1, Times(batch[1..]))
  {
    assert Times(batch)[0] == batch[0].1;
    assert forall i | 0 <= i < |batch| - 1 :: Times(batch[1..])[i] == Times(batch)[i + 1];
  }

  /** The submission loop: nothing hangs, and the thread is woken exactly when the deadline it sleeps for changed. */
  lemma {:induction false} SubmitAllKeeps(s: State, batch: seq<(Request, int)>, wake: bool, pending0: bool,
      deadline0: int)
    requires Ready(s) && !s.stopped && Climbs(s.clock, Times(batch)) && Promised(s.log, batch)
    requires pending0 ==> s.pending && s.deadline <= deadline0
    requires if wake then s.pending else s.pending == pending0 && s.deadline == deadline0
    ensures SubmitAll(s, batch, wake).Moves?
    ensures var s', w := SubmitAll(s, batch, wake).s, SubmitAll(s, batch, wake).wake;
            && Core(s') && Separated(s') && Cached(s')
            && (s'.stopped <==> s'.inflight == |s'.chans|)
            && s'.thread == s.thread && s'.clock >= s.clock
            && (pending0 ==> s'.pending && s'.deadline <= deadline0)
            && (!w ==> s'.pending == pending0 && s'.deadline == deadline0)
            && (w ==> s'.pending)
    decreases |batch|
  {
    hide Core, Separated, Cached, KnownTag, Submit, Promised;
    if |batch| == 0 {
    } else {
      var req, now := batch[0].0, batch[0].1;
      ClimbsRest(s.clock, batch);
      PromisedHead(s.log, batch);
      hide Climbs;
      SubmitKeeps(s, req, now);
      var s' := Submit(s, req, now).s;
      if s'.inflight >= |s'.chans| {
        CoreFrame(s', s'.(stopped := true));
        CachedFrame(s', s'.(stopped := true));
        InflightBound(s');
      } else {
        PromisedRest(s.log, batch, s'.log[|s.log|]);
        SubmitAllKeeps(s', batch[1..], wake || Submit(s, req, now).wake, pending0, deadline0);
      }
    }
  }

  lemma InvParts(s: State)
    requires Inv(s)
    ensures s.inflight <= |s.chans|
    ensures !s.stopped ==> Ready(s)
  {
    hide Conserved, Faithful, HoldsLatest, Timely, Legal, CommitOrder, UniqueTags, Ordered, Separated, Cached;
  }

  lemma InvReady(s: State)
    requires Inv(s) && !s.stopped
    ensures Ready(s)
  {
    hide Core, Separated, Cached;
    InvParts(s);
  }

  /** Waking the thread exactly when the cached deadline changed restores the whole invariant. */
  lemma WakeKeeps(s: State, t: State, wake: bool)
    requires Core(t) && Separated(t) && Cached(t) && (t.stopped <==> t.inflight == |t.chans|)
    requires Attentive(s.thread, s.pending, s.deadline, s.clock) && t.thread == s.thread && s.clock <= t.clock
    requires s.pending ==> t.pending && t.deadline <= s.deadline
    requires if wake then t.pending else t.pending == s.pending && t.deadline == s.deadline
    ensures Inv(if wake then t.(thread := t.thread.Wake()) else t)
  {
    hide Core, Separated, Cached;
    CoreFrame(t, t.(thread := t.thread.Wake()));
    CachedFrame(t, t.(thread := t.thread.Wake()));
  }

  lemma StrategyKeeps(s: State, batch: seq<(Request, int)>)
    requires Inv(s) && !s.stopped && Climbs(s.clock, Times(batch)) && Promised(s.log, batch)
    ensures var r := Strategy(s, batch); r.Moves? && Inv(r.s)
  {
    hide SubmitAll, Promised, Climbs, Core, Separated, Cached;
    InvParts(s);
    SubmitAllKeeps(s, batch, false, s.pending, s.deadline);
    WakeKeeps(s, SubmitAll(s, batch, false).s, SubmitAll(s, batch, false).wake);
  }
}
