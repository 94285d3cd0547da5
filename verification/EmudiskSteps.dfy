/** Submissions of the emudisk: the server accepts every one, and the cached answer stays the server's answer. */
module EmudiskSteps {
  import opened Block
  import opened Latency
  import opened Scan
  import opened SsdSim
  import opened Emudisk
  import opened EmudiskInv

  // One event more.

  lemma Append(log: seq<Event>, e: Event, image: seq<Byte>)
    ensures (log + [e])[..|log|] == log
    ensures SubmittedIds(log + [e]) == SubmittedIds(log) + (if e.Submitted? then multiset{e.id} else multiset{})
    ensures CommittedIds(log + [e]) == CommittedIds(log) + (if e.Committed? then multiset{e.id} else multiset{})
    ensures DiskAfter(image, log + [e]) ==
            if e.Submitted? && e.req.dir == Write && e.req.Offset() + e.req.Bytes() <= |image|
            then Splice(DiskAfter(image, log), e.req.Offset(), Flat(e.req.segments)) else DiskAfter(image, log)
  {
    var after := log + [e];
    assert after[..|after| - 1] == log;
  }

  lemma HeldSinceStays(log: seq<Event>, e: Event, image: seq<Byte>, slot: Slot, k: nat)
    requires slot.req.Some? && HeldSince(log, image, slot, k)
    ensures HeldSince(log + [e], image, slot, k)
  {
    hide DiskAfter, Flat;
    assert (log + [e])[..k] == log[..k];
  }

  lemma SlotStays(log: seq<Event>, e: Event, image: seq<Byte>, slot: Slot)
    requires SlotFaithful(log, image, slot)
    ensures SlotFaithful(log + [e], image, slot)
  {
    hide HeldSince;
    if slot.id != 0 && slot.req.Some? {
      var k :| 0 <= k < |log| && HeldSince(log, image, slot, k);
      HeldSinceStays(log, e, image, slot, k);
    }
  }

  lemma GivenStays(log: seq<Event>, e: Event, id: int, completion: int)
    requires GivenTime(log, id, completion)
    ensures GivenTime(log + [e], id, completion)
  {
    var k :| 0 <= k < |log| && log[k].Submitted? && log[k].id == id && log[k].completion == completion;
    assert (log + [e])[k] == log[k];
  }

  lemma AnswersStays(log: seq<Event>, e: Event, image: seq<Byte>, k: nat, j: nat)
    requires k < |log| && log[k].Committed? && Answers(log, image, k, j)
    ensures Answers(log + [e], image, k, j)
  {
    hide DiskAfter, PagesOf;
    assert (log + [e])[..j] == log[..j];
  }

  lemma CommitStays(log: seq<Event>, e: Event, image: seq<Byte>, k: nat)
    requires k < |log| && log[k].Committed? && CommitFaithful(log, image, k)
    ensures CommitFaithful(log + [e], image, k)
  {
    hide Answers, GivenTime;
    assert (log + [e])[..k] == log[..k];
    var j :| 0 <= j < k && Answers(log, image, k, j);
    AnswersStays(log, e, image, k, j);
  }

  lemma CommitsStay(log: seq<Event>, e: Event, image: seq<Byte>)
    requires CommitsFaithful(log, image)
    requires e.Committed? ==> CommitFaithful(log + [e], image, |log|)
    ensures CommitsFaithful(log + [e], image)
  {
    hide CommitFaithful;
    forall k | 0 <= k < |log| && log[k].Committed? ensures CommitFaithful(log + [e], image, k) {
      CommitStays(log, e, image, k);
    }
  }

  // Submission.

  predicate Ready(s: State) {
    Core(s) && s.inflight < |s.slots|
  }

  /** What the server does with an accepted submission: a channel that is no longer outstanding takes the request. */
  predicate Takes(s: State, sim: Sim, v: nat, req: Request, completion: int) {
    && v < |s.sim.chans| && s.sim.chans[v].completion <= s.latest < completion
    && sim == s.sim.(chans := s.sim.chans[v := SsdChannel(s.nextId, completion, req.pos + req.Sectors(),
         Code(req.dir))])
  }

  lemma WholeSectors(req: Request)
    requires req.WellFormed()
    ensures SectorBytes(req) == req.Bytes() <= MAX_REQUEST_BYTES
  {
    hide Flat;
  }

  /** The server never refuses: with fewer requests in flight than channels, some channel completed at or before the
      watermark, and the watermark is behind the time of submission. */
  lemma ServerAccepts(s: State, req: Request, now: int) returns (v: nat, completion: int, sim: Sim)
    requires Shape(s) && Agreed(s) && Counted(s) && s.inflight < |s.slots| && req.WellFormed() && s.latest < now
    ensures SubmitRequest(s.sim, now, req.dir, req.pos, req.Sectors(), s.nextId) == Accepted(sim)
    ensures Takes(s, sim, v, req, completion) && completion >= now
  {
    v := OldestIsDead(s);
    WholeSectors(req);
    hide Flat, Agreed, Counted, FirstLeast, FollowsChannel;
    completion := now + s.sim.latency.Of(FollowsChannel(s.sim.chans, Code(req.dir), req.pos), req.dir,
                                         SizeClass(req.Sectors() * SECTOR_SIZE).value);
    sim := s.sim.(chans := s.sim.chans[v := SsdChannel(s.nextId, completion, req.pos + req.Sectors(), Code(req.dir))]);
  }

  /** The oldest channel of the server is not outstanding. */
  lemma OldestIsDead(s: State) returns (v: nat)
    requires Agreed(s) && Counted(s) && s.inflight < |s.slots| == |s.sim.chans|
    ensures v < |s.sim.chans| && FirstLeast(CompletionKeys(s.sim.chans)) == Some(v)
      && s.sim.chans[v].completion <= s.latest
  {
    hide HeldIds;
    LiveCount(s.sim.chans, s.latest);
    hide LiveIds;
    var d :| 0 <= d < |s.sim.chans| && s.sim.chans[d].completion <= s.latest;
    var keys := CompletionKeys(s.sim.chans);
    assert keys[d].Some?;
    v := FirstLeast(keys).value;
  }

  lemma FreeSlot(s: State)
    requires Counted(s) && s.inflight < |s.slots|
    ensures FindId(s.slots, 0).Some?
  {
    hide FindId, HeldIds;
    HeldCount(s.slots);
  }

  lemma SubmitShape(s: State, req: Request, now: int) returns (slot: nat, v: nat, completion: int, sim: Sim)
    requires Shape(s) && Agreed(s) && Counted(s) && s.inflight < |s.slots| && req.WellFormed() && s.latest < now
    ensures slot < |s.slots| && s.slots[slot].id == 0 && completion >= now && Takes(s, sim, v, req, completion)
    ensures req.Bytes() == SectorBytes(req) <= |s.slots[slot].data| && req.Offset() + SectorBytes(req) <= |s.memory|
    ensures Submit(s, req, now) == Moves(Placed(s, slot, req, now, sim))
  {
    v, completion, sim := ServerAccepts(s, req, now);
    FreeSlot(s);
    WholeSectors(req);
    hide Flat, Placed, SubmitRequest, HeldIds, LiveIds, SectorBytes, Takes;
    slot := FindId(s.slots, 0).value;
  }

  lemma {:induction false} CompletionFound(chans: seq<SsdChannel>, v: nat, id: int)
    requires v < |chans| && chans[v].ioId == id && forall i | 0 <= i < |chans| && i != v :: chans[i].ioId != id
    ensures CompletionOf(chans, id) == chans[v].completion
    decreases |chans|
  {
    if v == |chans| - 1 {
    } else {
      CompletionFound(chans[..|chans| - 1], v, id);
    }
  }

  lemma PutShape(s: State, slot: nat, v: nat, req: Request, now: int, sim: Sim, data: seq<Byte>, memory: seq<Byte>,
      completion: int)
    requires Shape(s) && Watermark(s) && slot < |s.slots| && Takes(s, sim, v, req, completion) && s.clock <= now
      && req.WellFormed()
    requires |data| == MAX_REQUEST_BYTES && |memory| == |s.memory|
    ensures var t := Put(s, slot, req, now, sim, data, memory, completion); Shape(t) && Watermark(t)
  {
    hide Flat;
  }

  lemma IdsAdd(a: multiset<int>, b: multiset<int>, c: multiset<int>, id: int)
    requires a == b + c
    ensures a + multiset{id} == b + multiset{id} + c
  {
    assert b + c + multiset{id} == b + multiset{id} + c;
  }

  lemma HeldGains(slots: seq<Slot>, slot: nat, t: Slot)
    requires slot < |slots| && slots[slot].id == 0 && t.id != 0
    ensures HeldIds(slots[slot := t]) == HeldIds(slots) + multiset{t.id as int}
  {
    hide HeldIds;
    HeldUpdate(slots, slot, t);
    assert HeldIds(slots[slot := t]) + multiset{} == HeldIds(slots[slot := t]);
  }

  lemma LiveGains(chans: seq<SsdChannel>, v: nat, c: SsdChannel, after: int)
    requires v < |chans| && chans[v].completion <= after < c.completion
    ensures LiveIds(chans[v := c], after) == LiveIds(chans, after) + multiset{c.ioId}
  {
    hide LiveIds;
    LiveUpdate(chans, v, c, after);
    assert LiveIds(chans[v := c], after) + multiset{} == LiveIds(chans[v := c], after);
  }

  /** Driver and server take up the new request under the same, new id. */
  lemma PutBooks(s: State, slot: nat, v: nat, req: Request, now: int, sim: Sim, data: seq<Byte>, memory: seq<Byte>,
      completion: int)
    requires Agreed(s) && Conserved(s) && Counted(s) && s.inflight < |s.slots|
    requires slot < |s.slots| && s.slots[slot].id == 0 && Takes(s, sim, v, req, completion)
    ensures var t := Put(s, slot, req, now, sim, data, memory, completion); Agreed(t) && Conserved(t) && Counted(t)
  {
    hide HeldIds, LiveIds, SubmittedIds, CommittedIds, DiskAfter, Flat;
    HeldGains(s.slots, slot, Slot(s.nextId, Some(req), data));
    LiveGains(s.sim.chans, v, SsdChannel(s.nextId, completion, req.pos + req.Sectors(), Code(req.dir)), s.latest);
    Append(s.log, Submitted(req, s.nextId, now, completion), s.image);
    IdsAdd(SubmittedIds(s.log), HeldIds(s.slots), CommittedIds(s.log), s.nextId);
    assert CommittedIds(s.log) + multiset{} == CommittedIds(s.log);
  }

  lemma PutLog(s: State, slot: nat, req: Request, now: int, sim: Sim, data: seq<Byte>, memory: seq<Byte>,
      completion: int)
    requires UniqueTags(s.log) && IdsGrow(s) && Ordered(s) && !KnownTag(s.log, req.tag) && slot < |s.slots|
      && s.clock <= now
    ensures var t := Put(s, slot, req, now, sim, data, memory, completion);
            UniqueTags(t.log) && IdsGrow(t) && Ordered(t)
  {
    hide Flat;
    var t := Put(s, slot, req, now, sim, data, memory, completion);
    forall i, j | 0 <= i < j < |t.log| && t.log[i].Submitted? && t.log[j].Submitted?
      ensures t.log[i].req.tag != t.log[j].req.tag && t.log[i].id < t.log[j].id
    {
      assert t.log[i] == s.log[i];
    }
  }

  lemma PutTimes(s: State, slot: nat, v: nat, req: Request, now: int, sim: Sim, data: seq<Byte>, memory: seq<Byte>,
      completion: int)
    requires TimesFaithful(s) && slot < |s.slots| && Takes(s, sim, v, req, completion)
    ensures TimesFaithful(Put(s, slot, req, now, sim, data, memory, completion))
  {
    hide Flat;
    var t := Put(s, slot, req, now, sim, data, memory, completion);
    var e := Submitted(req, s.nextId, now, completion);
    forall i | 0 <= i < |t.sim.chans| && t.sim.chans[i].completion > t.latest
      ensures GivenTime(t.log, t.sim.chans[i].ioId, t.sim.chans[i].completion)
    {
      if i == v {
        assert t.log[|s.log|] == e;
      } else {
        GivenStays(s.log, e, s.sim.chans[i].ioId, s.sim.chans[i].completion);
      }
    }
  }

  /** The data: a write reaches the server's disk at once, a read is staged as of now. */
  predicate Moved(s: State, req: Request, data: seq<Byte>, memory: seq<Byte>) {
    && |data| == MAX_REQUEST_BYTES && req.Bytes() <= |data| && req.Offset() + req.Bytes() <= |s.memory|
    && memory == (if req.dir == Write then Splice(s.memory, req.Offset(), Flat(req.segments)) else s.memory)
    && (req.dir == Read ==> data[..req.Bytes()] == s.memory[req.Offset()..req.Offset() + req.Bytes()])
  }

  lemma StagedData(s: State, slot: nat, req: Request)
    requires Shape(s) && slot < |s.slots| && req.WellFormed()
    requires SectorBytes(req) <= |s.slots[slot].data| && req.Offset() + SectorBytes(req) <= |s.memory|
    ensures var data := Staged(s.slots[slot].data, s.memory, req);
            Moved(s, req, data, if req.dir == Write then Splice(s.memory, req.Offset(), data[..SectorBytes(req)])
                else s.memory)
  {
    hide Flat, SectorBytes;
    WholeSectors(req);
    var data := Staged(s.slots[slot].data, s.memory, req);
    assert data[0..0 + req.Bytes()] == data[..req.Bytes()];
  }

  lemma PutData(s: State, slot: nat, req: Request, now: int, sim: Sim, data: seq<Byte>, memory: seq<Byte>,
      completion: int)
    requires s.memory == DiskAfter(s.image, s.log) && Moved(s, req, data, memory) && slot < |s.slots|
    ensures var t := Put(s, slot, req, now, sim, data, memory, completion); t.memory == DiskAfter(t.image, t.log)
  {
    hide Flat;
    Append(s.log, Submitted(req, s.nextId, now, completion), s.image);
  }

  lemma NewSlotFaithful(s: State, req: Request, now: int, data: seq<Byte>, memory: seq<Byte>, completion: int)
    requires s.memory == DiskAfter(s.image, s.log) && Moved(s, req, data, memory)
    ensures SlotFaithful(s.log + [Submitted(req, s.nextId, now, completion)], s.image, Slot(s.nextId, Some(req), data))
  {
    hide Flat, DiskAfter;
    var log := s.log + [Submitted(req, s.nextId, now, completion)];
    assert log[..|s.log|] == s.log;
    assert HeldSince(log, s.image, Slot(s.nextId, Some(req), data), |s.log|);
  }

  lemma PutSlots(s: State, slot: nat, req: Request, now: int, sim: Sim, data: seq<Byte>, memory: seq<Byte>,
      completion: int)
    requires SlotsFaithful(s) && s.memory == DiskAfter(s.image, s.log) && Moved(s, req, data, memory)
      && slot < |s.slots|
    ensures SlotsFaithful(Put(s, slot, req, now, sim, data, memory, completion))
  {
    hide Flat, DiskAfter, SlotFaithful;
    var t := Put(s, slot, req, now, sim, data, memory, completion);
    NewSlotFaithful(s, req, now, data, memory, completion);
    forall i | 0 <= i < |t.slots| ensures SlotFaithful(t.log, t.image, t.slots[i]) {
      if i != slot {
        SlotStays(s.log, Submitted(req, s.nextId, now, completion), s.image, s.slots[i]);
      }
    }
  }

  /** The channels that were outstanding are still as they were. */
  predicate Extends(before: seq<SsdChannel>, after: seq<SsdChannel>, latest: int) {
    |before| == |after| && forall i | 0 <= i < |before| && before[i].completion > latest :: after[i] == before[i]
  }

  /** What one submission leaves as it was. */
  predicate Accepted1(s: State, t: State, req: Request, now: int) {
    && Core(t) && t.clock == now && t.latest == s.latest && t.nextIds == s.nextIds && t.nextTime == s.nextTime
    && t.thread == s.thread && t.stopped == s.stopped && |t.slots| == |s.slots| && t.inflight == s.inflight + 1
    && Extends(s.sim.chans, t.sim.chans, s.latest) && t.maxQuery == s.maxQuery
    && (exists i | 0 <= i < |t.sim.chans| :: t.sim.chans[i].completion > t.latest)
    && |t.log| == |s.log| + 1 && t.log == s.log + [t.log[|s.log|]] && t.log[|s.log|].Submitted?
    && t.log[|s.log|].req == req
  }

  lemma PutKeeps(s: State, slot: nat, v: nat, req: Request, now: int, sim: Sim, data: seq<Byte>, memory: seq<Byte>,
      completion: int)
    requires Core(s) && s.inflight < |s.slots| && slot < |s.slots| && s.slots[slot].id == 0 && req.WellFormed()
    requires s.clock <= now && Takes(s, sim, v, req, completion) && Moved(s, req, data, memory)
      && !KnownTag(s.log, req.tag)
    ensures Accepted1(s, Put(s, slot, req, now, sim, data, memory, completion), req, now)
  {
    hide Flat, DiskAfter, SlotsFaithful, TimesFaithful, CommitsFaithful, IdsGrow, Ordered, UniqueTags, Agreed,
      Conserved, Counted, KnownTag, Splice, Shape, Watermark;
    var t := Put(s, slot, req, now, sim, data, memory, completion);
    MemoryKept(s, req, data, memory);
    PutShape(s, slot, v, req, now, sim, data, memory, completion);
    PutBooks(s, slot, v, req, now, sim, data, memory, completion);
    PutLog(s, slot, req, now, sim, data, memory, completion);
    PutTimes(s, slot, v, req, now, sim, data, memory, completion);
    PutData(s, slot, req, now, sim, data, memory, completion);
    PutSlots(s, slot, req, now, sim, data, memory, completion);
    CommitsStay(s.log, Submitted(req, s.nextId, now, completion), s.image);
    hide Moved;
    assert t.sim.chans[v].completion > t.latest;
  }

  lemma MemoryKept(s: State, req: Request, data: seq<Byte>, memory: seq<Byte>)
    requires Moved(s, req, data, memory)
    ensures |memory| == |s.memory| && |data| == MAX_REQUEST_BYTES
  {
  }

  lemma TakesItsTime(s: State, sim: Sim, v: nat, req: Request, completion: int)
    requires Agreed(s) && Takes(s, sim, v, req, completion)
    ensures CompletionOf(sim.chans, s.nextId) == completion
  {
    CompletionFound(sim.chans, v, s.nextId);
  }

  lemma SubmitKeeps(s: State, req: Request, now: int)
    requires Ready(s) && req.WellFormed() && s.clock <= now && s.latest < now && !KnownTag(s.log, req.tag)
    ensures Submit(s, req, now).Moves? && Accepted1(s, Submit(s, req, now).s, req, now)
  {
    hide Flat, DiskAfter, SlotsFaithful, TimesFaithful, CommitsFaithful, IdsGrow, Ordered, UniqueTags, Agreed,
      Conserved, Counted, KnownTag, Splice, Shape, Watermark, Submit, Takes, Put, Moved, Accepted1, Staged,
      CompletionOf, SectorBytes;
    var slot, v, completion, sim := SubmitShape(s, req, now);
    StagedData(s, slot, req);
    TakesItsTime(s, sim, v, req, completion);
    var data := Staged(s.slots[slot].data, s.memory, req);
    var memory := if req.dir == Write then Splice(s.memory, req.Offset(), data[..SectorBytes(req)]) else s.memory;
    PutKeeps(s, slot, v, req, now, sim, data, memory, completion);
  }
}
