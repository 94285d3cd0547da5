/** The drain of the emudisk: every id of every answer is in the table, no response is early, and the loop ends. */
module EmudiskDrain {
  import opened Block
  import opened Bags
  import opened Scan
  import opened Sleep
  import opened SsdSim
  import opened Emudisk
  import opened EmudiskInv
  import opened EmudiskSteps
  import opened EmudiskRefresh

  // One batch of responses.

  /** While the responses due at `s.nextTime` are being delivered, those in `ids` are still to come. */
  predicate Delivering(s: State, ids: seq<int>) {
    && Shape(s) && UniqueTags(s.log) && IdsGrow(s) && SlotsFaithful(s) && CommitsFaithful(s.log, s.image)
    && Conserved(s) && Counted(s)
    && s.memory == DiskAfter(s.image, s.log)
    && HeldIds(s.slots) == LiveIds(s.sim.chans, s.nextTime) + multiset(ids)
    && UniqueIds(s)
    && TimesFaithfulAfter(s, s.nextTime)
    && (forall k | 0 <= k < |ids| :: GivenTime(s.log, ids[k], s.nextTime))
    && 0 <= s.sim.time == s.maxQuery <= s.latest <= s.nextTime <= s.clock && s.clock > 0
    && Ordered(s)
  }

  predicate UniqueIds(s: State) {
    && (forall id | id in HeldIds(s.slots) :: HeldIds(s.slots)[id] == 1 && 0 < id < s.nextId)
    && (forall i | 0 <= i < |s.sim.chans| :: s.sim.chans[i].ioId < s.nextId)
    && 0 < s.nextId
  }

  predicate TimesFaithfulAfter(s: State, time: int) {
    forall i | 0 <= i < |s.sim.chans| && s.sim.chans[i].completion > time ::
      GivenTime(s.log, s.sim.chans[i].ioId, s.sim.chans[i].completion)
  }

  /** The ids outstanding after the watermark are those of the next time and those after it. */
  lemma {:induction false} LiveSplits(chans: seq<SsdChannel>, latest: int, time: int)
    requires latest < time && forall i | 0 <= i < |chans| && chans[i].completion > latest :: time <= chans[i].completion
    ensures LiveIds(chans, latest) == LiveIds(chans, time) + multiset(IdsAt(chans, time))
    decreases |chans|
  {
    if |chans| == 0 {
    } else {
      var front, c := chans[..|chans| - 1], chans[|chans| - 1];
      LiveSplits(front, latest, time);
      LiveStep(chans, latest);
      LiveStep(chans, time);
      var here := if c.completion == time then [c.ioId] else [];
      assert IdsAt(chans, time) == IdsAt(front, time) + here;
      assert LiveId(c, latest) == LiveId(c, time) + multiset(here);
      hide *;
      Pairs(LiveIds(front, time), multiset(IdsAt(front, time)), LiveId(c, time), multiset(here));
    }
  }

  /** The cached answer says what is due: the ids are those held and due next, and their times are the recorded ones. */
  lemma StartDelivering(s: State)
    requires Core(s) && Cached(s) && s.nextIds != [] && s.nextTime <= s.clock
    ensures Delivering(s, s.nextIds) && s.latest < s.nextTime
  {
    hide HeldIds, DiskAfter, SlotsFaithful, CommitsFaithful, UniqueTags, IdsGrow, Ordered, Conserved, Counted, IdsAt;
    NextResponsesSome(s.sim.chans, s.latest);
    var keys := AfterKeys(s.sim.chans, s.latest);
    forall i | 0 <= i < |s.sim.chans| && s.sim.chans[i].completion > s.latest
      ensures s.nextTime <= s.sim.chans[i].completion
    {
      assert keys[i] == Some(s.sim.chans[i].completion);
    }
    LiveSplits(s.sim.chans, s.latest, s.nextTime);
    hide LiveIds, Least;
    forall k | 0 <= k < |s.nextIds| ensures GivenTime(s.log, s.nextIds[k], s.nextTime) {
      var i := IdsAtOnly(s.sim.chans, s.nextTime, s.nextIds[k]);
      assert s.sim.chans[i].completion > s.latest;
    }
  }

  lemma BagHead(ids: seq<int>)
    requires |ids| > 0
    ensures multiset(ids) == multiset{ids[0]} + multiset(ids[1..]) && ids[0] in multiset(ids)
  {
    assert ids == [ids[0]] + ids[1..];
  }

  /** Every id of a delivered answer is found in the table. */
  lemma IdIsHeld(s: State, ids: seq<int>) returns (i: nat)
    requires Delivering(s, ids) && |ids| > 0
    ensures FindId(s.slots, ids[0]) == Some(i) && i < |s.slots| && s.slots[i].id == ids[0] && s.slots[i].id != 0
    ensures s.slots[i].req.Some? && s.slots[i].req.value.WellFormed() && |s.slots[i].data| == MAX_REQUEST_BYTES
  {
    hide HeldIds, LiveIds, SlotsFaithful, CommitsFaithful, DiskAfter, Conserved, UniqueTags, IdsGrow, Counted, FindId;
    BagHead(ids);
    assert ids[0] in HeldIds(s.slots);
    var j := HeldOnly(s.slots, ids[0]);
    i := FindId(s.slots, ids[0]).value;
  }

  /** The pages of a delivered read: cut from the staging buffer. */
  function PagesFrom(slot: Slot): seq<seq<Byte>>
    requires slot.req.Some? && (slot.req.value.dir == Read ==> slot.req.value.Bytes() <= |slot.data|)
  {
    if slot.req.value.dir == Read then Scatter(slot.data[..slot.req.value.Bytes()], slot.req.value.segments) else []
  }

  function Handed(s: State, i: nat, id: int): State
    requires i < |s.slots| && s.slots[i].req.Some?
    requires s.slots[i].req.value.dir == Read ==> s.slots[i].req.value.Bytes() <= |s.slots[i].data|
  {
    s.(slots := s.slots[i := s.slots[i].(id := 0)],
       latest := s.nextTime,
       retiring := s.retiring + multiset{s.slots[i].req.value},
       log := s.log + [Committed(s.slots[i].req.value, id, s.nextTime, s.clock, PagesFrom(s.slots[i]))])
  }

  lemma DeliverShape(s: State, ids: seq<int>) returns (i: nat)
    requires Delivering(s, ids) && |ids| > 0
    ensures i < |s.slots| && s.slots[i].id == ids[0] != 0 && s.slots[i].req.Some? && s.slots[i].req.value.WellFormed()
    ensures s.slots[i].req.value.Bytes() <= |s.slots[i].data|
    ensures Deliver(s, ids[0]) == Moves(Handed(s, i, ids[0]))
  {
    i := IdIsHeld(s, ids);
    hide Delivering, FindId, Flat;
  }

  lemma IdsMove(a: multiset<int>, b: multiset<int>, b': multiset<int>, c: multiset<int>, id: int)
    requires a == b + c && b' + multiset{id} == b
    ensures a == b' + (c + multiset{id})
    ensures |b'| == |b| - 1
  {
    assert b' + (c + multiset{id}) == b' + multiset{id} + c;
    assert |b' + multiset{id}| == |b'| + 1;
  }

  lemma HeldLoses(slots: seq<Slot>, i: nat)
    requires i < |slots| && slots[i].id != 0
    ensures HeldIds(slots[i := slots[i].(id := 0)]) + multiset{slots[i].id as int} == HeldIds(slots)
  {
    hide HeldIds;
    HeldUpdate(slots, i, slots[i].(id := 0));
    assert HeldIds(slots) + multiset{} == HeldIds(slots);
  }

  lemma Cancel(a: multiset<int>, b: multiset<int>, c: multiset<int>, id: int)
    requires a + multiset{id} == b + (multiset{id} + c)
    ensures a == b + c
  {
    assert a == a + multiset{id} - multiset{id};
    assert b + c == b + (multiset{id} + c) - multiset{id};
  }

  lemma HandedBooks(s: State, i: nat, ids: seq<int>)
    requires Conserved(s) && Counted(s) && UniqueIds(s) && |ids| > 0
    requires HeldIds(s.slots) == LiveIds(s.sim.chans, s.nextTime) + multiset(ids)
    requires i < |s.slots| && s.slots[i].id == ids[0] != 0 && s.slots[i].req.Some?
    requires s.slots[i].req.value.dir == Read ==> s.slots[i].req.value.Bytes() <= |s.slots[i].data|
    ensures var t := Handed(s, i, ids[0]);
            && Conserved(t) && Counted(t) && UniqueIds(t)
            && HeldIds(t.slots) == LiveIds(t.sim.chans, t.nextTime) + multiset(ids[1..])
            && |HeldIds(t.slots)| == |HeldIds(s.slots)| - 1
  {
    hide HeldIds, LiveIds, SubmittedIds, CommittedIds, DiskAfter, Flat, PagesFrom;
    var t := Handed(s, i, ids[0]);
    HeldLoses(s.slots, i);
    BagHead(ids);
    Append(s.log, t.log[|s.log|], s.image);
    Cancel(HeldIds(t.slots), LiveIds(s.sim.chans, s.nextTime), multiset(ids[1..]), ids[0]);
    IdsMove(SubmittedIds(s.log), HeldIds(s.slots), HeldIds(t.slots), CommittedIds(s.log), ids[0]);
    assert SubmittedIds(s.log) + multiset{} == SubmittedIds(s.log);
    assert |s.retiring + multiset{s.slots[i].req.value}| == |s.retiring| + 1;
    StillUnique(HeldIds(s.slots), HeldIds(t.slots), ids[0]);
  }

  lemma StillUnique(a: multiset<int>, b: multiset<int>, id: int)
    requires b + multiset{id} == a
    ensures forall x | x in b :: x in a && b[x] <= a[x]
  {
    forall x | x in b ensures x in a && b[x] <= a[x] {
      assert a[x] == b[x] + multiset{id}[x];
    }
  }

  lemma HandedCommit(s: State, i: nat, id: int)
    requires i < |s.slots| && s.slots[i].id == id != 0 && s.slots[i].req.Some? && s.slots[i].req.value.WellFormed()
    requires s.slots[i].req.value.Bytes() <= |s.slots[i].data| && |s.image| == DISK_BYTES
    requires SlotsFaithful(s) && GivenTime(s.log, id, s.nextTime) && s.nextTime <= s.clock
    ensures var t := Handed(s, i, id); CommitFaithful(t.log, t.image, |s.log|)
  {
    hide GivenTime, Flat, DiskAfter;
    var t, slot := Handed(s, i, id), s.slots[i];
    assert SlotFaithful(s.log, s.image, slot);
    hide HeldSince;
    var k :| 0 <= k < |s.log| && HeldSince(s.log, s.image, slot, k);
    HeldAnswers(s.log, s.image, slot, k, t.log[|s.log|]);
    assert t.log[..|s.log|] == s.log;
    assert Answers(t.log, t.image, |s.log|, k);
  }

  lemma HeldAnswers(log: seq<Event>, image: seq<Byte>, slot: Slot, k: nat, e: Event)
    requires slot.req.Some? && slot.req.value.Bytes() <= |slot.data| && HeldSince(log, image, slot, k)
    requires e.Committed? && e.req == slot.req.value && e.id == slot.id && e.pages == PagesFrom(slot)
    requires e.req.Offset() + e.req.Bytes() <= |image|
    ensures Answers(log + [e], image, |log|, k)
  {
    hide Flat, DiskAfter, Scatter;
    assert (log + [e])[..k] == log[..k];
  }

  lemma HandedLog(s: State, i: nat, id: int)
    requires i < |s.slots| && s.slots[i].req.Some?
    requires s.slots[i].req.value.dir == Read ==> s.slots[i].req.value.Bytes() <= |s.slots[i].data|
    requires UniqueTags(s.log) && IdsGrow(s) && Ordered(s) && s.latest <= s.nextTime
    ensures var t := Handed(s, i, id); UniqueTags(t.log) && IdsGrow(t) && Ordered(t)
  {
    hide PagesFrom;
  }

  lemma HandedTimes(s: State, i: nat, id: int, ids: seq<int>)
    requires i < |s.slots| && s.slots[i].req.Some?
    requires s.slots[i].req.value.dir == Read ==> s.slots[i].req.value.Bytes() <= |s.slots[i].data|
    requires TimesFaithfulAfter(s, s.nextTime) && forall k | 0 <= k < |ids| :: GivenTime(s.log, ids[k], s.nextTime)
    ensures var t := Handed(s, i, id);
            && TimesFaithfulAfter(t, t.nextTime)
            && (forall k | 1 <= k < |ids| :: GivenTime(t.log, ids[k], t.nextTime))
  {
    hide PagesFrom, GivenTime;
    var t := Handed(s, i, id);
    var e := t.log[|s.log|];
    forall j | 0 <= j < |t.sim.chans| && t.sim.chans[j].completion > t.nextTime
      ensures GivenTime(t.log, t.sim.chans[j].ioId, t.sim.chans[j].completion)
    {
      GivenStays(s.log, e, s.sim.chans[j].ioId, s.sim.chans[j].completion);
    }
    forall k | 1 <= k < |ids| ensures GivenTime(t.log, ids[k], t.nextTime) {
      GivenStays(s.log, e, ids[k], s.nextTime);
    }
  }

  lemma HandedSlots(s: State, i: nat, id: int)
    requires i < |s.slots| && s.slots[i].req.Some?
    requires s.slots[i].req.value.dir == Read ==> s.slots[i].req.value.Bytes() <= |s.slots[i].data|
    requires Shape(s) && SlotsFaithful(s) && s.memory == DiskAfter(s.image, s.log)
    ensures var t := Handed(s, i, id); Shape(t) && SlotsFaithful(t) && t.memory == DiskAfter(t.image, t.log)
  {
    hide PagesFrom, HeldSince, Flat;
    var t := Handed(s, i, id);
    var e := t.log[|s.log|];
    Append(s.log, e, s.image);
    hide DiskAfter;
    forall j | 0 <= j < |t.slots| ensures SlotFaithful(t.log, t.image, t.slots[j]) {
      if j != i {
        SlotStays(s.log, e, s.image, s.slots[j]);
      }
    }
  }

  lemma DeliverKeeps(s: State, ids: seq<int>)
    requires Delivering(s, ids) && |ids| > 0
    ensures Deliver(s, ids[0]).Moves? && Delivering(Deliver(s, ids[0]).s, ids[1..])
    ensures Delivered1(s, Deliver(s, ids[0]).s)
  {
    hide HeldIds, LiveIds, DiskAfter, SlotsFaithful, CommitsFaithful, UniqueTags, IdsGrow, Ordered, Conserved,
      Counted, UniqueIds, TimesFaithfulAfter, GivenTime, Flat, PagesFrom, Deliver, Shape;
    var i := DeliverShape(s, ids);
    ShapeImage(s);
    HandedBooks(s, i, ids);
    HandedCommit(s, i, ids[0]);
    HandedLog(s, i, ids[0]);
    HandedTimes(s, i, ids[0], ids);
    HandedSlots(s, i, ids[0]);
    var t := Handed(s, i, ids[0]);
    CommitsStay(s.log, t.log[|s.log|], s.image);
    assert forall k | 0 <= k < |ids[1..]| :: ids[1..][k] == ids[k + 1];
  }

  lemma ShapeImage(s: State)
    requires Shape(s)
    ensures |s.image| == DISK_BYTES
  {
  }

  /** What the delivery of one response leaves as it was. */
  predicate Delivered1(s: State, t: State) {
    && t.latest == s.nextTime == t.nextTime && t.nextIds == s.nextIds && t.clock == s.clock && t.sim == s.sim
    && t.thread == s.thread && t.stopped == s.stopped && t.inflight == s.inflight && |t.slots| == |s.slots|
    && |HeldIds(t.slots)| < |HeldIds(s.slots)|
  }

  lemma {:induction false} DeliverAllKeeps(s: State, ids: seq<int>)
    requires Delivering(s, ids) && |ids| > 0
    ensures DeliverAll(s, ids).Moves? && Delivering(DeliverAll(s, ids).s, []) && Delivered1(s, DeliverAll(s, ids).s)
    decreases |ids|
  {
    hide Delivering, Deliver, HeldIds;
    DeliverKeeps(s, ids);
    if |ids| > 1 {
      DeliverAllKeeps(Deliver(s, ids[0]).s, ids[1..]);
    }
  }

  /** Once everything due has been handed back, the invariant holds with the watermark moved up. */
  lemma DoneDelivering(s: State)
    requires Delivering(s, []) && s.latest == s.nextTime
    ensures Core(s)
  {
    hide DiskAfter, SlotsFaithful, CommitsFaithful, UniqueTags, IdsGrow, Ordered, Conserved, Counted, HeldIds, LiveIds,
      Shape, GivenTime;
    assert LiveIds(s.sim.chans, s.nextTime) + multiset([]) == LiveIds(s.sim.chans, s.nextTime);
  }

  // The rounds.

  /** What a completed drain leaves. */
  predicate Drained(s: State, t: State) {
    && Core(t) && Cached(t) && Attentive(t.thread, t.nextIds != [], t.nextTime, t.clock)
    && (t.nextIds != [] ==> t.clock <= t.nextTime)
    && t.inflight == s.inflight && t.stopped == s.stopped && |t.slots| == |s.slots| && t.clock >= s.clock
    && t.latest >= s.latest
  }

  /** A state at the start of a round: something is due. */
  predicate RoundDue(s: State) {
    Core(s) && Cached(s) && s.nextIds != [] && s.nextTime <= s.clock
  }

  lemma ClockFrame(s: State, now: int)
    requires Core(s) && s.clock <= now
    ensures Core(s.(clock := now))
  {
    hide DiskAfter, SlotFaithful, CommitsFaithful, UniqueTags, HeldIds, LiveIds, SubmittedIds, CommittedIds;
  }

  function RoundStart(s: State, now: int): State {
    s.(clock := now)
  }

  function RoundEnd(s: State, later: int): State {
    var a := NextResponses(s.sim.chans, s.latest);
    if a.ids == [] then Asked(s).(clock := later, nextIds := [])
    else Asked(s).(clock := later, nextTime := a.time, nextIds := a.ids)
  }

  /** One round: nothing hangs, the answer cached afterwards is fresh, and fewer requests are outstanding than
      before. */
  lemma RoundKeeps(s: State, now: int, later: int)
    requires RoundDue(s) && s.clock <= now <= later
    ensures var s0 := RoundStart(s, now);
            var d := DeliverAll(s0, s0.nextIds);
            && s0.latest <= s0.clock && s0.latest <= s0.nextTime && d.Moves?
            && var t := RoundEnd(d.s, later);
               && Core(t) && Cached(t) && t.clock == later && |HeldIds(t.slots)| < |HeldIds(s.slots)|
               && t.latest == d.s.latest >= s.latest && (t.nextIds != [] ==> t.nextTime > t.latest)
               && t.inflight == s.inflight && t.stopped == s.stopped && |t.slots| == |s.slots| && t.thread == s.thread
  {
    hide Core, Delivering, DeliverAll, HeldIds, LiveIds, NextResponses;
    var s0 := RoundStart(s, now);
    ClockFrame(s, now);
    StartDelivering(s0);
    CoreFacts(s0);
    DeliverAllKeeps(s0, s0.nextIds);
    var s1 := DeliverAll(s0, s0.nextIds).s;
    DoneDelivering(s1);
    AskedKeeps(s1);
    ClockFrame(Asked(s1), later);
    NextResponsesSome(s1.sim.chans, s1.latest);
    CoreFrame(Asked(s1).(clock := later), RoundEnd(s1, later));
  }

  lemma DrainUnfolds(s: State, rounds: seq<(int, int)>)
    requires |rounds| > 0
    ensures var s0 := RoundStart(s, rounds[0].0);
            var d := DeliverAll(s0, s0.nextIds);
            s0.latest <= s0.clock && s0.latest <= s0.nextTime && s0.nextIds != [] && d.Moves? ==>
              var t := RoundEnd(d.s, rounds[0].1);
              (t.nextIds != [] ==> t.nextTime > d.s.latest) ==>
                Drain(s, rounds) ==
                if t.nextIds != [] && t.nextTime < rounds[0].1 then Drain(t, rounds[1..])
                else if |rounds| > 1 then Refused else Moves(Settle(t))
  {
    hide DeliverAll, NextResponses;
  }

  lemma RoundsOn(from: int, rounds: seq<(int, int)>)
    requires |rounds| > 0 && RoundsClimb(from, rounds)
    ensures from <= rounds[0].0 <= rounds[0].1 && RoundsClimb(rounds[0].1, rounds[1..])
  {
  }

  lemma SettleKeeps(s: State)
    requires Core(s) && Cached(s) && (s.nextIds != [] ==> s.clock <= s.nextTime)
    ensures Drained(s, Settle(s))
  {
    hide NextResponses, Core;
    CoreFrame(s, Settle(s));
  }

  lemma {:induction false} DrainKeeps(s: State, rounds: seq<(int, int)>)
    requires RoundDue(s) && RoundsClimb(s.clock, rounds)
    ensures !Drain(s, rounds).Hangs?
    ensures Drain(s, rounds).Moves? ==> Drained(s, Drain(s, rounds).s)
    decreases |rounds|
  {
    hide Core, Cached, DeliverAll, HeldIds, RoundEnd, Settle, Drain;
    if |rounds| == 0 {
      DrainNone(s);
    } else {
      RoundsOn(s.clock, rounds);
      RoundKeeps(s, rounds[0].0, rounds[0].1);
      DrainUnfolds(s, rounds);
      var t := RoundEnd(DeliverAll(RoundStart(s, rounds[0].0), s.nextIds).s, rounds[0].1);
      if t.nextIds != [] && t.nextTime < rounds[0].1 {
        DrainKeeps(t, rounds[1..]);
      } else {
        SettleKeeps(t);
      }
    }
  }

  lemma DrainNone(s: State)
    ensures Drain(s, []) == Refused
  {
  }

  /** The drain ends after at most as many rounds as there are outstanding requests. */
  lemma {:induction false} DrainTerminates(s: State, rounds: seq<(int, int)>) returns (n: nat)
    requires RoundDue(s) && RoundsClimb(s.clock, rounds) && |rounds| >= |HeldIds(s.slots)|
    ensures 0 < n <= |HeldIds(s.slots)| && Drain(s, rounds[..n]).Moves?
    decreases |rounds|
  {
    hide Core, Cached, DeliverAll, HeldIds, RoundEnd, Settle, Drain;
    SomethingHeld(s);
    RoundsOn(s.clock, rounds);
    RoundKeeps(s, rounds[0].0, rounds[0].1);
    var t := RoundEnd(DeliverAll(RoundStart(s, rounds[0].0), s.nextIds).s, rounds[0].1);
    if t.nextIds != [] && t.nextTime < rounds[0].1 {
      var m := DrainTerminates(t, rounds[1..]);
      n := m + 1;
      assert rounds[..n][1..] == rounds[1..][..m];
    } else {
      n := 1;
    }
    DrainUnfolds(s, rounds[..n]);
  }

  lemma SomethingHeld(s: State)
    requires RoundDue(s)
    ensures |HeldIds(s.slots)| > 0
  {
    RoundKeeps(s, s.clock, s.clock);
  }
}
