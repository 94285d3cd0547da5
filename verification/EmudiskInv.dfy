/** The facts that hold in the emudisk and its server whenever the driver's lock is free. */
module EmudiskInv {
  import opened Block
  import opened Bags
  import opened Sleep
  import opened SsdSim
  import opened Emudisk

  // The ids that are outstanding, as the driver and as the server see them.

  function SlotId(t: Slot): multiset<int> {
    if t.id == 0 then multiset{} else multiset{t.id as int}
  }

  /** The ids in the driver's table. */
  function HeldIds(slots: seq<Slot>): multiset<int> {
    if |slots| == 0 then multiset{} else HeldIds(slots[..|slots| - 1]) + SlotId(slots[|slots| - 1])
  }

  function LiveId(c: SsdChannel, after: int): multiset<int> {
    if c.completion > after then multiset{c.ioId} else multiset{}
  }

  /** The ids of the server's channels that complete after a time. */
  function LiveIds(chans: seq<SsdChannel>, after: int): multiset<int> {
    if |chans| == 0 then multiset{} else LiveIds(chans[..|chans| - 1], after) + LiveId(chans[|chans| - 1], after)
  }

  function SubmittedIds(log: seq<Event>): multiset<int> {
    if |log| == 0 then multiset{}
    else SubmittedIds(log[..|log| - 1])
         + (match log[|log| - 1] case Submitted(_, id, _, _) => multiset{id} case _ => multiset{})
  }

  function CommittedIds(log: seq<Event>): multiset<int> {
    if |log| == 0 then multiset{}
    else CommittedIds(log[..|log| - 1])
         + (match log[|log| - 1] case Committed(_, id, _, _, _) => multiset{id} case _ => multiset{})
  }

  /** The disk after the writes of `log`, applied in order of submission. */
  function DiskAfter(image: seq<Byte>, log: seq<Event>): (disk: seq<Byte>)
    ensures |disk| == |image|
  {
    if |log| == 0 then
      image
    else
      var before := DiskAfter(image, log[..|log| - 1]);
      match log[|log| - 1]
      case Submitted(r, _, _, _) =>
        if r.dir == Write && r.Offset() + r.Bytes() <= |before| then Splice(before, r.Offset(), Flat(r.segments))
        else before
      case _ => before
  }

  /** Between `before` and `after` the submissions of these requests happened, in order, each at its own clock reading,
      and nothing else. */
  predicate Logs(before: seq<Event>, after: seq<Event>, batch: seq<(Request, int)>) {
    && |after| == |before| + |batch| && after[..|before|] == before
    && (forall i | 0 <= i < |batch| :: IsSubmission(after[|before| + i], batch[i]))
  }

  predicate IsSubmission(e: Event, taken: (Request, int)) {
    e.Submitted? && e.req == taken.0 && e.now == taken.1
  }

  // The invariant, conjunct by conjunct.

  predicate Shape(s: State) {
    && s.sim.latency.Ok()
    && 1 <= |s.slots| == |s.sim.chans| <= MAX_CHANNELS
    && |s.memory| == |s.image| == DISK_BYTES
    && (forall i | 0 <= i < |s.slots| :: |s.slots[i].data| == MAX_REQUEST_BYTES)
    && (forall i | 0 <= i < |s.slots| && s.slots[i].id != 0 ::
          s.slots[i].req.Some? && s.slots[i].req.value.WellFormed())
  }

  /** The watermark is behind the clock, and no query ever goes back in time on either side. */
  predicate Watermark(s: State) {
    0 <= s.sim.time == s.maxQuery <= s.latest <= s.clock && s.clock > 0
  }

  /** Driver and server agree on what is outstanding, and no id is outstanding twice. */
  predicate Agreed(s: State) {
    && HeldIds(s.slots) == LiveIds(s.sim.chans, s.latest)
    && (forall id | id in HeldIds(s.slots) :: HeldIds(s.slots)[id] == 1 && 0 < id < s.nextId)
    && (forall i | 0 <= i < |s.sim.chans| :: s.sim.chans[i].ioId < s.nextId)
    && 0 < s.nextId
  }

  /** Every id submitted is either still held or committed. */
  predicate Conserved(s: State) {
    SubmittedIds(s.log) == HeldIds(s.slots) + CommittedIds(s.log)
  }

  predicate Counted(s: State) {
    s.inflight == |HeldIds(s.slots)| + |s.retiring| <= |s.slots|
  }

  /** The cached answer is the answer the server would give now. */
  predicate Cached(s: State) {
    var a := NextResponses(s.sim.chans, s.latest);
    if s.nextIds == [] then a.ids == [] else a.time == s.nextTime && a.ids == s.nextIds && |a.ids| > 0
  }

  predicate UniqueTags(log: seq<Event>) {
    forall i, j | 0 <= i < j < |log| && log[i].Submitted? && log[j].Submitted? :: log[i].req.tag != log[j].req.tag
  }

  /** The submission of this request under this id, and the completion time the server gave it. */
  predicate Promise(log: seq<Event>, k: nat, id: int, req: Request) {
    k < |log| && log[k].Submitted? && log[k].id == id && log[k].req == req
  }

  predicate GivenTime(log: seq<Event>, id: int, completion: int) {
    exists k | 0 <= k < |log| :: log[k].Submitted? && log[k].id == id && log[k].completion == completion
  }

  /** What a slot holds was submitted under its id, and a read's staging buffer holds the disk as of that submission. */
  predicate SlotFaithful(log: seq<Event>, image: seq<Byte>, slot: Slot) {
    slot.id != 0 && slot.req.Some? ==>
      exists k | 0 <= k < |log| :: HeldSince(log, image, slot, k)
  }

  predicate HeldSince(log: seq<Event>, image: seq<Byte>, slot: Slot, k: nat)
    requires slot.req.Some?
  {
    Promise(log, k, slot.id, slot.req.value) && (slot.req.value.dir == Read ==> StagedAt(log, k, image, slot))
  }

  predicate StagedAt(log: seq<Event>, k: nat, image: seq<Byte>, slot: Slot)
    requires k < |log| && slot.req.Some?
  {
    var r := slot.req.value;
    && r.Bytes() <= |slot.data| && r.Offset() + r.Bytes() <= |image|
    && slot.data[..r.Bytes()] == DiskAfter(image, log[..k])[r.Offset()..r.Offset() + r.Bytes()]
  }

  predicate SlotsFaithful(s: State) {
    forall i | 0 <= i < |s.slots| :: SlotFaithful(s.log, s.image, s.slots[i])
  }

  /** The completion time of every outstanding id is the one recorded at its submission. */
  predicate TimesFaithful(s: State) {
    forall i | 0 <= i < |s.sim.chans| && s.sim.chans[i].completion > s.latest ::
      GivenTime(s.log, s.sim.chans[i].ioId, s.sim.chans[i].completion)
  }

  /** A committed response at position `k`: submitted before under the same id, with the completion time it was given,
      not early, and a read with the bytes the disk held when it was submitted. */
  predicate CommitFaithful(log: seq<Event>, image: seq<Byte>, k: nat)
    requires k < |log| && log[k].Committed?
  {
    && log[k].due <= log[k].at
    && GivenTime(log[..k], log[k].id, log[k].due)
    && exists j | 0 <= j < k :: Answers(log, image, k, j)
  }

  /** The response at position `k` answers the submission at position `j`. */
  predicate Answers(log: seq<Event>, image: seq<Byte>, k: nat, j: nat)
    requires k < |log| && log[k].Committed?
  {
    && j < k && Promise(log, j, log[k].id, log[k].req)
    && (log[k].req.dir == Read ==> log[k].pages == PagesOf(DiskAfter(image, log[..j]), log[k].req))
  }

  predicate CommitsFaithful(log: seq<Event>, image: seq<Byte>) {
    forall k | 0 <= k < |log| && log[k].Committed? :: CommitFaithful(log, image, k)
  }

  /** Responses come in the order of their completion times, none past the watermark. */
  predicate Ordered(s: State) {
    && (forall i, j | 0 <= i < j < |s.log| && s.log[i].Committed? && s.log[j].Committed? ::
          s.log[i].due <= s.log[j].due)
    && (forall k | 0 <= k < |s.log| && s.log[k].Committed? :: s.log[k].due <= s.latest && s.log[k].at <= s.clock)
  }

  /** Ids grow along the run. */
  predicate IdsGrow(s: State) {
    && (forall i, j | 0 <= i < j < |s.log| && s.log[i].Submitted? && s.log[j].Submitted? :: s.log[i].id < s.log[j].id)
    && (forall i | 0 <= i < |s.log| && s.log[i].Submitted? :: s.log[i].id < s.nextId)
  }

  predicate Core(s: State) {
    && Shape(s) && Watermark(s) && Agreed(s) && Conserved(s) && Counted(s) && UniqueTags(s.log) && IdsGrow(s)
    && SlotsFaithful(s) && TimesFaithful(s) && CommitsFaithful(s.log, s.image) && Ordered(s)
    && s.memory == DiskAfter(s.image, s.log)
  }

  predicate Inv(s: State) {
    && Core(s)
    && Cached(s)
    && (s.stopped <==> s.inflight == |s.slots|)
    && Attentive(s.thread, s.nextIds != [], s.nextTime, s.clock)
  }

  // Multisets of ids.

  lemma {:induction false} HeldUpdate(slots: seq<Slot>, i: nat, t: Slot)
    requires i < |slots|
    ensures HeldIds(slots[i := t]) + SlotId(slots[i]) == HeldIds(slots) + SlotId(t)
    decreases |slots|
  {
    var last, after := |slots| - 1, slots[i := t];
    HeldStep(after);
    HeldStep(slots);
    if i == last {
      assert after[..last] == slots[..last];
      hide *;
      Swap(HeldIds(slots[..last]), SlotId(t), SlotId(slots[i]));
    } else {
      assert after[..last] == slots[..last][i := t];
      HeldUpdate(slots[..last], i, t);
      hide *;
      Shuffle(HeldIds(after[..last]), SlotId(slots[i]), HeldIds(slots[..last]), SlotId(t), SlotId(slots[last]));
    }
  }

  lemma HeldStep(slots: seq<Slot>)
    requires |slots| > 0
    ensures HeldIds(slots) == HeldIds(slots[..|slots| - 1]) + SlotId(slots[|slots| - 1])
  {
  }

  lemma {:induction false} LiveUpdate(chans: seq<SsdChannel>, i: nat, c: SsdChannel, after: int)
    requires i < |chans|
    ensures LiveIds(chans[i := c], after) + LiveId(chans[i], after) == LiveIds(chans, after) + LiveId(c, after)
    decreases |chans|
  {
    var last, chans' := |chans| - 1, chans[i := c];
    LiveStep(chans', after);
    LiveStep(chans, after);
    if i == last {
      assert chans'[..last] == chans[..last];
      hide *;
      Swap(LiveIds(chans[..last], after), LiveId(c, after), LiveId(chans[i], after));
    } else {
      assert chans'[..last] == chans[..last][i := c];
      LiveUpdate(chans[..last], i, c, after);
      hide *;
      Shuffle(LiveIds(chans'[..last], after), LiveId(chans[i], after), LiveIds(chans[..last], after), LiveId(c, after),
              LiveId(chans[last], after));
    }
  }

  lemma LiveStep(chans: seq<SsdChannel>, after: int)
    requires |chans| > 0
    ensures LiveIds(chans, after) == LiveIds(chans[..|chans| - 1], after) + LiveId(chans[|chans| - 1], after)
  {
  }

  lemma {:induction false} HeldCount(slots: seq<Slot>)
    ensures |HeldIds(slots)| <= |slots|
    ensures |HeldIds(slots)| < |slots| ==> exists i | 0 <= i < |slots| :: slots[i].id == 0
    decreases |slots|
  {
    if |slots| == 0 {
    } else {
      var front := slots[..|slots| - 1];
      HeldCount(front);
      if |HeldIds(slots)| < |slots| {
        if slots[|slots| - 1].id != 0 {
          var i :| 0 <= i < |front| && front[i].id == 0;
          assert slots[i].id == 0;
        }
      }
    }
  }

  lemma {:induction false} LiveCount(chans: seq<SsdChannel>, after: int)
    requires |LiveIds(chans, after)| < |chans|
    ensures exists i | 0 <= i < |chans| :: chans[i].completion <= after
    decreases |chans|
  {
    var front := chans[..|chans| - 1];
    if chans[|chans| - 1].completion > after {
      LiveCount(front, after);
      var i :| 0 <= i < |front| && front[i].completion <= after;
      assert chans[i].completion <= after;
    }
  }

  lemma {:induction false} HeldIn(slots: seq<Slot>, i: nat)
    requires i < |slots| && slots[i].id != 0
    ensures slots[i].id in HeldIds(slots)
    decreases |slots|
  {
    if i == |slots| - 1 {
    } else {
      HeldIn(slots[..|slots| - 1], i);
    }
  }

  lemma {:induction false} HeldOnly(slots: seq<Slot>, id: int) returns (i: nat)
    requires id in HeldIds(slots)
    ensures i < |slots| && slots[i].id == id && id != 0
    decreases |slots|
  {
    var last := |slots| - 1;
    if id in SlotId(slots[last]) {
      i := last;
    } else {
      i := HeldOnly(slots[..last], id);
    }
  }

  lemma {:induction false} LiveIn(chans: seq<SsdChannel>, i: nat, after: int)
    requires i < |chans| && chans[i].completion > after
    ensures chans[i].ioId in LiveIds(chans, after)
    decreases |chans|
  {
    if i == |chans| - 1 {
    } else {
      LiveIn(chans[..|chans| - 1], i, after);
    }
  }

  lemma {:induction false} HeldNone(slots: seq<Slot>)
    requires forall i | 0 <= i < |slots| :: slots[i].id == 0
    ensures HeldIds(slots) == multiset{}
    decreases |slots|
  {
    if |slots| == 0 {
    } else {
      HeldNone(slots[..|slots| - 1]);
    }
  }

  lemma {:induction false} LiveNone(chans: seq<SsdChannel>, after: int)
    requires forall i | 0 <= i < |chans| :: chans[i].completion <= after
    ensures LiveIds(chans, after) == multiset{}
    decreases |chans|
  {
    if |chans| == 0 {
    } else {
      LiveNone(chans[..|chans| - 1], after);
    }
  }
}
