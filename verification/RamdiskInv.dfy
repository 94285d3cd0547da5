/** The facts that hold in the ramdisk whenever its lock is free, and the parts of them every step keeps. */
module RamdiskInv {
  import opened Block
  import opened Bags
  import opened Scan
  import opened Sleep
  import opened Ramdisk

  // Bookkeeping of requests.

  function Holding(c: Channel): multiset<Request> {
    if !c.completed && c.request.Some? then multiset{c.request.value} else multiset{}
  }

  function OutstandingOf(chans: seq<Channel>): multiset<Request> {
    if |chans| == 0 then multiset{} else OutstandingOf(chans[..|chans| - 1]) + Holding(chans[|chans| - 1])
  }

  function SubmittedOf(log: seq<Event>): multiset<Request> {
    if |log| == 0 then multiset{}
    else SubmittedOf(log[..|log| - 1])
         + (match log[|log| - 1] case Submitted(r, _, _, _) => multiset{r} case _ => multiset{})
  }

  function CommittedOf(log: seq<Event>): multiset<Request> {
    if |log| == 0 then multiset{}
    else CommittedOf(log[..|log| - 1])
         + (match log[|log| - 1] case Committed(r, _, _, _) => multiset{r} case _ => multiset{})
  }

  function RetiredOf(log: seq<Event>): multiset<Request> {
    if |log| == 0 then multiset{}
    else RetiredOf(log[..|log| - 1]) + (match log[|log| - 1] case Retired(r) => multiset{r} case _ => multiset{})
  }

  /** The disk after the writes of `log`, applied in order of submission. */
  function DiskAfter(image: seq<Byte>, log: seq<Event>): (disk: seq<Byte>)
    ensures |disk| == |image|
  {
    if |log| == 0 then
      image
    else
      var before := DiskAfter(image, log[..|log| - 1]);
      match log[|log| - 1]
      case Submitted(r, _, _, _) =>
        if r.dir == Write && r.Offset() + r.Bytes() <= |before| then Splice(before, r.Offset(), Flat(r.segments))
        else before
      case _ => before
  }

  /** Between `before` and `after` the submissions of these requests happened, in order, each at its own clock reading,
      and nothing else. */
  predicate Logs(before: seq<Event>, after: seq<Event>, batch: seq<(Request, int)>) {
    && |after| == |before| + |batch| && after[..|before|] == before
    && (forall i | 0 <= i < |batch| :: IsSubmission(after[|before| + i], batch[i]))
  }

  predicate IsSubmission(e: Event, taken: (Request, int)) {
    e.Submitted? && e.req == taken.0 && e.now == taken.1
  }

  // The invariant, conjunct by conjunct.

  predicate Shape(s: State) {
    && s.cfg.Ok()
    && 1 <= |s.chans| == |s.owner| <= MAX_CHANNELS
    && |s.disk| == |s.image| == DISK_BYTES
    && Held(s.chans)
    && (forall i | 0 <= i < |s.chans| && !s.chans[i].completed :: s.chans[i].request.value.WellFormed())
    && s.clock > 0
  }

  /** Completed channels completed before the last clock reading and before every outstanding one. */
  predicate Ordered(s: State) {
    && (forall i | 0 <= i < |s.chans| && s.chans[i].completed :: s.chans[i].completion < s.clock)
    && (forall i, j | 0 <= i < |s.chans| && 0 <= j < |s.chans| && s.chans[i].completed && !s.chans[j].completed ::
          s.chans[i].completion <= s.chans[j].completion)
  }

  predicate Separated(s: State) {
    forall i, j | 0 <= i < |s.chans| && 0 <= j < |s.chans| && s.chans[i].completed && !s.chans[j].completed ::
      s.chans[i].completion < s.chans[j].completion
  }

  /** The cached next response is the earliest outstanding one. */
  predicate Cached(s: State) {
    Least(OutstandingKeys(s.chans)) == if s.pending then Some(s.deadline) else None
  }

  function Zeros(n: nat): seq<Entry> {
    seq(n, i => Entry(0, Read, 0))
  }

  /** The whole history, the initial zero entries first. */
  function FullHistory(s: State): seq<Entry> {
    Zeros(|s.chans|) + History(s.log)
  }

  function Remembers(c: Channel): Entry {
    Entry(c.completion, c.rw, c.lastSector)
  }

  /** The channels hold distinct history entries, and no entry left out completes after one that is held. */
  predicate HoldsLatest(s: State) {
    var h := FullHistory(s);
    && |s.owner| == |s.chans|
    && (forall i | 0 <= i < |s.owner| :: s.owner[i] < |h| && h[s.owner[i]] == Remembers(s.chans[i]))
    && (forall i, j | 0 <= i < j < |s.owner| :: s.owner[i] != s.owner[j])
    && (forall k, i | 0 <= k < |h| && k !in s.owner && 0 <= i < |s.chans| :: h[k].completion <= s.chans[i].completion)
  }

  predicate Counted(s: State) {
    s.inflight == |OutstandingOf(s.chans)| + |s.retiring| <= |s.chans|
  }

  predicate Conserved(s: State) {
    && SubmittedOf(s.log) == OutstandingOf(s.chans) + CommittedOf(s.log)
    && CommittedOf(s.log) == s.retiring + RetiredOf(s.log)
  }

  predicate UniqueTags(log: seq<Event>) {
    forall i, j | 0 <= i < j < |log| && log[i].Submitted? && log[j].Submitted? :: log[i].req.tag != log[j].req.tag
  }

  predicate WasSubmitted(log: seq<Event>, req: Request, completion: int) {
    exists k | 0 <= k < |log| :: log[k].Submitted? && log[k].req == req && log[k].completion == completion
  }

  /** Outstanding and committed responses carry the completion time computed at submission. */
  predicate Faithful(s: State) {
    && (forall i | 0 <= i < |s.chans| && !s.chans[i].completed && s.chans[i].request.Some? ::
          WasSubmitted(s.log, s.chans[i].request.value, s.chans[i].completion))
    && (forall k | 0 <= k < |s.log| && s.log[k].Committed? ::
          WasSubmitted(s.log[..k], s.log[k].req, s.log[k].completion))
  }

  predicate CommitOrder(log: seq<Event>) {
    forall i, j | 0 <= i < j < |log| && log[i].Committed? && log[j].Committed? :: log[i].completion <= log[j].completion
  }

  /** Every commit came after its completion time, and at or before every outstanding one. */
  predicate Timely(s: State) {
    forall k | 0 <= k < |s.log| && s.log[k].Committed? ::
      && s.log[k].completion < s.log[k].at <= s.clock
      && (forall i | 0 <= i < |s.chans| && !s.chans[i].completed :: s.log[k].completion <= s.chans[i].completion)
  }

  /** The committed read at position `k` returned the bytes the writes submitted before it had left on the disk. */
  predicate LegalAt(image: seq<Byte>, log: seq<Event>, k: nat)
    requires k < |log| && log[k].Committed?
  {
    var r := log[k].req;
    && r.Offset() + r.Bytes() <= |image|
    && log[k].pages == PagesOf(DiskAfter(image, log[..k]), r)
  }

  predicate Legal(image: seq<Byte>, log: seq<Event>) {
    forall k | 0 <= k < |log| && log[k].Committed? && log[k].req.dir == Read :: LegalAt(image, log, k)
  }

  predicate Core(s: State) {
    && Shape(s) && Ordered(s) && HoldsLatest(s)
    && Counted(s) && Conserved(s) && UniqueTags(s.log)
    && Faithful(s) && CommitOrder(s.log) && Timely(s)
    && s.disk == DiskAfter(s.image, s.log) && Legal(s.image, s.log)
  }

  predicate Inv(s: State) {
    && Core(s)
    && Separated(s)
    && Cached(s)
    && (s.stopped <==> s.inflight == |s.chans|)
    && Attentive(s.thread, s.pending, s.deadline, s.clock)
  }

  // Multisets of channels.

  lemma {:induction false} OutstandingOfUpdate(chans: seq<Channel>, i: nat, c: Channel)
    requires i < |chans|
    ensures OutstandingOf(chans[i := c]) + Holding(chans[i]) == OutstandingOf(chans) + Holding(c)
    decreases |chans|
  {
    var last := |chans| - 1;
    var after := chans[i := c];
    OutstandingStep(after);
    OutstandingStep(chans);
    if i == last {
      assert after[..last] == chans[..last];
      hide *;
      Swap(OutstandingOf(chans[..last]), Holding(c), Holding(chans[i]));
    } else {
      assert after[..last] == chans[..last][i := c];
      OutstandingOfUpdate(chans[..last], i, c);
      hide *;
      Shuffle(OutstandingOf(after[..last]), Holding(chans[i]), OutstandingOf(chans[..last]), Holding(c),
          Holding(chans[last]));
    }
  }

  lemma OutstandingStep(chans: seq<Channel>)
    requires |chans| > 0
    ensures OutstandingOf(chans) == OutstandingOf(chans[..|chans| - 1]) + Holding(chans[|chans| - 1])
  {
  }

  /** With every channel outstanding there are as many requests as channels, and with fewer requests some channel is
      free. */
  lemma {:induction false} OutstandingCount(chans: seq<Channel>)
    requires Held(chans)
    ensures |OutstandingOf(chans)| <= |chans|
    ensures (forall i | 0 <= i < |chans| :: !chans[i].completed) <==> |OutstandingOf(chans)| == |chans|
    decreases |chans|
  {
    if |chans| == 0 {
    } else {
      var front := chans[..|chans| - 1];
      OutstandingCount(front);
      assert forall i | 0 <= i < |front| :: chans[i] == front[i];
    }
  }

  lemma {:induction false} OutstandingNone(chans: seq<Channel>)
    requires forall i | 0 <= i < |chans| :: chans[i].completed
    ensures OutstandingOf(chans) == multiset{}
    decreases |chans|
  {
    if |chans| == 0 {
    } else {
      OutstandingNone(chans[..|chans| - 1]);
    }
  }

  lemma {:induction false} OutstandingHas(chans: seq<Channel>, i: nat)
    requires i < |chans| && !chans[i].completed && chans[i].request.Some?
    ensures chans[i].request.value in OutstandingOf(chans)
    decreases |chans|
  {
    if i == |chans| - 1 {
    } else {
      OutstandingHas(chans[..|chans| - 1], i);
    }
  }
}
