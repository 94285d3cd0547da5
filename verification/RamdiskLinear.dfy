/** The ramdisk is linearizable: its requests behave like reads and writes of one byte array, each taking effect at a
    single moment between its submission and its completion. */
module RamdiskLinear {
  import opened Block
  import opened Ramdisk
  import opened RamdiskInv
  import opened RamdiskRuns
  import opened RamdiskTheorems

  // The specification: one operation at a time on one byte array.

  datatype Op = WriteOp(req: Request) | ReadOp(req: Request, pages: seq<seq<Byte>>)

  function MemoryAfter(image: seq<Byte>, ops: seq<Op>): (memory: seq<Byte>)
    ensures |memory| == |image|
  {
    if |ops| == 0 then
      image
    else
      var before := MemoryAfter(image, ops[..|ops| - 1]);
      match ops[|ops| - 1]
      case WriteOp(r) => if r.Offset() + r.Bytes() <= |before| then Splice(before, r.Offset(), Flat(r.segments))
          else before
      case ReadOp(_, _) => before
  }

  /** Every read of `ops` returns the bytes the operations before it left in its range. */
  predicate Sequential(image: seq<Byte>, ops: seq<Op>) {
    forall i | 0 <= i < |ops| && ops[i].ReadOp? :: ops[i].pages == PagesOf(MemoryAfter(image, ops[..i]), ops[i].req)
  }

  // The moments at which requests of the driver take effect.

  /** A write takes effect when it is submitted, a read when it is committed. */
  function EffectOf(e: Event): seq<Op> {
    match e
    case Submitted(r, _, _, _) => if r.dir == Write then [WriteOp(r)] else []
    case Committed(r, _, _, pages) => if r.dir == Read then [ReadOp(r, pages)] else []
    case Retired(_) => []
  }

  function Effects(log: seq<Event>): seq<Op> {
    if |log| == 0 then [] else Effects(log[..|log| - 1]) + EffectOf(log[|log| - 1])
  }

  predicate TakesEffect(log: seq<Event>, k: nat, r: Request) {
    k < |log| && (if r.dir == Write then log[k].Submitted? else log[k].Committed?) && log[k].req == r
  }

  lemma MemoryGrows(image: seq<Byte>, ops: seq<Op>, op: Op)
    ensures MemoryAfter(image, ops + [op]) ==
            if op.WriteOp? && op.req.Offset() + op.req.Bytes() <= |image|
            then Splice(MemoryAfter(image, ops), op.req.Offset(), Flat(op.req.segments)) else MemoryAfter(image, ops)
  {
    assert (ops + [op])[..|ops|] == ops;
  }

  lemma {:induction false} DiskIsMemory(image: seq<Byte>, log: seq<Event>)
    ensures DiskAfter(image, log) == MemoryAfter(image, Effects(log))
    decreases |log|
  {
    if |log| == 0 {
    } else {
      hide Flat;
      var front, e := log[..|log| - 1], log[|log| - 1];
      DiskIsMemory(image, front);
      var effect := EffectOf(e);
      if effect == [] {
        assert Effects(log) == Effects(front);
      } else {
        MemoryGrows(image, Effects(front), effect[0]);
        assert Effects(log) == Effects(front) + [effect[0]];
      }
    }
  }

  lemma SequentialGrows(image: seq<Byte>, ops: seq<Op>, op: Op)
    requires Sequential(image, ops)
    requires op.ReadOp? ==> op.pages == PagesOf(MemoryAfter(image, ops), op.req)
    ensures Sequential(image, ops + [op])
  {
    hide MemoryAfter, PagesOf;
    var after := ops + [op];
    forall i | 0 <= i < |after| && after[i].ReadOp?
      ensures after[i].pages == PagesOf(MemoryAfter(image, after[..i]), after[i].req)
    {
      assert after[..i] == if i < |ops| then ops[..i] else ops;
    }
  }

  lemma LegalFront(image: seq<Byte>, log: seq<Event>)
    requires |log| > 0 && Legal(image, log)
    ensures Legal(image, log[..|log| - 1])
  {
    hide LegalAt;
    var front := log[..|log| - 1];
    forall k | 0 <= k < |front| && front[k].Committed? && front[k].req.dir == Read ensures LegalAt(image, front, k) {
      assert LegalAt(image, log, k);
      LegalAtFront(image, log, k);
    }
  }

  lemma LegalAtFront(image: seq<Byte>, log: seq<Event>, k: nat)
    requires k < |log| - 1 && log[k].Committed? && LegalAt(image, log, k)
    ensures LegalAt(image, log[..|log| - 1], k)
  {
    hide DiskAfter, PagesOf, Flat;
    assert log[..|log| - 1][..k] == log[..k];
  }

  lemma {:induction false} LegalIsSequential(image: seq<Byte>, log: seq<Event>)
    requires Legal(image, log)
    ensures Sequential(image, Effects(log))
    decreases |log|
  {
    if |log| == 0 {
    } else {
      hide Legal, DiskAfter, MemoryAfter, PagesOf, Sequential, Flat;
      var front, e := log[..|log| - 1], log[|log| - 1];
      LegalFront(image, log);
      LegalIsSequential(image, front);
      var effect := EffectOf(e);
      if effect == [] {
        assert Effects(log) == Effects(front);
      } else {
        if effect[0].ReadOp? {
          LastIsLegal(image, log);
          DiskIsMemory(image, front);
        }
        SequentialGrows(image, Effects(front), effect[0]);
        assert Effects(log) == Effects(front) + [effect[0]];
      }
    }
  }

  lemma LastIsLegal(image: seq<Byte>, log: seq<Event>)
    requires |log| > 0 && Legal(image, log) && log[|log| - 1].Committed? && log[|log| - 1].req.dir == Read
    ensures log[|log| - 1].pages == PagesOf(DiskAfter(image, log[..|log| - 1]), log[|log| - 1].req)
  {
    hide DiskAfter, PagesOf;
    assert LegalAt(image, log, |log| - 1);
  }

  // No request is committed twice.

  lemma {:induction false} CommittedCounts(log: seq<Event>, i: nat, j: nat)
    requires i < j < |log| && log[i].Committed? && log[j].Committed? && log[i].req == log[j].req
    ensures CommittedOf(log)[log[i].req] >= 2
    decreases |log|
  {
    var front := log[..|log| - 1];
    if j < |log| - 1 {
      CommittedCounts(front, i, j);
    } else {
      CommittedHas(front, i);
    }
  }

  lemma {:induction false} CommittedHas(log: seq<Event>, i: nat)
    requires i < |log| && log[i].Committed?
    ensures CommittedOf(log)[log[i].req] >= 1
    decreases |log|
  {
    if i == |log| - 1 {
    } else {
      CommittedHas(log[..|log| - 1], i);
    }
  }

  lemma CommittedOnce(t: State, i: nat, j: nat)
    requires Conserved(t) && UniqueTags(t.log)
    requires i < |t.log| && j < |t.log| && t.log[i].Committed? && t.log[j].Committed? && t.log[i].req == t.log[j].req
    ensures i == j
  {
    hide CommittedOf, SubmittedOf, OutstandingOf, RetiredOf;
    SubmittedOnce(t.log, t.log[i].req);
    if i < j {
      CommittedCounts(t.log, i, j);
    } else if j < i {
      CommittedCounts(t.log, j, i);
    }
  }

  // The theorems.

  /** In the order in which they take effect, the requests of any run are a correct sequential history of reads and
      writes on the initial disk, and the disk is what that history leaves. */
  lemma EffectsAreSequential(t: State)
    requires Reached(t)
    ensures Sequential(t.image, Effects(t.log))
    ensures t.disk == MemoryAfter(t.image, Effects(t.log))
  {
    hide Reached, Legal, Sequential, DiskAfter, MemoryAfter, Separated, Cached, HoldsLatest, Faithful, Timely,
      Conserved;
    ReachedParts(t);
    hide Core;
    LegalIsSequential(t.image, t.log);
    DiskIsMemory(t.image, t.log);
  }

  /** Each effect of a committed request lies between its submission and its commit, and there is no other. */
  lemma EffectWithinRequest(t: State, k: nat, c: nat)
    requires Reached(t) && c < |t.log| && t.log[c].Committed? && TakesEffect(t.log, k, t.log[c].req)
    ensures k <= c
    ensures exists b | 0 <= b <= k :: t.log[b].Submitted? && t.log[b].req == t.log[c].req
  {
    hide Reached, Separated, Cached, HoldsLatest, Timely, Legal, DiskAfter, SubmittedOf, CommittedOf, OutstandingOf,
      RetiredOf;
    ReachedParts(t);
    var r := t.log[c].req;
    assert WasSubmitted(t.log[..c], r, t.log[c].completion);
    var b :| 0 <= b < c && t.log[..c][b].Submitted? && t.log[..c][b].req == r;
    assert t.log[b] == t.log[..c][b];
    if r.dir == Write {
      assert b == k by { assert !(b < k) && !(k < b); }
    } else {
      CommittedOnce(t, k, c);
    }
  }

  /** Real time is respected: a request that was committed before another was submitted takes effect before it. */
  lemma RealTimeOrder(t: State, k1: nat, c1: nat, k2: nat, b2: nat)
    requires Reached(t) && c1 < b2 < |t.log|
    requires t.log[c1].Committed? && TakesEffect(t.log, k1, t.log[c1].req)
    requires t.log[b2].Submitted? && TakesEffect(t.log, k2, t.log[b2].req)
    ensures k1 < k2
  {
    hide Reached, Separated, Cached, HoldsLatest, Timely, Legal, DiskAfter, Conserved;
    ReachedParts(t);
    EffectWithinRequest(t, k1, c1);
    var r := t.log[b2].req;
    if r.dir == Write {
      assert k2 == b2 by { assert !(b2 < k2) && !(k2 < b2); }
    } else {
      assert WasSubmitted(t.log[..k2], r, t.log[k2].completion);
      var b :| 0 <= b < k2 && t.log[..k2][b].Submitted? && t.log[..k2][b].req == r;
      assert t.log[b] == t.log[..k2][b];
      assert b == b2 by { assert !(b < b2) && !(b2 < b); }
    }
  }
}
