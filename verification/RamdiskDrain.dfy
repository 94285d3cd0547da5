/** The drain of the ramdisk's completion thread: order, exactness of the recomputed deadline, termination. */
module RamdiskDrain {
  import opened Block
  import opened Scan
  import opened Sleep
  import opened Ramdisk
  import opened RamdiskInv
  import opened RamdiskSteps

  /** A later clock reading changes nothing the core invariant depends on. */
  lemma ClockFrame(s: State, now: int)
    requires Core(s) && s.clock <= now
    ensures Core(s.(clock := now))
  {
    hide Flat, History, DiskAfter, UniqueTags, Legal, CommitOrder, OutstandingOf, CommittedOf, SubmittedOf, RetiredOf;
  }

  /** The earliest response among those due. */
  predicate Due(s: State, i: nat) {
    && i < |s.chans| && !s.chans[i].completed && s.chans[i].request.Some? && s.chans[i].request.value.WellFormed()
    && s.chans[i].completion < s.clock
    && (forall j | 0 <= j < |s.chans| && !s.chans[j].completed :: s.chans[i].completion <= s.chans[j].completion)
  }

  lemma EarliestDue(s: State, i: nat)
    requires Shape(s) && FirstLeast(DueKeys(s.chans, s.clock)) == Some(i)
    ensures Due(s, i) && s.chans[i].request.value.Offset() + s.chans[i].request.value.Bytes() <= |s.disk|
  {
    hide Flat;
    var keys := DueKeys(s.chans, s.clock);
    forall j | 0 <= j < |s.chans| && !s.chans[j].completed ensures s.chans[i].completion <= s.chans[j].completion {
      assert keys[j] == DueKey(s.chans[j], s.clock);
    }
  }

  predicate Reachable(s: State, i: nat) {
    Due(s, i) && s.chans[i].request.value.Offset() + s.chans[i].request.value.Bytes() <= |s.disk|
  }

  lemma CommitTables(s: State, i: nat)
    requires Shape(s) && Ordered(s) && HoldsLatest(s) && Reachable(s, i)
    ensures var s' := Commit(s, i); Shape(s') && Ordered(s') && HoldsLatest(s')
  {
    hide Flat, PagesOf;
    var s' := Commit(s, i);
    assert s'.log[..|s'.log| - 1] == s.log;
    assert FullHistory(s') == FullHistory(s);
    hide History;
    assert forall j | 0 <= j < |s.chans| :: Remembers(s'.chans[j]) == Remembers(s.chans[j]);
  }

  lemma OutstandingLoses(chans: seq<Channel>, i: nat)
    requires i < |chans| && !chans[i].completed && chans[i].request.Some?
    ensures OutstandingOf(chans[i := chans[i].(completed := true)]) + multiset{chans[i].request.value} ==
      OutstandingOf(chans)
  {
    hide OutstandingOf;
    OutstandingOfUpdate(chans, i, chans[i].(completed := true));
    assert OutstandingOf(chans) + multiset{} == OutstandingOf(chans);
  }

  lemma BooksMove(a: multiset<Request>, b: multiset<Request>, b': multiset<Request>, c: multiset<Request>,
                  d: multiset<Request>, e: multiset<Request>, r: Request)
    requires a == b + c && b' + multiset{r} == b && c == d + e
    ensures a == b' + (c + multiset{r})
    ensures c + multiset{r} == d + multiset{r} + e
    ensures |b'| + |d + multiset{r}| == |b| + |d|
  {
    assert b' + (c + multiset{r}) == b' + multiset{r} + c;
    assert d + e + multiset{r} == d + multiset{r} + e;
    assert |b'| + 1 == |b' + multiset{r}|;
    assert |d| + 1 == |d + multiset{r}|;
  }

  lemma CommitBooks(s: State, i: nat)
    requires Counted(s) && Conserved(s) && UniqueTags(s.log) && Reachable(s, i)
    ensures var s' := Commit(s, i);
            && Counted(s') && Conserved(s') && UniqueTags(s'.log)
            && |OutstandingOf(s'.chans)| == |OutstandingOf(s.chans)| - 1
  {
    hide Flat, PagesOf, History, DiskAfter, OutstandingOf, CommittedOf, SubmittedOf, RetiredOf;
    var s' := Commit(s, i);
    var req := s.chans[i].request.value;
    Append(s.log, s'.log[|s.log|], s.image);
    FreshTag(s.log, s'.log[|s.log|]);
    OutstandingLoses(s.chans, i);
    BooksMove(SubmittedOf(s.log), OutstandingOf(s.chans), OutstandingOf(s'.chans), CommittedOf(s.log), s.retiring,
              RetiredOf(s.log), req);
    assert SubmittedOf(s.log) + multiset{} == SubmittedOf(s.log);
    assert RetiredOf(s.log) + multiset{} == RetiredOf(s.log);
    hide UniqueTags, Reachable;
  }

  /** Commits come in the order of completion times, each after its own. */
  lemma CommitFaithful(s: State, i: nat)
    requires Faithful(s) && CommitOrder(s.log) && Timely(s) && Reachable(s, i)
    ensures var s' := Commit(s, i); Faithful(s') && CommitOrder(s'.log) && Timely(s')
  {
    hide Flat, PagesOf;
    var s' := Commit(s, i);
    var e := s'.log[|s.log|];
    forall j | 0 <= j < |s'.chans| && !s'.chans[j].completed && s'.chans[j].request.Some?
      ensures WasSubmitted(s'.log, s'.chans[j].request.value, s'.chans[j].completion)
    {
      SubmittedStays(s.log, e, s.chans[j].request.value, s.chans[j].completion);
    }
    forall k | 0 <= k < |s'.log| && s'.log[k].Committed?
      ensures WasSubmitted(s'.log[..k], s'.log[k].req, s'.log[k].completion)
    {
      assert s'.log[..k] == if k < |s.log| then s.log[..k] else s.log;
    }
  }

  lemma CommitEvent(image: seq<Byte>, log: seq<Event>, e: Event)
    requires Legal(image, log) && e.Committed?
    requires e.req.dir == Read ==>
               e.req.Offset() + e.req.Bytes() <= |image| && e.pages == PagesOf(DiskAfter(image, log), e.req)
    ensures DiskAfter(image, log + [e]) == DiskAfter(image, log) && Legal(image, log + [e])
  {
    hide Legal, Flat, PagesOf;
    Append(log, e, image);
    hide DiskAfter;
    assert (log + [e])[..|log|] == log;
    LegalAppend(image, log, e);
  }

  lemma CommitData(s: State, i: nat)
    requires s.disk == DiskAfter(s.image, s.log) && Legal(s.image, s.log) && Reachable(s, i)
    ensures var s' := Commit(s, i); s'.disk == DiskAfter(s'.image, s'.log) && Legal(s'.image, s'.log)
  {
    hide Legal, Flat, PagesOf, DiskAfter;
    var req := s.chans[i].request.value;
    var pages := if req.dir == Read then PagesOf(s.disk, req) else [];
    CommitEvent(s.image, s.log, Committed(req, s.chans[i].completion, s.clock, pages));
  }

  lemma CommitKeeps(s: State, i: nat)
    requires Core(s) && Reachable(s, i)
    ensures Core(Commit(s, i)) && Commit(s, i).clock == s.clock
    ensures |OutstandingOf(Commit(s, i).chans)| == |OutstandingOf(s.chans)| - 1
  {
    hide Flat, PagesOf, History, DiskAfter, OutstandingOf, UniqueTags, Legal, Faithful, CommitOrder, Timely,
      Conserved, HoldsLatest, Shape, Ordered, Counted;
    CommitTables(s, i);
    CommitBooks(s, i);
    CommitFaithful(s, i);
    CommitData(s, i);
  }

  /** Nothing outstanding is overdue. */
  predicate NoneOverdue(s: State) {
    forall i | 0 <= i < |s.chans| && !s.chans[i].completed :: s.clock <= s.chans[i].completion
  }

  lemma NothingDue(s: State)
    requires Shape(s) && Ordered(s) && FirstLeast(DueKeys(s.chans, s.clock)) == None
    ensures NoneOverdue(s) && Separated(s)
  {
    var keys := DueKeys(s.chans, s.clock);
    forall i | 0 <= i < |s.chans| && !s.chans[i].completed ensures s.clock <= s.chans[i].completion {
      assert keys[i] == DueKey(s.chans[i], s.clock);
    }
  }

  lemma SettleKeeps(s: State)
    requires Core(s) && NoneOverdue(s) && Separated(s)
    ensures var t := Settle(s);
            && Core(t) && Separated(t) && Cached(t) && NoneOverdue(t) && !t.again
            && Attentive(t.thread, t.pending, t.deadline, t.clock)
  {
    hide Core, Separated, FirstLeast, Least;
    CoreFrame(s, Settle(s));
  }

  /** What a completed drain leaves. */
  predicate Drained(s: State, t: State) {
    && Core(t) && Separated(t) && Cached(t) && NoneOverdue(t) && !t.again
    && Attentive(t.thread, t.pending, t.deadline, t.clock)
    && t.inflight == s.inflight && t.stopped == s.stopped && |t.chans| == |s.chans| && t.clock >= s.clock
  }

  lemma {:induction false} DrainKeeps(s: State, again: bool, readings: seq<int>)
    requires Core(s) && Climbs(s.clock, readings)
    ensures !Drain(s, again, readings).Hangs?
    ensures Drain(s, again, readings).Moves? ==> Drained(s, Drain(s, again, readings).s)
    decreases |readings|
  {
    hide Core, Cached, Separated, NoneOverdue, Attentive, Flat, PagesOf, Settle, OutstandingOf, Due;
    if |readings| == 0 {
    } else {
      var s0 := s.(clock := readings[0]);
      ClockFrame(s, readings[0]);
      ClimbsOn(s.clock, readings);
      CoreParts(s0);
      match FirstLeast(DueKeys(s0.chans, s0.clock))
      case Some(i) =>
        EarliestDue(s0, i);
        CommitKeeps(s0, i);
        CoreParts(Commit(s0, i));
        DrainKeeps(Commit(s0, i), false, readings[1..]);
      case None =>
        if again {
          DrainKeeps(s0, false, readings[1..]);
        } else {
          NothingDue(s0);
          SettleKeeps(s0);
          SettleFields(s0);
        }
    }
  }

  lemma SettleFields(s: State)
    ensures var t := Settle(s);
            t.inflight == s.inflight && t.stopped == s.stopped && |t.chans| == |s.chans| && t.clock == s.clock
  {
  }

  lemma ClimbsOn(from: int, readings: seq<int>)
    requires |readings| > 0 && Climbs(from, readings)
    ensures from <= readings[0] && Climbs(readings[0], readings[1..])
  {
  }

  lemma CoreParts(s: State)
    requires Core(s)
    ensures Shape(s) && Ordered(s) && Held(s.chans)
  {
  }

  /** The drain ends: with one reading for each outstanding request and one or two more, some prefix of the readings
      completes it, whatever they are. */
  lemma {:induction false} DrainTerminates(s: State, again: bool, readings: seq<int>) returns (passes: nat)
    requires Core(s) && Climbs(s.clock, readings)
    requires |readings| >= |OutstandingOf(s.chans)| + (if again then 2 else 1)
    ensures 0 < passes <= |OutstandingOf(s.chans)| + (if again then 2 else 1)
    ensures Drain(s, again, readings[..passes]).Moves?
    decreases |readings|
  {
    hide Core, Flat, PagesOf, Settle, OutstandingOf, Due, Shape, Ordered, Commit;
    var s0 := s.(clock := readings[0]);
    ClockFrame(s, readings[0]);
    ClimbsOn(s.clock, readings);
    CoreParts(s0);
    match FirstLeast(DueKeys(s0.chans, s0.clock))
    case Some(i) =>
      EarliestDue(s0, i);
      CommitKeeps(s0, i);
      CoreParts(Commit(s0, i));
      var rest := DrainTerminates(Commit(s0, i), false, readings[1..]);
      passes := rest + 1;
      assert readings[..passes][1..] == readings[1..][..rest];
    case None =>
      if again {
        var rest := DrainTerminates(s0, false, readings[1..]);
        passes := rest + 1;
        assert readings[..passes][1..] == readings[1..][..rest];
      } else {
        passes := 1;
      }
  }
}
