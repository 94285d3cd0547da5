/** Response times as a function of the history alone: what the table remembers, how each request is classified and
    when it completes follow from the sequence of submissions, whatever the interleaving with commits, sleeps and
    softirqs. */
module RamdiskHistory {
  import opened Block
  import opened Latency
  import opened Scan
  import opened Ramdisk
  import opened RamdiskInv
  import opened RamdiskSteps
  import opened RamdiskRuns

  // The specification: each request takes the place of the entry that completes first, the first of several.

  function EntryKeys(table: seq<Entry>): (keys: seq<Option<int>>)
    ensures |keys| == |table| && forall i | 0 <= i < |table| :: keys[i] == Some(table[i].completion)
  {
    seq(|table|, i requires 0 <= i < |table| => Some(table[i].completion))
  }

  /** A table of `n` zero entries after the requests of `h`. */
  function TableOf(n: nat, h: seq<Entry>): (table: seq<Entry>)
    ensures |table| == n
  {
    if |h| == 0 then
      Zeros(n)
    else
      var before := TableOf(n, h[..|h| - 1]);
      match FirstLeast(EntryKeys(before))
      case None => before
      case Some(slot) => before[slot := h[|h| - 1]]
  }

  predicate Follows(table: seq<Entry>, dir: Dir, pos: nat) {
    exists i | 0 <= i < |table| :: table[i].rw == dir && table[i].lastSector == pos
  }

  /** A submission in `log` is classified by the history before it, and completes accordingly. */
  predicate Explained(cfg: Tables, n: nat, log: seq<Event>, k: nat)
    requires k < |log| && log[k].Submitted?
  {
    var req, size := log[k].req, SizeClass(log[k].req.Bytes());
    && log[k].sequential == Follows(TableOf(n, History(log[..k])), req.dir, req.pos)
    && size.Some? && log[k].completion == log[k].now + cfg.Of(log[k].sequential, req.dir, size.value)
  }

  predicate AllExplained(cfg: Tables, n: nat, log: seq<Event>) {
    forall k | 0 <= k < |log| && log[k].Submitted? :: Explained(cfg, n, log, k)
  }

  // The table of the driver.

  function Remembered(chans: seq<Channel>): (table: seq<Entry>)
    ensures |table| == |chans| && forall i | 0 <= i < |table| :: table[i] == Remembers(chans[i])
  {
    seq(|chans|, i requires 0 <= i < |chans| => Remembers(chans[i]))
  }

  predicate Tabled(s: State) {
    Remembered(s.chans) == TableOf(|s.chans|, History(s.log)) && AllExplained(s.cfg, |s.chans|, s.log)
  }

  lemma ExplainedStay(cfg: Tables, n: nat, log: seq<Event>, e: Event)
    requires AllExplained(cfg, n, log)
    requires e.Submitted? ==> Explained(cfg, n, log + [e], |log|)
    ensures AllExplained(cfg, n, log + [e])
  {
    hide TableOf, Follows, SizeClass, History, Flat;
    forall k | 0 <= k < |log| && log[k].Submitted? ensures Explained(cfg, n, log + [e], k) {
      assert (log + [e])[..k] == log[..k];
    }
  }

  lemma TableGrows(n: nat, h: seq<Entry>, e: Entry)
    ensures TableOf(n, h + [e]) == match FirstLeast(EntryKeys(TableOf(n, h)))
                                   case None => TableOf(n, h)
                                   case Some(slot) => TableOf(n, h)[slot := e]
  {
    assert (h + [e])[..|h|] == h;
  }

  /** The channel the driver replaces is the one that completes first of all. */
  lemma ChosenIsLeast(s: State, slot: nat)
    requires Separated(s) && FirstLeast(CompletedKeys(s.chans)) == Some(slot)
    ensures FirstLeast(EntryKeys(Remembered(s.chans))) == Some(slot)
  {
    var mine, all := CompletedKeys(s.chans), EntryKeys(Remembered(s.chans));
    assert IsFirstLeast(mine, slot);
    assert s.chans[slot].completed by { assert mine[slot].Some?; }
    forall j | 0 <= j < |all| && all[j].Some?
      ensures all[slot].value <= all[j].value
      ensures j < slot ==> all[slot].value < all[j].value
    {
      assert mine[j] == CompletedKey(s.chans[j]);
    }
    FirstLeastUnique(all, slot);
  }

  lemma SameClass(chans: seq<Channel>, dir: Dir, pos: nat)
    ensures IsSequential(chans, dir, pos) == Follows(Remembered(chans), dir, pos)
  {
    if IsSequential(chans, dir, pos) {
      var i :| 0 <= i < |chans| && chans[i].rw == dir && chans[i].lastSector == pos;
      assert Remembered(chans)[i].rw == dir;
    }
  }

  lemma RememberedUpdate(chans: seq<Channel>, slot: nat, c: Channel)
    requires slot < |chans|
    ensures Remembered(chans[slot := c]) == Remembered(chans)[slot := Remembers(c)]
  {
  }

  lemma RememberedCommit(chans: seq<Channel>, i: nat)
    requires i < |chans|
    ensures Remembered(chans[i := chans[i].(completed := true)]) == Remembered(chans)
  {
  }

  lemma SubmitTabled(s: State, req: Request, now: int)
    requires Ready(s) && req.WellFormed() && Tabled(s)
    ensures Submit(s, req, now).Moves? ==> Tabled(Submit(s, req, now).s)
  {
    hide Conserved, Faithful, HoldsLatest, Timely, Legal, CommitOrder, UniqueTags, Cached, Flat, DiskAfter, Wakes,
      Earliest, OutstandingOf, Submit, FirstLeast, SizeClass, IsSequential, Splice, TableOf, Follows, AllExplained,
      History;
    var slot, completion, sequential := SubmitShape(s, req, now);
    var e := Submitted(req, now, completion, sequential);
    var t := Place(s, slot, req, now, completion, sequential);
    ChosenIsLeast(s, slot);
    SameClass(s.chans, req.dir, req.pos);
    HistoryGrows(s.log, e);
    TableGrows(|s.chans|, History(s.log), Remembers(Occupied(req, completion)));
    RememberedUpdate(s.chans, slot, Occupied(req, completion));
    NewExplained(s.cfg, |s.chans|, s.log, e);
    ExplainedStay(s.cfg, |s.chans|, s.log, e);
  }

  lemma NewExplained(cfg: Tables, n: nat, log: seq<Event>, e: Event)
    requires e.Submitted? && e.sequential == Follows(TableOf(n, History(log)), e.req.dir, e.req.pos)
    requires var size := SizeClass(e.req.Bytes());
             size.Some? && e.completion == e.now + cfg.Of(e.sequential, e.req.dir, size.value)
    ensures Explained(cfg, n, log + [e], |log|)
  {
    hide TableOf, Follows, SizeClass, History, Flat;
    assert (log + [e])[..|log|] == log;
  }

  lemma {:induction false} SubmitAllTabled(s: State, batch: seq<(Request, int)>, wake: bool)
    requires Ready(s) && !s.stopped && Climbs(s.clock, Times(batch)) && Promised(s.log, batch) && Tabled(s)
    ensures SubmitAll(s, batch, wake).Moves? ==> Tabled(SubmitAll(s, batch, wake).s)
    decreases |batch|
  {
    hide Core, Separated, Cached, KnownTag, Submit, Promised, TableOf, AllExplained, History, Remembered;
    if |batch| == 0 {
    } else {
      var req, now := batch[0].0, batch[0].1;
      ClimbsRest(s.clock, batch);
      PromisedHead(s.log, batch);
      hide Climbs;
      SubmitKeeps(s, req, now);
      SubmitTabled(s, req, now);
      var t := Submit(s, req, now).s;
      if t.inflight < |t.chans| {
        PromisedRest(s.log, batch, t.log[|s.log|]);
        SubmitAllTabled(t, batch[1..], wake || Submit(s, req, now).wake);
      }
    }
  }

  lemma OtherEvent(cfg: Tables, n: nat, log: seq<Event>, e: Event)
    requires !e.Submitted? && AllExplained(cfg, n, log)
    ensures History(log + [e]) == History(log) && AllExplained(cfg, n, log + [e])
  {
    hide Explained;
    ExplainedStay(cfg, n, log, e);
    assert (log + [e])[..|log|] == log;
  }

  lemma CommitTabled(s: State, i: nat)
    requires Tabled(s) && i < |s.chans| && s.chans[i].request.Some?
    ensures Tabled(Commit(s, i))
  {
    hide TableOf, AllExplained, History, PagesOf;
    RememberedCommit(s.chans, i);
    OtherEvent(s.cfg, |s.chans|, s.log, Commit(s, i).log[|s.log|]);
  }

  lemma {:induction false} DrainTabled(s: State, again: bool, readings: seq<int>)
    requires Tabled(s)
    ensures Drain(s, again, readings).Moves? ==> Tabled(Drain(s, again, readings).s)
    decreases |readings|
  {
    hide TableOf, AllExplained, History, PagesOf, Flat, Commit, Remembered;
    if |readings| == 0 {
    } else {
      var s0 := s.(clock := readings[0]);
      match FirstLeast(DueKeys(s0.chans, s0.clock))
      case Some(i) =>
        if s0.chans[i].request.Some? {
          CommitTabled(s0, i);
          DrainTabled(Commit(s0, i), false, readings[1..]);
        }
      case None =>
        if again {
          DrainTabled(s0, false, readings[1..]);
        }
    }
  }

  lemma NextTabled(s: State, l: Label)
    requires Inv(s) && Tabled(s) && Next(s, l).Moves?
    ensures Tabled(Next(s, l).s)
  {
    hide Core, Separated, Cached, Drain, SubmitAll, Promised, Climbs, TableOf, AllExplained, History, Remembered;
    match l
    case Queue(batch) =>
      InvReady(s);
      SubmitAllTabled(s, batch, false);
    case TakeLock(readings) =>
      if s.thread.Fired? { DrainTabled(s, s.again, readings); }
    case Softirq(req) =>
      OtherEvent(s.cfg, |s.chans|, s.log, Retired(req));
    case _ =>
  }

  lemma {:induction false} RunTabled(s: State, labels: seq<Label>)
    requires Inv(s) && Tabled(s) && Run(s, labels).Moves?
    ensures Tabled(Run(s, labels).s)
    decreases |labels|
  {
    if |labels| == 0 {
    } else {
      hide Next, Inv, Tabled;
      NextKeeps(s, labels[0]);
      NextTabled(s, labels[0]);
      RunTabled(Next(s, labels[0]).s, labels[1..]);
    }
  }

  /** In every reachable state the scan of the channel table, and the class and completion time of every request so
      far, are those the history specification gives: completed flags, outstanding channels, commits and clock play
      no part. */
  lemma TimesFollowHistory(t: State, dir: Dir, pos: nat)
    requires Reached(t)
    ensures Remembered(t.chans) == TableOf(|t.chans|, History(t.log))
    ensures IsSequential(t.chans, dir, pos) <==> Follows(TableOf(|t.chans|, History(t.log)), dir, pos)
    ensures forall k | 0 <= k < |t.log| && t.log[k].Submitted? :: Explained(t.cfg, |t.chans|, t.log, k)
    ensures forall speed: int | 0 < speed <= MAX_SPEED && t.cfg == TablesFor(speed) ::
              forall k | 0 <= k < |t.log| && t.log[k].Submitted? :: OnSchedule(t.log[k], speed)
  {
    hide OnSchedule, TablesFor;
    hide Inv, Run, Starts, TableOf, Follows, IsSequential, Remembered, Explained, History;
    var s: State, labels: seq<Label> :| Starts(s) && Run(s, labels) == Moves(t, false);
    StartsInv(s);
    StartsTabled(s);
    RunTabled(s, labels);
    SameClass(t.chans, dir, pos);
    forall speed: int, k | 0 < speed <= MAX_SPEED && t.cfg == TablesFor(speed) && 0 <= k < |t.log|
        && t.log[k].Submitted?
      ensures OnSchedule(t.log[k], speed)
    {
      ExplainedTimes(t, k, speed);
    }
  }

  /** A request completes after exactly the response time of its kind. */
  predicate OnSchedule(e: Event, speed: int)
    requires e.Submitted?
  {
    var size := SizeClass(e.req.Bytes());
    size.Some? && e.completion == e.now + Nanoseconds(e.sequential, e.req.dir, size.value, speed)
  }

  lemma ExplainedTimes(t: State, k: nat, speed: int)
    requires k < |t.log| && t.log[k].Submitted? && Explained(t.cfg, |t.chans|, t.log, k)
    requires 0 < speed <= MAX_SPEED && t.cfg == TablesFor(speed)
    ensures OnSchedule(t.log[k], speed)
  {
    hide TableOf, Follows, SizeClass, History, Flat, TablesFor, AllExact, Nanoseconds;
    TablesExact(speed);
    ExactTimes(t.cfg, speed, t.log[k].req.dir, SizeClass(t.log[k].req.Bytes()).value);
  }

  lemma StartsTabled(s: State)
    requires Starts(s)
    ensures Tabled(s)
  {
    assert Remembered(s.chans) == Zeros(|s.chans|);
  }
}
