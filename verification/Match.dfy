/** The ramdisk against the emulator server: fed with the same submissions, the two keep the same channel table, so
    they classify every request alike and give it the same completion time. */
module Match {
  import opened Block
  import opened Latency
  import opened Scan
  import opened Ramdisk
  import opened RamdiskInv
  import opened RamdiskSteps
  import opened RamdiskRuns
  import Ssd = SsdSim

  predicate SameChannel(c: Channel, d: Ssd.SsdChannel) {
    c.completion == d.completion && Ssd.Code(c.rw) == d.rw && c.lastSector == d.lastSector
  }

  predicate SameTable(chans: seq<Channel>, ssd: seq<Ssd.SsdChannel>) {
    |chans| == |ssd| && forall i | 0 <= i < |chans| :: SameChannel(chans[i], ssd[i])
  }

  /** The server after the submissions of `log`, or none if it refuses one or gives it another completion time than
      the ramdisk did. The numbers of the requests stand for the ids they would have on the wire. */
  function Replay(sim: Ssd.Sim, log: seq<Event>): Option<Ssd.Sim> {
    if |log| == 0 then
      Some(sim)
    else
      match Replay(sim, log[..|log| - 1])
      case None => None
      case Some(before) => ReplayOne(before, log[|log| - 1])
  }

  function ReplayOne(sim: Ssd.Sim, e: Event): Option<Ssd.Sim> {
    match e
    case Submitted(r, now, completion, sequential) =>
      (match Ssd.SubmitRequest(sim, now, r.dir, r.pos, r.Sectors(), r.tag)
       case Accepted(after) =>
         if Ssd.FollowsChannel(sim.chans, Ssd.Code(r.dir), r.pos) == sequential
            && exists i | 0 <= i < |after.chans| ::
                 after.chans[i].ioId == r.tag && after.chans[i].completion == completion
         then Some(after) else None
       case _ => None)
    case _ => Some(sim)
  }

  /** The server that replays the log accepts everything and ends with the ramdisk's table. */
  predicate Mirrors(s: State, sim: Ssd.Sim) {
    && sim.latency == s.cfg
    && Replay(sim, s.log).Some?
    && Replay(sim, s.log).value.latency == s.cfg
    && SameTable(s.chans, Replay(sim, s.log).value.chans)
  }

  lemma ReplayGrows(sim: Ssd.Sim, log: seq<Event>, e: Event)
    requires Replay(sim, log).Some?
    ensures Replay(sim, log + [e]) == ReplayOne(Replay(sim, log).value, e)
  {
    hide ReplayOne;
    assert (log + [e])[..|log|] == log;
  }

  /** Looking at completed channels only, the ramdisk evicts the very channel the server evicts looking at all. */
  lemma SameVictim(chans: seq<Channel>, ssd: seq<Ssd.SsdChannel>, slot: nat)
    requires SameTable(chans, ssd) && FirstLeast(CompletedKeys(chans)) == Some(slot)
    requires forall i, j | 0 <= i < |chans| && 0 <= j < |chans| && chans[i].completed && !chans[j].completed ::
               chans[i].completion < chans[j].completion
    ensures FirstLeast(Ssd.CompletionKeys(ssd)) == Some(slot)
  {
    var mine, theirs := CompletedKeys(chans), Ssd.CompletionKeys(ssd);
    assert IsFirstLeast(mine, slot);
    assert chans[slot].completed by { assert mine[slot].Some?; }
    forall j | 0 <= j < |theirs| && theirs[j].Some?
      ensures theirs[slot].value <= theirs[j].value
      ensures j < slot ==> theirs[slot].value < theirs[j].value
    {
      assert mine[j] == CompletedKey(chans[j]);
    }
    FirstLeastUnique(theirs, slot);
  }

  lemma SectorBytes(req: Request)
    requires req.WellFormed()
    ensures req.Sectors() * SECTOR_SIZE == req.Bytes()
  {
    hide Flat;
  }

  lemma SameClass(chans: seq<Channel>, ssd: seq<Ssd.SsdChannel>, dir: Dir, pos: nat)
    requires SameTable(chans, ssd)
    ensures IsSequential(chans, dir, pos) == Ssd.FollowsChannel(ssd, Ssd.Code(dir), pos)
  {
    if IsSequential(chans, dir, pos) {
      var i :| 0 <= i < |chans| && chans[i].rw == dir && chans[i].lastSector == pos;
      assert SameChannel(chans[i], ssd[i]);
    }
    if Ssd.FollowsChannel(ssd, Ssd.Code(dir), pos) {
      var i :| 0 <= i < |ssd| && ssd[i].rw == Ssd.Code(dir) && ssd[i].lastSector == pos;
      assert SameChannel(chans[i], ssd[i]);
    }
  }

  lemma ServerAccepts(sim: Ssd.Sim, time: int, dir: Dir, sector: nat, count: nat, id: int, slot: nat)
    requires FirstLeast(Ssd.CompletionKeys(sim.chans)) == Some(slot) && sim.chans[slot].completion < time
    requires SizeClass(count * SECTOR_SIZE).Some?
    ensures var completion := time + sim.latency.Of(Ssd.FollowsChannel(sim.chans, Ssd.Code(dir), sector), dir,
                                                    SizeClass(count * SECTOR_SIZE).value);
            Ssd.SubmitRequest(sim, time, dir, sector, count, id) == Ssd.Accepted(
              sim.(chans := sim.chans[slot := Ssd.SsdChannel(id, completion, sector + count, Ssd.Code(dir))]))
  {
  }

  lemma SameUpdate(chans: seq<Channel>, ssd: seq<Ssd.SsdChannel>, slot: nat, c: Channel, d: Ssd.SsdChannel)
    requires SameTable(chans, ssd) && slot < |chans| && SameChannel(c, d)
    ensures SameTable(chans[slot := c], ssd[slot := d])
  {
  }

  /** One submission: the server accepts it, in the same channel, with the same class and completion time. */
  lemma SubmitMatches(s: State, sim: Ssd.Sim, req: Request, now: int)
    requires Ready(s) && req.WellFormed() && s.clock <= now
    requires SameTable(s.chans, sim.chans) && sim.latency == s.cfg
    ensures var r, d := Submit(s, req, now), Ssd.SubmitRequest(sim, now, req.dir, req.pos, req.Sectors(), req.tag);
            && r.Moves? && d.Accepted? && SameTable(r.s.chans, d.sim.chans) && d.sim.latency == s.cfg
            && |r.s.log| == |s.log| + 1 && r.s.log == s.log + [r.s.log[|s.log|]]
            && ReplayOne(sim, r.s.log[|s.log|]) == Some(d.sim)
  {
    hide Conserved, Faithful, HoldsLatest, Timely, Legal, CommitOrder, UniqueTags, Cached, Flat, DiskAfter, Wakes,
      Earliest, OutstandingOf, Submit, SameTable, FirstLeast, SizeClass, IsSequential, Splice, History;
    var slot, completion, sequential := SubmitShape(s, req, now);
    SameVictimAt(s, sim.chans, slot);
    SectorBytes(req);
    SameClass(s.chans, sim.chans, req.dir, req.pos);
    ServerAccepts(sim, now, req.dir, req.pos, req.Sectors(), req.tag, slot);
    hide Ready, Chosen, Ssd.SubmitRequest;
    var d := Ssd.SsdChannel(req.tag, completion, req.pos + req.Sectors(), Ssd.Code(req.dir));
    SameUpdate(s.chans, sim.chans, slot, Occupied(req, completion), d);
    assert sim.chans[slot := d][slot] == d;
  }

  lemma SameVictimAt(s: State, ssd: seq<Ssd.SsdChannel>, slot: nat)
    requires Ordered(s) && Separated(s) && SameTable(s.chans, ssd) && FirstLeast(CompletedKeys(s.chans)) == Some(slot)
    ensures FirstLeast(Ssd.CompletionKeys(ssd)) == Some(slot) && ssd[slot].completion < s.clock
  {
    SameVictim(s.chans, ssd, slot);
    assert CompletedKeys(s.chans)[slot].Some?;
    assert SameChannel(s.chans[slot], ssd[slot]);
  }

  // Over whole runs.

  lemma SameAfterCommit(chans: seq<Channel>, ssd: seq<Ssd.SsdChannel>, i: nat)
    requires SameTable(chans, ssd) && i < |chans|
    ensures SameTable(chans[i := chans[i].(completed := true)], ssd)
  {
  }

  lemma {:induction false} SubmitAllMatches(s: State, sim: Ssd.Sim, batch: seq<(Request, int)>, wake: bool)
    requires Ready(s) && !s.stopped && Climbs(s.clock, Times(batch)) && Promised(s.log, batch) && Mirrors(s, sim)
    ensures SubmitAll(s, batch, wake).Moves? ==> Mirrors(SubmitAll(s, batch, wake).s, sim)
    decreases |batch|
  {
    hide Core, Separated, Cached, KnownTag, Submit, Promised, SameTable, ReplayOne, Ssd.SubmitRequest;
    if |batch| == 0 {
    } else {
      var req, now := batch[0].0, batch[0].1;
      ClimbsRest(s.clock, batch);
      PromisedHead(s.log, batch);
      hide Climbs;
      SubmitKeeps(s, req, now);
      SubmitMatches(s, Replay(sim, s.log).value, req, now);
      var s' := Submit(s, req, now).s;
      ReplayGrows(sim, s.log, s'.log[|s.log|]);
      if s'.inflight < |s'.chans| {
        PromisedRest(s.log, batch, s'.log[|s.log|]);
        SubmitAllMatches(s', sim, batch[1..], wake || Submit(s, req, now).wake);
      }
    }
  }

  lemma {:induction false} DrainMatches(s: State, sim: Ssd.Sim, again: bool, readings: seq<int>)
    requires Mirrors(s, sim)
    ensures Drain(s, again, readings).Moves? ==> Mirrors(Drain(s, again, readings).s, sim)
    decreases |readings|
  {
    hide SameTable, ReplayOne, Flat, PagesOf;
    if |readings| == 0 {
    } else {
      var s0 := s.(clock := readings[0]);
      match FirstLeast(DueKeys(s0.chans, s0.clock))
      case Some(i) =>
        if s0.chans[i].request.Some? {
          var s1 := Commit(s0, i);
          ReplayGrows(sim, s.log, s1.log[|s.log|]);
          CommitReplays(Replay(sim, s.log).value, s1.log[|s.log|]);
          SameAfterCommit(s.chans, Replay(sim, s.log).value.chans, i);
          DrainMatches(s1, sim, false, readings[1..]);
        }
      case None =>
        if again {
          DrainMatches(s0, sim, false, readings[1..]);
        }
    }
  }

  lemma CommitReplays(sim: Ssd.Sim, e: Event)
    requires !e.Submitted?
    ensures ReplayOne(sim, e) == Some(sim)
  {
  }

  lemma NextMatches(s: State, sim: Ssd.Sim, l: Label)
    requires Inv(s) && Mirrors(s, sim) && Next(s, l).Moves?
    ensures Mirrors(Next(s, l).s, sim)
  {
    hide Core, Separated, Cached, SameTable, ReplayOne, Replay, Drain, SubmitAll, Promised, Climbs;
    match l
    case Queue(batch) =>
      InvReady(s);
      SubmitAllMatches(s, sim, batch, false);
    case TakeLock(readings) =>
      if s.thread.Fired? { DrainMatches(s, sim, s.again, readings); }
    case Softirq(req) =>
      ReplayGrows(sim, s.log, Retired(req));
      CommitReplays(Replay(sim, s.log).value, Retired(req));
    case _ =>
  }

  lemma {:induction false} RunMatches(s: State, sim: Ssd.Sim, labels: seq<Label>)
    requires Inv(s) && Mirrors(s, sim) && Run(s, labels).Moves?
    ensures Mirrors(Run(s, labels).s, sim)
    decreases |labels|
  {
    if |labels| == 0 {
    } else {
      hide Next, Inv, Mirrors;
      NextKeeps(s, labels[0]);
      NextMatches(s, sim, labels[0]);
      RunMatches(Next(s, labels[0]).s, sim, labels[1..]);
    }
  }

  /** Over every run of the ramdisk, an emulator server that starts with the same table accepts every request the
      ramdisk submitted, classified it alike, gave it the same completion time, and ends with the same table. */
  lemma RamdiskMatchesServer(s: State, sim: Ssd.Sim, labels: seq<Label>)
    requires Starts(s) && sim.latency == s.cfg && SameTable(s.chans, sim.chans) && Run(s, labels).Moves?
    ensures var t := Run(s, labels).s;
            Replay(sim, t.log).Some? && SameTable(t.chans, Replay(sim, t.log).value.chans)
  {
    hide SameTable, Next;
    StartsInv(s);
    hide Inv, Run, Starts;
    assert s.log == [] ==> Mirrors(s, sim);
    RunMatches(s, sim, labels);
  }

  /** Asked at any time between the last commit and the earliest outstanding completion, the server answers with the
      deadline the ramdisk has cached. */
  lemma DeadlineIsServersAnswer(t: State, ssd: seq<Ssd.SsdChannel>, time: int)
    requires Reached(t) && SameTable(t.chans, ssd)
    requires forall i | 0 <= i < |t.chans| :: t.chans[i].completed <==> t.chans[i].completion <= time
    ensures t.pending <==> Ssd.NextResponses(ssd, time).ids != []
    ensures t.pending ==> Ssd.NextResponses(ssd, time).time == t.deadline
  {
    hide Reached, Core, Separated, Least;
    ReachedParts(t);
    assert Ssd.AfterKeys(ssd, time) == OutstandingKeys(t.chans) by {
      forall i | 0 <= i < |ssd| ensures Ssd.AfterKeys(ssd, time)[i] == OutstandingKeys(t.chans)[i] {
        assert SameChannel(t.chans[i], ssd[i]);
      }
    }
    Ssd.NextResponsesSome(ssd, time);
  }
}
