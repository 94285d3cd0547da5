/** When exactly the ramdisk and the emulator server agree: if and only if their tables remember the same at the
    start. */
module MatchExact {
  import opened Block
  import opened Latency
  import opened Ramdisk
  import opened RamdiskInv
  import opened RamdiskSteps
  import opened RamdiskRuns
  import opened Match
  import Ssd = SsdSim

  const CAPACITY: nat := DISK_BYTES / SECTOR_SIZE

  /** A server that a ramdisk in state `s` can be compared with: as many channels, all of them free, the same response
      times, and whatever directions and last sectors earlier requests left. */
  predicate Comparable(s: State, sim: Ssd.Sim) {
    && |sim.chans| == |s.chans| && sim.latency == s.cfg
    && (forall i | 0 <= i < |sim.chans| ::
          sim.chans[i].completion == 0 && 0 <= sim.chans[i].rw <= 1 && 0 <= sim.chans[i].lastSector <= CAPACITY)
  }

  /** The server accepts all that any run of the ramdisk submits, with the same classes and completion times. */
  ghost predicate AgreesOnRuns(s: State, sim: Ssd.Sim) {
    forall labels: seq<Label> | Run(s, labels).Moves? :: Replay(sim, Run(s, labels).s.log).Some?
  }

  /** A request of one sector, or of none at the very end of the disk, that follows on sector `pos`. */
  function Probe(dir: Dir, pos: nat): (req: Request)
    ensures req.dir == dir && req.pos == pos
    ensures pos <= CAPACITY ==> req.WellFormed()
  {
    var req := Request(0, dir, pos, if pos < CAPACITY then [seq(SECTOR_SIZE, _ => 0)] else []);
    assert Flat(req.segments[..0]) == [];
    assert pos < CAPACITY ==> req.segments[..0] == [];
    assert |Flat(req.segments)| == if pos < CAPACITY then SECTOR_SIZE else 0;
    req
  }

  lemma QueueOne(s: State, req: Request, t: State, wake: bool)
    requires !s.stopped && Promised(s.log, [(req, s.clock)]) && Submit(s, req, s.clock) == Moves(t, wake)
    ensures Run(s, [Queue([(req, s.clock)])]).Moves? && Run(s, [Queue([(req, s.clock)])]).s.log == t.log
  {
    hide Submit, Promised;
    var batch := [(req, s.clock)];
    assert batch[1..] == [];
    var u := if t.inflight >= |t.chans| then t.(stopped := true) else t;
    assert SubmitAll(t, [], wake) == Moves(t, wake);
    assert SubmitAll(s, batch, false) == Moves(u, wake);
    var labels := [Queue(batch)];
    assert labels[1..] == [];
    assert Next(s, labels[0]).Moves? && Next(s, labels[0]).s.log == t.log;
  }

  /** The first request after the start already tells two tables apart. */
  lemma MismatchShows(s: State, sim: Ssd.Sim, i: nat) returns (labels: seq<Label>)
    requires Starts(s) && Comparable(s, sim) && i < |s.chans| && !SameChannel(s.chans[i], sim.chans[i])
    ensures Run(s, labels).Moves? && Replay(sim, Run(s, labels).s.log).None?
  {
    hide Run, Replay, Place, Submit, Wakes, Inv, Ready, SizeClass, Flat, Shape, Separated, Counted;
    var c := sim.chans[i];
    var req := Probe(if c.rw == 1 then Write else Read, c.lastSector);
    StartsReady(s);
    var slot, completion, sequential := SubmitShape(s, req, s.clock);
    var e := Submitted(req, s.clock, completion, sequential);
    ProbeDiffers(s, sim, i, req);
    ProbePromised(s, req);
    PlaceLog(s, slot, req, s.clock, completion, sequential);
    var t := Place(s, slot, req, s.clock, completion, sequential);
    QueueOne(s, req, t, Wakes(s, slot, req, completion));
    labels := [Queue([(req, s.clock)])];
    ReplayFirst(sim, e);
    assert t.log == [e];
  }

  lemma StartsReady(s: State)
    requires Starts(s)
    ensures Shape(s) && Separated(s) && Counted(s) && s.inflight < |s.chans| && !s.stopped && s.log == []
  {
    hide History, DiskAfter, Legal, UniqueTags, HoldsLatest, SubmittedOf, RetiredOf, CommittedOf;
    OutstandingNone(s.chans);
  }

  lemma ProbePromised(s: State, req: Request)
    requires s.log == [] && req.WellFormed()
    ensures Promised(s.log, [(req, s.clock)])
  {
    hide Flat;
  }

  lemma PlaceLog(s: State, slot: nat, req: Request, now: int, completion: int, sequential: bool)
    requires slot < |s.chans| && (req.dir == Write ==> req.Offset() + req.Bytes() <= |s.disk|)
    ensures Place(s, slot, req, now, completion, sequential).log ==
      s.log + [Submitted(req, now, completion, sequential)]
  {
    hide Flat, Splice, Wakes, Earliest, History;
  }

  lemma ProbeDiffers(s: State, sim: Ssd.Sim, i: nat, req: Request)
    requires Starts(s) && Comparable(s, sim) && i < |s.chans| && !SameChannel(s.chans[i], sim.chans[i])
    requires req.dir == (if sim.chans[i].rw == 1 then Write else Read) && req.pos == sim.chans[i].lastSector
    ensures Ssd.FollowsChannel(sim.chans, Ssd.Code(req.dir), req.pos) && !IsSequential(s.chans, req.dir, req.pos)
  {
  }

  lemma ReplayFirst(sim: Ssd.Sim, e: Event)
    requires e.Submitted? && Ssd.FollowsChannel(sim.chans, Ssd.Code(e.req.dir), e.req.pos) != e.sequential
    ensures Replay(sim, [e]).None?
  {
    hide Flat, Ssd.SubmitRequest;
    assert [e][..0] == [];
  }

  /** The two agree on every run if and only if their tables agree at the start. */
  lemma AgreeExactly(s: State, sim: Ssd.Sim)
    requires Starts(s) && Comparable(s, sim)
    ensures AgreesOnRuns(s, sim) <==> SameTable(s.chans, sim.chans)
  {
    if SameTable(s.chans, sim.chans) {
      forall labels: seq<Label> | Run(s, labels).Moves? ensures Replay(sim, Run(s, labels).s.log).Some? {
        RamdiskMatchesServer(s, sim, labels);
      }
    } else {
      hide Starts, Run, Replay, SameChannel;
      var i :| 0 <= i < |s.chans| && !SameChannel(s.chans[i], sim.chans[i]);
      var labels := MismatchShows(s, sim, i);
    }
  }

  // What a reset makes of it.

  /** An array as it is in memory that was zeroed. */
  predicate Blank(chans: seq<Ssd.SsdChannel>) {
    forall i | 0 <= i < |chans| :: chans[i].rw == 0 && chans[i].lastSector == 0
  }

  /** A reset frees the channels it sets up but keeps their directions and last sectors, so it leads to a table like the
      ramdisk's exactly if these are all zero before. */
  lemma ResetAgrees(s: State, sim: Ssd.Sim, speed: int)
    requires Starts(s) && |s.chans| <= |sim.chans + sim.rest|
    ensures SameTable(s.chans, Ssd.Setup(sim, |s.chans|, speed).chans) <==> Blank((sim.chans + sim.rest)[..|s.chans|])
  {
    hide Ssd.ServerTables;
    var all, n := sim.chans + sim.rest, |s.chans|;
    var after := Ssd.Setup(sim, n, speed).chans;
    assert forall i | 0 <= i < n :: after[i] == all[i].(ioId := -1, completion := 0) && all[..n][i] == all[i];
    assert forall i | 0 <= i < n :: SameChannel(s.chans[i], after[i]) <==> all[i].rw == 0 && all[i].lastSector == 0;
  }

  /** A server that has just been reset and a ramdisk that has just been loaded agree on every run if and only if no
      earlier request has left its direction and last sector in one of the channels. */
  lemma AgreeAfterReset(s: State, sim: Ssd.Sim, speed: int)
    requires Starts(s) && 0 < speed <= MAX_SPEED && s.cfg == TablesFor(speed) && |s.chans| <= |sim.chans + sim.rest|
    requires forall i | 0 <= i < |s.chans| ::
               var c := (sim.chans + sim.rest)[i]; 0 <= c.rw <= 1 && 0 <= c.lastSector <= CAPACITY
    ensures AgreesOnRuns(s, Ssd.Setup(sim, |s.chans|, speed)) <==> Blank((sim.chans + sim.rest)[..|s.chans|])
  {
    hide Starts, AgreesOnRuns, TablesFor, Blank, SameTable;
    Ssd.TablesAgree(speed);
    hide Ssd.ServerTables;
    var after := Ssd.Setup(sim, |s.chans|, speed);
    assert Comparable(s, after);
    ResetAgrees(s, sim, speed);
    AgreeExactly(s, after);
  }
}
