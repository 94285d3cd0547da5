/** The emudisk driver in its own form: the id-to-request table, the staging buffers in the mapped memory region, the
    cached answer and the counters, all updated in place, talking to the server through the lossy client of module
    Communicate. Every method that returns is proved equal to a part of a step of module Emudisk, whatever was lost,
    repeated and polled meanwhile. */
module EmudiskDriver {
  import opened Block
  import opened Latency
  import opened Scan
  import opened Sleep
  import opened SsdSim
  import opened Transfer
  import opened Communicate
  import EmuServer
  import Link = StopAndWait
  import Machine = Emudisk
  import opened EmudiskDrain
  import opened EmudiskPlan
  import Facts = EmudiskInv
  import Progress = EmudiskProgress

  type Hang = Machine.Hang

  // The mapped region: the packet buffer pool comes first, then one staging buffer for each entry of the table.

  const REGION_BYTES: nat := 0x1900_0000
  const STAGING_BASE: nat := (512 * 8 + 128) * 2048 * 8

  // The pool of packet buffers at the start of the region: as many as the driver may have in use and the network card
  // receives into, each as large as a packet may be.
  const POOL_BUFFERS: nat := 512 * 8 + 128
  const POOL_BUFFER_BYTES: nat := 2048

  function StagingOffset(i: nat): nat {
    STAGING_BASE + MAX_REQUEST_BYTES * i
  }

  /** Staging buffers of distinct entries do not overlap, and all lie inside the region, after the packet pool, for
      which eight times its size is left. */
  lemma StagingDisjoint(i: nat, j: nat)
    requires i < MAX_CHANNELS && j < MAX_CHANNELS
    ensures 8 * POOL_BUFFERS * POOL_BUFFER_BYTES <= StagingOffset(i)
    ensures STAGING_BASE <= StagingOffset(i) && StagingOffset(i) + MAX_REQUEST_BYTES <= REGION_BYTES
    ensures i < j ==> StagingOffset(i) + MAX_REQUEST_BYTES <= StagingOffset(j)
    ensures j < i ==> StagingOffset(j) + MAX_REQUEST_BYTES <= StagingOffset(i)
  {
  }

  datatype Entry = Entry(id: nat, req: Option<Request>)

  /** The slot of the state machine an entry and the region stand for. */
  function SlotOf(entry: Entry, region: seq<Byte>, i: nat): Machine.Slot
    requires i < MAX_CHANNELS && |region| == REGION_BYTES
  {
    StagingDisjoint(i, i);
    Machine.Slot(entry.id, entry.req, region[StagingOffset(i)..StagingOffset(i) + MAX_REQUEST_BYTES])
  }

  function SlotsOf(entries: seq<Entry>, region: seq<Byte>): (slots: seq<Machine.Slot>)
    requires |entries| <= MAX_CHANNELS && |region| == REGION_BYTES
    ensures |slots| == |entries| && forall i | 0 <= i < |slots| :: slots[i] == SlotOf(entries[i], region, i)
  {
    seq(|entries|, i requires 0 <= i < |entries| => SlotOf(entries[i], region, i))
  }

  /** Writing inside one staging buffer changes that buffer and no other. */
  lemma StageOne(entries: seq<Entry>, region: seq<Byte>, i: nat, at: nat, bytes: seq<Byte>)
    requires i < |entries| <= MAX_CHANNELS && |region| == REGION_BYTES && at + |bytes| <= MAX_REQUEST_BYTES
    ensures StagingOffset(i) + at + |bytes| <= REGION_BYTES
    ensures var slot := SlotOf(entries[i], region, i);
            SlotsOf(entries, Splice(region, StagingOffset(i) + at, bytes)) ==
            SlotsOf(entries, region)[i := slot.(data := Splice(slot.data, at, bytes))]
  {
    StagingDisjoint(i, i);
    var offset := StagingOffset(i) + at;
    var after := Splice(region, offset, bytes);
    forall j | 0 <= j < |entries| && j != i ensures SlotOf(entries[j], after, j) == SlotOf(entries[j], region, j) {
      StagingDisjoint(i, j);
      StageOther(region, offset, bytes, StagingOffset(j));
    }
    StageSame(region, StagingOffset(i), at, bytes);
    hide SlotOf, Splice;
  }

  lemma StageOther(region: seq<Byte>, offset: nat, bytes: seq<Byte>, from: nat)
    requires offset + |bytes| <= |region| && from + MAX_REQUEST_BYTES <= |region|
    requires from + MAX_REQUEST_BYTES <= offset || offset + |bytes| <= from
    ensures Splice(region, offset, bytes)[from..from + MAX_REQUEST_BYTES] == region[from..from + MAX_REQUEST_BYTES]
  {
  }

  lemma StageSame(region: seq<Byte>, from: nat, at: nat, bytes: seq<Byte>)
    requires from + MAX_REQUEST_BYTES <= |region| && at + |bytes| <= MAX_REQUEST_BYTES
    ensures Splice(region, from + at, bytes)[from..from + MAX_REQUEST_BYTES] ==
            Splice(region[from..from + MAX_REQUEST_BYTES], at, bytes)
  {
    var left := Splice(region, from + at, bytes)[from..from + MAX_REQUEST_BYTES];
    var right := Splice(region[from..from + MAX_REQUEST_BYTES], at, bytes);
    forall k | 0 <= k < MAX_REQUEST_BYTES ensures left[k] == right[k] {
      if at <= k < at + |bytes| {
        assert Splice(region, from + at, bytes)[from + at..from + at + |bytes|][k - at] == bytes[k - at];
        assert right[at..at + |bytes|][k - at] == bytes[k - at];
      }
    }
  }

  const FIRST_PACKET: nat := 123

  function Reset(channels: nat, speed: int): EmuServer.Body {
    EmuServer.Reset(DISK_BYTES / SECTOR_SIZE, channels, speed)
  }

  /** The server's tables after a reset suit the driver. */
  lemma ResetStarts(sim: Sim, channels: nat, speed: int)
    requires channels <= |sim.chans + sim.rest|
    ensures var after := Setup(sim, channels, speed);
            && |after.chans| == channels && after.time == 0 && after.latency == ServerTables(speed)
            && (forall i | 0 <= i < channels :: after.chans[i].ioId == -1 && after.chans[i].completion == 0)
            && (speed > 0 ==> after.latency.Ok())
  {
    if speed > 0 { ServerTablesOk(speed); }
    hide ServerTables;
  }

  /** How a routine of the driver ends: it returns, it reaches one of its endless loops, or the run ends before an
      exchange has its reply. */
  datatype End = Done | Hung(at: Hang) | Waiting

  /** What that is to the state machine. */
  function OutcomeOf(end: End, s: Machine.State): Machine.Outcome {
    match end
    case Done => Machine.Moves(s)
    case Hung(h) => Machine.Hangs(h)
    case Waiting => Machine.Refused
  }

  class Driver {
    const diskChannels: nat
    const entries: array<Entry>
    const region: array<Byte>
    const responseIds: array<int>
    const client: Client
    /** How long after the last look at the running clock the k-th one comes. */
    const pace: nat -> nat
    var responseNum: nat
    var responseTime: int
    var latest: int
    var maxQuery: int
    var nextId: nat
    var inflight: int
    var stopped: bool
    var retiring: multiset<Request>
    var thread: Thread
    /** Looks at the running clock so far. */
    var looks: nat
    /** Time outside, and how much of it the system's clock has missed. */
    var wall: int
    var missed: int
    var paused: bool
    var pausedAt: int
    ghost const image: seq<Byte>
    ghost var log: seq<Machine.Event>
    /** The state of the machine that the fields represent. */
    ghost var state: Machine.State

    /** The system's clock: it does not count the time spent in pauses. */
    function Clock(): int
      reads this
    {
      (if paused then pausedAt else wall) - missed
    }

    ghost predicate Valid()
      reads this, entries, region, responseIds, client
    {
      && diskChannels <= MAX_CHANNELS == entries.Length == responseIds.Length
      && region.Length == REGION_BYTES
      && responseNum <= MAX_CHANNELS
      && |client.server.sim.chans| == diskChannels
      && |client.server.memory| == DISK_BYTES
      && client.Idle() && Link.LastId(client.history) < nextId
      && state == Machine.State(SlotsOf(entries[..diskChannels], region[..]), responseTime, responseIds[..responseNum],
                                latest, maxQuery, nextId, inflight, stopped, retiring, client.server.sim,
                                client.server.memory, thread, Clock(), image, log)
    }

    /** Inside an exchange whose reply has not come by the end of the run. */
    ghost predicate InExchange()
      reads this, client
    {
      client.waiting.Some? && client.got == None && client.polls == []
    }

    /** Module initialisation, once the server has been reset. */
    constructor (channelCount: nat, link: Client, start: int, lapses: nat -> nat)
      requires channelCount <= MAX_CHANNELS && link.Idle() && Link.LastId(link.history) == FIRST_PACKET
      requires |link.server.sim.chans| == channelCount && |link.server.memory| == DISK_BYTES
      ensures Valid() && !paused && diskChannels == channelCount && client == link && pace == lapses && looks == 0
      ensures fresh(entries) && fresh(region) && fresh(responseIds) && Clock() == start
      ensures state.sim == link.server.sim && state.memory == link.server.memory
      ensures 1 <= channelCount && IsReset(client.server.sim) && start > 0 ==> Machine.Starts(state)
    {
      diskChannels := channelCount;
      entries := new Entry[MAX_CHANNELS](_ => Entry(0, None));
      region := new Byte[REGION_BYTES](_ => 0);
      responseIds := new int[MAX_CHANNELS](_ => 0);
      client, pace := link, lapses;
      responseNum, responseTime, latest, maxQuery, nextId := 0, 0, 0, 0, FIRST_PACKET + 1;
      inflight, stopped, retiring := 0, false, multiset{};
      thread, looks, wall, missed, paused, pausedAt := Idle, 0, start, 0, false, start;
      image, log := link.server.memory, [];
      new;
      assert responseIds[..responseNum] == [];
      state := Machine.State(SlotsOf(entries[..channelCount], region[..]), 0, [], 0, 0, nextId, 0, false, multiset{},
                             link.server.sim, link.server.memory, Idle, start, image, []);
    }

    /** Fields and state side by side. */
    lemma Fields()
      requires Valid()
      ensures |state.slots| == diskChannels <= MAX_CHANNELS == entries.Length == responseIds.Length
      ensures state.sim == client.server.sim && state.memory == client.server.memory && |state.memory| == DISK_BYTES
      ensures |state.sim.chans| == diskChannels && responseNum <= MAX_CHANNELS
      ensures state.inflight == inflight && state.stopped == stopped && state.thread == thread
      ensures state.retiring == retiring && state.log == log
      ensures state.clock == Clock() && state.latest == latest
      ensures state.nextId == nextId && state.nextTime == responseTime && state.nextIds == responseIds[..responseNum]
      ensures forall i | 0 <= i < diskChannels ::
                state.slots[i].id == entries[i].id && state.slots[i].req == entries[i].req
                && |state.slots[i].data| == MAX_REQUEST_BYTES
    {
    }

    lemma ClockField()
      requires Valid()
      ensures state.clock == Clock()
    {
    }

    // The clock, and stopping it.

    /** ktime_get: wall time less the time spent in pauses. In a pause it stands still. */
    method KtimeGet() returns (now: int)
      requires Valid()
      modifies this`wall, this`looks, this`state
      ensures Valid() && now == Clock()
      ensures state == old(state).(clock := now)
      ensures paused ==> now == old(Clock()) && looks == old(looks)
      ensures !paused ==> now == old(Clock()) + Lapse(pace, old(looks)) && looks == old(looks) + 1
    {
      hide Client.Idle, SlotsOf;
      if !paused {
        wall, looks := wall + Lapse(pace, looks), looks + 1;
      }
      now := (if paused then pausedAt else wall) - missed;
      state := state.(clock := now);
    }

    /** A pause never comes inside a pause. The clock stops where it is when the pause begins ... */
    method Pause()
      requires Valid() && !paused
      modifies this`wall, this`looks, this`paused, this`pausedAt, this`state
      ensures Valid() && paused && Clock() == old(Clock()) + Lapse(pace, old(looks)) && looks == old(looks) + 1
      ensures state == old(state).(clock := Clock())
    {
      hide Client.Idle, SlotsOf;
      wall, looks := wall + Lapse(pace, looks), looks + 1;
      paused, pausedAt := true, wall;
      state := state.(clock := wall - missed);
    }

    /** ... and goes on from there when it ends, however much time has passed outside. */
    method Resume()
      requires Valid() && paused
      modifies this`missed, this`paused
      ensures Valid() && !paused && Clock() == old(Clock()) && state == old(state)
      ensures missed == old(missed) + (wall - pausedAt)
    {
      hide Client.Idle, SlotsOf;
      missed, paused := missed + (wall - pausedAt), false;
    }

    // Exchanges.

    /** One exchange. Its polls take time outside. */
    method Transmit(p: EmuServer.Packet) returns (reply: Option<EmuServer.ReplyBody>)
      requires client.Idle() && Link.LastId(client.history) < p.id && !p.body.Reset?
      requires p.body.WriteSector? ==> |p.body.payload| == SECTOR_SIZE
      modifies this`wall, client
      ensures |client.polls| <= |old(client.polls)|
      ensures wall == old(wall) + TimeOf(old(client.polls)[..|old(client.polls)| - |client.polls|])
      ensures reply.None? ==> InExchange()
      ensures reply.Some? ==>
                client.Idle() && Link.LastId(client.history) == p.id &&
                match EmuServer.Execute(old(client.server), p.body)
                case Effect(sim, memory, r) =>
                  && reply == Some(r) && client.server.sim == sim && client.server.memory == memory
                  && |sim.chans| == |old(client.server).sim.chans| && |memory| == |old(client.server).memory|
                case _ => false
    {
      hide EmuServer.Execute, EmuServer.Serve, Client.Idle, Woven, Polled, Link.Run, TimeOf;
      IdleServer(client);
      ServeNew(client.server, p);
      ghost var used, steps;
      var answer, elapsed;
      answer, elapsed, used, steps := client.Exchange(p);
      wall := wall + elapsed;
      reply := if answer.Some? then Some(answer.value.body) else None;
    }

    /** One exchange with the server, under the next packet id. If it returns, the server has executed the request once,
        and the system's clock stands where it stood, however long the polls took. */
    method Call(body: EmuServer.Body) returns (reply: Option<EmuServer.ReplyBody>)
      requires Valid() && paused && !body.Reset?
      requires body.WriteSector? ==> |body.payload| == SECTOR_SIZE
      modifies this`nextId, this`wall, this`state, client
      ensures |client.polls| <= |old(client.polls)|
      ensures wall == old(wall) + TimeOf(old(client.polls)[..|old(client.polls)| - |client.polls|])
      ensures reply.None? ==> InExchange()
      ensures reply.Some? ==>
                Valid() &&
                match EmuServer.Execute(old(client.server), body)
                case Effect(sim, memory, r) =>
                  reply == Some(r) && state == old(state).(sim := sim, memory := memory, nextId := old(nextId) + 1)
                case _ => false
    {
      hide EmuServer.Execute, Client.Idle, SlotsOf, TimeOf;
      reply := Transmit(EmuServer.Packet(nextId, body));
      nextId := nextId + 1;
      state := state.(sim := client.server.sim, memory := client.server.memory, nextId := nextId);
    }

    /** emulator_submit_request. An error reply is not looked at. */
    method SendSubmit(req: Request, now: int) returns (ok: bool)
      requires Valid() && paused
      modifies this`nextId, this`wall, this`state, client
      ensures !ok ==> InExchange()
      ensures ok ==>
                Valid() &&
                match SubmitRequest(old(client.server.sim), now, req.dir, req.pos, req.Sectors(), old(nextId))
                case Stuck => false
                case Rejected => state == old(state).(nextId := old(nextId) + 1)
                case Accepted(sim) => state == old(state).(sim := sim, nextId := old(nextId) + 1)
    {
      hide SubmitRequest, Flat, Valid;
      Fields();
      var reply := Call(EmuServer.Submit(now, req.dir, req.pos, req.Sectors(), nextId));
      ok := reply.Some?;
    }

    /** emulator_get_responses, about the watermark. */
    method Ask() returns (a: Option<Answer>)
      requires Valid() && paused
      modifies this`nextId, this`wall, this`maxQuery, this`state, client
      ensures a.None? ==> InExchange()
      ensures a.Some? ==>
                && Valid() && a.value == NextResponses(old(client.server.sim.chans), latest)
                && |a.value.ids| <= MAX_CHANNELS
                && state == Machine.Asked(old(state))
    {
      hide NextResponses;
      AnswerSize(client.server.sim.chans, latest);
      Fields();
      if latest >= maxQuery {
        maxQuery := latest;
      }
      state := state.(maxQuery := maxQuery);
      Fields();
      hide Valid;
      var reply := Call(EmuServer.GetNextResponses(latest));
      a := if reply.Some? then Some(reply.value.answer) else None;
    }

    // The table and the staging buffers.

    /** The first entry with this id. */
    method FindEntry(id: int) returns (slot: Option<nat>)
      requires Valid()
      ensures slot == Machine.FindId(state.slots, id)
      ensures slot.Some? ==> slot.value < diskChannels && entries[slot.value].id == id
    {
      hide Machine.FindId;
      ghost var slots := state.slots;
      Fields();
      for i := 0 to diskChannels
        invariant forall k | 0 <= k < i :: slots[k].id != id
      {
        if entries[i].id == id {
          FindIdIs(slots, id, Some(i));
          return Some(i);
        }
      }
      FindIdIs(slots, id, None);
      return None;
    }

    method SetEntry(i: nat, entry: Entry)
      requires Valid() && i < diskChannels
      modifies entries, this`state
      ensures Valid()
      ensures state == old(state).(slots :=
                old(state).slots[i := old(state).slots[i].(id := entry.id, req := entry.req)])
    {
      hide Client.Idle;
      state := state.(slots := state.slots[i := state.slots[i].(id := entry.id, req := entry.req)]);
      entries[i] := entry;
      assert SlotsOf(entries[..diskChannels], region[..]) == state.slots;
    }

    /** Puts bytes into a staging buffer. */
    method Stage(i: nat, at: nat, bytes: seq<Byte>)
      requires Valid() && i < diskChannels && at + |bytes| <= MAX_REQUEST_BYTES
      modifies region, this`state
      ensures Valid()
      ensures var s := old(state);
              state == s.(slots := s.slots[i := s.slots[i].(data := Splice(s.slots[i].data, at, bytes))])
    {
      hide Client.Idle;
      StageOne(entries[..diskChannels], region[..], i, at, bytes);
      state := state.(slots := state.slots[i := state.slots[i].(data := Splice(state.slots[i].data, at, bytes))]);
      CopyInto(region, StagingOffset(i) + at, bytes);
    }

    /** The data of a write, gathered in the staging buffer. */
    method StageIn(i: nat, req: Request) returns (hang: Option<Hang>)
      requires Valid() && i < diskChannels
      modifies region, this`state
      ensures Valid()
      ensures if req.Bytes() > MAX_REQUEST_BYTES then hang == Some(Machine.TransferTooLarge)
              else
                var s := old(state);
                var data := Splice(s.slots[i].data, 0, Flat(req.segments));
                hang == None && state == s.(slots := s.slots[i := s.slots[i].(data := data)])
    {
      hide Client.Idle;
      hide Flat;
      if req.Bytes() > MAX_REQUEST_BYTES {
        return Some(Machine.TransferTooLarge);
      }
      StageOne(entries[..diskChannels], region[..], i, 0, Flat(req.segments));
      GatherInto(region, StagingOffset(i), req.segments);
      state := state.(slots :=
        state.slots[i := state.slots[i].(data := Splice(state.slots[i].data, 0, Flat(req.segments)))]);
      hang := None;
    }

    /** The bytes of a read, from the staging buffer into its pages. */
    method StageOut(i: nat, req: Request) returns (pages: seq<seq<Byte>>)
      requires Valid() && i < diskChannels && req.Bytes() <= MAX_REQUEST_BYTES
      ensures pages == Scatter(state.slots[i].data[..req.Bytes()], req.segments)
    {
      hide Flat, Scatter;
      StagingDisjoint(i, i);
      pages := ScatterFrom(region, StagingOffset(i), req.segments);
      ghost var data := state.slots[i].data;
      assert data == region[..][StagingOffset(i)..StagingOffset(i) + MAX_REQUEST_BYTES];
      assert region[StagingOffset(i)..StagingOffset(i) + req.Bytes()] == data[..req.Bytes()];
    }

    /** emulator_transfer_data: one sector between the server and the staging buffer. */
    method MoveSector(i: nat, dir: Dir, sector: nat, at: nat) returns (ok: bool)
      requires Valid() && paused && i < diskChannels
      requires at + SECTOR_SIZE <= MAX_REQUEST_BYTES && (sector + 1) * SECTOR_SIZE <= DISK_BYTES
      modifies this`nextId, this`wall, this`state, client, region
      ensures !ok ==> InExchange()
      ensures ok ==> Valid() && state == SectorMoved(old(state), i, dir, sector, at)
    {
      hide Valid, StagingOffset;
      Fields();
      var reply;
      if dir == Write {
        var payload := Staging(i, at);
        reply := Call(EmuServer.WriteSector(sector, payload));
      } else {
        reply := Call(EmuServer.ReadSector(sector));
        if reply.Some? {
          Stage(i, at, reply.value.bytes);
        }
      }
      ok := reply.Some?;
    }

    method Staging(i: nat, at: nat) returns (bytes: seq<Byte>)
      requires Valid() && i < diskChannels && at + SECTOR_SIZE <= MAX_REQUEST_BYTES
      ensures bytes == state.slots[i].data[at..at + SECTOR_SIZE]
    {
      StagingDisjoint(i, i);
      ghost var data := state.slots[i].data;
      assert data == region[..][StagingOffset(i)..StagingOffset(i) + MAX_REQUEST_BYTES];
      bytes := region[StagingOffset(i) + at..StagingOffset(i) + at + SECTOR_SIZE];
      assert forall k | 0 <= k < SECTOR_SIZE :: bytes[k] == data[at..at + SECTOR_SIZE][k];
    }

    /** All sectors of a request, one exchange each. */
    method MoveSectors(i: nat, req: Request) returns (ok: bool)
      requires Valid() && paused && i < diskChannels && req.WellFormed()
      modifies this`nextId, this`wall, this`state, client, region
      ensures !ok ==> InExchange()
      ensures ok ==> Valid() && state == Moved(old(state), i, req, req.Bytes())
    {
      hide Valid, Moved, SectorMoved, Flat;
      ghost var start := state;
      Fields();
      MovedNone(start, i, req);
      var at := 0;
      while at < req.Bytes()
        invariant Valid() && at <= req.Bytes() && at % SECTOR_SIZE == 0
        invariant state == Moved(start, i, req, at)
      {
        MovedStep(start, i, req, at);
        ok := MoveSector(i, req.dir, req.pos + at / SECTOR_SIZE, at);
        if !ok {
          return;
        }
        at := at + SECTOR_SIZE;
      }
      ok := true;
    }

    // Submission.

    /** Enters a request in the table under the id of the next packet, with its data if it is a write. */
    method Enter(i: nat, req: Request)
      requires Valid() && i < diskChannels && req.WellFormed()
      modifies entries, region, this`state
      ensures Valid() && state == Entered(old(state), i, req)
    {
      hide Valid, Flat, Splice;
      Fields();
      SetEntry(i, Entry(nextId, Some(req)));
      if req.dir == Write {
        var hang := StageIn(i, req);
        assert hang == None;
      }
    }

    method CountSubmission(ghost e: Machine.Event)
      requires Valid()
      modifies this`inflight, this`log, this`state
      ensures Valid() && state == old(state).(inflight := old(inflight) + 1, log := old(log) + [e])
    {
      hide Client.Idle, SlotsOf;
      inflight := inflight + 1;
      log := log + [e];
      state := state.(inflight := inflight, log := log);
    }

    /** Enters a request, stops the clock and submits the request to the server. */
    method Begin(i: nat, req: Request, now: int) returns (ok: bool)
      requires Valid() && !paused && i < diskChannels && req.WellFormed()
      modifies this`wall, this`looks, this`paused, this`pausedAt, this`nextId, this`state, client, entries, region
      ensures !ok ==> InExchange()
      ensures ok ==>
                && Valid() && paused && looks == old(looks) + 1
                && var later := old(Clock()) + Lapse(pace, old(looks));
                   match SubmitRequest(old(client.server.sim), now, req.dir, req.pos, req.Sectors(), old(nextId))
                   case Stuck => false
                   case Rejected => state == Begun(old(state), i, req, old(client.server.sim), later)
                   case Accepted(sim) => state == Begun(old(state), i, req, sim, later)
    {
      hide Valid, Flat, Entered, SubmitRequest;
      Fields();
      EnteredIs(state, i, req);
      Enter(i, req);
      Fields();
      Pause();
      Fields();
      ok := SendSubmit(req, now);
    }

    /** Moves the sectors of a request, starts the clock again and counts the request. */
    method Complete(i: nat, req: Request, ghost id: nat, ghost now: int) returns (ok: bool)
      requires Valid() && paused && i < diskChannels && req.WellFormed()
      modifies this`wall, this`missed, this`paused, this`nextId, this`inflight, this`log, this`state, client, region
      ensures !ok ==> InExchange()
      ensures ok ==> Valid() && !paused && state == Completed(old(state), i, req, id, now)
    {
      hide Valid, Flat, Moved, Machine.CompletionOf;
      Fields();
      MovedFrame(state, i, req);
      ok := MoveSectors(i, req);
      if ok {
        Resume();
        Fields();
        CountSubmission(Machine.Submitted(req, id, now, Machine.CompletionOf(client.server.sim.chans, id)));
      }
    }

    method Occupy(i: nat, req: Request, now: int) returns (ok: bool)
      requires Valid() && !paused && i < diskChannels && req.WellFormed()
      modifies this, client, entries, region
      ensures !ok ==> InExchange()
      ensures ok ==>
                && Valid() && !paused && looks == old(looks) + 1
                && var s, later := old(state), old(Clock()) + Lapse(pace, old(looks));
                   match SubmitRequest(s.sim, now, req.dir, req.pos, req.Sectors(), s.nextId)
                   case Stuck => false
                   case Rejected => state == Machine.Placed(s, i, req, now, s.sim).(clock := later)
                   case Accepted(sim) => state == Machine.Placed(s, i, req, now, sim).(clock := later)
    {
      hide Valid, Flat, Entered, Completed, Machine.Placed, SubmitRequest;
      Fields();
      ghost var before, id, later := state, nextId, Clock() + Lapse(pace, looks);
      ok := Begin(i, req, now);
      if ok {
        Fields();
        BeginCompletePlaces(before, i, req, now, client.server.sim, later);
        ok := Complete(i, req, id, now);
      }
    }

    /** One turn of the submission loop. */
    method SubmitOne(req: Request, now: int) returns (end: End)
      requires Valid() && !paused && req.WellFormed()
      modifies this, client, entries, region
      ensures end.Waiting? ==> InExchange()
      ensures !end.Waiting? ==>
                Valid() && !paused &&
                match Machine.Submit(old(state), req, now)
                case Moves(s) =>
                  end == Done && looks == old(looks) + 1 && state == s.(clock := old(Clock()) + Lapse(pace, old(looks)))
                case Hangs(h) => end == Hung(h) && looks == old(looks) && Clock() == old(Clock())
                case Refused => false
    {
      hide Valid, Machine.Submit, Machine.Placed, Machine.FindId, Flat, SubmitRequest;
      Fields();
      SubmitIs(state, req, now);
      if now <= latest {
        return Hung(Machine.ClockNotPastWatermark);
      }
      var slot := FindEntry(0);
      if slot.None? {
        return Hung(Machine.NoFreeSlot);
      }
      var ok := Occupy(slot.value, req, now);
      end := if ok then Done else Waiting;
    }

    method SetAnswer(a: Answer)
      requires Valid() && |a.ids| <= MAX_CHANNELS
      modifies this`responseNum, this`responseTime, this`state, responseIds
      ensures Valid() && state == old(state).(nextTime := a.time, nextIds := a.ids)
    {
      hide Client.Idle, SlotsOf;
      for i := 0 to |a.ids|
        invariant responseIds[..i] == a.ids[..i]
        modifies responseIds
      {
        responseIds[i] := a.ids[i];
      }
      responseTime, responseNum := a.time, |a.ids|;
      assert responseIds[..responseNum] == a.ids;
      state := state.(nextTime := a.time, nextIds := a.ids);
    }

    method StopQueue()
      requires Valid()
      modifies this`stopped, this`state
      ensures Valid() && state == old(state).(stopped := true)
    {
      hide Client.Idle, SlotsOf;
      stopped := true;
      state := state.(stopped := true);
    }

    method WakeThread()
      requires Valid()
      modifies this`thread, this`state
      ensures Valid() && state == old(state).(thread := old(thread).Wake())
    {
      hide Client.Idle, SlotsOf;
      thread := thread.Wake();
      state := state.(thread := thread);
    }

    /** After a batch of submissions: the cached answer is brought up to date by the three-way test. */
    method Refresh() returns (ok: bool)
      requires Valid() && !paused
      modifies this, client, responseIds
      ensures !ok ==> InExchange()
      ensures ok ==> Valid() && !paused && looks == old(looks) + 1
      ensures ok ==> state == Machine.Refresh(old(state)).(clock := old(Clock()) + Lapse(pace, old(looks)))
    {
      hide Valid, NextResponses;
      Fields();
      ghost var before := state;
      Pause();
      Fields();
      var answer := Ask();
      if answer.None? {
        return false;
      }
      var a, needToWake := answer.value, false;
      Fields();
      if |a.ids| > 0 &&
        (responseNum == 0 || responseTime > a.time || (responseTime == a.time && responseNum < |a.ids|))
      {
        if responseNum == 0 || responseTime > a.time {
          needToWake := true;
        }
        SetAnswer(a);
      }
      Resume();
      if needToWake {
        Fields();
        WakeThread();
      }
      ok := true;
    }

    /** One turn of the submission loop, from reading the clock to looking for another request. */
    method Turn(queue: seq<Request>) returns (end: End, more: bool, left: seq<Request>)
      requires Valid() && !paused && forall i | 0 <= i < |queue| :: queue[i].WellFormed()
      modifies this, client, entries, region
      ensures end.Waiting? ==> InExchange()
      ensures !end.Waiting? ==> Valid() && !paused && |left| <= |queue| && left == queue[|queue| - |left|..]
      ensures !end.Waiting? ==>
                Turns(old(state), queue, pace, old(looks)) ==
                if end.Done? && more then Turns(state, left, pace, looks)
                else Progress(OutcomeOf(end, state), left, looks)
      ensures end.Done? && more ==> |left| < |queue|
    {
      hide Valid, Machine.Submit, Turns;
      Fields();
      ghost var before, k := state, looks;
      var now := KtimeGet();
      TurnsStep(before, queue, pace, k);
      Fields();
      if |queue| == 0 {
        return Done, false, queue;
      }
      left := queue[1..];
      end := SubmitOne(queue[0], now);
      more := false;
      if end.Done? {
        Fields();
        if inflight >= diskChannels {
          StopQueue();
        } else {
          more := |left| > 0;
        }
      }
    }

    /** The submission loop. */
    method RunTurns(queue: seq<Request>) returns (end: End, left: seq<Request>)
      requires Valid() && !paused && forall i | 0 <= i < |queue| :: queue[i].WellFormed()
      modifies this, client, entries, region
      ensures end.Waiting? ==> InExchange()
      ensures !end.Waiting? ==> Valid() && !paused && |left| <= |queue|
      ensures !end.Waiting? ==>
        Turns(old(state), queue, pace, old(looks)) == Progress(OutcomeOf(end, state), left, looks)
    {
      hide Valid, Turns;
      ghost var start, k := state, looks;
      left := queue;
      var more := true;
      while more
        invariant Valid() && !paused && |left| <= |queue| && left == queue[|queue| - |left|..]
        invariant Turns(start, queue, pace, k) ==
                  if more then Turns(state, left, pace, looks) else Progress(Machine.Moves(state), left, looks)
        decreases more, |left|
      {
        end, more, left := Turn(left);
        if !end.Done? {
          return;
        }
      }
      end := Done;
    }

    /** The request-submission routine, for the requests waiting in the queue. What it does not fetch it leaves. If it
        returns, state, clock and what is left are a function of the state and the clock's lapses alone. */
    method RunStrategy(queue: seq<Request>) returns (end: End, left: seq<Request>)
      requires Valid() && !paused && forall i | 0 <= i < |queue| :: queue[i].WellFormed()
      modifies this, client, entries, region, responseIds
      ensures end.Waiting? ==> InExchange()
      ensures !end.Waiting? ==> Valid() && !paused
      ensures !end.Waiting? ==>
                StrategyAt(old(state), queue, pace, old(looks)) == Progress(OutcomeOf(end, state), left, looks)
    {
      hide Valid, Turns, StrategyAt, Machine.Refresh;
      ghost var start, k := state, looks;
      end, left := RunTurns(queue);
      if end.Hung? {
        StrategyAtHangs(start, queue, pace, k);
      } else if end.Done? {
        ClockField();
        StrategyAtMoves(start, queue, pace, k);
        if |left| < |queue| {
          var ok := Refresh();
          end := if ok then Done else Waiting;
        }
      }
    }

    /** And it is a step of the state machine, for the batch of requests it takes. */
    method Strategy(queue: seq<Request>)
      returns (left: seq<Request>, end: End, ghost batch: seq<(Request, int)>)
      requires Valid() && !paused && forall i | 0 <= i < |queue| :: queue[i].WellFormed()
      modifies this, client, entries, region, responseIds
      ensures end.Waiting? ==> InExchange()
      ensures !end.Waiting? ==> Valid() && !paused
      ensures !end.Waiting? ==>
                StrategyAt(old(state), queue, pace, old(looks)) == Progress(OutcomeOf(end, state), left, looks)
      ensures batch == Taken(old(state), queue, pace, old(looks)) && Machine.BatchClimbs(old(Clock()), batch)
      ensures |batch| <= |queue| && forall i | 0 <= i < |batch| :: batch[i].0 == queue[i]
      ensures end.Done? ==> left == queue[|batch|..] && (left == [] || stopped)
      ensures end.Done? ==> Facts.Logs(old(log), log, batch)
      ensures !end.Waiting? ==>
                match Machine.Strategy(old(state), batch)
                case Moves(t) => end == Done && t.clock <= Clock() && state == t.(clock := Clock())
                case Hangs(h) => end == Hung(h)
                case Refused => false
    {
      hide Valid, StrategyAt, Machine.Strategy, Machine.BatchClimbs, Taken, Facts.Logs;
      Fields();
      ghost var start, k := state, looks;
      StrategyAtIsStep(state, queue, pace, looks);
      batch := Taken(state, queue, pace, looks);
      end, left := RunStrategy(queue);
      if !end.Waiting? {
        Fields();
      }
      if end.Done? {
        Progress.StrategyLogs(start, queue, pace, k);
      }
    }

    // The completion thread.

    /** Takes the request with this id out of the table and hands it back. */
    method DeliverOne(id: int) returns (hang: Option<Hang>)
      requires Valid()
      modifies this`latest, this`retiring, this`log, this`state, entries
      ensures Valid()
      ensures match Machine.Deliver(old(state), id)
              case Moves(t) => hang == None && state == t
              case Hangs(h) => hang == Some(h)
              case Refused => false
    {
      hide Valid, Machine.FindId, Machine.Deliver, Flat, Scatter;
      Fields();
      DeliverIs(state, id);
      var found := FindEntry(id);
      if found.None? {
        return Some(Machine.UnknownId);
      }
      var i := found.value;
      var request := entries[i].req;
      if request.None? {
        return Some(Machine.OutOfRange);
      }
      var req, pages := request.value, [];
      SetEntry(i, Entry(0, request));
      if req.dir == Read {
        if req.Bytes() > MAX_REQUEST_BYTES {
          return Some(Machine.TransferTooLarge);
        }
        pages := StageOut(i, req);
      }
      HandBack(req, id, pages);
      hang := None;
    }

    method HandBack(req: Request, ghost id: int, ghost pages: seq<seq<Byte>>)
      requires Valid()
      modifies this`latest, this`retiring, this`log, this`state
      ensures Valid()
      ensures var s := old(state);
              state == s.(latest := s.nextTime, retiring := s.retiring + multiset{req},
                          log := s.log + [Machine.Committed(req, id, s.nextTime, s.clock, pages)])
    {
      hide Client.Idle, SlotsOf;
      latest := responseTime;
      log := log + [Machine.Committed(req, id, responseTime, Clock(), pages)];
      retiring := retiring + multiset{req};
      state := state.(latest := latest, retiring := retiring, log := log);
    }

    /** Hands back every request of the cached answer. */
    method DeliverCached() returns (hang: Option<Hang>)
      requires Valid()
      modifies this`latest, this`retiring, this`log, this`state, entries
      ensures Valid()
      ensures match Machine.DeliverAll(old(state), old(state).nextIds)
              case Moves(t) => hang == None && state == t
              case Hangs(h) => hang == Some(h)
              case Refused => false
    {
      hide Machine.DeliverAll, Machine.Deliver;
      Fields();
      ghost var start, ids := state, responseIds[..responseNum];
      for i := 0 to responseNum
        invariant Valid()
        invariant Machine.DeliverAll(start, ids) == Machine.DeliverAll(state, ids[i..])
      {
        DeliverAllHead(state, ids, i);
        hang := DeliverOne(responseIds[i]);
        if hang.Some? {
          return;
        }
      }
      assert ids[responseNum..] == [];
      DeliverAllNone(state);
      hang := None;
    }

    /** Reads the clock and checks the watermark: when something is due none of the three checks can fail. */
    method StartRound() returns (now: int)
      requires Valid() && !paused && RoundDue(state)
      modifies this`wall, this`looks, this`state
      ensures Valid() && now == old(Clock()) + Lapse(pace, old(looks)) && looks == old(looks) + 1
      ensures state == old(state).(clock := now)
    {
      hide Valid, RoundDue;
      Fields();
      RoundIsSound(state);
      now := KtimeGet();
      assert latest <= now;
      assert latest <= responseTime;
      assert responseNum != 0;
    }

    /** Hands back everything that is due at the next time; every id is found. */
    method DeliverDue() returns (ghost now: int)
      requires Valid() && !paused && RoundDue(state)
      modifies this`wall, this`looks, this`latest, this`retiring, this`log, this`state, entries
      ensures Valid() && now == old(Clock()) + Lapse(pace, old(looks)) && looks == old(looks) + 1 && now == Clock()
      ensures Machine.DeliverAll(old(state).(clock := now), old(state).nextIds) == Machine.Moves(state)
    {
      hide *;
      ghost var before := state;
      ClockField();
      var reading := StartRound();
      now := reading;
      RoundRuns(before, now);
      var hang := DeliverCached();
      assert hang == None;
      ClockField();
    }

    /** One round of the drain: hands back what is due and asks for what comes next. Nothing in it hangs, and the server
        is asked with the clock stopped. */
    method Round() returns (ok: bool, more: bool, ghost now: int, ghost later: int)
      requires Valid() && !paused && RoundDue(state)
      modifies this, client, entries, responseIds
      ensures !ok ==> InExchange()
      ensures now == old(Clock()) + Lapse(pace, old(looks)) && later == now + Lapse(pace, old(looks) + 1)
      ensures ok ==> Valid() && !paused && looks == old(looks) + 2
      ensures ok ==> state == AfterRound(old(state), now, later) && more == Goes(state)
    {
      hide *;
      ghost var before := state;
      now := DeliverDue();
      ok, more, later := Look();
      if ok {
        AfterRoundIs(before, now, later);
      }
    }

    /** Asks for the next responses with the clock stopped, and says whether they are due already. */
    method Look() returns (ok: bool, more: bool, ghost later: int)
      requires Valid() && !paused
      modifies this, client, responseIds
      ensures !ok ==> InExchange()
      ensures later == old(Clock()) + Lapse(pace, old(looks))
      ensures ok ==> Valid() && !paused && looks == old(looks) + 1
      ensures ok ==> state == RoundEnd(old(state), later) && more == Goes(state)
    {
      hide Valid, NextResponses;
      Fields();
      ghost var before := state;
      more := false;
      Pause();
      later := Clock();
      Fields();
      var answer := Ask();
      if answer.None? {
        return false, more, later;
      }
      var a := answer.value;
      if |a.ids| != 0 {
        AnswerAfter(before.sim.chans, before.latest);
        assert latest <= a.time;
        SetAnswer(a);
        Fields();
        var again := KtimeGet();
        more := responseTime < again;
      } else {
        ClearAnswer();
      }
      Fields();
      Resume();
      ok := true;
    }

    method ClearAnswer()
      requires Valid()
      modifies this`responseNum, this`state
      ensures Valid() && state == old(state).(nextIds := [])
    {
      hide Client.Idle, SlotsOf;
      responseNum := 0;
      state := state.(nextIds := []);
    }

    /** A round that comes after others. */
    method RoundAfter(ghost start: Machine.State, ghost k: nat, ghost rounds: seq<(int, int)>)
      returns (ok: bool, more: bool, ghost longer: seq<(int, int)>)
      requires Valid() && !paused && RoundDue(state)
      requires Rounds(start, rounds, state, pace, k) && looks == k + 2 * |rounds|
      modifies this, client, entries, responseIds
      ensures !ok ==> InExchange()
      ensures ok ==> Valid() && !paused && looks == k + 2 * |longer|
      ensures ok ==> if more then RoundDue(state) && Rounds(start, longer, state, pace, k)
                     else DrainedBy(start, longer, state, pace, k)
      ensures ok ==> Outstanding(state) < Outstanding(old(state))
    {
      hide *;
      ghost var before := state;
      ClockField();
      ghost var now, later;
      ok, more, now, later := Round();
      longer := rounds + [(now, later)];
      if ok {
        RoundsStep(start, rounds, before, pace, k);
      }
    }

    /** Rounds without a sleep as long as the next responses are already due. */
    method RunRounds() returns (ok: bool, ghost rounds: seq<(int, int)>)
      requires Valid() && !paused && RoundDue(state)
      modifies this, client, entries, responseIds
      ensures !ok ==> InExchange()
      ensures ok ==> Valid() && !paused && looks == old(looks) + 2 * |rounds|
      ensures ok ==> DrainedBy(old(state), rounds, state, pace, old(looks))
    {
      hide *;
      ghost var start, k := state, looks;
      RoundsNone(start, pace, k);
      var more := true;
      rounds := [];
      ok := true;
      while more
        invariant Valid() && !paused && ok && looks == k + 2 * |rounds|
        invariant if more then RoundDue(state) && Rounds(start, rounds, state, pace, k)
                  else DrainedBy(start, rounds, state, pace, k)
        decreases more, Outstanding(state)
      {
        ok, more, rounds := RoundAfter(start, k, rounds);
        if !ok {
          return;
        }
      }
    }

    /** The drain: all its rounds, and then back to sleep. It starts when something is due; then it never hangs, and
        ends unless an exchange does not. */
    method Drain() returns (ok: bool, ghost rounds: seq<(int, int)>)
      requires Valid() && !paused && RoundDue(state)
      modifies this, client, entries, responseIds
      ensures !ok ==> InExchange()
      ensures ok ==> Valid() && !paused && looks == old(looks) + 2 * |rounds|
      ensures ok ==> Paced(old(Clock()), pace, old(looks), rounds) && Machine.RoundsClimb(old(Clock()), rounds)
      ensures ok ==> Machine.Drain(old(state), rounds) == Machine.Moves(state)
      ensures ok ==> thread == if responseNum == 0 then Idle else Timed(responseTime)
    {
      hide *;
      ClockField();
      DrainedIs(state, pace, looks);
      ok, rounds := RunRounds();
      if ok {
        Rest();
      }
    }

    method Rest()
      requires Valid()
      modifies this`thread, this`state
      ensures Valid() && state == Machine.Settle(old(state))
      ensures thread == if responseNum == 0 then Idle else Timed(responseTime)
    {
      hide Client.Idle, SlotsOf;
      thread := Sleep.Rest(responseNum != 0, responseTime);
      state := state.(thread := thread);
    }

    /** What the completion thread does when it gets the lock back. */
    method TakeLock() returns (ok: bool, ghost rounds: seq<(int, int)>)
      requires Valid() && !paused && (thread.IdleWoken? || thread.Interrupted? || (thread.Fired? && RoundDue(state)))
      modifies this, client, entries, responseIds
      ensures !ok ==> InExchange()
      ensures ok ==> Valid() && !paused && looks == old(looks) + 2 * |rounds|
      ensures ok ==> Paced(old(Clock()), pace, old(looks), rounds) && Machine.RoundsClimb(old(Clock()), rounds)
      ensures ok ==> Machine.Proceed(old(state), rounds) == Machine.Moves(state)
      ensures !old(thread).Fired? ==> rounds == []
      ensures ok ==> thread == if old(thread).Fired? && responseNum == 0 then Idle else Timed(responseTime)
    {
      hide Valid, Machine.Drain, Machine.Proceed, RoundDue, Machine.RoundsClimb;
      Fields();
      ProceedIs(state);
      if thread.Fired? {
        ok, rounds := Drain();
      } else {
        SleepAgain();
        ok, rounds := true, [];
      }
    }

    method SleepAgain()
      requires Valid()
      modifies this`thread, this`state
      ensures Valid() && state == old(state).(thread := Timed(old(responseTime))) && thread == Timed(responseTime)
    {
      hide Client.Idle, SlotsOf;
      thread := Timed(responseTime);
      state := state.(thread := thread);
    }

    /** The timer of the completion thread runs out. */
    method TimerFires()
      requires Valid() && thread.CanFire(Clock())
      modifies this`thread, this`state
      ensures Valid() && state == old(state).(thread := Fired(old(thread).until))
    {
      hide Client.Idle, SlotsOf;
      thread := Fired(thread.until);
      state := state.(thread := thread);
    }

    /** The softirq: one request is over, and a stopped queue is started again. */
    method SoftirqDone(req: Request)
      requires Valid() && req in retiring
      modifies this`retiring, this`inflight, this`stopped, this`log, this`state
      ensures Valid() && state == Machine.Retire(old(state), req)
    {
      hide Client.Idle, SlotsOf;
      retiring := retiring - multiset{req};
      inflight := inflight - 1;
      stopped := false;
      log := log + [Machine.Retired(req)];
      state := state.(retiring := retiring, inflight := inflight, stopped := false, log := log);
    }
  }

  // Between the loops of the driver and the recursions of the state machine.

  /** A request entered in the table; the data of a write is in the staging buffer. */
  function Entered(s: Machine.State, i: nat, req: Request): Machine.State
    requires i < |s.slots| && (req.dir == Write ==> req.Bytes() <= |s.slots[i].data|)
  {
    var data := s.slots[i].data;
    var staged := if req.dir == Write then Splice(data, 0, Flat(req.segments)) else data;
    s.(slots := s.slots[i := Machine.Slot(s.nextId, Some(req), staged)])
  }

  lemma EnteredIs(s: Machine.State, i: nat, req: Request)
    requires i < |s.slots| && (req.dir == Write ==> req.Bytes() <= |s.slots[i].data|)
    ensures var t := Entered(s, i, req);
            t == s.(slots := t.slots) && |t.slots| == |s.slots| && |t.slots[i].data| == |s.slots[i].data|
  {
    hide Flat;
  }

  function Begun(s: Machine.State, i: nat, req: Request, sim: Sim, later: int): Machine.State
    requires i < |s.slots| && (req.dir == Write ==> req.Bytes() <= |s.slots[i].data|)
  {
    Entered(s, i, req).(sim := sim, nextId := s.nextId + 1, clock := later)
  }

  function Completed(s: Machine.State, i: nat, req: Request, id: nat, now: int): Machine.State
    requires i < |s.slots| && req.Bytes() <= |s.slots[i].data| && req.Offset() + req.Bytes() <= |s.memory|
  {
    var e := Machine.Submitted(req, id, now, Machine.CompletionOf(s.sim.chans, id));
    Moved(s, i, req, req.Bytes()).(inflight := s.inflight + 1, log := s.log + [e])
  }

  /** A request that was begun and completed is placed. */
  lemma BeginCompletePlaces(s: Machine.State, i: nat, req: Request, now: int, sim: Sim, later: int)
    requires i < |s.slots| && req.WellFormed() && |s.slots[i].data| == MAX_REQUEST_BYTES && |s.memory| == DISK_BYTES
    ensures var t := Begun(s, i, req, sim, later);
            && t.sim == sim && t.clock == later && |t.slots[i].data| == MAX_REQUEST_BYTES
            && Machine.SectorBytes(req) == req.Bytes()
            && Completed(t, i, req, s.nextId, now) == Machine.Placed(s, i, req, now, sim).(clock := later)
  {
    hide Flat, Splice, Machine.CompletionOf;
  }

  lemma MovedFrame(s: Machine.State, i: nat, req: Request)
    requires i < |s.slots| && req.Bytes() <= |s.slots[i].data| && req.Offset() + req.Bytes() <= |s.memory|
    ensures var t := Moved(s, i, req, req.Bytes()); t.sim == s.sim && t.inflight == s.inflight && t.log == s.log
  {
    hide Flat;
  }

  lemma SubmitIs(s: Machine.State, req: Request, now: int)
    requires req.WellFormed() && (forall i | 0 <= i < |s.slots| :: |s.slots[i].data| == MAX_REQUEST_BYTES)
      && |s.memory| == DISK_BYTES
    ensures Machine.SectorBytes(req) == req.Bytes()
    ensures Machine.Submit(s, req, now) ==
            if now <= s.latest then Machine.Hangs(Machine.ClockNotPastWatermark)
            else
              match Machine.FindId(s.slots, 0)
              case None => Machine.Hangs(Machine.NoFreeSlot)
              case Some(i) =>
                match SubmitRequest(s.sim, now, req.dir, req.pos, req.Sectors(), s.nextId)
                case Stuck => Machine.Hangs(Machine.ServerStuck)
                case Rejected => Machine.Moves(Machine.Placed(s, i, req, now, s.sim))
                case Accepted(sim) => Machine.Moves(Machine.Placed(s, i, req, now, sim))
  {
    hide Flat, Machine.Placed, SubmitRequest, FirstLeast;
  }

  /** One sector between the server's disk and a staging buffer. */
  function SectorMoved(s: Machine.State, i: nat, dir: Dir, sector: nat, at: nat): Machine.State
    requires i < |s.slots| && at + SECTOR_SIZE <= |s.slots[i].data| && (sector + 1) * SECTOR_SIZE <= |s.memory|
  {
    var from := sector * SECTOR_SIZE;
    if dir == Write then
      s.(memory := Splice(s.memory, from, s.slots[i].data[at..at + SECTOR_SIZE]), nextId := s.nextId + 1)
    else
      s.(slots := s.slots[i := s.slots[i].(data := Splice(s.slots[i].data, at, s.memory[from..from + SECTOR_SIZE]))],
         nextId := s.nextId + 1)
  }

  /** The first `n` bytes of a request between the server's disk and a staging buffer. */
  function Moved(s: Machine.State, i: nat, req: Request, n: nat): Machine.State
    requires i < |s.slots| && n <= |s.slots[i].data| && req.Offset() + n <= |s.memory|
  {
    if req.dir == Write then
      s.(memory := Splice(s.memory, req.Offset(), s.slots[i].data[..n]), nextId := s.nextId + n / SECTOR_SIZE)
    else
      var data := Splice(s.slots[i].data, 0, s.memory[req.Offset()..req.Offset() + n]);
      s.(slots := s.slots[i := s.slots[i].(data := data)],
         nextId := s.nextId + n / SECTOR_SIZE)
  }

  lemma MovedNone(s: Machine.State, i: nat, req: Request)
    requires i < |s.slots| && req.Offset() <= |s.memory|
    ensures Moved(s, i, req, 0) == s
  {
  }

  /** One sector more. */
  lemma MovedStep(s: Machine.State, i: nat, req: Request, n: nat)
    requires i < |s.slots| && n % SECTOR_SIZE == 0
    requires n + SECTOR_SIZE <= |s.slots[i].data| && req.Offset() + n + SECTOR_SIZE <= |s.memory|
    ensures var t := Moved(s, i, req, n);
            && |t.slots| == |s.slots| && |t.slots[i].data| == |s.slots[i].data| && |t.memory| == |s.memory|
            && (req.pos + n / SECTOR_SIZE) * SECTOR_SIZE == req.Offset() + n
            && Moved(s, i, req, n + SECTOR_SIZE) == SectorMoved(t, i, req.dir, req.pos + n / SECTOR_SIZE, n)
  {
    hide Splice, Flat;
    if req.dir == Write {
      SpliceMore(s.memory, req.Offset(), s.slots[i].data, 0, n);
    } else {
      SpliceMore(s.slots[i].data, 0, s.memory, req.Offset(), n);
    }
  }

  /** Copying one sector more of a range. */
  lemma SpliceMore(target: seq<Byte>, at: nat, source: seq<Byte>, from: nat, n: nat)
    requires at + n + SECTOR_SIZE <= |target| && from + n + SECTOR_SIZE <= |source|
    ensures Splice(Splice(target, at, source[from..from + n]), at + n, source[from + n..from + n + SECTOR_SIZE]) ==
            Splice(target, at, source[from..from + n + SECTOR_SIZE])
  {
    hide Splice;
    SpliceStep(target, at, source[from..from + n], source[from + n..from + n + SECTOR_SIZE]);
    assert source[from..from + n] + source[from + n..from + n + SECTOR_SIZE] == source[from..from + n + SECTOR_SIZE];
  }

  lemma FindIdIs(slots: seq<Machine.Slot>, id: int, r: Option<nat>)
    requires r.None? <==> forall i | 0 <= i < |slots| :: slots[i].id != id
    requires r.Some? ==> r.value < |slots| && slots[r.value].id == id && forall i | 0 <= i < r.value ::
      slots[i].id != id
    ensures Machine.FindId(slots, id) == r
  {
  }

  lemma AnswerSize(chans: seq<SsdChannel>, time: int)
    ensures |NextResponses(chans, time).ids| <= |chans|
  {
  }

  /** A new request is executed; it keeps the number of channels and the size of the disk. */
  lemma ServeNew(sv: EmuServer.Server, p: EmuServer.Packet)
    requires sv.maxId < p.id && !p.body.Reset? && (p.body.WriteSector? ==> |p.body.payload| == SECTOR_SIZE)
    ensures match EmuServer.Execute(sv, p.body)
            case Effect(sim, memory, r) =>
              && EmuServer.Serve(sv, p) == EmuServer.Answers(
                   EmuServer.Server(sim, memory, p.id, EmuServer.Reply(p.id, r)), EmuServer.Reply(p.id, r))
              && |sim.chans| == |sv.sim.chans| && |memory| == |sv.memory|
            case _ => !EmuServer.Serve(sv, p).Answers?
  {
    hide FollowsChannel, FirstLeast, NextResponses, SizeClass;
  }

  /** Between two calls the server has seen no id beyond the last one's. */
  lemma IdleServer(client: Client)
    requires client.Idle()
    ensures client.server.maxId <= Link.LastId(client.history)
  {
    hide EmuServer.Serve, Link.Atomic;
  }

  /** The client has been set up and has reset the server. */
  predicate IsReset(sim: Sim) {
    && sim.time == 0 && sim.latency.Ok()
    && (forall i | 0 <= i < |sim.chans| :: sim.chans[i].ioId == -1 && sim.chans[i].completion == 0)
  }

  /** The initialisation: reset the server, then set up the driver. None if the run ends before the server's reply. */
  method Initialise(channelCount: nat, speed: int, sv: EmuServer.Server, script: seq<PollTurn>, start: int,
                    lapses: nat -> nat)
    returns (driver: Driver?)
    requires channelCount <= MAX_CHANNELS <= |sv.sim.chans + sv.sim.rest| && |sv.memory| == DISK_BYTES
    requires sv.maxId <= 0
    ensures driver != null ==>
              && fresh(driver) && driver.Valid() && !driver.paused && driver.diskChannels == channelCount
              && EmuServer.Serve(sv, EmuServer.Packet(FIRST_PACKET, Reset(channelCount, speed))) ==
                 EmuServer.Answers(driver.client.server, EmuServer.Reply(FIRST_PACKET, EmuServer.Done))
              && driver.client.server.sim == Setup(sv.sim, channelCount, speed)
              && driver.client.server.memory == sv.memory && driver.state.sim == driver.client.server.sim
              && driver.state.memory == sv.memory && driver.pace == lapses && driver.Clock() == start
              && |driver.state.sim.chans| == channelCount && driver.state.sim.latency == ServerTables(speed)
              && (1 <= channelCount && speed > 0 && start > 0 ==> Machine.Starts(driver.state))
  {
    hide Setup, Link.Inv;
    var client := new Client(sv, script);
    ResetStarts(sv.sim, channelCount, speed);
    ghost var used, steps;
    var reply, elapsed;
    reply, elapsed, used, steps := client.Exchange(EmuServer.Packet(FIRST_PACKET, Reset(channelCount, speed)));
    if reply.None? {
      return null;
    }
    driver := new Driver(channelCount, client, start, lapses);
  }
}
