/** The emudisk driver together with the emulator server it talks to, as one state machine. Each exchange with the
    server is one atomic call here; module StopAndWait proves that the lossy exchange amounts to that. */
module Emudisk {
  import opened Block
  import opened Scan
  import opened Sleep
  import opened SsdSim

  /** One entry of the id-to-request table: id 0 means free; `data` is the staging buffer that belongs to the entry. */
  datatype Slot = Slot(id: nat, req: Option<Request>, data: seq<Byte>)

  datatype Hang =
    | ClockNotPastWatermark // a submission not later than the latest response
    | NoFreeSlot
    | TransferTooLarge
    | UnknownId
    | WatermarkPastClock
    | WatermarkPastNext
    | NothingToReply
    | AnswerBeforeWatermark
    | ServerStuck
    | OutOfRange // memory outside a staging buffer or outside the server's disk

  datatype Event =
    | Submitted(req: Request, id: int, now: int, completion: int)
    | Committed(req: Request, id: int, due: int, at: int, pages: seq<seq<Byte>>)
    | Retired(req: Request)

  datatype State = State(
    slots: seq<Slot>,
    nextTime: int,      // cached answer of the server: when the next responses come ...
    nextIds: seq<int>,  // ... and which they are
    latest: int,        // the watermark: completion time of the latest response
    maxQuery: int,      // the latest time the server was asked about
    nextId: nat,        // the id of the next packet
    inflight: int,
    stopped: bool,
    retiring: multiset<Request>,
    sim: Sim,
    memory: seq<Byte>,  // the disk, on the server
    thread: Thread,
    clock: int,
    image: seq<Byte>,
    log: seq<Event>)

  datatype Outcome = Moves(s: State) | Hangs(at: Hang) | Refused

  const FIRST_ID: nat := 123
  const ID_LIMIT: nat := 0x1_0000_0000

  predicate Starts(s: State) {
    && s.sim.latency.Ok()
    && 1 <= |s.slots| == |s.sim.chans| <= MAX_CHANNELS
    && (forall i | 0 <= i < |s.slots| :: s.slots[i].id == 0 && |s.slots[i].data| == MAX_REQUEST_BYTES)
    && (forall i | 0 <= i < |s.sim.chans| :: s.sim.chans[i].ioId == -1 && s.sim.chans[i].completion == 0)
    && s.nextIds == [] && s.nextTime == 0 && s.latest == 0 && s.maxQuery == 0 && s.sim.time == 0
    && FIRST_ID < s.nextId < ID_LIMIT
    && s.inflight == 0 && !s.stopped && s.retiring == multiset{}
    && |s.memory| == DISK_BYTES && s.image == s.memory
    && s.thread == Idle && s.clock > 0 && s.log == []
  }

  // The id-to-request table.

  function IdKeys(slots: seq<Slot>, id: int): (keys: seq<Option<int>>)
    ensures |keys| == |slots| && forall i | 0 <= i < |slots| :: keys[i] == if slots[i].id == id then Some(0) else None
  {
    seq(|slots|, i requires 0 <= i < |slots| => if slots[i].id == id then Some(0) else None)
  }

  /** The first entry with this id. */
  function FindId(slots: seq<Slot>, id: int): (r: Option<nat>)
    ensures r.None? <==> forall i | 0 <= i < |slots| :: slots[i].id != id
    ensures r.Some? ==> r.value < |slots| && slots[r.value].id == id && forall i | 0 <= i < r.value :: slots[i].id != id
  {
    var keys := IdKeys(slots, id);
    assert forall i | 0 <= i < |slots| :: keys[i].None? <==> slots[i].id != id;
    FirstLeast(keys)
  }

  // Submission.

  function SectorBytes(req: Request): nat {
    req.Sectors() * SECTOR_SIZE
  }

  /** One turn of the submission loop. */
  function Submit(s: State, req: Request, now: int): Outcome {
    if now <= s.latest then
      Hangs(ClockNotPastWatermark)
    else
      match FindId(s.slots, 0)
      case None => Hangs(NoFreeSlot)
      case Some(slot) =>
        if req.dir == Write && req.Bytes() > MAX_REQUEST_BYTES then Hangs(TransferTooLarge)
        else if SectorBytes(req) > |s.slots[slot].data| || req.Offset() + SectorBytes(req) > |s.memory| then
          Hangs(OutOfRange)
        else
          match SubmitRequest(s.sim, now, req.dir, req.pos, req.Sectors(), s.nextId)
          case Stuck => Hangs(ServerStuck)
          // The driver goes on after an error reply.
          case Rejected => Moves(Placed(s, slot, req, now, s.sim))
          case Accepted(sim) => Moves(Placed(s, slot, req, now, sim))
  }

  /** What the staging buffer holds once the data of the request has gone to or come from the server. */
  function Staged(data: seq<Byte>, memory: seq<Byte>, req: Request): (staged: seq<Byte>)
    requires SectorBytes(req) <= |data| && req.Offset() + SectorBytes(req) <= |memory|
    requires req.dir == Write ==> req.Bytes() <= |data|
    ensures |staged| == |data|
  {
    if req.dir == Write then Splice(data, 0, Flat(req.segments))
    else Splice(data, 0, memory[req.Offset()..req.Offset() + SectorBytes(req)])
  }

  function Placed(s: State, slot: nat, req: Request, now: int, sim: Sim): State
    requires slot < |s.slots|
    requires SectorBytes(req) <= |s.slots[slot].data| && req.Offset() + SectorBytes(req) <= |s.memory|
  {
    var data := Staged(s.slots[slot].data, s.memory, req);
    var memory := if req.dir == Write then Splice(s.memory, req.Offset(), data[..SectorBytes(req)]) else s.memory;
    Put(s, slot, req, now, sim, data, memory, CompletionOf(sim.chans, s.nextId))
  }

  /** The bookkeeping of a submission, once its data has been moved. */
  function Put(s: State, slot: nat, req: Request, now: int, sim: Sim, data: seq<Byte>, memory: seq<Byte>,
      completion: int): State
    requires slot < |s.slots|
  {
    s.(slots := s.slots[slot := Slot(s.nextId, Some(req), data)],
       memory := memory,
       sim := sim,
       nextId := s.nextId + 1 + req.Sectors(),
       inflight := s.inflight + 1,
       clock := now,
       log := s.log + [Submitted(req, s.nextId, now, completion)])
  }

  /** When the server says that request `id` completes. */
  function CompletionOf(chans: seq<SsdChannel>, id: int): int {
    if |chans| == 0 then 0
    else if chans[|chans| - 1].ioId == id then chans[|chans| - 1].completion
    else CompletionOf(chans[..|chans| - 1], id)
  }

  function SubmitAll(s: State, batch: seq<(Request, int)>): Outcome
    decreases |batch|
  {
    if |batch| == 0 then
      Moves(s)
    else
      match Submit(s, batch[0].0, batch[0].1)
      case Moves(t) => if t.inflight >= |t.slots| then Moves(t.(stopped := true)) else SubmitAll(t, batch[1..])
      case other => other
  }

  /** The three-way test: is the server's answer news? */
  predicate IsNews(s: State, a: Answer) {
    |a.ids| > 0 &&
    (s.nextIds == [] || s.nextTime > a.time || (s.nextTime == a.time && |s.nextIds| < |a.ids|))
  }

  predicate IsEarlier(s: State, a: Answer) {
    s.nextIds == [] || s.nextTime > a.time
  }

  /** A query about the watermark, counted on both sides. */
  function Asked(s: State): State {
    s.(sim := Queried(s.sim, s.latest),
       maxQuery := if s.latest >= s.maxQuery then s.latest else s.maxQuery,
       nextId := s.nextId + 1)
  }

  /** After a batch of submissions: ask for the next responses, and wake the thread if they come earlier. */
  function Refresh(s: State): State {
    var a := NextResponses(s.sim.chans, s.latest);
    var t := Asked(s);
    if IsNews(s, a) then
      t.(nextTime := a.time, nextIds := a.ids, thread := if IsEarlier(s, a) then s.thread.Wake() else s.thread)
    else
      t
  }

  function Strategy(s: State, batch: seq<(Request, int)>): Outcome {
    if |batch| == 0 then Moves(s)
    else match SubmitAll(s, batch)
         case Moves(t) => Moves(Refresh(t))
         case other => other
  }

  // The completion thread.

  /** Takes the request with this id out of the table and hands it back; a read copies its bytes out of the staging
      buffer. */
  function Deliver(s: State, id: int): Outcome {
    match FindId(s.slots, id)
    case None => Hangs(UnknownId)
    case Some(i) =>
      if s.slots[i].req.None? then Hangs(OutOfRange) else
      var req := s.slots[i].req.value;
      if req.dir == Read && req.Bytes() > MAX_REQUEST_BYTES then Hangs(TransferTooLarge)
      else if req.dir == Read && req.Bytes() > |s.slots[i].data| then Hangs(OutOfRange)
      else
        var pages := if req.dir == Read then Scatter(s.slots[i].data[..req.Bytes()], req.segments) else [];
        Moves(s.(slots := s.slots[i := s.slots[i].(id := 0)],
                 latest := s.nextTime,
                 retiring := s.retiring + multiset{req},
                 log := s.log + [Committed(req, id, s.nextTime, s.clock, pages)]))
  }

  function DeliverAll(s: State, ids: seq<int>): Outcome
    decreases |ids|
  {
    if |ids| == 0 then Moves(s)
    else match Deliver(s, ids[0])
         case Moves(t) => DeliverAll(t, ids[1..])
         case other => other
  }

  /** The rounds of the drain. A round reads the clock when it starts and once more, with the system paused, after the
      server has been asked for the next responses. */
  function Drain(s: State, rounds: seq<(int, int)>): Outcome
    decreases |rounds|
  {
    if |rounds| == 0 then
      Refused
    else
      var s0 := s.(clock := rounds[0].0);
      if s0.latest > s0.clock then Hangs(WatermarkPastClock)
      else if s0.latest > s0.nextTime then Hangs(WatermarkPastNext)
      else if s0.nextIds == [] then Hangs(NothingToReply)
      else
        match DeliverAll(s0, s0.nextIds)
        case Moves(s1) =>
          var a := NextResponses(s1.sim.chans, s1.latest);
          var s2 := Asked(s1).(clock := rounds[0].1);
          if a.ids == [] then
            if |rounds| > 1 then Refused else Moves(Settle(s2.(nextIds := [])))
          else if a.time < s1.latest then
            Hangs(AnswerBeforeWatermark)
          else
            var s3 := s2.(nextTime := a.time, nextIds := a.ids);
            if a.time < rounds[0].1 then Drain(s3, rounds[1..])
            else if |rounds| > 1 then Refused
            else Moves(Settle(s3))
        case other => other
  }

  function Settle(s: State): State {
    s.(thread := Rest(s.nextIds != [], s.nextTime))
  }

  function Proceed(s: State, rounds: seq<(int, int)>): Outcome {
    match s.thread
    case IdleWoken => Moves(s.(thread := Timed(s.nextTime)))
    case Interrupted(_) => Moves(s.(thread := Timed(s.nextTime)))
    case Fired(_) => Drain(s, rounds)
    case _ => Refused
  }

  function Retire(s: State, req: Request): State {
    s.(retiring := s.retiring - multiset{req},
       inflight := s.inflight - 1,
       stopped := false,
       log := s.log + [Retired(req)])
  }

  // Steps and runs.

  datatype Label =
    | Tick(to: int)
    | Queue(batch: seq<(Request, int)>)
    | TimerFires
    | TakeLock(rounds: seq<(int, int)>)
    | Softirq(req: Request)

  predicate BatchClimbs(from: int, batch: seq<(Request, int)>) {
    && (|batch| > 0 ==> from <= batch[0].1)
    && (forall i | 0 < i < |batch| :: batch[i - 1].1 <= batch[i].1)
  }

  predicate RoundsClimb(from: int, rounds: seq<(int, int)>) {
    && (|rounds| > 0 ==> from <= rounds[0].0)
    && (forall i | 0 <= i < |rounds| :: rounds[i].0 <= rounds[i].1)
    && (forall i | 0 < i < |rounds| :: rounds[i - 1].1 <= rounds[i].0)
  }

  predicate KnownTag(log: seq<Event>, tag: nat) {
    exists i | 0 <= i < |log| :: log[i].Submitted? && log[i].req.tag == tag
  }

  predicate Promised(log: seq<Event>, batch: seq<(Request, int)>) {
    && (forall i | 0 <= i < |batch| :: batch[i].0.WellFormed() && !KnownTag(log, batch[i].0.tag))
    && (forall i, j | 0 <= i < j < |batch| :: batch[i].0.tag != batch[j].0.tag)
  }

  /** A run in which the 32-bit packet ids do not wrap around. */
  function WithinIds(o: Outcome): Outcome {
    match o
    case Moves(t) => if t.nextId <= ID_LIMIT then o else Refused
    case other => other
  }

  function Next(s: State, l: Label): Outcome {
    match l
    case Tick(to) =>
      if s.clock <= to then Moves(s.(clock := to)) else Refused
    case Queue(batch) =>
      if !s.stopped && BatchClimbs(s.clock, batch) && Promised(s.log, batch) then WithinIds(Strategy(s, batch))
      else Refused
    case TimerFires =>
      if s.thread.CanFire(s.clock) then Moves(s.(thread := Fired(s.thread.until))) else Refused
    case TakeLock(rounds) =>
      if RoundsClimb(s.clock, rounds) then WithinIds(Proceed(s, rounds)) else Refused
    case Softirq(req) =>
      if req in s.retiring then Moves(Retire(s, req)) else Refused
  }

  function Run(s: State, labels: seq<Label>): Outcome
    decreases |labels|
  {
    if |labels| == 0 then Moves(s)
    else match Next(s, labels[0])
         case Moves(t) => Run(t, labels[1..])
         case other => other
  }
}
