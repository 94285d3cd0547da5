/** The ramdisk driver as a state machine. Each step is one region the driver runs under its lock, or one act of its
    environment; everything that is not fixed by the state (clock readings, requests, order) is in the step's label. */
module Ramdisk {
  import opened Block
  import opened Latency
  import opened Scan
  import opened Sleep

  datatype Channel = Channel(completion: int, completed: bool, request: Option<Request>, rw: Dir, lastSector: nat)

  /** The loops at which the driver stops for good, and the use of a channel that holds no request. */
  datatype Hang = RequestTooLarge | NoEmptySlot | PastEndOfDevice | WokeTooEarly | NullRequest

  /** What happened, in order: kept only to state properties of whole runs. */
  datatype Event =
    | Submitted(req: Request, now: int, completion: int, sequential: bool)
    | Committed(req: Request, completion: int, at: int, pages: seq<seq<Byte>>)
    | Retired(req: Request)

  datatype State = State(
    cfg: Tables,
    chans: seq<Channel>,
    pending: bool,
    deadline: int,
    inflight: int,
    stopped: bool,
    disk: seq<Byte>,
    retiring: multiset<Request>, // handed to the block layer, not yet retired by the softirq
    thread: Thread,
    again: bool, // try_process_next_without_sleep, arbitrary until the first drain
    clock: int,  // the last clock reading
    image: seq<Byte>, // the initial contents of the disk
    owner: seq<nat>,  // owner[i] is the number of the history entry channel i holds
    log: seq<Event>)

  datatype Outcome = Moves(s: State, wake: bool) | Hangs(at: Hang) | Refused

  function ZeroChannel(): Channel {
    Channel(0, true, None, Read, 0)
  }

  predicate Starts(s: State) {
    && s.cfg.Ok()
    && 1 <= |s.chans| <= MAX_CHANNELS
    && (forall i | 0 <= i < |s.chans| :: s.chans[i] == ZeroChannel())
    && !s.pending && s.inflight == 0 && !s.stopped
    && |s.disk| == DISK_BYTES && s.image == s.disk
    && s.retiring == multiset{} && s.thread == Idle && s.clock > 0
    && |s.owner| == |s.chans| && (forall i | 0 <= i < |s.owner| :: s.owner[i] == i)
    && s.log == []
  }

  // Scans of the channel table.

  predicate IsSequential(chans: seq<Channel>, dir: Dir, pos: nat) {
    exists i | 0 <= i < |chans| :: chans[i].rw == dir && chans[i].lastSector == pos
  }

  function CompletedKey(c: Channel): Option<int> {
    if c.completed then Some(c.completion) else None
  }

  function OutstandingKey(c: Channel): Option<int> {
    if c.completed then None else Some(c.completion)
  }

  function DueKey(c: Channel, now: int): Option<int> {
    if !c.completed && c.completion < now then Some(c.completion) else None
  }

  function CompletedKeys(chans: seq<Channel>): (keys: seq<Option<int>>)
    ensures |keys| == |chans| && forall i | 0 <= i < |chans| :: keys[i] == CompletedKey(chans[i])
  {
    seq(|chans|, i requires 0 <= i < |chans| => CompletedKey(chans[i]))
  }

  function OutstandingKeys(chans: seq<Channel>): (keys: seq<Option<int>>)
    ensures |keys| == |chans| && forall i | 0 <= i < |chans| :: keys[i] == OutstandingKey(chans[i])
  {
    seq(|chans|, i requires 0 <= i < |chans| => OutstandingKey(chans[i]))
  }

  function DueKeys(chans: seq<Channel>, now: int): (keys: seq<Option<int>>)
    ensures |keys| == |chans| && forall i | 0 <= i < |chans| :: keys[i] == DueKey(chans[i], now)
  {
    seq(|chans|, i requires 0 <= i < |chans| => DueKey(chans[i], now))
  }

  // The request-submission routine.

  /** One turn of the submission loop, for a request fetched after the clock read `now`. */
  function Submit(s: State, req: Request, now: int): Outcome
  {
    var sequential := IsSequential(s.chans, req.dir, req.pos);
    match SizeClass(req.Bytes())
    case None => Hangs(RequestTooLarge)
    case Some(size) =>
      var completion := now + s.cfg.Of(sequential, req.dir, size);
      match FirstLeast(CompletedKeys(s.chans))
      case None => Hangs(NoEmptySlot)
      case Some(slot) =>
        if req.dir == Write && req.Offset() + req.Bytes() > |s.disk| then
          Hangs(PastEndOfDevice)
        else
          Moves(Place(s, slot, req, now, completion, sequential), Wakes(s, slot, req, completion))
  }

  function Occupied(req: Request, completion: int): Channel {
    Channel(completion, false, Some(req), req.dir, req.pos + req.Sectors())
  }

  /** The earliest completion time once `req` occupies `slot`. */
  function Earliest(s: State, slot: nat, req: Request, completion: int): int
    requires slot < |s.chans|
  {
    var least := Least(OutstandingKeys(s.chans[slot := Occupied(req, completion)]));
    if least.Some? && least.value < completion then least.value else completion
  }

  predicate Wakes(s: State, slot: nat, req: Request, completion: int)
    requires slot < |s.chans|
  {
    !s.pending || Earliest(s, slot, req, completion) < s.deadline
  }

  function Place(s: State, slot: nat, req: Request, now: int, completion: int, sequential: bool): State
    requires slot < |s.chans|
    requires req.dir == Write ==> req.Offset() + req.Bytes() <= |s.disk|
  {
    s.(chans := s.chans[slot := Occupied(req, completion)],
       disk := if req.dir == Write then Splice(s.disk, req.Offset(), Flat(req.segments)) else s.disk,
       pending := true,
       deadline := if Wakes(s, slot, req, completion) then Earliest(s, slot, req, completion) else s.deadline,
       inflight := s.inflight + 1,
       clock := now,
       owner := if slot < |s.owner| then s.owner[slot := |s.chans| + Submissions(s.log)] else s.owner,
       log := s.log + [Submitted(req, now, completion, sequential)])
  }

  function Submissions(log: seq<Event>): nat {
    |History(log)|
  }

  /** What a channel remembers of a request once it is known how it was served. */
  datatype Entry = Entry(completion: int, rw: Dir, lastSector: nat)

  /** The requests ever submitted, in order of submission. */
  function History(log: seq<Event>): seq<Entry> {
    if |log| == 0 then
      []
    else
      var front := History(log[..|log| - 1]);
      match log[|log| - 1]
      case Submitted(req, _, completion, _) => front + [Entry(completion, req.dir, req.pos + req.Sectors())]
      case _ => front
  }

  /** The submission loop over the requests the queue hands out, each with the clock reading taken before its fetch. */
  function SubmitAll(s: State, batch: seq<(Request, int)>, wake: bool): Outcome
    decreases |batch|
  {
    if |batch| == 0 then
      Moves(s, wake)
    else
      match Submit(s, batch[0].0, batch[0].1)
      case Moves(s', w) =>
        if s'.inflight >= |s'.chans| then Moves(s'.(stopped := true), wake || w)
        else SubmitAll(s', batch[1..], wake || w)
      case other => other
  }

  function Strategy(s: State, batch: seq<(Request, int)>): Outcome
  {
    match SubmitAll(s, batch, false)
    case Moves(s', wake) => Moves(if wake then s'.(thread := s'.thread.Wake()) else s', wake)
    case other => other
  }

  // The completion thread.

  /** Hands the request of channel `i` back to the block layer. A read copies its bytes out now. */
  function Commit(s: State, i: nat): State
    requires i < |s.chans| && s.chans[i].request.Some?
  {
    var req := s.chans[i].request.value;
    var pages := if req.dir == Read then PagesOf(s.disk, req) else [];
    s.(chans := s.chans[i := s.chans[i].(completed := true)],
       retiring := s.retiring + multiset{req},
       log := s.log + [Committed(req, s.chans[i].completion, s.clock, pages)])
  }

  /** Every outstanding channel holds its request. */
  predicate Held(chans: seq<Channel>) {
    forall i | 0 <= i < |chans| && !chans[i].completed :: chans[i].request.Some?
  }

  /** The passes of the drain: each reads the clock and commits the earliest due response. `again` asks for one more
      pass even if this one commits nothing. */
  function Drain(s: State, again: bool, readings: seq<int>): Outcome
    decreases |readings|
  {
    if |readings| == 0 then
      Refused
    else
      var s0 := s.(clock := readings[0]);
      match FirstLeast(DueKeys(s0.chans, s0.clock))
      case Some(i) =>
        if s0.chans[i].request.None? then Hangs(NullRequest) else
        var req := s0.chans[i].request.value;
        if req.dir == Read && req.Offset() + req.Bytes() > |s0.disk| then Hangs(PastEndOfDevice)
        else Drain(Commit(s0, i), false, readings[1..])
      case None =>
        if again then Drain(s0, false, readings[1..])
        else if |readings| > 1 then Refused
        else Moves(Settle(s0), false)
  }

  /** After the last pass: the next deadline is computed afresh and the thread goes back to sleep. */
  function Settle(s: State): State {
    var least := Least(OutstandingKeys(s.chans));
    var deadline := if least.Some? then least.value else s.deadline;
    s.(pending := least.Some?, deadline := deadline, again := false, thread := Rest(least.Some?, deadline))
  }

  /** What the thread does once it holds the lock again. */
  function Proceed(s: State, readings: seq<int>): Outcome
  {
    match s.thread
    case IdleWoken => Moves(s.(thread := Timed(s.deadline)), false)
    case Interrupted(_) => Moves(s.(thread := Timed(s.deadline)), false)
    case Fired(_) =>
      if |readings| == 0 then Refused
      else if s.deadline > readings[0] then Hangs(WokeTooEarly)
      else Drain(s, s.again, readings)
    case _ => Refused
  }

  function Retire(s: State, req: Request): State {
    s.(retiring := s.retiring - multiset{req}, inflight := s.inflight - 1, stopped := false,
       log := s.log + [Retired(req)])
  }

  // Steps and runs.

  datatype Label =
    | Tick(to: int)
    | Queue(batch: seq<(Request, int)>)
    | TimerFires
    | TakeLock(readings: seq<int>)
    | Softirq(req: Request)

  predicate Climbs(from: int, readings: seq<int>) {
    && (|readings| > 0 ==> from <= readings[0])
    && (forall i | 0 < i < |readings| :: readings[i - 1] <= readings[i])
  }

  function Times(batch: seq<(Request, int)>): (ts: seq<int>)
    ensures |ts| == |batch| && forall i | 0 <= i < |ts| :: ts[i] == batch[i].1
  {
    seq(|batch|, i requires 0 <= i < |batch| => batch[i].1)
  }

  predicate KnownTag(log: seq<Event>, tag: nat) {
    exists i | 0 <= i < |log| :: log[i].Submitted? && log[i].req.tag == tag
  }

  /** What the block layer promises of the requests it hands out: well formed, and each one new. */
  predicate Promised(log: seq<Event>, batch: seq<(Request, int)>) {
    && (forall i | 0 <= i < |batch| :: batch[i].0.WellFormed() && !KnownTag(log, batch[i].0.tag))
    && (forall i, j | 0 <= i < j < |batch| :: batch[i].0.tag != batch[j].0.tag)
  }

  function Next(s: State, l: Label): Outcome
  {
    match l
    case Tick(to) =>
      if s.clock <= to then Moves(s.(clock := to), false) else Refused
    case Queue(batch) =>
      if !s.stopped && Climbs(s.clock, Times(batch)) && Promised(s.log, batch) then Strategy(s, batch) else Refused
    case TimerFires =>
      if s.thread.CanFire(s.clock) then Moves(s.(thread := Fired(s.thread.until)), false) else Refused
    case TakeLock(readings) =>
      if Climbs(s.clock, readings) then Proceed(s, readings) else Refused
    case Softirq(req) =>
      if req in s.retiring then Moves(Retire(s, req), false) else Refused
  }
}
