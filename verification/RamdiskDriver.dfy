/** The ramdisk driver in its own form: one table of channels, one disk and a few flags, updated in place under a lock.
    Every method is proved equal to a step of the state machine of module Ramdisk. */
module RamdiskDriver {
  import opened Block
  import opened Latency
  import opened Scan
  import opened Sleep
  import opened Transfer
  import Machine = Ramdisk
  import Facts = RamdiskInv
  import Progress = RamdiskProgress

  type Channel = Machine.Channel
  type Hang = Machine.Hang

  class Driver {
    const diskChannels: nat
    const channels: array<Channel>
    const data: array<Byte>
    const random: array2<int>
    const sequential: array2<int>
    var pending: bool
    var deadline: int
    var inflight: int
    var stopped: bool
    var retiring: multiset<Request>
    var thread: Thread
    var again: bool
    var clock: int
    ghost const cfg: Tables
    ghost const image: seq<Byte>
    ghost var owner: seq<nat>
    ghost var log: seq<Machine.Event>

    ghost predicate Valid()
      reads this, channels, data, random, sequential
    {
      && diskChannels <= channels.Length == MAX_CHANNELS
      && random != sequential
      && Holds(cfg, random, sequential)
    }

    /** The state this object represents. */
    ghost function Abs(): Machine.State
      reads this, channels, data
      requires diskChannels <= channels.Length
    {
      Machine.State(cfg, channels[..diskChannels], pending, deadline, inflight, stopped, data[..], retiring, thread,
                    again, clock, image, owner, log)
    }

    /** Module initialisation: at most eight channels are accepted, however few. */
    constructor (channelCount: nat, speed: int, memory: array<Byte>, start: int)
      requires channelCount <= MAX_CHANNELS
      ensures Valid() && diskChannels == channelCount && data == memory && fresh(channels)
      ensures cfg == TablesFor(speed)
      ensures 1 <= channelCount && 0 < speed <= MAX_SPEED && memory.Length == DISK_BYTES && start > 0 ==>
        Machine.Starts(Abs())
    {
      diskChannels := channelCount;
      channels := new Channel[MAX_CHANNELS](_ => Machine.ZeroChannel());
      data := memory;
      random := new int[2, 8];
      sequential := new int[2, 8];
      pending, deadline, inflight, stopped := false, 0, 0, false;
      retiring, thread, clock := multiset{}, Idle, start;
      cfg := TablesFor(speed);
      image := memory[..];
      owner := seq(channelCount, i => i);
      log := [];
      new;
      SetupTables(speed, random, sequential);
      if 0 < speed <= MAX_SPEED {
        TablesExact(speed);
      }
    }

    /** ktime_get: some time not before the last one read. */
    method KtimeGet() returns (now: int)
      requires Valid()
      modifies this`clock
      ensures Valid() && old(clock) <= now == clock && Abs() == old(Abs()).(clock := now)
    {
      now :| clock <= now;
      clock := now;
    }

    lemma Fields()
      requires Valid()
      ensures diskChannels <= channels.Length && Abs().log == log && Abs().stopped == stopped
      ensures Abs().inflight == inflight && |Abs().chans| == diskChannels && Abs().thread == thread
        && Abs().clock == clock
      ensures Abs().disk == data[..] && Abs().pending == pending && Abs().deadline == deadline
    {
    }

    // The scans.

    method FindSequential(req: Request) returns (found: bool)
      requires Valid()
      ensures found == Machine.IsSequential(Abs().chans, req.dir, req.pos)
    {
      found := false;
      for i := 0 to diskChannels
        invariant found == exists k | 0 <= k < i :: channels[k].rw == req.dir && channels[k].lastSector == req.pos
      {
        if channels[i].rw == req.dir && channels[i].lastSector == req.pos {
          found := true;
        }
      }
    }

    /** The oldest completed channel, the first of several equally old. */
    method FindFree() returns (slot: Option<nat>)
      requires Valid()
      ensures slot == FirstLeast(Machine.CompletedKeys(Abs().chans))
    {
      ghost var keys := Machine.CompletedKeys(channels[..diskChannels]);
      slot := None;
      for i := 0 to diskChannels
        invariant slot == FirstLeast(keys[..i])
        invariant slot.Some? ==> slot.value < i && keys[slot.value] == Some(channels[slot.value].completion)
      {
        ghost var longer := keys[..i + 1];
        assert longer[..i] == keys[..i];
        if channels[i].completed {
          if slot.None? {
            slot := Some(i);
          } else if channels[slot.value].completion > channels[i].completion {
            slot := Some(i);
          }
        }
      }
      assert keys[..diskChannels] == keys;
    }

    /** The outstanding channel with the earliest completion time before `now`. */
    method FindDue(now: int) returns (index: Option<nat>)
      requires Valid()
      ensures index == FirstLeast(Machine.DueKeys(Abs().chans, now))
    {
      ghost var keys := Machine.DueKeys(channels[..diskChannels], now);
      index := None;
      for i := 0 to diskChannels
        invariant index == FirstLeast(keys[..i])
        invariant index.Some? ==> index.value < i && keys[index.value] == Some(channels[index.value].completion)
      {
        ghost var longer := keys[..i + 1];
        assert longer[..i] == keys[..i];
        if !channels[i].completed && channels[i].completion < now {
          if index.None? {
            index := Some(i);
          } else if channels[i].completion < channels[index.value].completion {
            index := Some(i);
          }
        }
      }
      assert keys[..diskChannels] == keys;
    }

    /** The earliest completion time of the outstanding channels and of a bound, if there is one. */
    method FindEarliest(bound: Option<int>) returns (earliest: Option<int>)
      requires Valid()
      ensures var least := Least(Machine.OutstandingKeys(Abs().chans));
              earliest == if least.Some? && (bound.None? || least.value < bound.value) then least else bound
    {
      hide Least;
      ghost var keys := Machine.OutstandingKeys(channels[..diskChannels]);
      LeastNone(keys[..0]);
      earliest := bound;
      for i := 0 to diskChannels
        invariant var least := Least(keys[..i]);
                  earliest == if least.Some? && (bound.None? || least.value < bound.value) then least else bound
      {
        LeastStep(keys, i);
        if !channels[i].completed && (earliest.None? || channels[i].completion < earliest.value) {
          earliest := Some(channels[i].completion);
        }
      }
      assert keys[..diskChannels] == keys;
    }

    // Data movement.

    method TransferIn(req: Request)
      requires Valid() && req.Offset() + req.Bytes() <= data.Length
      modifies data
      ensures Valid() && Abs() == old(Abs()).(disk := Splice(old(data[..]), req.Offset(), Flat(req.segments)))
    {
      GatherInto(data, req.Offset(), req.segments);
    }

    method TransferOut(req: Request) returns (pages: seq<seq<Byte>>)
      requires req.Offset() + req.Bytes() <= data.Length
      ensures pages == PagesOf(data[..], req)
    {
      pages := ScatterFrom(data, req.Offset(), req.segments);
      assert data[..][req.Offset()..req.Offset() + req.Bytes()] == data[req.Offset()..req.Offset() + req.Bytes()];
    }

    // The regions under the lock.

    /** The response time of a request of this kind and size. */
    method LatencyOf(isSequential: bool, dir: Dir, size: nat) returns (latency: int)
      requires Valid() && size < 8
      ensures latency == cfg.Of(isSequential, dir, size)
    {
      if isSequential {
        if dir == Write { latency := sequential[1, size]; } else { latency := sequential[0, size]; }
      } else {
        if dir == Write { latency := random[1, size]; } else { latency := random[0, size]; }
      }
    }

    /** The cached deadline is brought forward if the earliest outstanding completion time is now earlier. */
    method BringForward(completion: int) returns (wake: bool)
      requires Valid()
      modifies this`pending, this`deadline
      ensures Valid()
      ensures var least := Least(Machine.OutstandingKeys(old(Abs()).chans));
              var earliest := if least.Some? && least.value < completion then least.value else completion;
              && wake == (!old(pending) || earliest < old(deadline))
              && Abs() == old(Abs()).(pending := true, deadline := if wake then earliest else old(deadline))
    {
      hide Least;
      var earliest := FindEarliest(Some(completion));
      wake := false;
      if !pending || earliest.value < deadline {
        deadline := earliest.value;
        pending := true;
        wake := true;
      }
    }

    method SetChannel(slot: nat, c: Channel)
      requires Valid() && slot < diskChannels
      modifies channels
      ensures Valid() && Abs() == old(Abs()).(chans := old(Abs()).chans[slot := c])
    {
      channels[slot] := c;
      assert channels[..diskChannels] == old(channels[..diskChannels])[slot := c];
    }

    method CountSubmission(slot: nat, ghost e: Machine.Event)
      requires Valid()
      modifies this`inflight, this`owner, this`log
      ensures Valid()
      ensures var s := old(Abs());
              Abs() == s.(inflight := s.inflight + 1, log := s.log + [e],
                          owner := if slot < |s.owner| then s.owner[slot := |s.chans| + Machine.Submissions(s.log)]
                              else s.owner)
    {
      hide Machine.Submissions;
      inflight := inflight + 1;
      owner := if slot < |owner| then owner[slot := diskChannels + Machine.Submissions(log)] else owner;
      log := log + [e];
    }

    /** The data of a write goes to the disk at once; a read waits for its commit. */
    method ApplyWrite(req: Request) returns (hang: Option<Hang>)
      requires Valid()
      modifies data
      ensures Valid()
      ensures if req.dir == Write && req.Offset() + req.Bytes() > data.Length then
                hang == Some(Machine.PastEndOfDevice)
              else
                hang == None && Abs() == old(Abs()).(disk := if req.dir == Write
                                                             then Splice(old(data[..]), req.Offset(),
                                                                 Flat(req.segments))
                                                             else old(data[..]))
    {
      hide Flat, Splice;
      hang := None;
      if req.dir == Write {
        if req.Offset() + req.Bytes() > data.Length {
          return Some(Machine.PastEndOfDevice);
        }
        TransferIn(req);
      }
    }

    /** The state once `req` has its channel, its data is on the disk if it is a write, and the deadline is up to
        date. */
    ghost function Scheduled(s: Machine.State, slot: nat, req: Request, completion: int): Machine.State
      requires slot < |s.chans| && (req.dir == Write ==> req.Offset() + req.Bytes() <= |s.disk|)
    {
      var chans := s.chans[slot := Machine.Occupied(req, completion)];
      var least := Least(Machine.OutstandingKeys(chans));
      var earliest := if least.Some? && least.value < completion then least.value else completion;
      s.(chans := chans,
         disk := if req.dir == Write then Splice(s.disk, req.Offset(), Flat(req.segments)) else s.disk,
         pending := true,
         deadline := if Machine.Wakes(s, slot, req, completion) then earliest else s.deadline)
    }

    /** Puts `req` into a free channel, applies it if it is a write, and brings the cached deadline up to date. */
    method Schedule(slot: nat, req: Request, completion: int) returns (hang: Option<Hang>, wake: bool)
      requires Valid() && slot < diskChannels
      modifies this`pending, this`deadline, channels, data
      ensures Valid()
      ensures if req.dir == Write && req.Offset() + req.Bytes() > data.Length
              then hang == Some(Machine.PastEndOfDevice)
              else hang == None && Abs() == Scheduled(old(Abs()), slot, req, completion)
                   && wake == Machine.Wakes(old(Abs()), slot, req, completion)
    {
      hide Abs, Valid, Least, Flat, Splice, Machine.OutstandingKeys;
      Fields();
      wake := false;
      SetChannel(slot, Machine.Occupied(req, completion));
      hang := ApplyWrite(req);
      if hang.None? {
        wake := BringForward(completion);
      }
    }

    method Occupy(slot: nat, req: Request, now: int, completion: int, isSequential: bool)
        returns (hang: Option<Hang>, wake: bool)
      requires Valid() && clock == now && slot < diskChannels
      modifies this`pending, this`deadline, this`inflight, this`owner, this`log, channels, data
      ensures Valid()
      ensures if req.dir == Write && req.Offset() + req.Bytes() > data.Length
              then hang == Some(Machine.PastEndOfDevice)
              else hang == None && Abs() == Machine.Place(old(Abs()), slot, req, now, completion, isSequential)
                   && wake == Machine.Wakes(old(Abs()), slot, req, completion)
    {
      hide Abs, Valid, Least, Flat, Splice, Machine.OutstandingKeys, Machine.Wakes, Machine.Submissions;
      Fields();
      hang, wake := Schedule(slot, req, completion);
      if hang.None? {
        CountSubmission(slot, Machine.Submitted(req, now, completion, isSequential));
      }
    }

    /** One turn of the submission loop. */
    method SubmitOne(req: Request, now: int) returns (hang: Option<Hang>, wake: bool)
      requires Valid() && clock == now
      modifies this`pending, this`deadline, this`inflight, this`owner, this`log, channels, data
      ensures Valid()
      ensures match Machine.Submit(old(Abs()), req, now)
              case Moves(s, w) => hang == None && Abs() == s && wake == w
              case Hangs(h) => hang == Some(h)
              case Refused => false
    {
      hide FirstLeast, SizeClass, Flat, Machine.IsSequential, Machine.Place, Machine.Wakes;
      var isSequential := FindSequential(req);
      var size := FindSizeClass(req.Bytes());
      if size.None? {
        return Some(Machine.RequestTooLarge), false;
      }
      var latency := LatencyOf(isSequential, req.dir, size.value);
      var slot := FindFree();
      if slot.None? {
        return Some(Machine.NoEmptySlot), false;
      }
      FreeInRange(channels[..diskChannels], slot.value);
      hang, wake := Occupy(slot.value, req, now, now + latency, isSequential);
    }

    method StopQueue()
      requires Valid()
      modifies this`stopped
      ensures Valid() && stopped && Abs() == old(Abs()).(stopped := true)
    {
      stopped := true;
    }

    method WakeThread()
      requires Valid()
      modifies this`thread
      ensures Valid() && Abs() == old(Abs()).(thread := old(thread).Wake())
    {
      thread := thread.Wake();
    }

    /** The request-submission routine, for the requests waiting in the queue. What it does not fetch it leaves. */
    method Strategy(queue: seq<Request>)
        returns (left: seq<Request>, hang: Option<Hang>, ghost batch: seq<(Request, int)>)
      requires Valid()
      modifies this, channels, data
      ensures Valid()
      ensures Machine.Climbs(old(clock), Machine.Times(batch))
      ensures |batch| <= |queue| && forall i | 0 <= i < |batch| :: batch[i].0 == queue[i]
      ensures hang.None? ==> left == queue[|batch|..] && (left == [] || stopped)
      ensures hang.None? ==> Facts.Logs(old(log), log, batch)
      ensures match Machine.Strategy(old(Abs()), batch)
              case Moves(t, _) => hang == None && t.clock <= clock && Abs() == t.(clock := clock)
              case Hangs(h) => hang == Some(h)
              case Refused => false
    {
      hide Abs, Valid, Machine.Submit, Machine.Climbs, Taking, Taken, Machine.Strategy;
      Fields();
      ghost var start, s := Abs(), Abs();
      TakingNone(start);
      left, batch, hang := queue, [], None;
      var needToWake := false;
      while true
        invariant Valid() && hang == None
        invariant |batch| <= |queue| && left == queue[|batch|..]
        invariant forall i | 0 <= i < |batch| :: batch[i].0 == queue[i]
        invariant Abs() == s && Taking(start, s, batch, needToWake)
        decreases |left|
      {
        Fields();
        var now := KtimeGet();
        if |left| == 0 {
          TakingDone(start, s, batch, needToWake);
          break;
        }
        var req := left[0];
        left := left[1..];
        TakingStep(start, s, batch, needToWake, req, now);
        var h, wake := SubmitOne(req, now);
        batch := batch + [(req, now)];
        if h.Some? {
          hang := h;
          return;
        }
        needToWake, s := needToWake || wake, Machine.Submit(s, req, now).s;
        Fields();
        if inflight >= diskChannels {
          StopQueue();
          s := s.(stopped := true);
          break;
        }
      }
      TakenIs(start, s, batch, needToWake);
      if needToWake {
        WakeThread();
      }
      Fields();
    }

    /** Hands one due request back to the block layer; a read gets its bytes now. */
    method CommitOne(index: nat) returns (hang: Option<Hang>)
      requires Valid() && index < diskChannels && !channels[index].completed
      modifies this`retiring, this`log, channels
      ensures Valid()
      ensures var c := old(channels[index]);
              if c.request.None? then
                hang == Some(Machine.NullRequest)
              else if c.request.value.dir == Read
                  && c.request.value.Offset() + c.request.value.Bytes() > data.Length then
                hang == Some(Machine.PastEndOfDevice)
              else
                && hang == None && Abs() == Machine.Commit(old(Abs()), index)
                && Busy(channels[..diskChannels]) == old(Busy(channels[..diskChannels])) - 1
    {
      hide Flat, PagesOf;
      var request := channels[index].request;
      if request.None? {
        return Some(Machine.NullRequest);
      }
      var req, pages := request.value, [];
      if req.dir == Read {
        if req.Offset() + req.Bytes() > data.Length {
          return Some(Machine.PastEndOfDevice);
        }
        pages := TransferOut(req);
      }
      BusyLess(channels[..diskChannels], index);
      hide Busy;
      retiring := retiring + multiset{req};
      log := log + [Machine.Committed(req, channels[index].completion, clock, pages)];
      channels[index] := channels[index].(completed := true);
      assert channels[..diskChannels] ==
             old(channels[..diskChannels])[index := old(channels[index]).(completed := true)];
      hang := None;
    }

    /** Computes the next deadline and goes back to sleep. */
    method SettleDown()
      requires Valid()
      modifies this`pending, this`deadline, this`again, this`thread
      ensures Valid() && Abs() == Machine.Settle(old(Abs()))
      ensures thread == if pending then Timed(deadline) else Idle
    {
      hide Least;
      var earliest := FindEarliest(None);
      pending := earliest.Some?;
      if earliest.Some? {
        deadline := earliest.value;
      }
      again := false;
      thread := Rest(pending, deadline);
    }

    /** The drain: commits due responses in the order of their completion times until a pass finds none. */
    method Drain(first: int) returns (hang: Option<Hang>, ghost readings: seq<int>)
      requires Valid() && clock == first
      modifies this, channels
      ensures Valid()
      ensures |readings| > 0 && readings[0] == first && Machine.Climbs(first, readings)
      ensures hang.None? ==> thread == if pending then Timed(deadline) else Idle
      ensures match Machine.Drain(old(Abs()), old(again), readings)
              case Moves(t, _) => hang == None && Abs() == t
              case Hangs(h) => hang == Some(h)
              case Refused => false
    {
      hide FirstLeast, Least, Flat, PagesOf, Machine.Drain, Machine.Commit, Machine.Settle, Passes, Busy,
        Machine.Climbs;
      var now, more := first, again;
      ghost var start, flag, reached, passed := Abs(), again, Abs(), [];
      PassesNone(start, flag);
      ReadingsStart(first);
      readings := [];
      hang := None;
      while true
        invariant Valid() && now == clock && hang == None
        invariant Machine.Climbs(first, passed + [now]) && (passed + [now])[0] == first
        invariant reached.(clock := now) == Abs()
        invariant Passes(start, flag, passed) == Some((reached, more))
        decreases Busy(channels[..diskChannels]), if more then 1 else 0
      {
        readings := passed + [now];
        DrainAfterPasses(start, flag, passed, now);
        DrainOnce(reached, more, now);
        var index := FindDue(now);
        if index.Some? {
          DueInRange(channels[..diskChannels], now, index.value);
          hang := CommitOne(index.value);
          if hang.Some? {
            return;
          }
          more := true;
        }
        if !more {
          break;
        }
        PassesSnoc(start, flag, passed, now);
        passed, reached := passed + [now], Abs();
        now := KtimeGet();
        ReadingsSnoc(first, readings[..|readings| - 1], readings[|readings| - 1], now);
        more := false;
      }
      SettleDown();
    }

    /** What the completion thread does when it gets the lock back. */
    method TakeLock() returns (hang: Option<Hang>, ghost readings: seq<int>)
      requires Valid() && (thread.IdleWoken? || thread.Interrupted? || thread.Fired?)
      modifies this, channels
      ensures Valid()
      ensures Machine.Climbs(old(clock), readings)
      ensures hang.None? ==> thread == if old(thread).Fired? && !pending then Idle else Timed(deadline)
      ensures match Machine.Proceed(old(Abs()), readings)
              case Moves(t, _) => hang == None && Abs() == t
              case Hangs(h) => hang == Some(h)
              case Refused => false
    {
      if thread.Fired? {
        ghost var before := Abs();
        var now := KtimeGet();
        if deadline > now {
          return Some(Machine.WokeTooEarly), [now];
        }
        hide Machine.Drain;
        hang, readings := Drain(now);
        DrainIgnoresClock(before, before.again, readings);
      } else {
        thread := Timed(deadline);
        hang, readings := None, [];
      }
    }

    /** The softirq: one request is over, and a stopped queue is started again. */
    method SoftirqDone(req: Request)
      requires Valid() && req in retiring
      modifies this`retiring, this`inflight, this`stopped, this`log
      ensures Valid() && Abs() == Machine.Retire(old(Abs()), req)
    {
      retiring := retiring - multiset{req};
      inflight := inflight - 1;
      stopped := false;
      log := log + [Machine.Retired(req)];
    }
  }

  // Between the loops of the driver and the recursions of the state machine.

  lemma FreeInRange(chans: seq<Channel>, slot: nat)
    requires FirstLeast(Machine.CompletedKeys(chans)) == Some(slot)
    ensures slot < |chans|
  {
  }

  lemma DueInRange(chans: seq<Channel>, now: int, index: nat)
    requires FirstLeast(Machine.DueKeys(chans, now)) == Some(index)
    ensures index < |chans| && !chans[index].completed
  {
    assert Machine.DueKeys(chans, now)[index].Some?;
  }

  lemma SubmitIgnoresClock(s: Machine.State, req: Request, now: int)
    ensures Machine.Submit(s.(clock := now), req, now) == Machine.Submit(s, req, now)
  {
    hide FirstLeast, Least, SizeClass, Flat, Splice, Machine.IsSequential, Machine.OutstandingKeys, Machine.History;
  }

  predicate ReadBy(from: int, batch: seq<(Request, int)>, clock: int) {
    from <= clock && (|batch| > 0 ==> batch[|batch| - 1].1 <= clock)
  }

  lemma ClimbsNone(from: int)
    ensures Machine.Climbs(from, Machine.Times([])) && ReadBy(from, [], from)
  {
  }

  lemma ReadByLater(from: int, batch: seq<(Request, int)>, clock: int, later: int)
    requires ReadBy(from, batch, clock) && clock <= later
    ensures ReadBy(from, batch, later)
  {
  }

  lemma ReadingsStart(now: int)
    ensures Machine.Climbs(now, [] + [now])
  {
  }

  lemma ReadingsSnoc(from: int, readings: seq<int>, now: int, later: int)
    requires Machine.Climbs(from, readings + [now]) && now <= later
    ensures Machine.Climbs(from, readings + [now] + [later])
  {
  }

  lemma ClimbsSnoc(from: int, batch: seq<(Request, int)>, next: (Request, int))
    requires Machine.Climbs(from, Machine.Times(batch)) && ReadBy(from, batch, next.1)
    ensures Machine.Climbs(from, Machine.Times(batch + [next])) && ReadBy(from, batch + [next], next.1)
  {
    var before, after := Machine.Times(batch), Machine.Times(batch + [next]);
    forall i | 0 < i < |after| ensures after[i - 1] <= after[i] {
      if i < |batch| { assert after[i - 1] == before[i - 1] && after[i] == before[i]; }
    }
  }

  lemma SubmitAllNone(s: Machine.State, wake: bool)
    ensures Machine.SubmitAll(s, [], wake) == Machine.Moves(s, wake)
  {
  }

  /** Submitting a batch and then one more request is submitting the longer batch, as long as the queue was not
      stopped. */
  lemma {:induction false} SubmitAllSnoc(s: Machine.State, batch: seq<(Request, int)>, wake: bool, next: (Request, int))
    requires var r := Machine.SubmitAll(s, batch, wake); r.Moves? && (|batch| == 0 || r.s.inflight < |r.s.chans|)
    ensures var r := Machine.SubmitAll(s, batch, wake);
            Machine.SubmitAll(s, batch + [next], wake) ==
            match Machine.Submit(r.s, next.0, next.1)
            case Moves(t, w) => Machine.Moves(if t.inflight >= |t.chans| then t.(stopped := true) else t, r.wake || w)
            case other => other
    decreases |batch|
  {
    hide Machine.Submit;
    if |batch| > 0 {
      assert (batch + [next])[1..] == batch[1..] + [next];
      var r := Machine.Submit(s, batch[0].0, batch[0].1);
      SubmitAllSnoc(r.s, batch[1..], wake || r.wake, next);
    } else {
      assert (batch + [next])[1..] == [];
    }
  }

  /** A batch that took the driver from `start` to `s`: submitted and logged. */
  predicate Taken(start: Machine.State, s: Machine.State, batch: seq<(Request, int)>, wake: bool) {
    && Machine.Climbs(start.clock, Machine.Times(batch))
    && Machine.SubmitAll(start, batch, false) == Machine.Moves(s, wake)
    && Facts.Logs(start.log, s.log, batch)
  }

  /** The same, in the middle of the loop. */
  predicate Taking(start: Machine.State, s: Machine.State, batch: seq<(Request, int)>, wake: bool) {
    && Taken(start, s, batch, wake) && ReadBy(start.clock, batch, s.clock)
    && (|batch| == 0 || s.inflight < |s.chans|)
  }

  lemma TakingNone(s: Machine.State)
    ensures Taking(s, s, [], false)
  {
    hide Machine.SubmitAll;
    SubmitAllNone(s, false);
    ClimbsNone(s.clock);
  }

  lemma TakingDone(start: Machine.State, s: Machine.State, batch: seq<(Request, int)>, wake: bool)
    requires Taking(start, s, batch, wake)
    ensures Taken(start, s, batch, wake)
  {
    hide Taken;
  }

  /** One request more. */
  lemma TakingStep(start: Machine.State, s: Machine.State, batch: seq<(Request, int)>, wake: bool, req: Request,
      now: int)
    requires Taking(start, s, batch, wake) && s.clock <= now
    ensures var r, longer := Machine.Submit(s, req, now), batch + [(req, now)];
            && Machine.Submit(s.(clock := now), req, now) == r
            && Machine.Climbs(start.clock, Machine.Times(longer))
            && (!r.Moves? ==> Machine.Strategy(start, longer) == r)
            && (r.Moves? ==>
                  && r.s.clock == now
                  && (if r.s.inflight >= |r.s.chans| then Taken(start, r.s.(stopped := true), longer, wake || r.wake)
                      else Taking(start, r.s, longer, wake || r.wake)))
  {
    hide Machine.Submit, Machine.SubmitAll, Machine.Climbs, ReadBy, Facts.Logs;
    ReadByLater(start.clock, batch, s.clock, now);
    SubmitIgnoresClock(s, req, now);
    SubmitAllSnoc(start, batch, false, (req, now));
    ClimbsSnoc(start.clock, batch, (req, now));
    var r := Machine.Submit(s, req, now);
    if r.Moves? {
      SubmitReads(s, req, now);
      Progress.SubmitLogs(s, req, now);
      Progress.LogsJoin(start.log, s.log, r.s.log, batch, [(req, now)]);
    }
  }

  lemma SubmitReads(s: Machine.State, req: Request, now: int)
    requires Machine.Submit(s, req, now).Moves?
    ensures Machine.Submit(s, req, now).s.clock == now
  {
    hide FirstLeast, Least, SizeClass, Flat, Splice, Machine.IsSequential, Machine.OutstandingKeys, Machine.History;
  }

  lemma TakenIs(start: Machine.State, s: Machine.State, batch: seq<(Request, int)>, wake: bool)
    requires Taken(start, s, batch, wake)
    ensures Machine.Climbs(start.clock, Machine.Times(batch)) && Facts.Logs(start.log, s.log, batch)
    ensures Machine.Strategy(start, batch) ==
            Machine.Moves(if wake then s.(thread := s.thread.Wake()) else s, wake)
  {
    hide Machine.SubmitAll, Machine.Climbs, Facts.Logs;
  }

  /** One pass of the drain that is followed by another. */
  function OnePass(s: Machine.State, again: bool, now: int): Option<(Machine.State, bool)> {
    var s0 := s.(clock := now);
    match FirstLeast(Machine.DueKeys(s0.chans, now))
    case Some(i) =>
      if s0.chans[i].request.None? then None else
      var req := s0.chans[i].request.value;
      if req.dir == Read && req.Offset() + req.Bytes() > |s0.disk| then None else Some((Machine.Commit(s0, i), false))
    case None => if again then Some((s0, false)) else None
  }

  function Passes(s: Machine.State, again: bool, readings: seq<int>): Option<(Machine.State, bool)> {
    if |readings| == 0 then
      Some((s, again))
    else
      match Passes(s, again, readings[..|readings| - 1])
      case None => None
      case Some((t, a)) => OnePass(t, a, readings[|readings| - 1])
  }

  lemma PassesNone(s: Machine.State, again: bool)
    ensures Passes(s, again, []) == Some((s, again))
  {
  }

  lemma PassesSnoc(s: Machine.State, again: bool, readings: seq<int>, now: int)
    ensures Passes(s, again, readings + [now]) ==
            match Passes(s, again, readings)
            case None => None
            case Some((t, a)) => OnePass(t, a, now)
  {
    hide OnePass;
    assert (readings + [now])[..|readings|] == readings;
  }

  lemma {:induction false} DrainSplits(s: Machine.State, again: bool, readings: seq<int>, rest: seq<int>)
    requires Passes(s, again, readings).Some? && |rest| > 0
    ensures var p := Passes(s, again, readings).value;
            Machine.Drain(s, again, readings + rest) == Machine.Drain(p.0, p.1, rest)
    decreases |readings|
  {
    if |readings| == 0 {
      assert readings + rest == rest;
    } else {
      var front, now := readings[..|readings| - 1], readings[|readings| - 1];
      assert readings + rest == front + ([now] + rest);
      DrainSplits(s, again, front, [now] + rest);
      var p := Passes(s, again, front).value;
      hide Machine.Commit, Flat, FirstLeast, Machine.Settle;
      assert ([now] + rest)[1..] == rest;
    }
  }

  /** Where the drain stands when it has made some passes and is about to make one at `now`. */
  lemma DrainAfterPasses(s: Machine.State, again: bool, readings: seq<int>, now: int)
    requires Passes(s, again, readings).Some?
    ensures var p := Passes(s, again, readings).value;
            Machine.Drain(s, again, readings + [now]) == Machine.Drain(p.0, p.1, [now])
  {
    DrainSplits(s, again, readings, [now]);
  }

  /** The drain when only one clock reading is left. */
  lemma DrainOnce(s: Machine.State, again: bool, now: int)
    ensures Machine.Drain(s, again, [now]) ==
            match FirstLeast(Machine.DueKeys(s.chans, now))
            case Some(i) =>
              if s.chans[i].request.None? then Machine.Hangs(Machine.NullRequest)
              else if s.chans[i].request.value.dir == Read
                      && s.chans[i].request.value.Offset() + s.chans[i].request.value.Bytes() > |s.disk|
              then Machine.Hangs(Machine.PastEndOfDevice)
              else Machine.Refused
            case None => if again then Machine.Refused else Machine.Moves(Machine.Settle(s.(clock := now)), false)
  {
    hide FirstLeast, Flat, Machine.Commit, Machine.Settle;
  }

  /** The state a drain starts from may or may not have taken in its first clock reading. */
  lemma DrainIgnoresClock(s: Machine.State, again: bool, readings: seq<int>)
    requires |readings| > 0
    ensures Machine.Drain(s.(clock := readings[0]), again, readings) == Machine.Drain(s, again, readings)
  {
    hide Machine.Commit, Flat, FirstLeast, Machine.Settle;
  }

  /** How many channels are outstanding: the measure of the drain. */
  function Busy(chans: seq<Channel>): nat {
    if |chans| == 0 then 0 else Busy(chans[..|chans| - 1]) + if chans[|chans| - 1].completed then 0 else 1
  }

  lemma {:induction false} BusyLess(chans: seq<Channel>, i: nat)
    requires i < |chans| && !chans[i].completed
    ensures Busy(chans[i := chans[i].(completed := true)]) == Busy(chans) - 1
    decreases |chans|
  {
    var last := |chans| - 1;
    var after := chans[i := chans[i].(completed := true)];
    if i == last {
      assert after[..last] == chans[..last];
    } else {
      assert after[..last] == chans[..last][i := chans[i].(completed := true)];
      BusyLess(chans[..last], i);
    }
  }
}
