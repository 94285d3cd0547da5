/** The emulator server's model of an SSD: the channel table behind submit_request and get_next_responses. */
module SsdSim {
  import opened Block
  import opened Latency
  import opened Scan

  datatype SsdChannel = SsdChannel(ioId: int, completion: int, lastSector: int, rw: int)

  /** `rest` are the entries of the server's fixed channel array beyond the channels in use. */
  datatype Sim = Sim(latency: Tables, chans: seq<SsdChannel>, rest: seq<SsdChannel>, time: int)

  /** The answer to a query: the next completion time and the ids that complete then; no ids if there is none. */
  datatype Answer = Answer(time: int, ids: seq<int>)

  datatype SubmitResult = Accepted(sim: Sim) | Rejected | Stuck

  function Code(dir: Dir): int {
    if dir == Write then 1 else 0
  }

  /** The server keeps its table unscaled and multiplies by the speed factor in 64 bits, so nothing overflows. */
  function ServerRow(rates: seq<int>, speed: int): (r: seq<int>)
    requires forall i | 0 <= i < |rates| :: rates[i] > 0
    ensures |r| == |rates| && forall i | 0 <= i < |r| :: r[i] == Unscaled(rates[i]) * speed
  {
    seq(|rates|, i requires 0 <= i < |rates| => Unscaled(rates[i]) * speed)
  }

  function ServerTables(speed: int): Tables {
    Config([ServerRow(RANDOM_RATE[0], speed), ServerRow(RANDOM_RATE[1], speed)],
           [ServerRow(SEQUENTIAL_RATE[0], speed), ServerRow(SEQUENTIAL_RATE[1], speed)])
  }

  /** Both drivers' response times agree exactly up to the speed factor at which the ramdisk's int table overflows. */
  lemma TablesAgree(speed: int)
    requires speed > 0
    ensures TablesFor(speed) == ServerTables(speed) <==> speed <= MAX_SPEED
  {
    hide Entry, Unscaled;
    var a, b := TablesFor(speed), ServerTables(speed);
    forall j, i | 0 <= j < 2 && 0 <= i < 8
      ensures b.random[j][i] == 100_000_000 / RANDOM_RATE[j][i] * speed
      ensures b.sequential[j][i] == 100_000_000 / SEQUENTIAL_RATE[j][i] * speed
    {
      UnscaledQuotient(RANDOM_RATE[j][i]);
      UnscaledQuotient(SEQUENTIAL_RATE[j][i]);
    }
    TablesExact(speed);
    if speed <= MAX_SPEED {
      assert forall j | 0 <= j < 2 :: a.random[j] == b.random[j] && a.sequential[j] == b.sequential[j];
    }
  }

  /** The server's tables are exact at every speed factor. */
  lemma ServerTablesExact(speed: int)
    requires speed > 0
    ensures AllExact(ServerTables(speed), speed)
  {
    hide Unscaled;
    forall j, i | 0 <= j < 2 && 0 <= i < 8
      ensures ServerTables(speed).random[j][i] == 100_000_000 / RANDOM_RATE[j][i] * speed
      ensures ServerTables(speed).sequential[j][i] == 100_000_000 / SEQUENTIAL_RATE[j][i] * speed
    {
      UnscaledQuotient(RANDOM_RATE[j][i]);
      UnscaledQuotient(SEQUENTIAL_RATE[j][i]);
    }
  }

  /** So every request takes the server the exact response time of its kind. */
  lemma ServerTimes(speed: int, isSequential: bool, dir: Dir, size: nat)
    requires speed > 0 && size < 8
    ensures ServerTables(speed).Of(isSequential, dir, size) == Nanoseconds(isSequential, dir, size, speed)
  {
    hide ServerTables, AllExact;
    ServerTablesExact(speed);
    ExactTimes(ServerTables(speed), speed, dir, size);
  }

  /** submit_request refuses exactly if no channel has completed before the time of submission. */
  lemma RefusedExactly(sim: Sim, time: int, rw: Dir, sector: nat, count: nat, ioId: int)
    ensures SubmitRequest(sim, time, rw, sector, count, ioId).Rejected? <==>
            forall i | 0 <= i < |sim.chans| :: sim.chans[i].completion >= time
  {
    hide SizeClass, FollowsChannel;
    var keys := CompletionKeys(sim.chans);
    if |sim.chans| > 0 {
      assert keys[0].Some?;
      var slot := FirstLeast(keys).value;
      assert forall i | 0 <= i < |sim.chans| :: keys[slot].value <= keys[i].value;
    }
  }

  /** Every response time of the server is positive, whatever the speed factor. */
  lemma ServerTablesOk(speed: int)
    requires speed > 0
    ensures var b := ServerTables(speed);
            && b.Ok() && (forall j, i | 0 <= j < 2 && 0 <= i < 8 :: b.random[j][i] > 0 && b.sequential[j][i] > 0)
  {
    hide Unscaled;
    var b := ServerTables(speed);
    forall j, i | 0 <= j < 2 && 0 <= i < 8 ensures b.random[j][i] > 0 && b.sequential[j][i] > 0 {
      RatePositive(RANDOM_RATE[j][i], speed);
      RatePositive(SEQUENTIAL_RATE[j][i], speed);
    }
  }

  lemma RatePositive(rate: int, speed: int)
    requires 47 <= rate <= 100_000_000 && speed > 0
    ensures Unscaled(rate) * speed > 0
  {
    hide *;
    UnscaledQuotient(rate);
    DivBounds(100_000_000, rate);
    ProductPositive(100_000_000 / rate, rate, speed);
  }

  lemma ProductPositive(p: int, rate: int, speed: int)
    requires 100_000_000 < (p + 1) * rate && rate <= 100_000_000 && speed > 0 && p >= 0
    ensures p * speed > 0
  {
  }

  /** setup: every channel in use is free, but keeps the direction and last sector it had. */
  function Setup(sim: Sim, channels: nat, speed: int): (after: Sim)
    ensures |after.chans| + |after.rest| == |sim.chans| + |sim.rest|
  {
    var all := sim.chans + sim.rest;
    if channels > |all| then
      sim
    else
      Sim(ServerTables(speed), seq(channels, i requires 0 <= i < channels => all[i].(ioId := -1, completion := 0)),
          all[channels..], 0)
  }

  /** Doing the setup a second time changes nothing. */
  lemma SetupTwice(sim: Sim, channels: nat, speed: int)
    ensures Setup(Setup(sim, channels, speed), channels, speed) == Setup(sim, channels, speed)
  {
    hide ServerTables;
    var once := Setup(sim, channels, speed);
    var twice := Setup(once, channels, speed);
    if channels <= |sim.chans + sim.rest| {
      var all := sim.chans + sim.rest;
      assert once.chans + once.rest == once.chans + all[channels..];
      assert (once.chans + once.rest)[channels..] == once.rest;
      assert twice.chans == once.chans;
    }
  }

  function CompletionKeys(chans: seq<SsdChannel>): (keys: seq<Option<int>>)
    ensures |keys| == |chans| && forall i | 0 <= i < |chans| :: keys[i] == Some(chans[i].completion)
  {
    seq(|chans|, i requires 0 <= i < |chans| => Some(chans[i].completion))
  }

  predicate FollowsChannel(chans: seq<SsdChannel>, rw: int, sector: int) {
    exists i | 0 <= i < |chans| :: chans[i].rw == rw && chans[i].lastSector == sector
  }

  /** submit_request: the oldest channel is replaced if it has completed before `time`; otherwise the request is
      refused. */
  function SubmitRequest(sim: Sim, time: int, rw: Dir, sector: nat, count: nat, ioId: int): SubmitResult {
    match FirstLeast(CompletionKeys(sim.chans))
    case None => Rejected
    case Some(slot) =>
      if sim.chans[slot].completion >= time then
        Rejected
      else
        match SizeClass(count * SECTOR_SIZE)
        case None => Stuck
        case Some(size) =>
          var sequential := FollowsChannel(sim.chans, Code(rw), sector);
          var completion := time + sim.latency.Of(sequential, rw, size);
          Accepted(sim.(chans := sim.chans[slot := SsdChannel(ioId, completion, sector + count, Code(rw))]))
  }

  function AfterKey(c: SsdChannel, time: int): Option<int> {
    if c.completion > time then Some(c.completion) else None
  }

  function AfterKeys(chans: seq<SsdChannel>, time: int): (keys: seq<Option<int>>)
    ensures |keys| == |chans| && forall i | 0 <= i < |chans| :: keys[i] == AfterKey(chans[i], time)
  {
    seq(|chans|, i requires 0 <= i < |chans| => AfterKey(chans[i], time))
  }

  /** The ids of the channels that complete at `time`, in channel order. */
  function IdsAt(chans: seq<SsdChannel>, time: int): (ids: seq<int>)
    ensures |ids| <= |chans|
  {
    if |chans| == 0 then []
    else
      var last := chans[|chans| - 1];
      IdsAt(chans[..|chans| - 1], time) + if last.completion == time then [last.ioId] else []
  }

  /** get_next_responses: the least completion time strictly after `time`, with every id that shares it. */
  function NextResponses(chans: seq<SsdChannel>, time: int): Answer {
    match Least(AfterKeys(chans, time))
    case None => Answer(0, [])
    case Some(t) => Answer(t, IdsAt(chans, t))
  }

  /** The server remembers the latest query time, and only complains when an earlier one comes. */
  function Queried(sim: Sim, time: int): Sim {
    sim.(time := if time >= sim.time then time else sim.time)
  }

  lemma {:induction false} IdsAtHas(chans: seq<SsdChannel>, i: nat)
    requires i < |chans|
    ensures chans[i].ioId in IdsAt(chans, chans[i].completion)
    decreases |chans|
  {
    if i == |chans| - 1 {
    } else {
      IdsAtHas(chans[..|chans| - 1], i);
    }
  }

  lemma {:induction false} IdsAtOnly(chans: seq<SsdChannel>, time: int, id: int) returns (i: nat)
    requires id in IdsAt(chans, time)
    ensures i < |chans| && chans[i].ioId == id && chans[i].completion == time
    decreases |chans|
  {
    var last := |chans| - 1;
    if chans[last].completion == time && chans[last].ioId == id {
      i := last;
    } else {
      i := IdsAtOnly(chans[..last], time, id);
    }
  }

  /** A query answers with ids exactly when some channel completes after its time. */
  lemma NextResponsesSome(chans: seq<SsdChannel>, time: int)
    ensures NextResponses(chans, time).ids == [] <==> forall i | 0 <= i < |chans| :: chans[i].completion <= time
    ensures NextResponses(chans, time).ids != [] ==>
      && Least(AfterKeys(chans, time)) == Some(NextResponses(chans, time).time)
      && NextResponses(chans, time).time > time
  {
    var keys := AfterKeys(chans, time);
    match Least(keys)
    case None =>
      assert forall i | 0 <= i < |chans| :: keys[i].None? ==> chans[i].completion <= time;
    case Some(t) =>
      var i :| 0 <= i < |keys| && keys[i] == Some(t);
      IdsAtHas(chans, i);
  }
}
