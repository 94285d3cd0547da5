/** The routines of the emudisk driver as functions of its state and of how its clock runs: nothing else decides what
    they do. `pace(k)` is how long after the last look at the running clock the k-th one comes. */
module EmudiskPlan {
  import opened Block
  import opened Scan
  import opened Sleep
  import opened SsdSim
  import Machine = Emudisk
  import opened EmudiskInv
  import opened EmudiskDrain

  function Lapse(pace: nat -> nat, k: nat): nat {
    pace(k)
  }

  // The submission routine.

  /** Where the routine ends, what it leaves in the queue, and how often it has looked at the running clock. */
  datatype Progress = Progress(outcome: Machine.Outcome, left: seq<Request>, looks: nat)

  /** The turns of the submission loop: each looks at the clock before its request is fetched and when the pause for the
      exchanges begins. */
  function Turns(s: Machine.State, queue: seq<Request>, pace: nat -> nat, k: nat): Progress
    decreases |queue|
  {
    var now := s.clock + Lapse(pace, k);
    if |queue| == 0 then
      Progress(Machine.Moves(s.(clock := now)), [], k + 1)
    else
      var o, later := Machine.Submit(s, queue[0], now), now + Lapse(pace, k + 1);
      if !o.Moves? then Progress(o, queue[1..], k + 1)
      else
        var u := o.s.(clock := later);
        if u.inflight >= |u.slots| then Progress(Machine.Moves(u.(stopped := true)), queue[1..], k + 2)
        else if |queue| == 1 then Progress(Machine.Moves(u), [], k + 2)
        else Turns(u, queue[1..], pace, k + 2)
  }

  function StrategyAt(s: Machine.State, queue: seq<Request>, pace: nat -> nat, k: nat): Progress {
    var p := Turns(s, queue, pace, k);
    if p.outcome.Moves? && |p.left| < |queue| then
      var later := p.outcome.s.clock + Lapse(pace, p.looks);
      Progress(Machine.Moves(Machine.Refresh(p.outcome.s).(clock := later)), p.left, p.looks + 1)
    else
      p
  }

  /** The requests the loop takes, each with the clock reading before its fetch. */
  function Taken(s: Machine.State, queue: seq<Request>, pace: nat -> nat, k: nat): (batch: seq<(Request, int)>)
    ensures |batch| <= |queue| && forall i | 0 <= i < |batch| :: batch[i].0 == queue[i]
    ensures |queue| > 0 ==> |batch| > 0 && batch[0].1 == s.clock + Lapse(pace, k)
    decreases |queue|
  {
    if |queue| == 0 then
      []
    else
      var now := s.clock + Lapse(pace, k);
      var o, later := Machine.Submit(s, queue[0], now), now + Lapse(pace, k + 1);
      [(queue[0], now)] +
      (if !o.Moves? || o.s.inflight >= |o.s.slots| then [] else Taken(o.s.(clock := later), queue[1..], pace, k + 2))
  }

  lemma TurnsStep(s: Machine.State, queue: seq<Request>, pace: nat -> nat, k: nat)
    ensures Turns(s, queue, pace, k) ==
            var now := s.clock + Lapse(pace, k);
            if |queue| == 0 then
              Progress(Machine.Moves(s.(clock := now)), [], k + 1)
            else
              var o, later := Machine.Submit(s, queue[0], now), now + Lapse(pace, k + 1);
              if !o.Moves? then Progress(o, queue[1..], k + 1)
              else
                var u := o.s.(clock := later);
                if u.inflight >= |u.slots| then Progress(Machine.Moves(u.(stopped := true)), queue[1..], k + 2)
                else if |queue| == 1 then Progress(Machine.Moves(u), [], k + 2)
                else Turns(u, queue[1..], pace, k + 2)
    ensures |queue| > 0 ==>
              Machine.Submit(s.(clock := s.clock + Lapse(pace, k)), queue[0], s.clock + Lapse(pace, k)) ==
              Machine.Submit(s, queue[0], s.clock + Lapse(pace, k))
  {
    hide Machine.Submit;
    if |queue| > 0 {
      SubmitIgnoresClock(s, queue[0], s.clock + Lapse(pace, k));
    }
  }

  lemma StrategyAtMoves(s: Machine.State, queue: seq<Request>, pace: nat -> nat, k: nat)
    requires Turns(s, queue, pace, k).outcome.Moves?
    ensures var p := Turns(s, queue, pace, k);
            StrategyAt(s, queue, pace, k) ==
            if |p.left| < |queue| then
              var later := p.outcome.s.clock + Lapse(pace, p.looks);
              Progress(Machine.Moves(Machine.Refresh(p.outcome.s).(clock := later)), p.left, p.looks + 1)
            else p
  {
    hide Turns, Machine.Refresh;
  }

  lemma StrategyAtHangs(s: Machine.State, queue: seq<Request>, pace: nat -> nat, k: nat)
    requires !Turns(s, queue, pace, k).outcome.Moves?
    ensures StrategyAt(s, queue, pace, k) == Turns(s, queue, pace, k)
  {
    hide Turns, Machine.Refresh;
  }

  lemma SubmitIgnoresClock(s: Machine.State, req: Request, now: int)
    ensures forall c :: Machine.Submit(s.(clock := c), req, now) == Machine.Submit(s, req, now)
    ensures Machine.Submit(s, req, now).Moves? ==> Machine.Submit(s, req, now).s.clock == now
  {
    hide FirstLeast, Flat, Splice, SubmitRequest, Machine.CompletionOf;
  }

  lemma RefreshIgnoresClock(s: Machine.State, now: int)
    ensures forall later :: Machine.Refresh(s.(clock := now)).(clock := later) == Machine.Refresh(s).(clock := later)
    ensures Machine.Refresh(s).clock == s.clock && Machine.Refresh(s).stopped == s.stopped
  {
    hide NextResponses;
  }

  lemma SubmitAllIgnoresClock(s: Machine.State, batch: seq<(Request, int)>, now: int)
    ensures |batch| > 0 ==> Machine.SubmitAll(s.(clock := now), batch) == Machine.SubmitAll(s, batch)
    ensures |batch| == 0 ==> Machine.SubmitAll(s.(clock := now), batch) == Machine.Moves(s.(clock := now))
    ensures |batch| == 0 ==> Machine.SubmitAll(s, batch) == Machine.Moves(s)
  {
    if |batch| > 0 {
      SubmitIgnoresClock(s, batch[0].0, batch[0].1);
      hide Machine.Submit;
    }
  }

  /** A batch in front of which one more request is submitted. */
  lemma SubmitAllCons(s: Machine.State, head: (Request, int), rest: seq<(Request, int)>)
    ensures Machine.SubmitAll(s, [head] + rest) ==
            var o := Machine.Submit(s, head.0, head.1);
            if !o.Moves? then o
            else if o.s.inflight >= |o.s.slots| then Machine.Moves(o.s.(stopped := true))
            else Machine.SubmitAll(o.s, rest)
  {
    hide Machine.Submit;
    assert ([head] + rest)[1..] == rest;
  }

  lemma BatchClimbsCons(from: int, head: (Request, int), rest: seq<(Request, int)>, later: int)
    requires from <= head.1 <= later && Machine.BatchClimbs(later, rest)
    ensures Machine.BatchClimbs(from, [head] + rest)
  {
    var batch := [head] + rest;
    forall i | 0 < i < |batch| ensures batch[i - 1].1 <= batch[i].1 {
      assert batch[i] == rest[i - 1];
      if i > 1 { assert batch[i - 1] == rest[i - 2]; }
    }
  }

  /** What the state machine makes of a batch: the same, but for a clock that has gone on. */
  predicate SameButLater(machine: Machine.Outcome, p: Progress) {
    match p.outcome
    case Moves(t) => machine.Moves? && machine.s.clock <= t.clock && t == machine.s.(clock := t.clock)
    case other => machine == other
  }

  lemma {:induction false} TurnsAreSubmitAll(s: Machine.State, queue: seq<Request>, pace: nat -> nat, k: nat)
    ensures var b, p := Taken(s, queue, pace, k), Turns(s, queue, pace, k);
            && Machine.BatchClimbs(s.clock, b) && SameButLater(Machine.SubmitAll(s, b), p)
            && (p.outcome.Moves? ==> p.left == queue[|b|..] && (p.left == [] || p.outcome.s.stopped))
            && |p.left| <= |queue| && (|queue| > 0 ==> |p.left| < |queue|) && !p.outcome.Refused?
    decreases |queue|
  {
    hide Machine.Submit, Machine.SubmitAll, Turns, Taken, Machine.BatchClimbs;
    var now := s.clock + Lapse(pace, k);
    TurnsStep(s, queue, pace, k);
    if |queue| == 0 {
      NoneTaken(s, pace, k, queue);
      SubmitAllIgnoresClock(s, [], now);
      ClimbsNone(s.clock);
    } else {
      TakenIs(s, queue, pace, k);
      SubmitIgnoresClock(s, queue[0], now);
      SubmitNotRefused(s, queue[0], now);
      if Machine.Submit(s, queue[0], now).Moves? {
        TakenMoves(s, queue, pace, k, Machine.Submit(s, queue[0], now).s);
      } else {
        ClimbsNone(now);
        BatchClimbsCons(s.clock, (queue[0], now), [], now);
        SubmitAllCons(s, (queue[0], now), []);
      }
    }
  }

  lemma NoneTaken(s: Machine.State, pace: nat -> nat, k: nat, queue: seq<Request>)
    requires |queue| == 0
    ensures Taken(s, queue, pace, k) == []
  {
  }

  lemma SubmitNotRefused(s: Machine.State, req: Request, now: int)
    ensures !Machine.Submit(s, req, now).Refused?
  {
    hide FirstLeast, Flat, Splice, SubmitRequest, Machine.CompletionOf;
  }

  lemma {:induction false} TakenMoves(s: Machine.State, queue: seq<Request>, pace: nat -> nat, k: nat, t: Machine.State)
    requires |queue| > 0 && Machine.Submit(s, queue[0], s.clock + Lapse(pace, k)) == Machine.Moves(t)
    requires t.clock == s.clock + Lapse(pace, k)
    ensures var b, p := Taken(s, queue, pace, k), Turns(s, queue, pace, k);
            && Machine.BatchClimbs(s.clock, b) && SameButLater(Machine.SubmitAll(s, b), p)
            && (p.outcome.Moves? ==> p.left == queue[|b|..] && (p.left == [] || p.outcome.s.stopped))
            && |p.left| < |queue| && !p.outcome.Refused?
    decreases |queue|, 0
  {
    hide Machine.Submit, Machine.BatchClimbs, Machine.SubmitAll, Turns, Taken;
    var now, later := s.clock + Lapse(pace, k), s.clock + Lapse(pace, k) + Lapse(pace, k + 1);
    var u := t.(clock := later);
    TakenIs(s, queue, pace, k);
    TurnsStep(s, queue, pace, k);
    var rest := if t.inflight >= |t.slots| then [] else Taken(u, queue[1..], pace, k + 2);
    SubmitAllCons(s, (queue[0], now), rest);
    if t.inflight < |t.slots| {
      SubmitAllIgnoresClock(t, rest, later);
      if |queue| > 1 {
        TurnsAreSubmitAll(u, queue[1..], pace, k + 2);
      } else {
        ClimbsNone(later);
      }
    } else {
      ClimbsNone(later);
    }
    BatchClimbsCons(s.clock, (queue[0], now), rest, later);
  }

  lemma TakenIs(s: Machine.State, queue: seq<Request>, pace: nat -> nat, k: nat)
    requires |queue| > 0
    ensures var now := s.clock + Lapse(pace, k);
            var o, later := Machine.Submit(s, queue[0], now), now + Lapse(pace, k + 1);
            Taken(s, queue, pace, k) ==
            [(queue[0], now)] +
            (if !o.Moves? || o.s.inflight >= |o.s.slots| then []
                else Taken(o.s.(clock := later), queue[1..], pace, k + 2))
  {
    hide Machine.Submit;
  }

  lemma ClimbsNone(from: int)
    ensures Machine.BatchClimbs(from, [])
  {
  }

  /** The routine is a step of the state machine, for the batch it takes. */
  lemma StrategyAtIsStep(s: Machine.State, queue: seq<Request>, pace: nat -> nat, k: nat)
    ensures var b, p := Taken(s, queue, pace, k), StrategyAt(s, queue, pace, k);
            && Machine.BatchClimbs(s.clock, b) && SameButLater(Machine.Strategy(s, b), p)
            && (p.outcome.Moves? ==> p.left == queue[|b|..] && (p.left == [] || p.outcome.s.stopped))
            && !p.outcome.Refused?
  {
    hide Machine.Submit, Machine.BatchClimbs, Machine.SubmitAll, Turns, Machine.Refresh, Taken;
    TurnsAreSubmitAll(s, queue, pace, k);
    var b, p := Taken(s, queue, pace, k), Turns(s, queue, pace, k);
    if |queue| == 0 {
      SubmitAllIgnoresClock(s, b, s.clock);
    } else if p.outcome.Moves? {
      RefreshIgnoresClock(Machine.SubmitAll(s, b).s, p.outcome.s.clock);
    }
  }

  // The completion thread.

  lemma DeliverIs(s: Machine.State, id: int)
    requires forall i | 0 <= i < |s.slots| :: |s.slots[i].data| == MAX_REQUEST_BYTES
    ensures Machine.Deliver(s, id) ==
            match Machine.FindId(s.slots, id)
            case None => Machine.Hangs(Machine.UnknownId)
            case Some(i) =>
              if s.slots[i].req.None? then Machine.Hangs(Machine.OutOfRange)
              else
                var req := s.slots[i].req.value;
                if req.dir == Read && req.Bytes() > MAX_REQUEST_BYTES then Machine.Hangs(Machine.TransferTooLarge)
                else
                  var pages := if req.dir == Read then Scatter(s.slots[i].data[..req.Bytes()], req.segments) else [];
                  Machine.Moves(s.(slots := s.slots[i := s.slots[i].(id := 0)], latest := s.nextTime,
                                   retiring := s.retiring + multiset{req},
                                   log := s.log + [Machine.Committed(req, id, s.nextTime, s.clock, pages)]))
  {
    hide Flat, Scatter, FirstLeast;
  }

  lemma DeliverAllHead(s: Machine.State, ids: seq<int>, i: nat)
    requires i < |ids|
    ensures Machine.DeliverAll(s, ids[i..]) ==
            match Machine.Deliver(s, ids[i])
            case Moves(t) => Machine.DeliverAll(t, ids[i + 1..])
            case other => other
  {
    hide Machine.Deliver;
    assert ids[i..][1..] == ids[i + 1..];
  }

  lemma DeliverAllNone(s: Machine.State)
    ensures Machine.DeliverAll(s, []) == Machine.Moves(s)
  {
  }

  /** The clock when it has been looked at `n` times more. */
  function Moment(from: int, pace: nat -> nat, k: nat, n: nat): int {
    if n == 0 then from else Moment(from, pace, k, n - 1) + Lapse(pace, k + n - 1)
  }

  /** The rounds of the drain look at the running clock twice each. */
  predicate Paced(from: int, pace: nat -> nat, k: nat, rounds: seq<(int, int)>) {
    forall i | 0 <= i < |rounds| ::
      rounds[i] == (Moment(from, pace, k, 2 * i + 1), Moment(from, pace, k, 2 * i + 2))
  }

  /** Rounds of the drain that took the driver from `start` to `reached`: whatever comes after them continues from
      there. */
  ghost predicate Rounds(start: Machine.State, rounds: seq<(int, int)>, reached: Machine.State, pace: nat -> nat,
      k: nat) {
    && Machine.RoundsClimb(start.clock, rounds) && Paced(start.clock, pace, k, rounds)
    && reached.clock == Moment(start.clock, pace, k, 2 * |rounds|)
    && start.clock <= reached.clock && (|rounds| > 0 ==> rounds[|rounds| - 1].1 <= reached.clock)
    && (forall rest: seq<(int, int)> | |rest| > 0 ::
          Machine.Drain(start, rounds + rest) == Machine.Drain(reached, rest))
  }

  /** Rounds that complete the drain, but for going to sleep. */
  predicate DrainedBy(start: Machine.State, rounds: seq<(int, int)>, reached: Machine.State, pace: nat -> nat, k: nat) {
    && Machine.RoundsClimb(start.clock, rounds) && Paced(start.clock, pace, k, rounds)
    && Machine.Drain(start, rounds) == Machine.Moves(Machine.Settle(reached))
  }

  lemma DrainedIs(start: Machine.State, pace: nat -> nat, k: nat)
    ensures forall rounds, reached: Machine.State | DrainedBy(start, rounds, reached, pace, k) ::
              && Machine.RoundsClimb(start.clock, rounds) && Paced(start.clock, pace, k, rounds)
              && Machine.Drain(start, rounds) == Machine.Moves(Machine.Settle(reached))
  {
    hide Machine.Drain, Machine.Settle, Machine.RoundsClimb, Paced;
  }

  lemma RoundsNone(s: Machine.State, pace: nat -> nat, k: nat)
    ensures Rounds(s, [], s, pace, k)
  {
    hide Machine.Drain;
    forall rest: seq<(int, int)> | |rest| > 0 ensures Machine.Drain(s, [] + rest) == Machine.Drain(s, rest) {
      assert [] + rest == rest;
    }
  }

  /** How many requests are in the table: the measure of the drain. */
  function Outstanding(s: Machine.State): nat {
    |HeldIds(s.slots)|
  }

  /** The state after one round of the drain. */
  function AfterRound(s: Machine.State, now: int, later: int): Machine.State {
    match Machine.DeliverAll(RoundStart(s, now), s.nextIds)
    case Moves(t) => RoundEnd(t, later)
    case _ => s
  }

  /** The next responses are due already. */
  predicate Goes(s: Machine.State) {
    s.nextIds != [] && s.nextTime < s.clock
  }

  lemma RoundIsSound(s: Machine.State)
    requires RoundDue(s)
    ensures s.latest <= s.clock && s.latest <= s.nextTime && s.nextIds != []
  {
    hide Machine.DeliverAll, Core, Cached, HeldIds, RoundEnd;
    RoundKeeps(s, s.clock, s.clock);
  }

  lemma RoundRuns(s: Machine.State, now: int)
    requires RoundDue(s) && s.clock <= now
    ensures var d := Machine.DeliverAll(s.(clock := now), s.nextIds); d.Moves? && d.s.clock == now
  {
    hide Machine.DeliverAll, Core, Cached, HeldIds, Delivering;
    ClockFrame(s, now);
    CachedAnyClock(s, now);
    StartDelivering(s.(clock := now));
    DeliverAllKeeps(s.(clock := now), s.nextIds);
  }

  lemma CachedAnyClock(s: Machine.State, now: int)
    requires Cached(s)
    ensures Cached(s.(clock := now))
  {
    hide NextResponses;
  }

  lemma AfterRoundIs(s: Machine.State, now: int, later: int)
    requires Machine.DeliverAll(s.(clock := now), s.nextIds).Moves?
    ensures AfterRound(s, now, later) == RoundEnd(Machine.DeliverAll(s.(clock := now), s.nextIds).s, later)
  {
    hide Machine.DeliverAll, RoundEnd;
  }

  lemma AnswerAfter(chans: seq<SsdChannel>, time: int)
    ensures NextResponses(chans, time).ids != [] ==> NextResponses(chans, time).time > time
  {
    hide NextResponses;
    NextResponsesSome(chans, time);
  }

  lemma RoundLeaves(s: Machine.State, now: int, later: int)
    requires RoundDue(s) && s.clock <= now <= later
    ensures var t := AfterRound(s, now, later);
            && |HeldIds(t.slots)| < |HeldIds(s.slots)| && t.clock == later && (Goes(t) ==> RoundDue(t))
  {
    hide Machine.DeliverAll, Core, Cached, HeldIds, RoundEnd;
    RoundKeeps(s, now, later);
  }

  /** One round in front of others. The drain goes on if something is due already, and ends if not. */
  lemma OneRound(s: Machine.State, now: int, later: int, rest: seq<(int, int)>)
    requires RoundDue(s) && s.clock <= now <= later
    ensures var t := AfterRound(s, now, later);
            Machine.Drain(s, [(now, later)] + rest) ==
            if Goes(t) then Machine.Drain(t, rest) else if |rest| > 0 then Machine.Refused
            else Machine.Moves(Machine.Settle(t))
  {
    hide Machine.DeliverAll, Core, Cached, HeldIds, RoundEnd, Machine.Drain, Machine.Settle;
    RoundKeeps(s, now, later);
    DrainUnfolds(s, [(now, later)] + rest);
    assert ([(now, later)] + rest)[1..] == rest;
  }

  /** One round more. */
  lemma RoundsStep(start: Machine.State, rounds: seq<(int, int)>, reached: Machine.State, pace: nat -> nat, k: nat)
    requires Rounds(start, rounds, reached, pace, k) && RoundDue(reached)
    ensures var now := reached.clock + Lapse(pace, k + 2 * |rounds|);
            var later := now + Lapse(pace, k + 2 * |rounds| + 1);
            var t, longer := AfterRound(reached, now, later), rounds + [(now, later)];
            && Outstanding(t) < Outstanding(reached)
            && (if Goes(t) then RoundDue(t) && Rounds(start, longer, t, pace, k)
                  else DrainedBy(start, longer, t, pace, k))
  {
    hide Machine.Drain, AfterRound, HeldIds, Machine.Settle, RoundDue, Goes, Machine.RoundsClimb, Paced;
    var now := reached.clock + Lapse(pace, k + 2 * |rounds|);
    var later := now + Lapse(pace, k + 2 * |rounds| + 1);
    var r, t := (now, later), AfterRound(reached, now, later);
    RoundsClimbSnoc(start.clock, rounds, reached.clock, r);
    PacedSnoc(start.clock, pace, k, rounds);
    RoundLeaves(reached, now, later);
    if Goes(t) {
      forall rest: seq<(int, int)> | |rest| > 0
        ensures Machine.Drain(start, rounds + [r] + rest) == Machine.Drain(t, rest)
      {
        assert rounds + [r] + rest == rounds + ([r] + rest);
        OneRound(reached, now, later, rest);
      }
    } else {
      OneRound(reached, now, later, []);
      assert [r] + [] == [r];
    }
  }

  lemma PacedSnoc(from: int, pace: nat -> nat, k: nat, rounds: seq<(int, int)>)
    requires Paced(from, pace, k, rounds)
    ensures var n := 2 * |rounds|;
            var now := Moment(from, pace, k, n) + Lapse(pace, k + n);
            && Moment(from, pace, k, n + 2) == now + Lapse(pace, k + n + 1)
            && Paced(from, pace, k, rounds + [(now, now + Lapse(pace, k + n + 1))])
  {
    var n := 2 * |rounds|;
    assert Moment(from, pace, k, n + 1) == Moment(from, pace, k, n) + Lapse(pace, k + n);
    assert Moment(from, pace, k, n + 2) == Moment(from, pace, k, n + 1) + Lapse(pace, k + n + 1);
  }

  lemma ProceedIs(s: Machine.State)
    ensures s.thread.Fired? ==> forall rounds :: Machine.Proceed(s, rounds) == Machine.Drain(s, rounds)
    ensures s.thread.IdleWoken? || s.thread.Interrupted? ==>
              Machine.Proceed(s, []) == Machine.Moves(s.(thread := Timed(s.nextTime)))
                  && Machine.RoundsClimb(s.clock, [])
  {
    hide Machine.Drain;
  }

  lemma RoundsClimbSnoc(from: int, rounds: seq<(int, int)>, clock: int, next: (int, int))
    requires Machine.RoundsClimb(from, rounds) && from <= clock && (|rounds| > 0 ==> rounds[|rounds| - 1].1 <= clock)
    requires clock <= next.0 <= next.1
    ensures Machine.RoundsClimb(from, rounds + [next])
  {
    var after := rounds + [next];
    forall i | 0 < i < |after| ensures after[i - 1].1 <= after[i].0 {
      if i < |rounds| { assert after[i - 1] == rounds[i - 1] && after[i] == rounds[i]; }
    }
  }

  // A drain takes as many rounds as it takes.

  /** Of two lists of rounds that complete a drain neither goes beyond the other. */
  lemma {:induction false} DrainLength(s: Machine.State, one: seq<(int, int)>, other: seq<(int, int)>)
    requires Machine.Drain(s, one).Moves? && Machine.Drain(s, other).Moves?
    requires forall i | 0 <= i < |one| && i < |other| :: one[i] == other[i]
    ensures |one| == |other|
    decreases |one|
  {
    hide Machine.Drain, DrainOn;
    DrainNone(s);
    DrainFirst(s, one);
    DrainFirst(s, other);
    var t := DrainOn(s, one[0]);
    if t.Some? {
      DrainLength(t.value, one[1..], other[1..]);
    }
  }

  /** Where the drain goes on after a first round, if it does. */
  function DrainOn(s: Machine.State, round: (int, int)): Option<Machine.State> {
    var s0 := s.(clock := round.0);
    match Machine.DeliverAll(s0, s0.nextIds)
    case Moves(s1) =>
      var a := NextResponses(s1.sim.chans, s1.latest);
      if a.ids != [] && a.time < round.1
      then Some(Machine.Asked(s1).(clock := round.1, nextTime := a.time, nextIds := a.ids)) else None
    case _ => None
  }

  lemma DrainFirst(s: Machine.State, rounds: seq<(int, int)>)
    requires |rounds| > 0 && Machine.Drain(s, rounds).Moves?
    ensures match DrainOn(s, rounds[0])
            case None => |rounds| == 1
            case Some(t) => Machine.Drain(s, rounds) == Machine.Drain(t, rounds[1..])
  {
    hide Machine.DeliverAll, NextResponses;
  }

  /** Two drains from one state with clocks that run alike take the same rounds. */
  lemma SameRounds(s: Machine.State, pace: nat -> nat, k: nat, one: seq<(int, int)>, other: seq<(int, int)>)
    requires Paced(s.clock, pace, k, one) && Paced(s.clock, pace, k, other)
    requires Machine.Drain(s, one).Moves? && Machine.Drain(s, other).Moves?
    ensures one == other
  {
    hide Machine.Drain, Moment;
    DrainLength(s, one, other);
  }
}
