/** Virtual time is transparent: two systems that start alike and whose clocks run alike outside the pauses stay alike,
    whatever the network does to either, however often each polls and resends, and however long that takes outside. */
module Transparency {
  import opened Block
  import opened Sleep
  import SsdSim
  import Machine = Emudisk
  import opened EmudiskInv
  import opened EmudiskRefresh
  import opened EmudiskDrain
  import opened EmudiskRuns
  import opened EmudiskWatermark
  import opened EmudiskPlan
  import opened EmudiskDriver

  predicate Apart(a: Driver, b: Driver) {
    && a != b && a.client != b.client && a.entries != b.entries && a.region != b.region
    && a.responseIds != b.responseIds
  }

  /** The same clock, packet ids, scheduling state, cached answer, staged data and server; nothing is said of the time
      outside, of what is under way, or of the polls to come. */
  ghost predicate Alike(a: Driver, b: Driver)
    reads a, a.entries, a.region, a.responseIds, a.client, b, b.entries, b.region, b.responseIds, b.client
  {
    && a.Valid() && b.Valid() && !a.paused && !b.paused
    && a.state == b.state && a.looks == b.looks && a.pace == b.pace
  }

  /** The submission routine on both. */
  method StrategyTwice(a: Driver, b: Driver, queue: seq<Request>)
    returns (end: End, endB: End, left: seq<Request>, leftB: seq<Request>, ghost batch: seq<(Request, int)>)
    requires Apart(a, b) && Alike(a, b) && forall i | 0 <= i < |queue| :: queue[i].WellFormed()
    modifies a, a.client, a.entries, a.region, a.responseIds, b, b.client, b.entries, b.region, b.responseIds
    ensures !end.Waiting? && !endB.Waiting? ==> end == endB && left == leftB && a.looks == b.looks
    ensures end.Done? && endB.Done? ==> Alike(a, b)
    ensures Machine.BatchClimbs(old(a.Clock()), batch)
    ensures |batch| <= |queue| && forall i | 0 <= i < |batch| :: batch[i].0 == queue[i]
    ensures end.Done? ==> Machine.Strategy(old(a.state), batch).Moves? &&
                          var t := Machine.Strategy(old(a.state), batch).s;
                          t.clock <= a.Clock() && a.state == t.(clock := a.Clock())
    ensures end.Hung? ==> Machine.Strategy(old(a.state), batch) == Machine.Hangs(end.at)
    ensures end.Done? ==>
              StrategyAt(old(a.state), queue, a.pace, old(a.looks)) == Progress(Machine.Moves(a.state), left, a.looks)
  {
    hide Driver.Valid, StrategyAt, Taken, Machine.Strategy, Machine.BatchClimbs;
    left, end, batch := a.Strategy(queue);
    ghost var batchB;
    leftB, endB, batchB := b.Strategy(queue);
  }

  /** What the completion thread does with the lock, on both. */
  method TakeLockTwice(a: Driver, b: Driver) returns (ok: bool, okB: bool, ghost rounds: seq<(int, int)>)
    requires Apart(a, b) && Alike(a, b)
    requires a.thread.IdleWoken? || a.thread.Interrupted? || (a.thread.Fired? && RoundDue(a.state))
    modifies a, a.client, a.entries, a.region, a.responseIds, b, b.client, b.entries, b.region, b.responseIds
    ensures ok && okB ==> Alike(a, b)
    ensures ok ==> Machine.RoundsClimb(old(a.Clock()), rounds)
    ensures ok ==> Machine.Proceed(old(a.state), rounds) == Machine.Moves(a.state)
    ensures ok ==> Paced(old(a.state).clock, a.pace, old(a.looks), rounds) && a.looks == old(a.looks) + 2 * |rounds|
  {
    hide Driver.Valid, Machine.Proceed, RoundDue, Paced, Machine.RoundsClimb, Machine.Drain;
    a.Fields();
    b.Fields();
    ghost var start, k := a.state, a.looks;
    ghost var roundsB;
    ok, rounds := a.TakeLock();
    okB, roundsB := b.TakeLock();
    if ok && okB {
      SameProceed(start, a.pace, k, rounds, roundsB);
    }
  }

  lemma SameProceed(s: Machine.State, pace: nat -> nat, k: nat, one: seq<(int, int)>, other: seq<(int, int)>)
    requires Paced(s.clock, pace, k, one) && Paced(s.clock, pace, k, other)
    requires Machine.Proceed(s, one).Moves? && Machine.Proceed(s, other).Moves?
    ensures Machine.Proceed(s, one) == Machine.Proceed(s, other)
    ensures s.thread.Fired? ==> one == other
  {
    hide Machine.Drain, Paced;
    if s.thread.Fired? {
      SameRounds(s, pace, k, one, other);
    }
  }

  // Whole runs.

  /** What the environment does to a system. */
  datatype Act =
    | Queue(queue: seq<Request>) // the block layer hands out requests
    | Timer                      // the thread's timer runs out, if it is time
    | Lock                       // the thread gets the lock
    | Softirq(req: Request)

  /** The tags of the requests known to a run are among `used`. */
  ghost predicate TagsUsed(log: seq<Machine.Event>, used: set<nat>) {
    forall tag: nat | Machine.KnownTag(log, tag) :: tag in used
  }

  function Tags(queue: seq<Request>): set<nat> {
    set i | 0 <= i < |queue| :: queue[i].tag
  }

  /** Requests the block layer may hand out: well formed, and each one new. */
  predicate Fresh(queue: seq<Request>, used: set<nat>) {
    && (forall i | 0 <= i < |queue| :: queue[i].WellFormed() && queue[i].tag !in used)
    && (forall i, j | 0 <= i < j < |queue| :: queue[i].tag != queue[j].tag)
  }

  lemma FreshIsPromised(log: seq<Machine.Event>, used: set<nat>, queue: seq<Request>, batch: seq<(Request, int)>)
    requires TagsUsed(log, used) && Fresh(queue, used)
    requires |batch| <= |queue| && forall i | 0 <= i < |batch| :: batch[i].0 == queue[i]
    ensures Machine.Promised(log, batch)
  {
    hide Machine.KnownTag;
  }

  lemma SubmitTags(s: Machine.State, req: Request, now: int, used: set<nat>)
    requires Machine.Submit(s, req, now).Moves? && TagsUsed(s.log, used)
    ensures TagsUsed(Machine.Submit(s, req, now).s.log, used + {req.tag})
  {
    hide Flat, Machine.FindId, Machine.Staged, Machine.CompletionOf;
    var t := Machine.Submit(s, req, now).s;
    forall tag: nat | Machine.KnownTag(t.log, tag) ensures tag in used + {req.tag} {
      var i :| 0 <= i < |t.log| && t.log[i].Submitted? && t.log[i].req.tag == tag;
      if i < |s.log| {
        assert Machine.KnownTag(s.log, tag);
      }
    }
  }

  lemma {:induction false} SubmitAllTags(s: Machine.State, batch: seq<(Request, int)>, used: set<nat>)
    requires Machine.SubmitAll(s, batch).Moves? && TagsUsed(s.log, used)
    requires forall i | 0 <= i < |batch| :: batch[i].0.tag in used
    ensures TagsUsed(Machine.SubmitAll(s, batch).s.log, used)
    decreases |batch|
  {
    hide Machine.Submit, TagsUsed;
    if |batch| == 0 {
    } else {
      SubmitTags(s, batch[0].0, batch[0].1, used);
      assert used + {batch[0].0.tag} == used;
      var t := Machine.Submit(s, batch[0].0, batch[0].1).s;
      if t.inflight < |t.slots| {
        SubmitAllTags(t, batch[1..], used);
      }
    }
  }

  lemma StrategyTags(s: Machine.State, batch: seq<(Request, int)>, used: set<nat>)
    requires Machine.Strategy(s, batch).Moves? && TagsUsed(s.log, used)
    requires forall i | 0 <= i < |batch| :: batch[i].0.tag in used
    ensures TagsUsed(Machine.Strategy(s, batch).s.log, used)
  {
    hide Machine.SubmitAll, TagsUsed, Machine.Refresh;
    if |batch| > 0 {
      SubmitAllTags(s, batch, used);
      RefreshFrame(Machine.SubmitAll(s, batch).s);
    }
  }

  lemma {:induction false} DrainTags(s: Machine.State, rounds: seq<(int, int)>, used: set<nat>)
    requires Machine.Drain(s, rounds).Moves? && TagsUsed(s.log, used)
    ensures TagsUsed(Machine.Drain(s, rounds).s.log, used)
    decreases |rounds|
  {
    hide Machine.DeliverAll, SsdSim.NextResponses, Machine.KnownTag;
    DrainNone(s);
    var s0 := s.(clock := rounds[0].0);
    DeliverAllTags(s0, s0.nextIds);
    DrainFirst(s, rounds);
    var t := DrainOn(s, rounds[0]);
    if t.Some? {
      DrainTags(t.value, rounds[1..], used);
    }
  }

  lemma ProceedTags(s: Machine.State, rounds: seq<(int, int)>, used: set<nat>)
    requires Machine.Proceed(s, rounds).Moves? && TagsUsed(s.log, used)
    ensures TagsUsed(Machine.Proceed(s, rounds).s.log, used)
  {
    hide Machine.Drain, TagsUsed;
    if s.thread.Fired? {
      DrainTags(s, rounds, used);
    }
  }

  lemma RetireTags(s: Machine.State, req: Request, used: set<nat>)
    requires TagsUsed(s.log, used)
    ensures TagsUsed(Machine.Retire(s, req).log, used)
  {
    var t := Machine.Retire(s, req);
    forall tag: nat | Machine.KnownTag(t.log, tag) ensures tag in used {
      var i :| 0 <= i < |t.log| && t.log[i].Submitted? && t.log[i].req.tag == tag;
      assert s.log[i] == t.log[i];
    }
  }

  /** A thread that is awake and waits for the lock. */
  predicate Awaits(t: Thread) {
    t.IdleWoken? || t.Interrupted? || t.Fired?
  }

  /** One act, possible or not, leads from state `s`, its clock looked at `k` times so far, to `t` and `j`, and
      `seen` are the tags of the requests handed out. Nothing else decides where it leads. */
  ghost predicate ActDone(act: Act, used: set<nat>, pace: nat -> nat, s: Machine.State, k: nat,
      t: Machine.State, j: nat, seen: set<nat>) {
    match act
    case Queue(queue) =>
      if !s.stopped && Fresh(queue, used) then
        var p := StrategyAt(s, queue, pace, k);
        p.outcome == Machine.Moves(t) && p.looks == j && seen == used + Tags(queue)
      else
        t == s && j == k && seen == used
    case Timer =>
      var now := s.clock + Lapse(pace, k);
      && j == k + 1 && seen == used
      && t == if s.thread.CanFire(now) then s.(clock := now, thread := Fired(s.thread.until)) else s.(clock := now)
    case Lock =>
      && seen == used
      && (if Awaits(s.thread) then
            exists rounds ::
              && Paced(s.clock, pace, k, rounds) && Machine.RoundsClimb(s.clock, rounds) && j == k + 2 * |rounds|
              && Machine.Proceed(s, rounds) == Machine.Moves(t)
          else
            t == s && j == k)
    case Softirq(req) =>
      && j == k && seen == used
      && t == if req in s.retiring then Machine.Retire(s, req) else s
  }

  /** One act after the other. */
  ghost predicate ActsDone(acts: seq<Act>, pace: nat -> nat, s: Machine.State, k: nat,
      t: Machine.State, j: nat, seen: set<nat>)
    decreases |acts|
  {
    if |acts| == 0 then
      t == s && j == k && seen == {}
    else
      var front, last := acts[..|acts| - 1], acts[|acts| - 1];
      exists m: Machine.State, i: nat, used: set<nat> ::
        ActsDone(front, pace, s, k, m, i, used) && ActDone(last, used, pace, m, i, t, j, seen)
  }

  lemma ActsMore(acts: seq<Act>, n: nat, pace: nat -> nat, s: Machine.State, k: nat, m: Machine.State, i: nat,
      used: set<nat>, t: Machine.State, j: nat, seen: set<nat>)
    requires n < |acts| && ActsDone(acts[..n], pace, s, k, m, i, used)
    requires ActDone(acts[n], used, pace, m, i, t, j, seen)
    ensures ActsDone(acts[..n + 1], pace, s, k, t, j, seen)
  {
    hide ActDone;
    assert acts[..n + 1][..n] == acts[..n];
  }

  lemma NoActs(pace: nat -> nat, s: Machine.State, k: nat)
    ensures ActsDone([], pace, s, k, s, k, {})
  {
  }

  /** One act on both; an act that is not possible now is passed over. */
  method ActTwice(a: Driver, b: Driver, act: Act, used: set<nat>) returns (end: End, endB: End, seen: set<nat>)
    requires Apart(a, b) && Alike(a, b) && Inv(a.state) && TagsUsed(a.state.log, used)
    modifies a, a.client, a.entries, a.region, a.responseIds, b, b.client, b.entries, b.region, b.responseIds
    ensures !end.Waiting? && !endB.Waiting? ==>
              && end == endB && (end.Hung? ==> end.at == Machine.ClockNotPastWatermark && act.Queue?)
              && (end.Done? ==> Alike(a, b) && Inv(a.state) && TagsUsed(a.state.log, seen))
    ensures end.Done? && endB.Done? ==>
              ActDone(act, used, a.pace, old(a.state), old(a.looks), a.state, a.looks, seen)
  {
    hide Driver.Valid, Inv, TagsUsed, Fresh, Machine.Strategy, Machine.Proceed, Machine.Retire, Machine.BatchClimbs,
      Machine.RoundsClimb, RoundDue, StrategyAt, Paced;
    ghost var start := a.state;
    a.Fields();
    b.Fields();
    end, endB, seen := Done, Done, used;
    match act {
      case Queue(queue) =>
        if !a.stopped && Fresh(queue, used) {
          end, endB, seen := QueueTwice(a, b, queue, used);
        }
      case Timer =>
        TimerTwice(a, b);
        TickKeeps(start, start.clock + Lapse(a.pace, old(a.looks)));
        if start.thread.CanFire(start.clock + Lapse(a.pace, old(a.looks))) {
          FireKeeps(start.(clock := start.clock + Lapse(a.pace, old(a.looks))));
        }
      case Lock =>
        if Awaits(a.thread) {
          ghost var rounds;
          end, endB, rounds := LockTwice(a, b, used);
        }
      case Softirq(req) =>
        if req in a.retiring {
          RetireKeeps(start, req);
          RetireTags(start, req, used);
          a.SoftirqDone(req);
          b.SoftirqDone(req);
        }
    }
  }

  method TimerTwice(a: Driver, b: Driver)
    requires Apart(a, b) && Alike(a, b)
    modifies a, b
    ensures Alike(a, b) && a.looks == old(a.looks) + 1
    ensures var s, now := old(a.state), old(a.state).clock + Lapse(a.pace, old(a.looks));
            a.state == if s.thread.CanFire(now) then s.(clock := now, thread := Fired(s.thread.until))
                       else s.(clock := now)
  {
    hide Driver.Valid;
    a.Fields();
    b.Fields();
    var now := a.KtimeGet();
    var nowB := b.KtimeGet();
    a.Fields();
    b.Fields();
    if a.thread.CanFire(now) {
      a.TimerFires();
      b.TimerFires();
    }
  }

  method QueueTwice(a: Driver, b: Driver, queue: seq<Request>, used: set<nat>)
    returns (end: End, endB: End, seen: set<nat>)
    requires Apart(a, b) && Alike(a, b) && Inv(a.state) && TagsUsed(a.state.log, used) && Fresh(queue, used)
    requires !a.state.stopped
    modifies a, a.client, a.entries, a.region, a.responseIds, b, b.client, b.entries, b.region, b.responseIds
    ensures !end.Waiting? && !endB.Waiting? ==>
              && end == endB && (end.Hung? ==> end.at == Machine.ClockNotPastWatermark)
              && (end.Done? ==> Alike(a, b) && Inv(a.state) && TagsUsed(a.state.log, seen))
    ensures seen == used + Tags(queue)
    ensures end.Done? ==>
              var p := StrategyAt(old(a.state), queue, a.pace, old(a.looks));
              p.outcome == Machine.Moves(a.state) && p.looks == a.looks
  {
    hide Driver.Valid, Inv, TagsUsed, Machine.Strategy, Machine.BatchClimbs, Machine.Promised, StrategyAt;
    ghost var start := a.state;
    a.ClockField();
    var left, leftB;
    ghost var batch;
    end, endB, left, leftB, batch := StrategyTwice(a, b, queue);
    seen := used + Tags(queue);
    FreshIsPromised(start.log, used, queue, batch);
    StrategyHangs(start, batch);
    if end.Done? {
      TagsGrow(start.log, used, seen);
      StrategyTags(start, batch, seen);
      TickKeeps(Machine.Strategy(start, batch).s, a.Clock());
    }
  }

  lemma TagsGrow(log: seq<Machine.Event>, used: set<nat>, more: set<nat>)
    requires TagsUsed(log, used) && used <= more
    ensures TagsUsed(log, more)
  {
    hide Machine.KnownTag;
  }

  method LockTwice(a: Driver, b: Driver, ghost used: set<nat>)
    returns (end: End, endB: End, ghost rounds: seq<(int, int)>)
    requires Apart(a, b) && Alike(a, b) && Inv(a.state) && TagsUsed(a.state.log, used)
    requires a.thread == a.state.thread && Awaits(a.thread)
    modifies a, a.client, a.entries, a.region, a.responseIds, b, b.client, b.entries, b.region, b.responseIds
    ensures end.Done? || end.Waiting?
    ensures endB.Done? || endB.Waiting?
    ensures end.Done? && endB.Done? ==> Alike(a, b) && Inv(a.state) && TagsUsed(a.state.log, used)
    ensures end.Done? ==>
              && Paced(old(a.state).clock, a.pace, old(a.looks), rounds)
              && Machine.RoundsClimb(old(a.state).clock, rounds)
              && a.looks == old(a.looks) + 2 * |rounds|
              && Machine.Proceed(old(a.state), rounds) == Machine.Moves(a.state)
  {
    hide Driver.Valid, Inv, TagsUsed, Machine.Proceed, Machine.RoundsClimb, RoundDue, Paced;
    ghost var start := a.state;
    a.ClockField();
    if a.thread.Fired? {
      FiredIsDue(start);
    }
    var ok, okB;
    ok, okB, rounds := TakeLockTwice(a, b);
    end := if ok then Done else Waiting;
    endB := if okB then Done else Waiting;
    if ok {
      ProceedKeeps(start, rounds);
      ProceedTags(start, rounds, used);
    }
  }

  /** Any run on both. As long as the exchanges of both return, they end each act in the same way, with the same
      clock, the same packet ids, the same deliveries and the same state of driver and server: the one to which the acts
      lead, each in its turn, from the state, the acts and the lapses of the clock alone. */
  method RunTwice(a: Driver, b: Driver, acts: seq<Act>) returns (end: End, endB: End, ghost seen: set<nat>)
    requires Apart(a, b) && Alike(a, b) && Machine.Starts(a.state)
    modifies a, a.client, a.entries, a.region, a.responseIds, b, b.client, b.entries, b.region, b.responseIds
    ensures !end.Waiting? && !endB.Waiting? ==>
              && end == endB && (end.Done? ==> Alike(a, b))
              && (end.Hung? ==> end.at == Machine.ClockNotPastWatermark)
    ensures end.Done? && endB.Done? ==>
              ActsDone(acts, a.pace, old(a.state), old(a.looks), a.state, a.looks, seen)
  {
    hide Driver.Valid, Inv, TagsUsed, Machine.Starts, ActDone, ActsDone;
    StartsInv(a.state);
    NothingUsed(a.state);
    ghost var start, k := a.state, a.looks;
    NoActs(a.pace, start, k);
    var used: set<nat> := {};
    end, endB, seen := Done, Done, {};
    assert acts[..0] == [];
    for i := 0 to |acts|
      invariant end == Done && endB == Done && Alike(a, b) && Inv(a.state) && TagsUsed(a.state.log, used)
      invariant ActsDone(acts[..i], a.pace, start, k, a.state, a.looks, used)
    {
      ghost var m, looked, before := a.state, a.looks, used;
      end, endB, used := ActTwice(a, b, acts[i], used);
      if !end.Done? || !endB.Done? {
        return;
      }
      ActsMore(acts, i, a.pace, start, k, m, looked, before, a.state, a.looks, used);
    }
    assert acts[..|acts|] == acts;
    seen := used;
  }

  lemma NothingUsed(s: Machine.State)
    requires Machine.Starts(s)
    ensures TagsUsed(s.log, {})
  {
  }

  // The acts are a run of the state machine.

  lemma {:induction false} SubmitAllIds(s: Machine.State, batch: seq<(Request, int)>)
    requires Machine.SubmitAll(s, batch).Moves?
    ensures s.nextId <= Machine.SubmitAll(s, batch).s.nextId
    decreases |batch|
  {
    hide Flat, Machine.FindId, Machine.Staged, Machine.CompletionOf;
    if |batch| == 0 {
    } else {
      var t := Machine.Submit(s, batch[0].0, batch[0].1).s;
      if t.inflight < |t.slots| {
        SubmitAllIds(t, batch[1..]);
      }
    }
  }

  lemma StrategyIds(s: Machine.State, batch: seq<(Request, int)>)
    requires Machine.Strategy(s, batch).Moves?
    ensures s.nextId <= Machine.Strategy(s, batch).s.nextId
  {
    hide Machine.SubmitAll, SsdSim.NextResponses;
    if |batch| > 0 {
      SubmitAllIds(s, batch);
    }
  }

  lemma {:induction false} DrainIds(s: Machine.State, rounds: seq<(int, int)>)
    requires Machine.Drain(s, rounds).Moves?
    ensures s.nextId <= Machine.Drain(s, rounds).s.nextId
    decreases |rounds|
  {
    hide Machine.DeliverAll, SsdSim.NextResponses, Machine.KnownTag;
    DrainNone(s);
    var s0 := s.(clock := rounds[0].0);
    DeliverAllTags(s0, s0.nextIds);
    DrainFirst(s, rounds);
    var t := DrainOn(s, rounds[0]);
    if t.Some? {
      DrainIds(t.value, rounds[1..]);
    }
  }

  lemma ActIds(act: Act, used: set<nat>, pace: nat -> nat, s: Machine.State, k: nat, t: Machine.State, j: nat,
      seen: set<nat>)
    requires ActDone(act, used, pace, s, k, t, j, seen)
    ensures s.nextId <= t.nextId
  {
    hide Machine.Drain, Machine.Strategy, StrategyAt, Taken, Fresh, Paced, Machine.RoundsClimb, Machine.BatchClimbs;
    match act
    case Queue(queue) =>
      if !s.stopped && Fresh(queue, used) {
        StrategyAtIsStep(s, queue, pace, k);
        StrategyIds(s, Taken(s, queue, pace, k));
      }
    case Lock =>
      if Awaits(s.thread) {
        var rounds :| Paced(s.clock, pace, k, rounds) && Machine.RoundsClimb(s.clock, rounds)
          && j == k + 2 * |rounds| && Machine.Proceed(s, rounds) == Machine.Moves(t);
        if s.thread.Fired? {
          DrainIds(s, rounds);
        }
      }
    case _ =>
  }

  lemma QueueIsRun(queue: seq<Request>, used: set<nat>, pace: nat -> nat, s: Machine.State, k: nat, t: Machine.State)
    returns (labels: seq<Machine.Label>)
    requires Inv(s) && TagsUsed(s.log, used) && !s.stopped && Fresh(queue, used) && t.nextId <= Machine.ID_LIMIT
    requires StrategyAt(s, queue, pace, k).outcome == Machine.Moves(t)
    ensures Machine.Run(s, labels) == Machine.Moves(t) && Inv(t) && TagsUsed(t.log, used + Tags(queue))
  {
    hide Inv, TagsUsed, Machine.Strategy, StrategyAt, Taken, Machine.BatchClimbs, Machine.Promised, Machine.Run, Fresh;
    var batch := Taken(s, queue, pace, k);
    StrategyAtIsStep(s, queue, pace, k);
    FreshIsPromised(s.log, used, queue, batch);
    StrategyHangs(s, batch);
    var m := Machine.Strategy(s, batch).s;
    RunFirst(s, Machine.Queue(batch), [Machine.Tick(t.clock)]);
    RunOne(m, Machine.Tick(t.clock));
    TickKeeps(m, t.clock);
    labels := [Machine.Queue(batch)] + [Machine.Tick(t.clock)];
    TagsGrow(s.log, used, used + Tags(queue));
    StrategyTags(s, batch, used + Tags(queue));
  }

  /** An act that is possible is one or two steps of the state machine, and one that is not is none. */
  lemma ActIsRun(act: Act, used: set<nat>, pace: nat -> nat, s: Machine.State, k: nat, t: Machine.State, j: nat,
      seen: set<nat>) returns (labels: seq<Machine.Label>)
    requires Inv(s) && TagsUsed(s.log, used) && ActDone(act, used, pace, s, k, t, j, seen)
    requires s.nextId <= Machine.ID_LIMIT && t.nextId <= Machine.ID_LIMIT
    ensures Machine.Run(s, labels) == Machine.Moves(t) && Inv(t) && TagsUsed(t.log, seen)
  {
    hide Inv, TagsUsed, Machine.Drain, StrategyAt, Fresh, Paced, Machine.RoundsClimb, Machine.Proceed, Machine.Retire;
    labels := [];
    assert Machine.Run(s, []) == Machine.Moves(s);
    match act
    case Queue(queue) =>
      if !s.stopped && Fresh(queue, used) {
        labels := QueueIsRun(queue, used, pace, s, k, t);
      }
    case Timer =>
      var now := s.clock + Lapse(pace, k);
      var m := s.(clock := now);
      TickKeeps(s, now);
      RunOne(s, Machine.Tick(now));
      labels := [Machine.Tick(now)];
      if s.thread.CanFire(now) {
        FireKeeps(m);
        RunFirst(s, Machine.Tick(now), [Machine.TimerFires]);
        RunOne(m, Machine.TimerFires);
        labels := [Machine.Tick(now)] + [Machine.TimerFires];
      }
    case Lock =>
      if Awaits(s.thread) {
        var rounds :| Paced(s.clock, pace, k, rounds) && Machine.RoundsClimb(s.clock, rounds)
          && j == k + 2 * |rounds| && Machine.Proceed(s, rounds) == Machine.Moves(t);
        ProceedKeeps(s, rounds);
        ProceedTags(s, rounds, used);
        RunOne(s, Machine.TakeLock(rounds));
        labels := [Machine.TakeLock(rounds)];
      }
    case Softirq(req) =>
      if req in s.retiring {
        RetireKeeps(s, req);
        RetireTags(s, req, used);
        RunOne(s, Machine.Softirq(req));
        labels := [Machine.Softirq(req)];
      }
  }

  lemma {:induction false} ActsAreRun(acts: seq<Act>, pace: nat -> nat, s: Machine.State, k: nat, t: Machine.State,
      j: nat, seen: set<nat>) returns (labels: seq<Machine.Label>)
    requires Machine.Starts(s) && ActsDone(acts, pace, s, k, t, j, seen) && t.nextId <= Machine.ID_LIMIT
    ensures Machine.Run(s, labels) == Machine.Moves(t) && Inv(t) && TagsUsed(t.log, seen)
    decreases |acts|
  {
    hide Inv, TagsUsed, ActDone, Machine.Starts, Machine.Run;
    if |acts| == 0 {
      StartsInv(s);
      NothingUsed(s);
      labels := [];
      RunNone(s);
    } else {
      var front, last := acts[..|acts| - 1], acts[|acts| - 1];
      var m: Machine.State, i: nat, used: set<nat> :|
        ActsDone(front, pace, s, k, m, i, used) && ActDone(last, used, pace, m, i, t, j, seen);
      ActIds(last, used, pace, m, i, t, j, seen);
      var before := ActsAreRun(front, pace, s, k, m, i, used);
      var more := ActIsRun(last, used, pace, m, i, t, j, seen);
      RunJoins(s, before, more);
      labels := before + more;
    }
  }

  /** So where the acts lead is a state the state machine can reach, and all that is proved of those holds of it. */
  lemma ActsReach(acts: seq<Act>, pace: nat -> nat, s: Machine.State, k: nat, t: Machine.State, j: nat, seen: set<nat>)
    requires Machine.Starts(s) && ActsDone(acts, pace, s, k, t, j, seen) && t.nextId <= Machine.ID_LIMIT
    ensures Reached(t)
  {
    hide Inv, TagsUsed, ActsDone, Machine.Starts, Machine.Run;
    var labels := ActsAreRun(acts, pace, s, k, t, j, seen);
  }
}
