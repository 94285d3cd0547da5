/** The stop-and-wait exchange between the driver and the server. Datagrams both ways may be lost, and are sent again;
    requests and replies may overtake each other, and replies may be repeated without limit. Every call that returns
    amounts to one atomic call of the server. */
module StopAndWait {
  import opened Block
  import opened SsdSim
  import opened EmuServer

  /** `requests` is what is under way to the server, in the order sent; `replies` is every reply ever sent, any of which
      may still arrive any number of times. `executed` says whether the server has executed the current call, and
      `stoppedBy` which packet stopped it. `history` records the calls that returned. */
  datatype Link = Link(
    server: Server,
    stoppedBy: Option<Packet>,
    requests: seq<Packet>,
    replies: set<Reply>,
    waiting: Option<Packet>,
    got: Option<Reply>,
    executed: bool,
    history: seq<(Packet, Reply)>)

  datatype Step =
    | Call(p: Packet)    // a new request is sent
    | Resend             // the poll count ran out
    | LoseRequest(i: nat)
    | ServerReceives(i: nat)
    | ReplyArrives(r: Reply)
    | Return             // the polling loop sees the reply

  /** The id of the last call, if any. */
  function LastId(history: seq<(Packet, Reply)>): int {
    if |history| == 0 then 0 else history[|history| - 1].0.id
  }

  /** The driver sends a whole sector with every write. */
  predicate Whole(p: Packet) {
    p.body.WriteSector? ==> |p.body.payload| == SECTOR_SIZE
  }

  /** A packet the driver may send: a new id, and a sector's worth of data in a write. */
  predicate Sendable(l: Link, p: Packet) {
    LastId(l.history) < p.id && Whole(p)
  }

  /** Any request under way may be the next to arrive, except that resets, which the driver sends before anything else,
      neither overtake nor are overtaken: the server would execute a late copy of one. */
  predicate CanArrive(requests: seq<Packet>, i: nat) {
    && i < |requests|
    && (forall j | 0 <= j < i :: !requests[j].body.Reset?)
    && (requests[i].body.Reset? ==> i == 0)
  }

  predicate Enabled(l: Link, s: Step) {
    match s
    case Call(p) => l.waiting.None? && Sendable(l, p)
    case Resend => l.waiting.Some?
    case LoseRequest(i) => i < |l.requests|
    case ServerReceives(i) => CanArrive(l.requests, i) && l.stoppedBy.None?
    case ReplyArrives(r) => r in l.replies
    case Return => l.waiting.Some? && l.got.Some?
  }

  function Without(requests: seq<Packet>, i: nat): (rest: seq<Packet>)
    requires i < |requests|
    ensures |rest| == |requests| - 1
    ensures forall k | 0 <= k < |rest| :: rest[k] == requests[if k < i then k else k + 1]
  {
    requests[..i] + requests[i + 1..]
  }

  function Apply(l: Link, s: Step): Link
    requires Enabled(l, s)
  {
    match s
    case Call(p) => l.(requests := l.requests + [p], waiting := Some(p), got := None, executed := false)
    case Resend => l.(requests := l.requests + [l.waiting.value])
    case LoseRequest(i) => l.(requests := Without(l.requests, i))
    case ServerReceives(i) => Received(l, i)
    case ReplyArrives(r) =>
      // The receive routine compares the id with the one being waited for, and drops everything else.
      if l.waiting.Some? && r.id == l.waiting.value.id then l.(got := Some(r)) else l
    case Return =>
      l.(waiting := None, got := None, executed := false, history := l.history + [(l.waiting.value, l.got.value)])
  }

  function Received(l: Link, i: nat): Link
    requires i < |l.requests|
  {
    var p, rest := l.requests[i], Without(l.requests, i);
    match Serve(l.server, p)
    case Answers(sv, r) =>
      l.(server := sv, requests := rest, replies := l.replies + {r}, executed := l.executed || l.waiting == Some(p))
    case Silent(sv) => l.(server := sv, requests := rest)
    case Stops => l.(stoppedBy := Some(p))
  }

  /** The specification: the server executes each call once, in order, and its reply is the one returned. */
  function Atomic(sv: Server, history: seq<(Packet, Reply)>): Option<Server> {
    if |history| == 0 then
      Some(sv)
    else
      match Atomic(sv, history[..|history| - 1])
      case None => None
      case Some(before) =>
        var (p, r) := history[|history| - 1];
        var served := Serve(before, p);
        if served.Answers? && served.reply == r && (p.body.Reset? || before.maxId < p.id) then Some(served.server)
        else None
  }

  // The invariant.

  /** The last call executed: the current one, or the last that returned. */
  function LastExecuted(l: Link): Option<Packet> {
    if l.waiting.Some? && l.executed then l.waiting
    else if |l.history| > 0 then Some(l.history[|l.history| - 1].0)
    else None
  }

  /** The calls made so far. */
  predicate Known(l: Link, p: Packet) {
    l.waiting == Some(p) || exists k | 0 <= k < |l.history| :: l.history[k].0 == p
  }

  /** Ids grow from call to call. */
  predicate Growing(l: Link) {
    && (forall j, k | 0 <= j < k < |l.history| :: l.history[j].0.id < l.history[k].0.id)
    && (forall k | 0 <= k < |l.history| :: 0 < l.history[k].0.id)
    && (l.waiting.Some? ==> LastId(l.history) < l.waiting.value.id && Whole(l.waiting.value))
  }

  /** What is under way: copies of calls, in order around resets; no copy is left of a call that a reset followed, and
      none of a reset that a later call followed. */
  predicate UnderWay(l: Link) {
    && (forall i | 0 <= i < |l.requests| :: Known(l, l.requests[i]))
    && (forall i, j | 0 <= i < j < |l.requests| && (l.requests[i].body.Reset? || l.requests[j].body.Reset?) ::
          l.requests[i].id <= l.requests[j].id)
    && (LastExecuted(l).Some? ==>
          forall i | 0 <= i < |l.requests| && (l.requests[i].body.Reset? || LastExecuted(l).value.body.Reset?) ::
            LastExecuted(l).value.id <= l.requests[i].id)
  }

  /** A copy of the last call would get the same reply again, and change nothing. */
  predicate Settled(sv: Server, history: seq<(Packet, Reply)>) {
    if |history| == 0 then
      sv.maxId <= 0
    else
      var (p, r) := history[|history| - 1];
      Serve(sv, p) == Answers(sv, r) && r.id == p.id && sv.maxId == if p.body.Reset? then 0 else p.id
  }

  /** `before` is the server as the completed calls left it; the server is still there, or has executed the current call
      and sent its reply. */
  predicate Between(l: Link, before: Server) {
    if l.executed then
      l.waiting.Some? && exists r | r in l.replies :: Serve(before, l.waiting.value) == Answers(l.server, r)
    else
      l.server == before
  }

  /** A reply with the id of the current call is the reply to it, and means that it has been executed. */
  predicate Current(l: Link, before: Server, r: Reply) {
    l.waiting.Some? && r.id == l.waiting.value.id ==>
      l.executed && Serve(before, l.waiting.value) == Answers(l.server, r)
  }

  predicate RepliesMatch(l: Link, before: Server) {
    && (forall r | r in l.replies :: Current(l, before, r))
    && (l.got.Some? ==> l.waiting.Some? && l.got.value.id == l.waiting.value.id && l.got.value in l.replies)
    && (forall r | r in l.replies :: r.id <= if l.waiting.Some? then l.waiting.value.id else LastId(l.history))
  }

  /** A copy of a call arrives after a later call was executed. */
  predicate Stale(l: Link, p: Packet) {
    LastExecuted(l).Some? && !p.body.Reset? && p.id < LastExecuted(l).value.id
  }

  /** Executing the current call, which has not happened yet, would stop the server. */
  predicate NeverEnds(l: Link, p: Packet) {
    l.waiting == Some(p) && !l.executed && Serve(l.server, p).Stops?
  }

  predicate StoppedRightly(l: Link) {
    l.stoppedBy.Some? ==> Stale(l, l.stoppedBy.value) || NeverEnds(l, l.stoppedBy.value)
  }

  predicate Inv(start: Server, l: Link) {
    match Atomic(start, l.history)
    case None => false
    case Some(before) =>
      && Growing(l) && UnderWay(l) && Settled(before, l.history) && Between(l, before) && RepliesMatch(l, before)
      && StoppedRightly(l)
  }

  lemma HistoryGrows(start: Server, history: seq<(Packet, Reply)>, x: (Packet, Reply), before: Server)
    requires Atomic(start, history) == Some(before)
    requires Serve(before, x.0).Answers? && Serve(before, x.0).reply == x.1
      && (x.0.body.Reset? || before.maxId < x.0.id)
    ensures Atomic(start, history + [x]) == Some(Serve(before, x.0).server)
  {
    hide Serve;
    assert (history + [x])[..|history|] == history;
  }

  // What the server does with a packet.

  /** A request with a new id is executed, and answered under that id; then that id is the last one executed. */
  lemma NewIsExecuted(sv: Server, p: Packet)
    requires p.body.Reset? || sv.maxId < p.id
    ensures Serve(sv, p).Answers? ==>
              Serve(sv, p).reply.id == p.id && Serve(sv, p).server.maxId == if p.body.Reset? then 0 else p.id
  {
    hide SubmitRequest, NextResponses, Splice, Setup;
  }

  lemma NeverSilent(sv: Server, p: Packet)
    requires Whole(p)
    ensures !Serve(sv, p).Silent?
  {
    hide SubmitRequest, NextResponses, Splice, Setup;
  }

  /** Served before the last one executed: the server stops. */
  lemma OlderStops(sv: Server, p: Packet)
    requires !p.body.Reset? && p.id < sv.maxId
    ensures Serve(sv, p).Stops?
  {
  }

  lemma CallKeeps(start: Server, l: Link, p: Packet)
    requires Inv(start, l) && Enabled(l, Call(p))
    ensures Inv(start, Apply(l, Call(p)))
  {
    hide Serve, Atomic;
    var t := Apply(l, Call(p));
    forall i | 0 <= i < |l.requests| ensures Known(t, l.requests[i]) && l.requests[i].id <= LastId(l.history) {
      var k :| 0 <= k < |l.history| && l.history[k].0 == l.requests[i];
      assert t.history[k].0 == l.requests[i];
    }
    assert LastExecuted(t) == LastExecuted(l);
  }

  lemma LoseKeeps(start: Server, l: Link, i: nat)
    requires Inv(start, l) && Enabled(l, LoseRequest(i))
    ensures Inv(start, Apply(l, LoseRequest(i)))
  {
    hide Serve, Atomic;
    FewerUnderWay(l, Apply(l, LoseRequest(i)), i);
  }

  /** One packet less under way, and otherwise the same calls. */
  lemma FewerUnderWay(l: Link, t: Link, i: nat)
    requires UnderWay(l) && i < |l.requests| && t.requests == Without(l.requests, i)
    requires t.waiting == l.waiting && t.history == l.history && LastExecuted(t) == LastExecuted(l)
    ensures UnderWay(t)
  {
    forall k | 0 <= k < |t.requests| ensures Known(t, t.requests[k]) {
      assert Known(l, l.requests[if k < i then k else k + 1]);
    }
  }

  lemma ResendKeeps(start: Server, l: Link)
    requires Inv(start, l) && Enabled(l, Resend)
    ensures Inv(start, Apply(l, Resend))
  {
    hide Serve, Atomic;
    var t := Apply(l, Resend);
    forall i | 0 <= i < |l.requests| ensures Known(t, l.requests[i]) && l.requests[i].id <= l.waiting.value.id {
      assert Known(l, l.requests[i]);
    }
    assert LastExecuted(t) == LastExecuted(l);
  }

  lemma ArriveKeeps(start: Server, l: Link, r: Reply)
    requires Inv(start, l) && Enabled(l, ReplyArrives(r))
    ensures Inv(start, Apply(l, ReplyArrives(r)))
  {
    hide Serve, Atomic;
    var t := Apply(l, ReplyArrives(r));
    assert LastExecuted(t) == LastExecuted(l);
    forall i | 0 <= i < |l.requests| ensures Known(t, l.requests[i]) {
      assert Known(l, l.requests[i]);
    }
  }

  lemma ReturnKeeps(start: Server, l: Link)
    requires Inv(start, l) && Enabled(l, Return)
    ensures Inv(start, Apply(l, Return))
  {
    hide Serve, Atomic, UnderWay;
    var before := Atomic(start, l.history).value;
    var p, r := l.waiting.value, l.got.value;
    LastIdBounds(start, l);
    Redelivery(before, p);
    NewIsExecuted(before, p);
    HistoryGrows(start, l.history, (p, r), before);
    var t := Apply(l, Return);
    assert t.history[|t.history| - 1] == (p, r);
    ReturnUnderWay(l, t);
  }

  lemma ReturnUnderWay(l: Link, t: Link)
    requires UnderWay(l) && l.waiting.Some? && l.executed && l.got.Some?
    requires t == l.(waiting := None, got := None, executed := false,
                     history := l.history + [(l.waiting.value, l.got.value)])
    ensures UnderWay(t) && LastExecuted(t) == LastExecuted(l)
  {
    assert t.history[..|l.history|] == l.history;
    forall i | 0 <= i < |l.requests| ensures Known(t, l.requests[i]) {
      KnownStays(l, t, l.requests[i]);
    }
  }

  lemma KnownStays(l: Link, t: Link, p: Packet)
    requires Known(l, p) && l.waiting.Some? && |t.history| == |l.history| + 1 && t.history[..|l.history|] == l.history
    requires t.history[|l.history|].0 == l.waiting.value
    ensures Known(t, p)
  {
    if l.waiting != Some(p) {
      var k :| 0 <= k < |l.history| && l.history[k].0 == p;
      assert t.history[k] == t.history[..|l.history|][k];
    }
  }

  /** The server as the completed calls left it has not seen an id beyond the last call's. */
  lemma LastIdBounds(start: Server, l: Link)
    requires Inv(start, l)
    ensures Atomic(start, l.history).value.maxId <= LastId(l.history)
  {
    hide Serve, Atomic;
  }

  /** The server receives the current call: it executes it, or, if it has, sends the same reply again. */
  lemma CurrentCopyKeeps(start: Server, l: Link, i: nat)
    requires Inv(start, l) && Enabled(l, ServerReceives(i)) && l.waiting == Some(l.requests[i])
    ensures Inv(start, Received(l, i))
    ensures Received(l, i).stoppedBy.Some? <==> NeverEnds(l, l.requests[i])
  {
    var before, p := Atomic(start, l.history).value, l.requests[i];
    LastIdBounds(start, l);
    NeverSilent(before, p);
    NewIsExecuted(before, p);
    if Serve(before, p).Answers? {
      Redelivery(before, p);
    }
    hide Serve, Atomic, Without;
    var t := Received(l, i);
    if t.stoppedBy.None? {
      if l.executed {
        FewerUnderWay(l, t, i);
      } else {
        ExecutedUnderWay(l, t, i);
      }
    } else {
      SameUnderWay(l, t);
    }
  }

  lemma SameUnderWay(l: Link, t: Link)
    requires UnderWay(l) && t == l.(stoppedBy := t.stoppedBy)
    ensures UnderWay(t) && LastExecuted(t) == LastExecuted(l)
  {
    forall i | 0 <= i < |l.requests| ensures Known(t, l.requests[i]) {
      assert Known(l, l.requests[i]);
    }
  }

  /** Once the current call is executed, nothing that it must not meet is under way. */
  lemma ExecutedUnderWay(l: Link, t: Link, i: nat)
    requires UnderWay(l) && CanArrive(l.requests, i) && l.waiting == Some(l.requests[i])
    requires t.requests == Without(l.requests, i) && t.waiting == l.waiting && t.history == l.history && t.executed
    ensures UnderWay(t)
  {
    forall k | 0 <= k < |t.requests| ensures Known(t, t.requests[k]) {
      assert Known(l, l.requests[if k < i then k else k + 1]);
    }
  }

  /** The server receives a copy of a call that has returned: if it is the last one executed, nothing changes and the
      old reply goes out again; otherwise a later one was executed, and the server stops. */
  lemma OldCopyKeeps(start: Server, l: Link, i: nat)
    requires Inv(start, l) && Enabled(l, ServerReceives(i)) && l.waiting != Some(l.requests[i])
    ensures Inv(start, Received(l, i))
    ensures Received(l, i).stoppedBy.Some? <==> Stale(l, l.requests[i])
  {
    hide Serve, Atomic, Without;
    var before, p := Atomic(start, l.history).value, l.requests[i];
    OldCopyServed(start, l, i);
    var t := Received(l, i);
    if Stale(l, p) {
      SameUnderWay(l, t);
    } else {
      assert LastExecuted(t) == LastExecuted(l);
      FewerUnderWay(l, t, i);
    }
  }

  lemma OldCopyServed(start: Server, l: Link, i: nat)
    requires Inv(start, l) && Enabled(l, ServerReceives(i)) && l.waiting != Some(l.requests[i])
    ensures var p := l.requests[i];
            && p.id <= LastId(l.history)
            && if Stale(l, p) then Serve(l.server, p).Stops?
               else exists r: Reply :: r.id == p.id && Serve(l.server, p) == Answers(l.server, r) && !l.executed
  {
    var before, p := Atomic(start, l.history).value, l.requests[i];
    assert Known(l, p);
    var k :| 0 <= k < |l.history| && l.history[k].0 == p;
    var last := l.history[|l.history| - 1];
    if Stale(l, p) {
      if l.executed {
        LastIdBounds(start, l);
        NewIsExecuted(before, l.waiting.value);
      }
      hide Atomic;
      hide Serve;
      OlderStops(l.server, p);
    } else {
      hide Serve, Atomic;
      assert LastExecuted(l).value.id <= p.id;
      assert !l.executed;
      assert k == |l.history| - 1;
      assert last.1.id == p.id && Serve(l.server, p) == Answers(l.server, last.1);
    }
  }

  lemma ApplyKeeps(start: Server, l: Link, s: Step)
    requires Inv(start, l) && Enabled(l, s)
    ensures Inv(start, Apply(l, s))
  {
    hide Inv, Received;
    match s
    case Call(p) => CallKeeps(start, l, p);
    case Resend => ResendKeeps(start, l);
    case LoseRequest(i) => LoseKeeps(start, l, i);
    case ServerReceives(i) =>
      if l.waiting == Some(l.requests[i]) { CurrentCopyKeeps(start, l, i); } else { OldCopyKeeps(start, l, i); }
    case ReplyArrives(r) => ArriveKeeps(start, l, r);
    case Return => ReturnKeeps(start, l);
  }

  // Whole runs of the link.

  predicate Fresh(l: Link) {
    && l.server.maxId <= 0 && l.stoppedBy == None && l.requests == [] && l.replies == {} && l.waiting == None
    && l.got == None && !l.executed && l.history == []
  }

  function Run(l: Link, steps: seq<Step>): Option<Link>
    decreases |steps|
  {
    if |steps| == 0 then Some(l)
    else if Enabled(l, steps[0]) then Run(Apply(l, steps[0]), steps[1..]) else None
  }

  lemma {:induction false} RunKeeps(start: Server, l: Link, steps: seq<Step>)
    requires Inv(start, l) && Run(l, steps).Some?
    ensures Inv(start, Run(l, steps).value)
    decreases |steps|
  {
    if |steps| == 0 {
    } else {
      hide Inv, Enabled, Apply;
      ApplyKeeps(start, l, steps[0]);
      RunKeeps(start, Apply(l, steps[0]), steps[1..]);
    }
  }

  lemma FreshInv(l: Link)
    requires Fresh(l)
    ensures Inv(l.server, l)
  {
  }

  /** Under any loss and any overtaking of requests and replies, any repetition of replies and any number of resends:
      the calls that returned are exactly a sequence of atomic calls of the server, each executed once and in order
      and each returning the reply the server computed for it; between two calls the server is where these calls left
      it, and during a call it has executed that call at most once. */
  lemma ReturnsAreAtomic(l: Link, steps: seq<Step>)
    requires Fresh(l) && Run(l, steps).Some?
    ensures var t := Run(l, steps).value;
            && Atomic(l.server, t.history).Some?
            && var before := Atomic(l.server, t.history).value;
            && (t.waiting.None? ==> t.server == before)
            && (t.waiting.Some? ==> t.server == before || (Serve(before, t.waiting.value).Answers?
                                                           && t.server == Serve(before, t.waiting.value).server))
            && (forall i | 0 <= i < |t.history| :: t.history[i].1.id == t.history[i].0.id)
  {
    hide Run, Serve;
    FreshInv(l);
    RunKeeps(l.server, l, steps);
    AtomicIds(l.server, Run(l, steps).value.history);
  }

  /** In every state of every run, a packet that arrives stops the server for good if and only if a later call has been
      executed already, or the packet is the current call and executing it never ends. */
  lemma StopsExactly(l: Link, steps: seq<Step>, i: nat)
    requires Fresh(l) && Run(l, steps).Some? && Enabled(Run(l, steps).value, ServerReceives(i))
    ensures var t := Run(l, steps).value;
            var p := t.requests[i];
            Apply(t, ServerReceives(i)).stoppedBy.Some? <==> Stale(t, p) || NeverEnds(t, p)
  {
    hide Run, Received;
    FreshInv(l);
    RunKeeps(l.server, l, steps);
    var t := Run(l, steps).value;
    if t.waiting == Some(t.requests[i]) {
      CurrentCopyKeeps(l.server, t, i);
      NotStale(l.server, t, i);
    } else {
      OldCopyKeeps(l.server, t, i);
    }
  }

  lemma NotStale(start: Server, l: Link, i: nat)
    requires Inv(start, l) && i < |l.requests| && l.waiting == Some(l.requests[i])
    ensures !Stale(l, l.requests[i])
  {
    hide Serve, Atomic;
  }

  lemma {:induction false} AtomicIds(sv: Server, history: seq<(Packet, Reply)>)
    requires Atomic(sv, history).Some?
    ensures forall i | 0 <= i < |history| :: history[i].1.id == history[i].0.id
    decreases |history|
  {
    if |history| == 0 {
    } else {
      var front := history[..|history| - 1];
      AtomicIds(sv, front);
      NewIsExecuted(Atomic(sv, front).value, history[|history| - 1].0);
      hide Serve;
      assert forall i | 0 <= i < |front| :: history[i] == front[i];
    }
  }

  /** Two runs that make the same calls, however often each was polled, resent, lost or repeated, return the same
      replies and leave the same server behind. */
  lemma ExchangesAgree(l: Link, one: seq<Step>, other: seq<Step>)
    requires Fresh(l) && Run(l, one).Some? && Run(l, other).Some?
    requires var a, b := Run(l, one).value, Run(l, other).value;
             && a.waiting.None? && b.waiting.None? && |a.history| == |b.history|
             && (forall i | 0 <= i < |a.history| :: a.history[i].0 == b.history[i].0)
    ensures Run(l, one).value.history == Run(l, other).value.history
    ensures Run(l, one).value.server == Run(l, other).value.server
  {
    hide Run, Serve;
    ReturnsAreAtomic(l, one);
    ReturnsAreAtomic(l, other);
    AtomicIsDeterministic(l.server, Run(l, one).value.history, Run(l, other).value.history);
  }

  lemma {:induction false} AtomicIsDeterministic(sv: Server, a: seq<(Packet, Reply)>, b: seq<(Packet, Reply)>)
    requires Atomic(sv, a).Some? && Atomic(sv, b).Some? && |a| == |b| && forall i | 0 <= i < |a| :: a[i].0 == b[i].0
    ensures a == b
    decreases |a|
  {
    if |a| == 0 {
    } else {
      hide Serve;
      AtomicIsDeterministic(sv, a[..|a| - 1], b[..|b| - 1]);
      assert a == a[..|a| - 1] + [a[|a| - 1]];
      assert b == b[..|b| - 1] + [b[|b| - 1]];
    }
  }

  // Requests that stay in order.

  predicate InOrder(steps: seq<Step>) {
    forall k | 0 <= k < |steps| && steps[k].ServerReceives? :: steps[k].i == 0
  }

  /** Old copies come before newer ones, and none is older than the last call executed. */
  predicate Fifo(l: Link) {
    && (forall i, j | 0 <= i < j < |l.requests| :: l.requests[i].id <= l.requests[j].id)
    && (LastExecuted(l).Some? ==> forall i | 0 <= i < |l.requests| :: LastExecuted(l).value.id <= l.requests[i].id)
    && (l.stoppedBy.Some? ==> NeverEnds(l, l.stoppedBy.value))
  }

  lemma FifoKeeps(start: Server, l: Link, s: Step)
    requires Inv(start, l) && Enabled(l, s) && Fifo(l) && (s.ServerReceives? ==> s.i == 0)
    ensures Fifo(Apply(l, s))
  {
    hide Serve, Atomic, Inv, Fifo, Received;
    match s
    case ServerReceives(i) =>
      if l.waiting == Some(l.requests[i]) { CurrentCopyKeeps(start, l, i); } else { OldCopyKeeps(start, l, i); }
      FifoReceives(start, l);
    case _ =>
      FifoOther(start, l, s);
  }

  lemma FifoOther(start: Server, l: Link, s: Step)
    requires Inv(start, l) && Enabled(l, s) && Fifo(l) && !s.ServerReceives?
    ensures Fifo(Apply(l, s))
  {
    hide Serve, Inv;
    KnownIds(start, l);
    match s
    case Return =>
      StoppedWaits(start, l);
    case LoseRequest(i) =>
      FifoLoses(l, i);
    case _ =>
  }

  lemma FifoLoses(l: Link, i: nat)
    requires Fifo(l) && i < |l.requests|
    ensures Fifo(l.(requests := Without(l.requests, i)))
  {
    hide Serve;
  }

  lemma KnownIds(start: Server, l: Link)
    requires Inv(start, l)
    ensures forall i | 0 <= i < |l.requests| ::
              l.requests[i].id <= if l.waiting.Some? then l.waiting.value.id else LastId(l.history)
    ensures l.waiting.Some? ==> LastId(l.history) < l.waiting.value.id
    ensures l.executed ==> l.waiting.Some?
  {
    hide Serve, Atomic;
    forall i | 0 <= i < |l.requests|
      ensures l.requests[i].id <= if l.waiting.Some? then l.waiting.value.id else LastId(l.history)
    {
      assert Known(l, l.requests[i]);
    }
  }

  lemma FifoReceives(start: Server, l: Link)
    requires Inv(start, l) && Enabled(l, ServerReceives(0)) && Fifo(l)
    requires var t := Received(l, 0); t.stoppedBy.Some? <==>
               if l.waiting == Some(l.requests[0]) then NeverEnds(l, l.requests[0]) else Stale(l, l.requests[0])
    ensures Fifo(Received(l, 0))
  {
    hide Serve, Inv;
  }

  /** A call that has its reply has been executed, so it is not what stopped the server. */
  lemma StoppedWaits(start: Server, l: Link)
    requires Inv(start, l) && l.waiting.Some? && l.got.Some?
    ensures l.executed
  {
    hide Serve, Atomic;
  }

  lemma {:induction false} FifoRun(start: Server, l: Link, steps: seq<Step>)
    requires Inv(start, l) && Run(l, steps).Some? && Fifo(l) && InOrder(steps)
    ensures Fifo(Run(l, steps).value)
    decreases |steps|
  {
    hide Inv, Enabled, Apply, Fifo;
    if |steps| == 0 {
    } else {
      ApplyKeeps(start, l, steps[0]);
      FifoKeeps(start, l, steps[0]);
      FifoRun(start, Apply(l, steps[0]), steps[1..]);
    }
  }

  /** If requests arrive in the order in which they were sent, the server stops only on a call that never ends. */
  lemma InOrderStops(l: Link, steps: seq<Step>)
    requires Fresh(l) && Run(l, steps).Some? && InOrder(steps) && Run(l, steps).value.stoppedBy.Some?
    ensures var t := Run(l, steps).value; NeverEnds(t, t.stoppedBy.value)
  {
    hide Run, Serve;
    FreshInv(l);
    FifoRun(l.server, l, steps);
  }

  // A call can return.

  lemma {:induction false} RunJoins(l: Link, steps: seq<Step>, more: seq<Step>)
    requires Run(l, steps).Some?
    ensures Run(l, steps + more) == Run(Run(l, steps).value, more)
    decreases |steps|
  {
    hide Enabled, Apply;
    if |steps| == 0 {
      assert steps + more == more;
    } else {
      assert (steps + more)[1..] == steps[1..] + more;
      RunJoins(Apply(l, steps[0]), steps[1..], more);
    }
  }

  lemma RunOne(l: Link, s: Step)
    requires Enabled(l, s)
    ensures Run(l, [s]) == Some(Apply(l, s))
  {
    hide Enabled, Apply;
    assert [s][1..] == [];
  }

  lemma {:induction false} LoseAll(l: Link) returns (steps: seq<Step>)
    ensures Run(l, steps) == Some(l.(requests := []))
    decreases |l.requests|
  {
    if l.requests == [] {
      steps := [];
    } else {
      var t := Apply(l, LoseRequest(0));
      var rest := LoseAll(t);
      RunOne(l, LoseRequest(0));
      steps := [LoseRequest(0)] + rest;
      RunJoins(l, [LoseRequest(0)], rest);
    }
  }

  /** Whatever has been lost, overtaken or left under way so far: as long as the server runs and executing the
      current call ends, the call can still return, with the reply the server has for it. */
  lemma CanReturn(start: Server, l: Link) returns (steps: seq<Step>)
    requires Inv(start, l) && l.waiting.Some? && l.stoppedBy.None? && !NeverEnds(l, l.waiting.value)
    ensures Run(l, steps).Some? && Run(l, steps).value.got.Some? && Run(l, steps).value.waiting == l.waiting
  {
    hide Enabled, Apply, Run;
    if l.executed {
      var r := ReplyThere(start, l);
      ArrivesIs(l, r);
      steps := [ReplyArrives(r)];
      RunOne(l, ReplyArrives(r));
    } else {
      var losses := LoseAll(l);
      var a := l.(requests := []);
      var b, c, r := ExecuteNow(start, a);
      RunKeeps(start, l, losses);
      ArrivesIs(c, r);
      RunOne(a, Resend);
      RunOne(b, ServerReceives(0));
      RunOne(c, ReplyArrives(r));
      RunJoins(a, [Resend], [ServerReceives(0)]);
      RunJoins(a, [Resend] + [ServerReceives(0)], [ReplyArrives(r)]);
      RunJoins(l, losses, [Resend] + [ServerReceives(0)] + [ReplyArrives(r)]);
      steps := losses + ([Resend] + [ServerReceives(0)] + [ReplyArrives(r)]);
    }
  }

  lemma ReplyThere(start: Server, l: Link) returns (r: Reply)
    requires Inv(start, l) && l.executed
    ensures l.waiting.Some? && r in l.replies && r.id == l.waiting.value.id
  {
    hide Serve, Atomic;
    var before := Atomic(start, l.history).value;
    LastIdBounds(start, l);
    NewIsExecuted(before, l.waiting.value);
    r :| r in l.replies && Serve(before, l.waiting.value) == Answers(l.server, r);
  }

  lemma ArrivesIs(l: Link, r: Reply)
    requires r in l.replies && l.waiting.Some? && r.id == l.waiting.value.id
    ensures Enabled(l, ReplyArrives(r)) && Apply(l, ReplyArrives(r)) == l.(got := Some(r))
  {
  }

  /** With nothing else under way, the current call is sent again and executed. */
  lemma ExecuteNow(start: Server, l: Link) returns (b: Link, c: Link, r: Reply)
    requires Atomic(start, l.history).Some? && l.server == Atomic(start, l.history).value
      && Settled(l.server, l.history)
    requires Growing(l) && l.waiting.Some? && !l.executed && l.requests == [] && l.stoppedBy.None?
    requires !NeverEnds(l, l.waiting.value)
    ensures Enabled(l, Resend) && Apply(l, Resend) == b
    ensures Enabled(b, ServerReceives(0)) && Apply(b, ServerReceives(0)) == c
    ensures r in c.replies && c.waiting == l.waiting && r.id == l.waiting.value.id
  {
    hide Serve, Atomic;
    var p := l.waiting.value;
    NeverSilent(l.server, p);
    NewIsExecuted(l.server, p);
    b := l.(requests := [p]);
    c := Received(b, 0);
    r := Serve(l.server, p).reply;
  }
}
