/** communicate_with_emulator in its own form: send, poll until the reply is there, send again when polling takes too
    long. */
module Communicate {
  import opened Block
  import opened EmuServer
  import opened StopAndWait

  const POLL_COUNT_THRESHOLD: nat := 2_000_000

  /** What happens outside during one poll, and how long the poll takes. */
  datatype PollTurn = PollTurn(events: seq<Step>, elapsed: nat)

  class Client {
    var server: Server
    var stoppedBy: Option<Packet>
    var requests: seq<Packet>
    var replies: set<Reply>
    var waiting: Option<Packet>
    var got: Option<Reply>
    /** The polls of this run that are still to come. */
    var polls: seq<PollTurn>
    ghost var executed: bool
    ghost var history: seq<(Packet, Reply)>
    ghost const start: Server

    ghost function Abs(): Link
      reads this
    {
      Link(server, stoppedBy, requests, replies, waiting, got, executed, history)
    }

    /** Between two calls. */
    ghost predicate Idle()
      reads this
    {
      waiting == None && Inv(start, Abs())
    }

    constructor (sv: Server, script: seq<PollTurn>)
      requires sv.maxId <= 0
      ensures server == sv && polls == script && Idle() && Fresh(Abs()) && start == sv
    {
      server, stoppedBy := sv, None;
      requests, replies, waiting, got, executed, history := [], {}, None, None, false, [];
      polls, start := script, sv;
      new;
      FreshInv(Abs());
    }

    method Send(p: Packet)
      modifies this`requests
      ensures Abs() == old(Abs()).(requests := old(requests) + [p])
    {
      requests := requests + [p];
    }

    /** The receive routine: a reply is kept if it has the id being waited for, and dropped otherwise. */
    method Receive(r: Reply)
      requires r in replies
      modifies this`got
      ensures Enabled(old(Abs()), ReplyArrives(r)) && Abs() == Apply(old(Abs()), ReplyArrives(r))
    {
      if waiting.Some? && r.id == waiting.value.id {
        got := Some(r);
      }
    }

    /** The server takes one of the requests under way. */
    method ServerTakes(i: nat)
      requires CanArrive(requests, i) && stoppedBy == None
      modifies this`server, this`stoppedBy, this`requests, this`replies, this`executed
      ensures Enabled(old(Abs()), ServerReceives(i)) && Abs() == Apply(old(Abs()), ServerReceives(i))
    {
      hide Serve;
      var p := requests[i];
      match Serve(server, p) {
        case Answers(sv, r) =>
          server, requests, replies := sv, Without(requests, i), replies + {r};
          executed := executed || waiting == Some(p);
        case Silent(sv) =>
          server, requests := sv, Without(requests, i);
        case Stops =>
          stoppedBy := Some(p);
      }
    }

    method Lose(i: nat)
      requires i < |requests|
      modifies this`requests
      ensures Enabled(old(Abs()), LoseRequest(i)) && Abs() == Apply(old(Abs()), LoseRequest(i))
    {
      requests := Without(requests, i);
    }

    /** One thing that happens outside, if it can happen now. */
    method Happen(e: Step)
      modifies this`server, this`stoppedBy, this`requests, this`replies, this`got, this`executed
      ensures Abs() == if Outside(e) && Enabled(old(Abs()), e) then Apply(old(Abs()), e) else old(Abs())
    {
      match e {
        case LoseRequest(i) =>
          if i < |requests| { Lose(i); }
        case ServerReceives(i) =>
          if CanArrive(requests, i) && stoppedBy == None { ServerTakes(i); }
        case ReplyArrives(r) =>
          if r in replies { Receive(r); }
        case _ =>
      }
    }

    /** One poll: of what is to happen outside meanwhile, everything that can happen does, in order. */
    method Poll(events: seq<Step>)
      modifies this`server, this`stoppedBy, this`requests, this`replies, this`got, this`executed
      ensures Run(old(Abs()), Occurring(old(Abs()), events)) == Some(Abs())
    {
      hide Run, Occurring, Apply, Enabled;
      OccurringNone(Abs());
      for i := 0 to |events|
        invariant Run(old(Abs()), Occurring(old(Abs()), events[..i])) == Some(Abs())
      {
        OccurringMore(old(Abs()), events, i);
        Happen(events[i]);
      }
      assert events[..|events|] == events;
    }

    /** One exchange. Of the polls of the run it uses as many as it takes until its reply has come, and all if the reply
        does not come. The steps of the link are the call, what happens in these polls with a resend after every two
        millionth, and the return. A reply that is returned is the one the server gives when it executes this request,
        once, in the state the last exchange left it in. */
    method Exchange(p: Packet) returns (reply: Option<Reply>, elapsed: nat, ghost used: nat, ghost steps: seq<Step>)
      requires Idle() && LastId(history) < p.id && Whole(p)
      modifies this
      ensures Inv(start, Abs())
      ensures reply.Some? ==> Idle() && Serve(old(server), p) == Answers(server, reply.value)
      ensures reply.Some? ==> history == old(history) + [(p, reply.value)] && LastId(history) == p.id
      ensures reply.None? ==> waiting == Some(p) && got == None && polls == []
      ensures used <= |old(polls)| && polls == old(polls)[used..] && elapsed == TimeOf(old(polls)[..used])
      ensures steps == [Call(p)] + Woven(Called(old(Abs()), p), old(polls), used)
                       + if reply.Some? then [Return] else []
      ensures Run(old(Abs()), steps) == Some(Abs())
      ensures forall n | 0 <= n < used :: Polled(Called(old(Abs()), p), old(polls), n).got.None?
      ensures Polled(Called(old(Abs()), p), old(polls), used).got == reply
    {
      hide Inv, Apply, Enabled, Serve, Run, Woven, Polled, TimeOf;
      ghost var before, script := Abs(), polls;
      CallIs(Abs(), p);
      CallKeeps(start, Abs(), p);
      waiting, got, executed := Some(p), None, false;
      Send(p);
      ghost var called := Called(before, p);
      PolledNone(called, script);
      TimeNone();
      var pollCount := 0;
      elapsed, used := 0, 0;
      while got.None? && polls != []
        invariant waiting == Some(p) && history == before.history && Inv(start, Abs())
        invariant used <= |script| && polls == script[used..] && pollCount == used % POLL_COUNT_THRESHOLD
        invariant elapsed == TimeOf(script[..used]) && Abs() == Polled(called, script, used)
        invariant forall n | 0 <= n < used :: Polled(called, script, n).got.None?
        decreases |polls|
      {
        ghost var unpolled := Abs();
        PolledMore(called, script, used);
        TimeMore(script, used);
        CountPolls(used);
        var poll := polls[0];
        polls := polls[1..];
        Poll(poll.events);
        RunKeeps(start, unpolled, Occurring(unpolled, poll.events));
        OccurringFrame(unpolled, poll.events);
        elapsed := elapsed + poll.elapsed;
        pollCount := pollCount + 1;
        used := used + 1;
        if pollCount >= POLL_COUNT_THRESHOLD {
          ResendIs(Abs());
          ResendKeeps(start, Abs());
          Send(p);
          pollCount := 0;
        }
      }
      reply := got;
      ghost var polled := Abs();
      steps := [Call(p)] + Woven(called, script, used);
      WovenRuns(before, p, script, used);
      if reply.Some? {
        ReturnIs(Abs());
        ReturnKeeps(start, Abs());
        waiting, got, executed := None, None, false;
        history := history + [(p, reply.value)];
        ReturnedAtomically(start, before, Abs(), p, reply.value);
        RunOne(polled, Return);
        RunJoins(before, steps, [Return]);
        steps := steps + [Return];
      }
    }
  }

  // What a run of polls amounts to.

  /** What the network and the server do. */
  predicate Outside(e: Step) {
    e.LoseRequest? || e.ServerReceives? || e.ReplyArrives?
  }

  /** Those of `events` that can happen when their turn comes. */
  function Occurring(l: Link, events: seq<Step>): (steps: seq<Step>)
    ensures Run(l, steps).Some?
  {
    if |events| == 0 then
      []
    else
      var before, e := Occurring(l, events[..|events| - 1]), events[|events| - 1];
      var m := Run(l, before).value;
      if Outside(e) && Enabled(m, e) then
        RunOne(m, e);
        RunJoins(l, before, [e]);
        before + [e]
      else
        before
  }

  lemma OccurringNone(l: Link)
    ensures Occurring(l, []) == [] && Run(l, []) == Some(l)
  {
  }

  lemma OccurringMore(l: Link, events: seq<Step>, i: nat)
    requires i < |events|
    ensures var m := Run(l, Occurring(l, events[..i])).value;
            Run(l, Occurring(l, events[..i + 1])) ==
            Some(if Outside(events[i]) && Enabled(m, events[i]) then Apply(m, events[i]) else m)
  {
    hide Enabled, Apply, Run;
    var before, e := Occurring(l, events[..i]), events[i];
    assert events[..i + 1][..i] == events[..i];
    var m := Run(l, before).value;
    if Outside(e) && Enabled(m, e) {
      RunOne(m, e);
      RunJoins(l, before, [e]);
    }
  }

  /** What happens outside changes neither what is waited for nor the calls that returned, and resends nothing. */
  lemma {:induction false} OccurringFrame(l: Link, events: seq<Step>)
    ensures var m := Run(l, Occurring(l, events)).value; m.waiting == l.waiting && m.history == l.history
    ensures Resends(Occurring(l, events)) == 0
    decreases |events|
  {
    hide Run, Serve, Enabled, Apply, Resends;
    if |events| == 0 {
      OccurringNone(l);
      NoResends();
    } else {
      var front, e := events[..|events| - 1], events[|events| - 1];
      OccurringFrame(l, front);
      OccurringMore(l, events, |front|);
      assert events[..|front| + 1] == events;
      ResendsMore(Occurring(l, front), e);
      if Outside(e) {
        OutsideFrame(Run(l, Occurring(l, front)).value, e);
      }
    }
  }

  lemma OutsideFrame(m: Link, e: Step)
    requires Outside(e)
    ensures Enabled(m, e) ==> Apply(m, e).waiting == m.waiting && Apply(m, e).history == m.history
  {
    hide Serve;
  }

  lemma NoResends()
    ensures Resends([]) == 0
  {
  }

  /** The link once the call has been sent. */
  function Called(l: Link, p: Packet): Link {
    l.(requests := l.requests + [p], waiting := Some(p), got := None, executed := false)
  }

  /** The steps of the first `n` polls: what occurs in each, and a resend after every poll that reaches the
      threshold. */
  function Woven(l: Link, polls: seq<PollTurn>, n: nat): (steps: seq<Step>)
    requires n <= |polls| && l.waiting.Some?
    ensures Run(l, steps).Some? && Run(l, steps).value.waiting == l.waiting
  {
    if n == 0 then
      []
    else
      var before := Woven(l, polls, n - 1);
      var m := Run(l, before).value;
      var happened := Occurring(m, polls[n - 1].events);
      OccurringFrame(m, polls[n - 1].events);
      RunJoins(l, before, happened);
      if n % POLL_COUNT_THRESHOLD == 0 then
        RunOne(Run(m, happened).value, Resend);
        RunJoins(l, before + happened, [Resend]);
        before + happened + [Resend]
      else
        before + happened
  }

  /** The link after `n` polls. */
  function Polled(l: Link, polls: seq<PollTurn>, n: nat): Link
    requires n <= |polls| && l.waiting.Some?
  {
    Run(l, Woven(l, polls, n)).value
  }

  lemma PolledNone(l: Link, polls: seq<PollTurn>)
    requires l.waiting.Some?
    ensures Polled(l, polls, 0) == l
  {
  }

  lemma PolledMore(l: Link, polls: seq<PollTurn>, n: nat)
    requires n < |polls| && l.waiting.Some?
    ensures var m := Polled(l, polls, n);
            var after := Run(m, Occurring(m, polls[n].events)).value;
            Polled(l, polls, n + 1) ==
            if (n + 1) % POLL_COUNT_THRESHOLD == 0 then after.(requests := after.requests + [l.waiting.value])
            else after
  {
    hide Run, Occurring;
    var before := Woven(l, polls, n);
    var m := Run(l, before).value;
    var happened := Occurring(m, polls[n].events);
    OccurringFrame(m, polls[n].events);
    RunJoins(l, before, happened);
    if (n + 1) % POLL_COUNT_THRESHOLD == 0 {
      RunOne(Run(m, happened).value, Resend);
      RunJoins(l, before + happened, [Resend]);
    }
  }

  lemma WovenRuns(l: Link, p: Packet, polls: seq<PollTurn>, n: nat)
    requires Enabled(l, Call(p)) && n <= |polls|
    ensures Run(l, [Call(p)] + Woven(Called(l, p), polls, n)) == Some(Polled(Called(l, p), polls, n))
  {
    hide Woven;
    RunOne(l, Call(p));
    RunJoins(l, [Call(p)], Woven(Called(l, p), polls, n));
  }

  lemma CountPolls(n: nat)
    ensures (n + 1) % POLL_COUNT_THRESHOLD ==
            if n % POLL_COUNT_THRESHOLD + 1 >= POLL_COUNT_THRESHOLD then 0 else n % POLL_COUNT_THRESHOLD + 1
  {
  }

  function TimeOf(polls: seq<PollTurn>): nat {
    if |polls| == 0 then 0 else TimeOf(polls[..|polls| - 1]) + polls[|polls| - 1].elapsed
  }

  lemma TimeNone()
    ensures TimeOf([]) == 0
  {
  }

  lemma TimeMore(polls: seq<PollTurn>, n: nat)
    requires n < |polls|
    ensures TimeOf(polls[..n + 1]) == TimeOf(polls[..n]) + polls[n].elapsed
  {
    assert polls[..n + 1][..n] == polls[..n];
  }

  // The resends.

  function Resends(steps: seq<Step>): nat {
    if |steps| == 0 then 0 else Resends(steps[..|steps| - 1]) + if steps[|steps| - 1].Resend? then 1 else 0
  }

  lemma ResendsMore(steps: seq<Step>, e: Step)
    ensures Resends(steps + [e]) == Resends(steps) + if e.Resend? then 1 else 0
  {
    assert (steps + [e])[..|steps|] == steps;
  }

  lemma {:induction false} ResendsAdd(steps: seq<Step>, more: seq<Step>)
    ensures Resends(steps + more) == Resends(steps) + Resends(more)
    decreases |more|
  {
    if |more| == 0 {
      assert steps + more == steps;
    } else {
      var front := more[..|more| - 1];
      ResendsAdd(steps, front);
      ResendsMore(steps + front, more[|more| - 1]);
      assert steps + more == steps + front + [more[|more| - 1]];
      assert more == front + [more[|more| - 1]];
    }
  }

  /** The `n`-th poll is followed by a resend if and only if `n` is a multiple of the threshold. */
  lemma WovenResends(l: Link, polls: seq<PollTurn>, n: nat)
    requires 0 < n <= |polls| && l.waiting.Some?
    ensures Resends(Woven(l, polls, n)) ==
            Resends(Woven(l, polls, n - 1)) + if n % POLL_COUNT_THRESHOLD == 0 then 1 else 0
  {
    hide Run, Occurring, Resends, Woven;
    WovenIs(l, polls, n);
    var before := Woven(l, polls, n - 1);
    var m := Run(l, before).value;
    var happened := Occurring(m, polls[n - 1].events);
    OccurringFrame(m, polls[n - 1].events);
    ResendsAdd(before, happened);
    ResendsMore(before + happened, Resend);
    assert before + happened + [] == before + happened;
  }

  /** Of `n` polls every two millionth is followed by a resend, and no other. */
  lemma {:induction false} ResendCount(l: Link, polls: seq<PollTurn>, n: nat)
    requires n <= |polls| && l.waiting.Some?
    ensures Resends(Woven(l, polls, n)) == n / POLL_COUNT_THRESHOLD
    decreases n
  {
    hide Run, Woven, Resends;
    if n == 0 {
      WovenNone(l, polls);
      NoResends();
    } else {
      ResendCount(l, polls, n - 1);
      WovenResends(l, polls, n);
      DivStep(n);
    }
  }

  lemma WovenNone(l: Link, polls: seq<PollTurn>)
    requires l.waiting.Some?
    ensures Woven(l, polls, 0) == []
  {
  }

  lemma WovenIs(l: Link, polls: seq<PollTurn>, n: nat)
    requires 0 < n <= |polls| && l.waiting.Some?
    ensures var before := Woven(l, polls, n - 1);
            var happened := Occurring(Run(l, before).value, polls[n - 1].events);
            Woven(l, polls, n) == before + happened + if n % POLL_COUNT_THRESHOLD == 0 then [Resend] else []
  {
    hide Run, Occurring;
  }

  lemma DivStep(n: nat)
    requires n > 0
    ensures n / POLL_COUNT_THRESHOLD ==
            (n - 1) / POLL_COUNT_THRESHOLD + if n % POLL_COUNT_THRESHOLD == 0 then 1 else 0
  {
  }

  // A call whose packet was lost.

  /** The network loses all but the newest request under way; the server takes that one, and its reply arrives. */
  function Rescue(requests: nat, r: Reply): seq<Step>
    requires requests > 0
  {
    seq(requests - 1, _ => LoseRequest(0)) + [ServerReceives(0), ReplyArrives(r)]
  }

  lemma {:induction false} LoseFront(l: Link, k: nat)
    requires k <= |l.requests|
    ensures Run(l, Occurring(l, seq(k, _ => LoseRequest(0)))) == Some(l.(requests := l.requests[k..]))
    decreases k
  {
    hide Run, Occurring;
    var events := seq(k, _ => LoseRequest(0));
    if k == 0 {
      OccurringNone(l);
      assert events == [];
    } else {
      LoseFront(l, k - 1);
      assert events[..k - 1] == seq(k - 1, _ => LoseRequest(0));
      assert events[..k] == events;
      OccurringMore(l, events, k - 1);
      var m := l.(requests := l.requests[k - 1..]);
      assert Run(l, Occurring(l, events[..k - 1])) == Some(m);
      assert Enabled(m, events[k - 1]);
      assert Without(m.requests, 0) == l.requests[k..];
    }
  }

  /** After every two millionth poll a copy of the packet is on its way, the last of all. */
  lemma SentAgain(l: Link, polls: seq<PollTurn>, n: nat)
    requires 0 < n <= |polls| && n % POLL_COUNT_THRESHOLD == 0 && l.waiting.Some?
    ensures var m := Polled(l, polls, n); |m.requests| > 0 && m.requests[|m.requests| - 1] == l.waiting.value
  {
    hide Polled;
    PolledMore(l, polls, n - 1);
  }

  /** Whatever happened to the copies sent so far: if the copy sent after a two millionth poll gets through in the
      next poll, and its reply, the exchange has its reply then. */
  lemma ResentCopyReturns(start: Server, l: Link, polls: seq<PollTurn>, n: nat)
    requires 0 < n < |polls| && n % POLL_COUNT_THRESHOLD == 0 && l.waiting.Some? && Inv(start, l)
    requires var m := Polled(l, polls, n);
             && m.stoppedBy.None? && !m.executed && Serve(m.server, l.waiting.value).Answers?
             && |m.requests| > 0
             && polls[n].events == Rescue(|m.requests|, Serve(m.server, l.waiting.value).reply)
    ensures Polled(l, polls, n + 1).got == Some(Serve(Polled(l, polls, n).server, l.waiting.value).reply)
  {
    hide Run, Occurring, Inv, Serve, Woven;
    var m, p := Polled(l, polls, n), l.waiting.value;
    var r, k := Serve(m.server, p).reply, |m.requests| - 1;
    SentAgain(l, polls, n);
    RunKeeps(start, l, Woven(l, polls, n));
    ReplyNames(start, m);
    var events := Rescue(|m.requests|, r);
    LoseFront(m, k);
    assert events[..k] == seq(k, _ => LoseRequest(0));
    assert m.requests[k..] == [p];
    var a := m.(requests := [p]);
    OccurringMore(m, events, k);
    var b := Received(a, 0);
    OccurringMore(m, events, k + 1);
    assert events[..k + 2] == events;
    PolledMore(l, polls, n);
  }

  /** A call that has not been executed will be executed with a reply to it. */
  lemma ReplyNames(start: Server, m: Link)
    requires Inv(start, m) && m.waiting.Some? && !m.executed && Serve(m.server, m.waiting.value).Answers?
    ensures Serve(m.server, m.waiting.value).reply.id == m.waiting.value.id
  {
    hide Serve, Atomic;
    LastIdBounds(start, m);
    NewIsExecuted(m.server, m.waiting.value);
  }

  /** The first copy is lost, and then nothing happens until the packet is sent again. */
  predicate Silence(polls: seq<PollTurn>) {
    && |polls| > POLL_COUNT_THRESHOLD && polls[0].events == [LoseRequest(0)]
    && (forall i | 0 < i < POLL_COUNT_THRESHOLD :: polls[i].events == [])
  }

  lemma {:induction false} SilentPolls(l: Link, polls: seq<PollTurn>, n: nat)
    requires l.waiting.Some? && |l.requests| == 1 && Silence(polls) && 0 < n <= POLL_COUNT_THRESHOLD
    ensures Polled(l, polls, n) ==
            l.(requests := if n == POLL_COUNT_THRESHOLD then [l.waiting.value] else [])
    decreases n
  {
    hide Run, Occurring, Polled;
    PolledMore(l, polls, n - 1);
    if n == 1 {
      PolledNone(l, polls);
      LoseFront(l, 1);
      assert seq(1, _ => LoseRequest(0)) == polls[0].events;
    } else {
      SilentPolls(l, polls, n - 1);
      OccurringNone(l.(requests := []));
    }
  }

  /** So an exchange whose first copy is lost, and whose next copy, sent after two million polls in which nothing
      happens, gets through, returns the reply of the server. */
  method LostOnce(client: Client, p: Packet) returns (reply: Option<Reply>)
    requires client.Idle() && client.requests == [] && client.stoppedBy == None
    requires LastId(client.history) < p.id && Whole(p) && Serve(client.server, p).Answers? && Silence(client.polls)
    requires client.polls[POLL_COUNT_THRESHOLD].events == Rescue(1, Serve(client.server, p).reply)
    modifies client
    ensures reply == Some(Serve(old(client.server), p).reply)
  {
    hide Inv, Serve, Polled, Woven, Run, Occurring, Atomic;
    ghost var before, script, start := client.Abs(), client.polls, client.start;
    ghost var called := Called(before, p);
    CallIs(before, p);
    CallKeeps(start, before, p);
    PolledNone(called, script);
    forall n | 0 < n <= POLL_COUNT_THRESHOLD ensures Polled(called, script, n).got.None? {
      SilentPolls(called, script, n);
    }
    SilentPolls(called, script, POLL_COUNT_THRESHOLD);
    ResentCopyReturns(start, called, script, POLL_COUNT_THRESHOLD);
    var elapsed;
    ghost var used, steps;
    reply, elapsed, used, steps := client.Exchange(p);
  }

  // The steps, one by one.

  lemma CallIs(l: Link, p: Packet)
    requires l.waiting.None? && Sendable(l, p)
    ensures Enabled(l, Call(p))
    ensures Apply(l, Call(p)) == l.(requests := l.requests + [p], waiting := Some(p), got := None, executed := false)
  {
  }

  lemma ResendIs(l: Link)
    requires l.waiting.Some?
    ensures Enabled(l, Resend) && Apply(l, Resend) == l.(requests := l.requests + [l.waiting.value])
  {
  }

  lemma ReturnIs(l: Link)
    requires l.waiting.Some? && l.got.Some?
    ensures Enabled(l, Return)
    ensures Apply(l, Return) ==
            l.(waiting := None, got := None, executed := false, history := l.history + [(l.waiting.value, l.got.value)])
  {
  }

  /** The reply of an exchange that returned is the server's reply to it. */
  lemma ReturnedAtomically(start: Server, before: Link, after: Link, p: Packet, r: Reply)
    requires Inv(start, before) && Inv(start, after) && before.waiting.None? && after.waiting.None?
    requires after.history == before.history + [(p, r)]
    ensures Serve(before.server, p) == Answers(after.server, r)
  {
    hide Serve;
    assert after.history[..|after.history| - 1] == before.history;
  }
}
