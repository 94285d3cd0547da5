/** What becomes of delivered requests: each is retired once, and nothing else is. */
module EmudiskBooks {
  import opened Block
  import SsdSim
  import opened Emudisk
  import opened EmudiskInv
  import opened EmudiskDrain
  import opened EmudiskRuns
  import opened EmudiskPlan

  /** The requests delivered, and those retired, with how often each. */
  function DeliveredOf(log: seq<Event>): multiset<Request> {
    if |log| == 0 then multiset{}
    else DeliveredOf(log[..|log| - 1])
         + (match log[|log| - 1] case Committed(req, _, _, _, _) => multiset{req} case _ => multiset{})
  }

  function RetiredOf(log: seq<Event>): multiset<Request> {
    if |log| == 0 then multiset{}
    else RetiredOf(log[..|log| - 1]) + (match log[|log| - 1] case Retired(req) => multiset{req} case _ => multiset{})
  }

  /** A delivered request waits for the softirq or has been retired by it. */
  predicate Balanced(s: State) {
    DeliveredOf(s.log) == s.retiring + RetiredOf(s.log)
  }

  lemma LogGrows(log: seq<Event>, e: Event)
    ensures DeliveredOf(log + [e]) == DeliveredOf(log) + if e.Committed? then multiset{e.req} else multiset{}
    ensures RetiredOf(log + [e]) == RetiredOf(log) + if e.Retired? then multiset{e.req} else multiset{}
  {
    assert (log + [e])[..|log|] == log;
  }

  lemma SubmitBalances(s: State, req: Request, now: int)
    requires Submit(s, req, now).Moves? && Balanced(s)
    ensures Balanced(Submit(s, req, now).s)
  {
    hide Flat, FindId, Staged, CompletionOf, DeliveredOf, RetiredOf;
    var t := Submit(s, req, now).s;
    LogGrows(s.log, t.log[|s.log|]);
  }

  lemma {:induction false} SubmitAllBalances(s: State, batch: seq<(Request, int)>)
    requires SubmitAll(s, batch).Moves? && Balanced(s)
    ensures Balanced(SubmitAll(s, batch).s)
    decreases |batch|
  {
    hide Submit, DeliveredOf, RetiredOf;
    if |batch| == 0 {
    } else {
      SubmitBalances(s, batch[0].0, batch[0].1);
      var t := Submit(s, batch[0].0, batch[0].1).s;
      if t.inflight < |t.slots| {
        SubmitAllBalances(t, batch[1..]);
      }
    }
  }

  lemma RefreshBalances(s: State)
    requires Balanced(s)
    ensures Balanced(Refresh(s))
  {
    hide SsdSim.NextResponses, DeliveredOf, RetiredOf;
  }

  lemma StrategyBalances(s: State, batch: seq<(Request, int)>)
    requires Strategy(s, batch).Moves? && Balanced(s)
    ensures Balanced(Strategy(s, batch).s)
  {
    hide SubmitAll, Balanced, Refresh;
    if |batch| > 0 {
      SubmitAllBalances(s, batch);
      RefreshBalances(SubmitAll(s, batch).s);
    }
  }

  lemma Joins(d: multiset<Request>, a: multiset<Request>, b: multiset<Request>, r: multiset<Request>)
    requires d == a + b
    ensures d + r == a + r + b
  {
  }

  lemma DeliverBalances(s: State, id: int)
    requires Deliver(s, id).Moves? && Balanced(s)
    ensures Balanced(Deliver(s, id).s)
  {
    hide FindId, Scatter, Flat, DeliveredOf, RetiredOf;
    var t := Deliver(s, id).s;
    var e := t.log[|s.log|];
    LogGrows(s.log, e);
    Joins(DeliveredOf(s.log), s.retiring, RetiredOf(s.log), multiset{e.req});
  }

  lemma {:induction false} DeliverAllBalances(s: State, ids: seq<int>)
    requires DeliverAll(s, ids).Moves? && Balanced(s)
    ensures Balanced(DeliverAll(s, ids).s)
    decreases |ids|
  {
    hide Deliver, Balanced;
    if |ids| == 0 {
    } else {
      DeliverBalances(s, ids[0]);
      DeliverAllBalances(Deliver(s, ids[0]).s, ids[1..]);
    }
  }

  lemma {:induction false} DrainBalances(s: State, rounds: seq<(int, int)>)
    requires Drain(s, rounds).Moves? && Balanced(s)
    ensures Balanced(Drain(s, rounds).s)
    decreases |rounds|
  {
    hide DeliverAll, SsdSim.NextResponses, DeliveredOf, RetiredOf;
    DrainNone(s);
    var s0 := s.(clock := rounds[0].0);
    DeliverAllBalances(s0, s0.nextIds);
    DrainFirst(s, rounds);
    var t := DrainOn(s, rounds[0]);
    if t.Some? {
      DrainBalances(t.value, rounds[1..]);
    }
  }

  lemma RetireBalances(s: State, req: Request)
    requires req in s.retiring && Balanced(s)
    ensures Balanced(Retire(s, req))
  {
    hide DeliveredOf, RetiredOf;
    LogGrows(s.log, Retired(req));
    assert DeliveredOf(s.log) + multiset{} == DeliveredOf(s.log);
    Moves1(s.retiring, RetiredOf(s.log), req);
  }

  lemma Moves1(a: multiset<Request>, b: multiset<Request>, req: Request)
    requires req in a
    ensures a + b == (a - multiset{req}) + (b + multiset{req})
  {
    assert a == a - multiset{req} + multiset{req};
  }

  lemma NextBalances(s: State, l: Label)
    requires Next(s, l).Moves? && Balanced(s)
    ensures Balanced(Next(s, l).s)
  {
    hide Drain, Strategy, Retire, Promised, BatchClimbs, RoundsClimb, DeliveredOf, RetiredOf;
    match l
    case Queue(batch) => StrategyBalances(s, batch);
    case TakeLock(rounds) => if s.thread.Fired? { DrainBalances(s, rounds); }
    case Softirq(req) => RetireBalances(s, req);
    case _ =>
  }

  lemma {:induction false} RunBalances(s: State, labels: seq<Label>)
    requires Run(s, labels).Moves? && Balanced(s)
    ensures Balanced(Run(s, labels).s)
    decreases |labels|
  {
    hide Next, Balanced;
    if |labels| == 0 {
    } else {
      NextBalances(s, labels[0]);
      RunBalances(Next(s, labels[0]).s, labels[1..]);
    }
  }

  lemma ReachedBalanced(t: State)
    requires Reached(t)
    ensures Balanced(t)
  {
    hide Run, Next;
    var s: State, labels: seq<Label> :| Starts(s) && Run(s, labels) == Moves(t);
    RunBalances(s, labels);
  }

  // No request is delivered twice.

  lemma {:induction false} DeliveredCounts(log: seq<Event>, r: Request) returns (i: nat, j: nat)
    requires DeliveredOf(log)[r] >= 2
    ensures i < j < |log| && log[i].Committed? && log[j].Committed? && log[i].req == log[j].req == r
    decreases |log|
  {
    var front, last := log[..|log| - 1], |log| - 1;
    if DeliveredOf(front)[r] >= 2 {
      i, j := DeliveredCounts(front, r);
    } else {
      i := DeliveredHas(front, r);
      j := last;
    }
  }

  lemma {:induction false} DeliveredHas(log: seq<Event>, r: Request) returns (i: nat)
    requires DeliveredOf(log)[r] >= 1
    ensures i < |log| && log[i].Committed? && log[i].req == r
    decreases |log|
  {
    var front, last := log[..|log| - 1], |log| - 1;
    if log[last].Committed? && log[last].req == r {
      i := last;
    } else {
      i := DeliveredHas(front, r);
    }
  }

  lemma {:induction false} CommittedTwice(log: seq<Event>, i: nat, j: nat)
    requires i < j < |log| && log[i].Committed? && log[j].Committed? && log[i].id == log[j].id
    ensures CommittedIds(log)[log[i].id] >= 2
    decreases |log|
  {
    var front := log[..|log| - 1];
    if j < |log| - 1 {
      CommittedTwice(front, i, j);
    } else {
      CommittedHas(front, i);
    }
  }

  lemma {:induction false} CommittedHas(log: seq<Event>, i: nat)
    requires i < |log| && log[i].Committed?
    ensures CommittedIds(log)[log[i].id] >= 1
    decreases |log|
  {
    if i == |log| - 1 {
    } else {
      CommittedHas(log[..|log| - 1], i);
    }
  }

  /** Two responses to one request would carry one id, that of its only submission. */
  lemma SameId(log: seq<Event>, image: seq<Byte>, i: nat, j: nat)
    requires UniqueTags(log) && CommitsFaithful(log, image)
    requires i < |log| && j < |log| && log[i].Committed? && log[j].Committed? && log[i].req == log[j].req
    ensures log[i].id == log[j].id
  {
    hide DiskAfter, GivenTime, PagesOf;
    assert CommitFaithful(log, image, i) && CommitFaithful(log, image, j);
    var a :| 0 <= a < i && Answers(log, image, i, a);
    var b :| 0 <= b < j && Answers(log, image, j, b);
    assert a == b by { assert !(a < b) && !(b < a); }
  }

  /** No request is delivered twice, if no id is. */
  lemma DeliveredOnce(t: State, r: Request)
    requires UniqueTags(t.log) && CommitsFaithful(t.log, t.image) && forall id :: CommittedIds(t.log)[id] <= 1
    ensures DeliveredOf(t.log)[r] <= 1
  {
    hide CommittedIds, DeliveredOf, CommitsFaithful, UniqueTags;
    if DeliveredOf(t.log)[r] >= 2 {
      var i, j := DeliveredCounts(t.log, r);
      SameId(t.log, t.image, i, j);
      CommittedTwice(t.log, i, j);
      assert false;
    }
  }
}
