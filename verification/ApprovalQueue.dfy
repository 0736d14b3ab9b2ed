/**
 The agent's queue of pre-approvals: first in, first out, each good for one take
 within one second. Expired entries are dropped lazily, when a take walks past them.
 */
module ApprovalQueue {
  import opened Common

  const TTL: nat := SECOND

  datatype Approval = Approval(actionId: string, expiresAt: nat)

  datatype Taken = Taken(result: Option<Approval>, rest: seq<Approval>)

  function Pushed(q: seq<Approval>, actionId: string, now: nat): seq<Approval> {
    q + [Approval(actionId, now + TTL)]
  }

  function Take(q: seq<Approval>, now: nat): (t: Taken)
    ensures t.result.Some? ==>
      && |t.rest| < |q| && t.rest == q[|q| - |t.rest|..]
      && t.result.value == q[|q| - |t.rest| - 1] && t.result.value.expiresAt > now
    ensures forall i :: 0 <= i < |q| - |t.rest| - (if t.result.Some? then 1 else 0) ==> q[i].expiresAt <= now
    ensures t.result.None? ==> t.rest == []
  {
    if q == [] then Taken(None, [])
    else if q[0].expiresAt > now then Taken(Some(q[0]), q[1..])
    else Take(q[1..], now)
  }

  class ApprovalQueue {
    var inner: seq<Approval>

    constructor ()
      ensures inner == []
    {
      inner := [];
    }

    method Push(actionId: string, now: nat)
      modifies this
      ensures inner == Pushed(old(inner), actionId, now)
    {
      inner := inner + [Approval(actionId, now + TTL)];
    }

    method TakeOne(now: nat) returns (r: Option<Approval>)
      modifies this
      ensures Taken(r, inner) == Take(old(inner), now)
    {
      while |inner| > 0
        invariant Take(inner, now) == Take(old(inner), now)
        decreases |inner|
      {
        var front := inner[0];
        inner := inner[1..];
        if front.expiresAt > now { return Some(front); }
      }
      r := None;
    }

    method Drain()
      modifies this
      ensures inner == []
    {
      inner := [];
    }
  }

  // ---- the queue against an ideal one that drops every approval the instant it expires

  datatype Op = Push(actionId: string) | TakeOne | Drain | Tick(step: nat)

  datatype State = State(q: seq<Approval>, now: nat)

  /** A step and what a take answered. */
  datatype Stepped = Stepped(state: State, answers: seq<Option<Approval>>)

  function Step(s: State, op: Op): Stepped {
    match op
    case Push(a) => Stepped(s.(q := Pushed(s.q, a, s.now)), [])
    case TakeOne => var t := Take(s.q, s.now); Stepped(s.(q := t.rest), [t.result])
    case Drain => Stepped(s.(q := []), [])
    case Tick(d) => Stepped(s.(now := s.now + d), [])
  }

  function Unexpired(q: seq<Approval>, now: nat): seq<Approval> {
    if q == [] then []
    else if q[0].expiresAt > now then [q[0]] + Unexpired(q[1..], now)
    else Unexpired(q[1..], now)
  }

  function IdealStep(s: State, op: Op): Stepped {
    match op
    case Push(a) => Stepped(s.(q := Pushed(s.q, a, s.now)), [])
    case TakeOne =>
      if s.q == [] then Stepped(s, [None]) else Stepped(s.(q := s.q[1..]), [Some(s.q[0])])
    case Drain => Stepped(s.(q := []), [])
    case Tick(d) => Stepped(State(Unexpired(s.q, s.now + d), s.now + d), [])
  }

  function Answers(s: State, ops: seq<Op>): seq<Option<Approval>>
    decreases |ops|
  {
    if ops == [] then [] else var t := Step(s, ops[0]); t.answers + Answers(t.state, ops[1..])
  }

  function IdealAnswers(s: State, ops: seq<Op>): seq<Option<Approval>>
    decreases |ops|
  {
    if ops == [] then [] else var t := IdealStep(s, ops[0]); t.answers + IdealAnswers(t.state, ops[1..])
  }

  predicate Sorted(q: seq<Approval>) {
    forall i, j :: 0 <= i < j < |q| ==> q[i].expiresAt <= q[j].expiresAt
  }

  /** In order of expiry, and nothing outlives a push made now. */
  ghost predicate Valid(s: State) {
    Sorted(s.q) && forall i :: 0 <= i < |s.q| ==> s.q[i].expiresAt <= s.now + TTL
  }

  lemma StepKeepsValid(s: State, op: Op)
    requires Valid(s)
    ensures Valid(Step(s, op).state)
  {
  }

  lemma {:induction false} UnexpiredSnoc(q: seq<Approval>, a: Approval, now: nat)
    ensures Unexpired(q + [a], now) == Unexpired(q, now) + if a.expiresAt > now then [a] else []
  {
    if q == [] {
      assert (q + [a])[1..] == [];
    } else {
      assert (q + [a])[1..] == q[1..] + [a];
      UnexpiredSnoc(q[1..], a, now);
    }
  }

  lemma {:induction false} UnexpiredLater(q: seq<Approval>, now: nat, later: nat)
    requires now <= later
    ensures Unexpired(Unexpired(q, now), later) == Unexpired(q, later)
  {
    if q != [] {
      UnexpiredLater(q[1..], now, later);
      var rest := Unexpired(q[1..], now);
      if q[0].expiresAt > now {
        assert ([q[0]] + rest)[1..] == rest;
      }
    }
  }

  lemma {:induction false} AllUnexpired(q: seq<Approval>, now: nat)
    ensures (forall i :: 0 <= i < |q| ==> q[i].expiresAt > now) <==> Unexpired(q, now) == q
    ensures forall i :: 0 <= i < |Unexpired(q, now)| ==> Unexpired(q, now)[i].expiresAt > now
    ensures |Unexpired(q, now)| <= |q|
  {
    if q != [] {
      AllUnexpired(q[1..], now);
      if q[0].expiresAt > now {
        assert Unexpired(q, now) == [q[0]] + Unexpired(q[1..], now);
        assert Unexpired(q, now)[1..] == Unexpired(q[1..], now);
        assert forall i :: 1 <= i < |q| ==> q[i] == q[1..][i - 1];
      }
    }
  }

  /** On a sorted queue a take answers the first unexpired entry and leaves no expired one behind. */
  lemma {:induction false} TakeIsIdeal(q: seq<Approval>, now: nat)
    requires Sorted(q)
    ensures var live := Unexpired(q, now);
      Take(q, now) == if live == [] then Taken(None, []) else Taken(Some(live[0]), live[1..])
    ensures forall i :: 0 <= i < |Take(q, now).rest| ==> Take(q, now).rest[i].expiresAt > now
  {
    if q != [] {
      if q[0].expiresAt > now {
        assert forall i :: 0 <= i < |q| ==> q[i].expiresAt >= q[0].expiresAt;
        AllUnexpired(q, now);
      } else {
        TakeIsIdeal(q[1..], now);
      }
    }
  }

  /** An approval behind none that still lives is good for exactly one second after its push. */
  lemma {:induction false} LivesOneSecond(q: seq<Approval>, actionId: string, now: nat, later: nat)
    requires forall i :: 0 <= i < |q| ==> q[i].expiresAt <= later
    ensures var t := Take(Pushed(q, actionId, now), later);
      && t.rest == []
      && (t.result.Some? <==> later < now + 1_000_000_000)
      && (t.result.Some? ==> t.result.value.actionId == actionId)
  {
    if q == [] {
      assert Pushed(q, actionId, now)[1..] == [];
    } else {
      assert Pushed(q, actionId, now)[1..] == Pushed(q[1..], actionId, now);
      LivesOneSecond(q[1..], actionId, now, later);
    }
  }

  /** A take drops an expired entry with all before it, and answers only beyond it. */
  lemma ExpiredAreDropped(q: seq<Approval>, now: nat, i: nat)
    requires Sorted(q) && i < |q| && q[i].expiresAt <= now
    ensures var t := Take(q, now); |q| - |t.rest| > i && (t.result.Some? ==> |q| - |t.rest| > i + 1)
  {
    forall j | 0 <= j <= i ensures q[j].expiresAt <= now {}
  }

  /** Over every run the two queues answer every take alike. */
  lemma {:induction false} LazyAnswersAsIdeal(s: State, ops: seq<Op>)
    requires Valid(s)
    ensures Answers(s, ops) == IdealAnswers(State(Unexpired(s.q, s.now), s.now), ops)
    decreases |ops|
  {
    if ops != [] {
      var ideal := State(Unexpired(s.q, s.now), s.now);
      var t, u := Step(s, ops[0]), IdealStep(ideal, ops[0]);
      match ops[0] {
        case Push(a) => UnexpiredSnoc(s.q, Approval(a, s.now + TTL), s.now);
        case TakeOne =>
          TakeIsIdeal(s.q, s.now);
          AllUnexpired(t.state.q, s.now);
        case Drain =>
        case Tick(d) => UnexpiredLater(s.q, s.now, s.now + d);
      }
      assert t.answers == u.answers && u.state == State(Unexpired(t.state.q, t.state.now), t.state.now);
      StepKeepsValid(s, ops[0]);
      LazyAnswersAsIdeal(t.state, ops[1..]);
    }
  }

  // ---- where every approval ends up

  datatype Ledger = Ledger(
    pushed: multiset<Approval>, taken: multiset<Approval>, expired: multiset<Approval>, drained: multiset<Approval>)

  /** What one step adds to the books. */
  function Entry(s: State, op: Op): Ledger {
    match op
    case Push(a) => Ledger(multiset{Approval(a, s.now + TTL)}, multiset{}, multiset{}, multiset{})
    case TakeOne =>
      var t := Take(s.q, s.now);
      if t.result.Some? then
        Ledger(multiset{}, multiset{t.result.value}, multiset(s.q[..|s.q| - |t.rest| - 1]), multiset{})
      else Ledger(multiset{}, multiset{}, multiset(s.q), multiset{})
    case Drain => Ledger(multiset{}, multiset{}, multiset{}, multiset(s.q))
    case Tick(_) => Ledger(multiset{}, multiset{}, multiset{}, multiset{})
  }

  function Add(a: Ledger, b: Ledger): Ledger {
    Ledger(a.pushed + b.pushed, a.taken + b.taken, a.expired + b.expired, a.drained + b.drained)
  }

  function Books(s: State, ops: seq<Op>): Ledger
    decreases |ops|
  {
    if ops == [] then Ledger(multiset{}, multiset{}, multiset{}, multiset{})
    else Add(Entry(s, ops[0]), Books(Step(s, ops[0]).state, ops[1..]))
  }

  function Final(s: State, ops: seq<Op>): State
    decreases |ops|
  {
    if ops == [] then s else Final(Step(s, ops[0]).state, ops[1..])
  }

  /** What goes in and where it goes, as multisets. */
  predicate Balanced(q: multiset<Approval>, e: Ledger, end: multiset<Approval>) {
    q + e.pushed == e.taken + e.expired + e.drained + end
  }

  lemma PushedBalanced(q: multiset<Approval>, a: multiset<Approval>)
    ensures Balanced(q, Ledger(a, multiset{}, multiset{}, multiset{}), q + a)
  {
  }

  lemma TakenBalanced(taken: multiset<Approval>, expired: multiset<Approval>, end: multiset<Approval>)
    ensures Balanced(taken + expired + end, Ledger(multiset{}, taken, expired, multiset{}), end)
  {
  }

  lemma ExpiredBalanced(q: multiset<Approval>)
    ensures Balanced(q, Ledger(multiset{}, multiset{}, q, multiset{}), multiset{})
  {
  }

  lemma DrainedBalanced(q: multiset<Approval>)
    ensures Balanced(q, Ledger(multiset{}, multiset{}, multiset{}, q), multiset{})
  {
  }

  lemma StillBalanced(q: multiset<Approval>)
    ensures Balanced(q, Ledger(multiset{}, multiset{}, multiset{}, multiset{}), q)
  {
  }

  lemma StepBalances(s: State, op: Op)
    ensures Balanced(multiset(s.q), Entry(s, op), multiset(Step(s, op).state.q))
  {
    hide Take, Balanced;
    match op
    case Push(a) =>
      var pushed := Approval(a, s.now + TTL);
      assert multiset(s.q + [pushed]) == multiset(s.q) + multiset{pushed};
      PushedBalanced(multiset(s.q), multiset{pushed});
    case TakeOne =>
      var t := Take(s.q, s.now);
      TakeBalances(s.q, s.now);
      if t.result.Some? {
        TakenBalanced(multiset{t.result.value}, multiset(s.q[..|s.q| - |t.rest| - 1]), multiset(t.rest));
      } else {
        assert t.rest == [];
        ExpiredBalanced(multiset(s.q));
      }
    case Drain => DrainedBalanced(multiset(s.q));
    case Tick(_) => StillBalanced(multiset(s.q));
  }

  lemma TakeBalances(q: seq<Approval>, now: nat)
    ensures var t := Take(q, now);
      t.result.Some? ==> multiset(q) == multiset{t.result.value} + multiset(q[..|q| - |t.rest| - 1]) + multiset(t.rest)
  {
    var t := Take(q, now);
    if t.result.Some? {
      assert q == q[..|q| - |t.rest| - 1] + [t.result.value] + t.rest;
    }
  }

  /** The books of two runs, one after the other, add up. */
  lemma BalancesCompose(q: multiset<Approval>, e: Ledger, mid: multiset<Approval>, b: Ledger, end: multiset<Approval>)
    requires Balanced(q, e, mid) && Balanced(mid, b, end)
    ensures Balanced(q, Add(e, b), end)
  {
    var c := Add(e, b);
    forall x: Approval ensures (q + c.pushed)[x] == (c.taken + c.expired + c.drained + end)[x] {
      assert (q + e.pushed)[x] == (e.taken + e.expired + e.drained + mid)[x];
      assert (mid + b.pushed)[x] == (b.taken + b.expired + b.drained + end)[x];
    }
  }

  /** Every approval pushed is taken, expired unseen, drained or still queued, and only one of these. */
  lemma {:induction false} NothingIsLost(s: State, ops: seq<Op>)
    ensures var b := Books(s, ops);
      multiset(s.q) + b.pushed == b.taken + b.expired + b.drained + multiset(Final(s, ops).q)
    decreases |ops|
  {
    if ops != [] {
      var t := Step(s, ops[0]).state;
      StepBalances(s, ops[0]);
      NothingIsLost(t, ops[1..]);
      BalancesCompose(multiset(s.q), Entry(s, ops[0]), multiset(t.q), Books(t, ops[1..]), multiset(Final(s, ops).q));
    }
  }
}
