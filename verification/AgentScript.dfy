/** What one party does from its arrival to its exit, seen apart from everybody else. */
module AgentScript {
  import opened Common
  import opened AgentModel
  import opened AgentSessions
  import opened Config
  import opened ProcInfo
  import VerdictWire

  /** A `begin_authentication` call, the session task it spawned, or a `cancel_authentication` call. */
  datatype Role = TheCall(c: nat) | TheTask(c: nat) | TheCancel(k: nat)

  predicate Plays(r: Role, e: Event) {
    match r
    case TheCall(c) => (e.Begin? && e.c == c) || (OfCall(e) && !OfTask(e) && e.c == c)
    case TheTask(c) => OfTask(e) && e.c == c
    case TheCancel(k) => (e.CancelDrain? || e.CancelAbort?) && e.k == k
  }

  /** The steps of one party, in order. */
  function OwnEvents(es: seq<Event>, r: Role): seq<Event> {
    if es == [] then []
    else OwnEvents(es[..|es| - 1], r) + if Plays(r, es[|es| - 1]) then [es[|es| - 1]] else []
  }

  // ---- the scripts

  /** Once allowed: push, hand off, and drain on FAILURE. */
  function Ending(c: nat, handoff: Option<bool>): seq<Event> {
    [Push(c), Handoff(c, handoff)] + if handoff == Some(false) then [Drain(c)] else []
  }

  /** From the dialog on. */
  function Asking(c: nat, f: Facts, verdict: Option<VerdictWire.Verdict>, handoff: Option<bool>): seq<Event> {
    if verdict.None? || verdict.value.outcome != VerdictWire.Allow then [Verdict(c, verdict)]
    else if verdict.value.remember && f.rememberSecs > 0 then [Verdict(c, verdict), Remember(c)] + Ending(c, handoff)
    else [Verdict(c, verdict)] + Ending(c, handoff)
  }

  /** `session::run` for given facts, answer of the cache, answer of the dialog and answer of helper-1. */
  function Script(
      c: nat, f: Facts, hit: bool, verdict: Option<VerdictWire.Verdict>, handoff: Option<bool>): seq<Event> {
    match f.decision
    case Deny => [Poll(c)]
    case Allow => [Poll(c)] + Ending(c, handoff)
    case Ask =>
      if f.rememberSecs == 0 then [Poll(c)] + Asking(c, f, verdict, handoff)
      else [Poll(c), Lookup(c)] + if hit then Ending(c, handoff) else Asking(c, f, verdict, handoff)
  }

  /** `begin_authentication` for a good or a bad identity. */
  function CallScript(
      c: nat, action: string, cookie: string, goodIdentity: bool, cfg: ServiceConfig, details: AgentDetails): seq<Event>
  {
    if goodIdentity then
      [Begin(c, action, cookie), Acquire(c), Lock(c), Spawn(c, cfg, details), Insert(c), SeeDone(c), Cleanup(c)]
    else [Begin(c, action, cookie), Acquire(c), Reject(c)]
  }

  /** `cancel_authentication`. */
  function CancelScript(k: nat, cookie: string): seq<Event> {
    [CancelDrain(k, cookie), CancelAbort(k)]
  }

  // ---- playing a script

  /** Between the two traces the party has played the script, or a first part of it. */
  ghost predicate Played(before: seq<Event>, after: seq<Event>, r: Role, script: seq<Event>, whole: bool) {
    && before <= after
    && OwnEvents(before, r) <= OwnEvents(after, r)
    && var own := OwnEvents(after, r)[|OwnEvents(before, r)|..];
      own <= script && (whole ==> own == script)
  }

  lemma NothingPlayed(es: seq<Event>, r: Role)
    ensures Played(es, es, r, [], true)
  {
  }

  /** One more step of the party. */
  lemma PlayedStep(start: seq<Event>, es: seq<Event>, r: Role, so: seq<Event>, e: Event)
    requires Plays(r, e) && Played(start, es, r, so, true)
    ensures Played(start, es + [e], r, so + [e], true)
  {
    hide Plays;
    assert (es + [e])[..|es|] == es;
  }

  /** Others' steps. */
  lemma PlayedOn(start: seq<Event>, es: seq<Event>, later: seq<Event>, r: Role, so: seq<Event>)
    requires Played(start, es, r, so, true) && es <= later && OwnEvents(later, r) == OwnEvents(es, r)
    ensures Played(start, later, r, so, true)
  {
    hide OwnEvents;
  }

  /** What is played is a part of anything that begins with it. */
  lemma PlayedPart(start: seq<Event>, es: seq<Event>, r: Role, so: seq<Event>, script: seq<Event>)
    requires Played(start, es, r, so, true) && so <= script
    ensures Played(start, es, r, script, false)
  {
    hide OwnEvents;
  }

  // ---- while the others move

  lemma {:induction false} OwnGrows(a: seq<Event>, b: seq<Event>, r: Role)
    requires a <= b
    ensures OwnEvents(a, r) <= OwnEvents(b, r)
    decreases |b|
  {
    hide Plays;
    if a != b {
      assert a <= b[..|b| - 1];
      OwnGrows(a, b[..|b| - 1], r);
    }
  }

  /** What every step of another keeps between a past state and the present one, all their steps keep. */
  lemma {:induction false} OthersKeep(before: seq<Event>, after: seq<Event>, r: Role, keeps: (State, State) -> bool)
    requires before <= after && OwnEvents(after, r) == OwnEvents(before, r)
    requires Run(before).Some? && Run(after).Some? && keeps(Run(before).value, Run(before).value)
    requires forall s, t, e ::
      Structure(t) && keeps(s, t) && Next(t, e).Some? && !Plays(r, e) ==> keeps(s, Next(t, e).value)
    ensures keeps(Run(before).value, Run(after).value)
    decreases |after|
  {
    hide Plays, Next, Structure;
    if before != after {
      var front := after[..|after| - 1];
      assert before <= front;
      OwnGrows(before, front, r);
      OthersKeep(before, front, r, keeps);
      RunKeepsStructure(front);
    }
  }

  /** The task goes on where it was, or has been told to abort. */
  predicate SameTask(s: State, t: State, c: nat) {
    c in s.calls && Live(s, c) ==>
      && c in t.calls && t.calls[c].action == s.calls[c].action && c in t.tasks
      && (t.tasks[c] == s.tasks[c] || t.tasks[c] == s.tasks[c].(phase := Aborted))
  }

  /** However much the others do, a session that does nothing keeps its state, unless it is told to abort. */
  lemma OthersLeaveTask(before: seq<Event>, after: seq<Event>, c: nat)
    requires before <= after && OwnEvents(after, TheTask(c)) == OwnEvents(before, TheTask(c))
    requires Run(before).Some? && Run(after).Some?
    ensures SameTask(Run(before).value, Run(after).value, c)
  {
    hide Run, Next, Structure, OwnEvents;
    var keeps := (s, t) => SameTask(s, t, c);
    forall s, t, e | Structure(t) && keeps(s, t) && Next(t, e).Some? && !Plays(TheTask(c), e)
      ensures keeps(s, Next(t, e).value)
    {
      OtherLeavesTask(s, t, e, c);
    }
    OthersKeep(before, after, TheTask(c), keeps);
    assert keeps(Run(before).value, Run(after).value);
  }

  lemma OtherLeavesTask(s: State, t: State, e: Event, c: nat)
    requires Structure(t) && SameTask(s, t, c) && Next(t, e).Some? && !Plays(TheTask(c), e)
    ensures SameTask(s, Next(t, e).value, c)
  {
    hide Structure, Next;
    if OfTask(e) {
      TaskEventsMoveOnlyTheTask(t, e);
    } else if OfCall(e) {
      StageAdvances(t, e);
      if e.Spawn? { UnspawnedHasNoTask(t, e); }
    } else {
      OutsideLeavesTask(t, e);
    }
  }

  lemma OutsideLeavesTask(s: State, e: Event)
    requires Next(s, e).Some? && !OfCall(e)
    ensures var t := Next(s, e).value;
      && (forall c :: c in s.calls ==> c in t.calls && t.calls[c] == s.calls[c])
      && (forall c :: c in s.tasks ==>
            c in t.tasks && (t.tasks[c] == s.tasks[c] || t.tasks[c] == s.tasks[c].(phase := Aborted)))
  {
  }

  /** The call is where it was, and so, in name, is its task. */
  predicate SameCall(s: State, t: State, c: nat) {
    c in s.calls ==> c in t.calls && t.calls[c] == s.calls[c] && (c in s.tasks ==> c in t.tasks)
  }

  lemma OthersLeaveCall(before: seq<Event>, after: seq<Event>, c: nat)
    requires before <= after && OwnEvents(after, TheCall(c)) == OwnEvents(before, TheCall(c))
    requires Run(before).Some? && Run(after).Some?
    ensures SameCall(Run(before).value, Run(after).value, c)
  {
    hide Run, Next, Structure, OwnEvents;
    var keeps := (s, t) => SameCall(s, t, c);
    forall s, t, e | Structure(t) && keeps(s, t) && Next(t, e).Some? && !Plays(TheCall(c), e)
      ensures keeps(s, Next(t, e).value)
    {
      OtherLeavesCall(s, t, e, c);
    }
    OthersKeep(before, after, TheCall(c), keeps);
    assert keeps(Run(before).value, Run(after).value);
  }

  lemma OtherLeavesCall(s: State, t: State, e: Event, c: nat)
    requires SameCall(s, t, c) && Next(t, e).Some? && !Plays(TheCall(c), e)
    ensures SameCall(s, Next(t, e).value, c)
  {
    hide Next;
    if OfTask(e) {
      TaskEventsMoveOnlyTheTask(t, e);
    } else if OfCall(e) {
      StageAdvances(t, e);
    } else {
      OutsideLeavesTask(t, e);
    }
  }

  /** A cancel between its drain and its abort still has its cookie. */
  predicate SameCancel(s: State, t: State, k: nat) {
    k in s.cancels ==> k in t.cancels && t.cancels[k] == s.cancels[k]
  }

  lemma OthersLeaveCancel(before: seq<Event>, after: seq<Event>, k: nat)
    requires before <= after && OwnEvents(after, TheCancel(k)) == OwnEvents(before, TheCancel(k))
    requires Run(before).Some? && Run(after).Some?
    ensures SameCancel(Run(before).value, Run(after).value, k)
  {
    hide Run, Next, Structure, OwnEvents;
    var keeps := (s, t) => SameCancel(s, t, k);
    forall s, t, e | Structure(t) && keeps(s, t) && Next(t, e).Some? && !Plays(TheCancel(k), e)
      ensures keeps(s, Next(t, e).value)
    {
      OtherLeavesCancel(s, t, e, k);
    }
    OthersKeep(before, after, TheCancel(k), keeps);
    assert keeps(Run(before).value, Run(after).value);
  }

  lemma OtherLeavesCancel(s: State, t: State, e: Event, k: nat)
    requires SameCancel(s, t, k) && Next(t, e).Some? && !Plays(TheCancel(k), e)
    ensures SameCancel(s, Next(t, e).value, k)
  {
    hide Next;
    if OfTask(e) {
      TaskEventsMoveOnlyTheTask(t, e);
    } else if e.CancelDrain? || e.CancelAbort? {
      OtherCancel(t, e, k);
    } else {
      NoCancel(t, e);
    }
  }

  lemma OtherCancel(t: State, e: Event, k: nat)
    requires Next(t, e).Some? && (e.CancelDrain? || e.CancelAbort?) && e.k != k
    ensures var u := Next(t, e).value; k in t.cancels ==> k in u.cancels && u.cancels[k] == t.cancels[k]
  {
  }

  lemma NoCancel(t: State, e: Event)
    requires Next(t, e).Some? && !OfTask(e) && !e.CancelDrain? && !e.CancelAbort?
    ensures Next(t, e).value.cancels == t.cancels
  {
    hide NewTask;
  }
}
