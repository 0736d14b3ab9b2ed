/**
 Whose approvals can be in the queue. The agent's comment says at most one, the
 current session's. Here is what is true of every run, on exactly which runs the
 comment is true throughout, and three ways to leave them.
 */
module AgentLeftovers {
  import opened Common
  import opened AgentModel
  import opened AgentSessions
  import opened AgentHistory
  import opened Config
  import opened ProcInfo
  import Q = ApprovalQueue
  import Policy
  import Elevation

  // ---- every run

  /** The cancel that aborted `c` had drained the queue before the `o`-th push. */
  predicate DrainedBefore(s: State, c: nat, o: nat) {
    c in s.log.abortedBy && s.log.abortedBy[c] in s.log.drainedAt && s.log.drainedAt[s.log.abortedBy[c]] <= o
  }

  /** What goes with the `o`-th push, made by `c`, still being queued. */
  predicate MayBeQueued(s: State, c: nat, o: nat)
    requires c in s.tasks
  {
    match s.tasks[c].phase
    case HandingOff => true
    case Draining => true
    case Aborted => DrainedBefore(s, c, o)
    case Ended(HandoffFailed) => true
    case Ended(Succeeded) => true
    case Ended(Dropped) => DrainedBefore(s, c, o)
    case _ => false
  }

  ghost predicate LeftoversHold(s: State) {
    && (forall i :: 0 <= i < |s.log.origin| ==>
          && s.log.origin[i] < |s.log.pushes| && s.log.pushes[s.log.origin[i]].call in s.tasks
          && MayBeQueued(s, s.log.pushes[s.log.origin[i]].call, s.log.origin[i]))
    && (forall k :: k in s.cancels ==>
          && k in s.log.drainedAt && s.log.drainedAt[k] <= |s.log.pushes|
          && forall i :: 0 <= i < |s.log.origin| ==> s.log.drainedAt[k] <= s.log.origin[i])
  }

  /** The marks of cancels and aborts are only added to. */
  ghost predicate MarksGrew(s: State, t: State) {
    && (forall k :: k in s.log.drainedAt ==> k in t.log.drainedAt && t.log.drainedAt[k] == s.log.drainedAt[k])
    && t.log.abortedBy == s.log.abortedBy
  }

  /** Steps that add nothing to the queue and move a phase only along. */
  lemma ShrinkingStep(s: State, t: State)
    requires LeftoversHold(s) && t.log.pushes == s.log.pushes && MarksGrew(s, t)
    requires t.log.origin == [] || t.log.origin == s.log.origin
    requires forall c :: c in s.tasks ==> c in t.tasks
    requires forall c, o: nat :: c in s.tasks && t.log.origin != [] && MayBeQueued(s, c, o) && o in s.log.origin ==>
      MayBeQueued(t, c, o)
    requires forall k :: k in t.cancels ==>
      (k in s.cancels && k in t.log.drainedAt)
        || (k in t.log.drainedAt && t.log.drainedAt[k] == |s.log.pushes| && t.log.origin == [])
    ensures LeftoversHold(t)
  {
    forall i | 0 <= i < |t.log.origin| ensures MayBeQueued(t, t.log.pushes[t.log.origin[i]].call, t.log.origin[i]) {
      assert s.log.origin[i] in s.log.origin && MayBeQueued(s, s.log.pushes[s.log.origin[i]].call, s.log.origin[i]);
    }
  }

  lemma TaskStepKeeps(s: State, e: Event)
    requires LeftoversHold(s) && Next(s, e).Some? && OfTask(e) && !e.Push?
    ensures LeftoversHold(Next(s, e).value)
  {
    hide Next;
    TaskEventsMoveOnlyTheTask(s, e);
    TaskPhasesMoveAlong(s, e);
    ShrinkingStep(s, Next(s, e).value);
  }

  /** Nothing is queued, and the phase moves only along. */
  ghost predicate PhaseMoved(s: State, c: nat, t: State) {
    && t.log.pushes == s.log.pushes && (t.log.origin == [] || t.log.origin == s.log.origin)
    && t.cancels == s.cancels && MarksGrew(s, t)
    && c in s.tasks && c in t.tasks
    && (t.log.origin == [] || forall o: nat :: MayBeQueued(s, c, o) ==> MayBeQueued(t, c, o))
  }

  lemma EarlyPhases(s: State, e: Event)
    requires Next(s, e).Some? && (e.Poll? || e.Lookup? || e.Verdict? || e.Remember?)
    ensures PhaseMoved(s, e.c, Next(s, e).value)
  {
    hide Next, PhaseMoved;
    if e.Poll? || e.Verdict? {
      DecidingPhases(s, e);
    } else {
      CachePhases(s, e);
    }
  }

  lemma DecidingPhases(s: State, e: Event)
    requires Next(s, e).Some? && (e.Poll? || e.Verdict?)
    ensures PhaseMoved(s, e.c, Next(s, e).value)
  {
    hide Polled, Decided;
  }

  lemma CachePhases(s: State, e: Event)
    requires Next(s, e).Some? && (e.Lookup? || e.Remember?)
    ensures PhaseMoved(s, e.c, Next(s, e).value)
  {
    hide Grants.Fresh, Grants.Record;
  }

  lemma LatePhases(s: State, e: Event)
    requires Next(s, e).Some? && (e.Handoff? || e.Drain? || e.Reap?)
    ensures PhaseMoved(s, e.c, Next(s, e).value)
  {
  }

  lemma TaskPhasesMoveAlong(s: State, e: Event)
    requires Next(s, e).Some? && OfTask(e) && !e.Push?
    ensures PhaseMoved(s, e.c, Next(s, e).value)
  {
    hide Next, PhaseMoved;
    if e.Handoff? || e.Drain? || e.Reap? {
      LatePhases(s, e);
    } else {
      EarlyPhases(s, e);
    }
  }

  lemma PushStepKeeps(s: State, e: Event)
    requires QueueHolds(s) && EvidenceHolds(s) && LeftoversHold(s) && Next(s, e).Some? && e.Push?
    ensures LeftoversHold(Next(s, e).value)
  {
    forall p | 0 <= p < |s.log.pushes| ensures s.log.pushes[p].call != e.c { assert PushHolds(s, s.log.pushes[p]); }
    ApprovedKeeps(s, e.c, s.tasks[e.c].phase.why);
  }

  lemma ApprovedKeeps(s: State, c: nat, why: Why)
    requires LeftoversHold(s) && c in s.calls && c in s.tasks
    requires forall p :: 0 <= p < |s.log.pushes| ==> s.log.pushes[p].call != c
    ensures LeftoversHold(Approved(s, c, why))
  {
    var t := Approved(s, c, why);
    forall i | 0 <= i < |t.log.origin|
      ensures t.log.origin[i] < |t.log.pushes| && t.log.pushes[t.log.origin[i]].call in t.tasks
      ensures MayBeQueued(t, t.log.pushes[t.log.origin[i]].call, t.log.origin[i])
    {
      if i < |s.log.origin| {
        assert MayBeQueued(s, s.log.pushes[s.log.origin[i]].call, s.log.origin[i]);
      }
    }
  }

  lemma AbortStepKeeps(s: State, e: Event)
    requires LeftoversHold(s) && Next(s, e).Some? && e.CancelAbort?
    ensures LeftoversHold(Next(s, e).value)
  {
    var t := Next(s, e).value;
    forall i | 0 <= i < |t.log.origin| ensures MayBeQueued(t, t.log.pushes[t.log.origin[i]].call, t.log.origin[i]) {
      assert MayBeQueued(s, s.log.pushes[s.log.origin[i]].call, s.log.origin[i]);
    }
  }

  lemma TakeStepKeeps(s: State)
    requires QueueHolds(s) && LeftoversHold(s)
    ensures LeftoversHold(Dequeued(s))
  {
    hide Dequeued, TakeAnswer;
    DequeuedShape(s);
    CutKeepsLeftovers(s, Dequeued(s), |s.queue| - |Dequeued(s).queue|);
  }

  lemma CutKeepsLeftovers(s: State, t: State, gone: nat)
    requires LeftoversHold(s) && gone <= |s.log.origin|
    requires t == s.(queue := t.queue, log := s.log.(origin := s.log.origin[gone..], takes := t.log.takes))
    ensures LeftoversHold(t)
  {
    forall i | 0 <= i < |t.log.origin| ensures MayBeQueued(t, t.log.pushes[t.log.origin[i]].call, t.log.origin[i]) {
      assert t.log.origin[i] == s.log.origin[gone + i];
    }
  }

  lemma CallStepKeeps(s: State, e: Event)
    requires Structure(s) && LeftoversHold(s) && Next(s, e).Some?
    requires !OfTask(e) && !e.CancelAbort? && !e.TakeApproval? && EvidenceHolds(s)
    ensures LeftoversHold(Next(s, e).value)
  {
    hide Structure, Next;
    OtherStepFrame(s, e);
    CallStepQueues(s, e);
    ShrinkingStep(s, Next(s, e).value);
  }

  lemma CallStepQueues(s: State, e: Event)
    requires Next(s, e).Some? && !OfTask(e) && !e.CancelAbort? && !e.TakeApproval?
    ensures var t := Next(s, e).value;
      && t.log.pushes == s.log.pushes && (t.log.origin == [] || t.log.origin == s.log.origin)
      && (if e.CancelDrain? then
            && t.cancels.Keys == s.cancels.Keys + {e.k} && t.log.origin == [] && e.k !in s.log.drainedAt
            && t.log.drainedAt == s.log.drainedAt[e.k := |s.log.pushes|] && t.log.abortedBy == s.log.abortedBy
          else t.cancels == s.cancels && t.log.drainedAt == s.log.drainedAt && t.log.abortedBy == s.log.abortedBy)
  {
  }

  lemma NextKeepsLeftovers(s: State, e: Event)
    requires Structure(s) && QueueHolds(s) && EvidenceHolds(s) && LeftoversHold(s) && Next(s, e).Some?
    ensures LeftoversHold(Next(s, e).value)
  {
    hide Structure, QueueHolds, EvidenceHolds, LeftoversHold, Dequeued;
    if e.Push? {
      PushStepKeeps(s, e);
    } else if OfTask(e) {
      TaskStepKeeps(s, e);
    } else if e.CancelAbort? {
      AbortStepKeeps(s, e);
    } else if e.TakeApproval? {
      TakeStepKeeps(s);
    } else {
      CallStepKeeps(s, e);
    }
  }

  lemma InitiallyEmpty()
    ensures LeftoversHold(INITIAL) && Q.Valid(Q.State(INITIAL.queue, INITIAL.now)) && Own(INITIAL) && Tidy(INITIAL)
  {
  }

  lemma {:induction false} RunKeepsLeftovers(es: seq<Event>)
    requires Run(es).Some?
    ensures LeftoversHold(Run(es).value)
  {
    hide Next, Structure, QueueHolds, EvidenceHolds, LeftoversHold;
    InitiallyEmpty();
    if es != [] {
      var before := es[..|es| - 1];
      RunKeepsLeftovers(before);
      RunKeepsHistory(before);
      RunKeepsStructure(before);
      NextKeepsLeftovers(Run(before).value, es[|es| - 1]);
    }
  }

  /**
   The three ways to leave an approval behind: a failed hand-off, a SUCCESS, an abort whose cancel drained before
   the push.
   */
  predicate LeavesBehind(s: State, c: nat, o: nat)
    requires c in s.tasks
  {
    || s.tasks[c].phase == Ended(HandoffFailed)
    || s.tasks[c].phase == Ended(Succeeded)
    || (s.tasks[c].phase == Ended(Dropped) && DrainedBefore(s, c, o))
  }

  /**
   In every run, every queued approval was pushed by the present guard holder or by a
   session that left by one of the three exits, and it expires one second after its push.
   */
  lemma WhoseApprovals(es: seq<Event>, i: nat)
    requires Run(es).Some? && i < |Run(es).value.queue|
    ensures var s := Run(es).value;
      && |s.log.origin| == |s.queue| && s.log.origin[i] < |s.log.pushes|
      && var p := s.log.pushes[s.log.origin[i]];
        && p.call in s.tasks
        && (s.inflight == Some(p.call) || LeavesBehind(s, p.call, s.log.origin[i]))
        && s.queue[i] == Q.Approval(p.action, p.at + Q.TTL)
  {
    hide Run, Next;
    RunKeepsLeftovers(es);
    RunKeepsHistory(es);
    RunKeepsStructure(es);
  }

  lemma {:induction false} RunKeepsExpiryOrder(es: seq<Event>)
    requires Run(es).Some?
    ensures Q.Valid(Q.State(Run(es).value.queue, Run(es).value.now))
  {
    hide Next, Q.Valid, Q.Step;
    InitiallyEmpty();
    if es != [] {
      var s, e := Run(es[..|es| - 1]).value, es[|es| - 1];
      RunKeepsExpiryOrder(es[..|es| - 1]);
      QueueSteps(s, e);
      Q.StepKeepsValid(Q.State(s.queue, s.now), QueueOp(s, e));
    }
  }

  /** What a step of the protocol does to the queue and its clock. */
  function QueueOp(s: State, e: Event): Q.Op {
    match e
    case Push(c) => if c in s.calls then Q.Push(s.calls[c].action) else Q.Tick(0)
    case TakeApproval => Q.TakeOne
    case Drain(_) => Q.Drain
    case CancelDrain(_, _) => Q.Drain
    case Tick(d) => Q.Tick(d)
    case _ => Q.Tick(0)
  }

  lemma QueueSteps(s: State, e: Event)
    requires Next(s, e).Some?
    ensures Q.State(Next(s, e).value.queue, Next(s, e).value.now)
      == Q.Step(Q.State(s.queue, s.now), QueueOp(s, e)).state
  {
  }

  lemma ExpiredIsDropped(s: State, i: nat)
    requires |s.log.origin| == |s.queue| && Q.Sorted(s.queue) && i < |s.queue| && s.queue[i].expiresAt <= s.now
    ensures var t := Dequeued(s);
      var gone := |s.queue| - |t.queue|;
      && i < gone <= |s.queue| && t.log.origin == s.log.origin[gone..]
      && (if TakeAnswer(s) then gone > i + 1 && AnswersAt(s, t, gone) else t.log.takes == s.log.takes)
  {
    hide Q.Sorted, Q.Take, AnswersAt;
    Q.ExpiredAreDropped(s.queue, s.now, i);
    DequeuedShape(s);
  }

  /**
   Whatever else is queued: an approval whose second is over is dropped by the next take
   unanswered, with all before it, and a true answer is for a later push.
   */
  lemma LeftoversExpire(es: seq<Event>, i: nat, later: nat)
    requires Run(es).Some? && i < |Run(es).value.queue| && Run(es).value.now <= later
    requires Run(es).value.queue[i].expiresAt <= later
    ensures var s := Run(es).value.(now := later);
      var t := Dequeued(s);
      var gone := |s.queue| - |t.queue|;
      && i < gone <= |s.queue| == |s.log.origin| && t.log.origin == s.log.origin[gone..]
      && (if TakeAnswer(s) then gone > i + 1 && AnswersAt(s, t, gone) else t.log.takes == s.log.takes)
  {
    hide Run, Next, EvidenceHolds, Dequeued, TakeAnswer, AnswersAt, Q.Sorted;
    RunKeepsHistory(es);
    RunKeepsExpiryOrder(es);
    ExpiredIsDropped(Run(es).value.(now := later), i);
  }

  // ---- the runs on which the comment is true throughout

  /** Every queued approval is the guard holder's. */
  ghost predicate Own(s: State) {
    forall i :: 0 <= i < |s.log.origin| ==>
      s.log.origin[i] < |s.log.pushes| && s.inflight == Some(s.log.pushes[s.log.origin[i]].call)
  }

  /** At most one approval is queued, and it belongs to the session being processed. */
  ghost predicate CommentHolds(s: State) {
    && |s.queue| <= 1
    && (s.queue != [] ==>
          && |s.log.origin| == 1 && s.log.origin[0] < |s.log.pushes|
          && s.inflight == Some(s.log.pushes[s.log.origin[0]].call) && s.inflight.value in s.calls
          && s.queue[0].actionId == s.calls[s.inflight.value].action)
  }

  /** No session pushes twice, so owning all of the queue and owning its one approval are the same. */
  lemma OwnIsTheComment(s: State)
    requires QueueHolds(s) && EvidenceHolds(s)
    ensures Own(s) <==> CommentHolds(s)
  {
    assert |s.queue| > 1 ==> s.log.origin[0] < s.log.origin[1];
    if |s.queue| == 1 {
      assert PushHolds(s, s.log.pushes[s.log.origin[0]]);
    }
  }

  lemma GuardFrame(s: State, e: Event)
    requires Structure(s) && Next(s, e).Some? && !e.Cleanup? && !e.Reject?
    ensures s.inflight.Some? ==> Next(s, e).value.inflight == s.inflight
  {
    hide TasksHold, SessionsHold;
  }

  lemma PushKeepsOwn(s: State, e: Event)
    requires Structure(s) && Own(s) && Next(s, e).Some? && e.Push?
    ensures Own(Next(s, e).value)
  {
    assert Live(s, e.c);
  }

  lemma TakeKeepsOwn(s: State)
    requires QueueHolds(s) && Own(s)
    ensures Own(Dequeued(s))
  {
    DequeuedShape(s);
    var t := Dequeued(s);
    forall i | 0 <= i < |t.log.origin|
      ensures t.log.origin[i] < |t.log.pushes| && t.inflight == Some(t.log.pushes[t.log.origin[i]].call)
    {
      assert t.log.origin[i] == s.log.origin[|s.queue| - |t.queue| + i];
    }
  }

  /** Only a call that has spawned its task has anything queued. */
  lemma OwnerHasSpawned(s: State)
    requires EvidenceHolds(s) && Own(s)
    ensures s.log.origin != [] ==> s.inflight.Some? && s.inflight.value in s.tasks
  {
    if s.log.origin != [] {
      assert PushHolds(s, s.log.pushes[s.log.origin[0]]);
    }
  }

  lemma RejectFindsNothing(s: State, e: Event)
    requires Structure(s) && EvidenceHolds(s) && Own(s) && Next(s, e).Some? && e.Reject?
    ensures s.log.origin == []
  {
    OwnerHasSpawned(s);
  }

  lemma OtherStepKeepsOwn(s: State, e: Event)
    requires Structure(s) && EvidenceHolds(s) && Own(s) && Next(s, e).Some?
    requires !e.Push? && !e.TakeApproval? && !e.Cleanup?
    ensures Own(Next(s, e).value)
  {
    QueueUntouched(s, e);
    if e.Reject? {
      RejectFindsNothing(s, e);
    } else {
      GuardFrame(s, e);
    }
  }

  lemma CleanupFrame(s: State, e: Event)
    requires Next(s, e).Some? && e.Cleanup?
    ensures Next(s, e).value.inflight.None? && Next(s, e).value.log == s.log
  {
  }

  /** One step: the guard holder's queue stays its own unless the holder returns and leaves something in it. */
  lemma OwnStep(s: State, e: Event)
    requires Structure(s) && QueueHolds(s) && EvidenceHolds(s) && Own(s) && Next(s, e).Some?
    ensures Own(Next(s, e).value) <==> !(e.Cleanup? && s.queue != [])
  {
    hide Structure, EvidenceHolds;
    if e.Push? {
      PushKeepsOwn(s, e);
    } else if e.TakeApproval? {
      TakeKeepsOwn(s);
    } else if e.Cleanup? {
      CleanupFrame(s, e);
      if s.queue != [] {
        assert Next(s, e).value.log.origin[0] == s.log.origin[0];
      }
    } else {
      OtherStepKeepsOwn(s, e);
    }
  }

  /** The state a run is in before its `n`-th event. */
  function Before(es: seq<Event>, n: nat): State
    requires n <= |es|
  {
    match Run(es[..n]) case Some(s) => s case None => INITIAL
  }

  lemma {:induction false} PrefixRuns(es: seq<Event>, n: nat)
    requires Run(es).Some? && n <= |es|
    ensures Run(es[..n]) == Some(Before(es, n))
    ensures n < |es| ==> Next(Before(es, n), es[n]) == Some(Before(es, n + 1))
    decreases |es| - n
  {
    hide Next;
    if n == |es| {
      assert es[..n] == es;
    } else {
      PrefixRuns(es, n + 1);
      assert es[..n + 1][..n] == es[..n];
    }
  }

  /** Every return of `begin_authentication` finds the queue empty. */
  ghost predicate ReturnsFindNothing(es: seq<Event>) {
    forall n :: 0 <= n < |es| && es[n].Cleanup? ==> Before(es, n).queue == []
  }

  lemma OwnBefore(es: seq<Event>, n: nat)
    requires Run(es).Some? && n < |es| && Own(Before(es, n))
    ensures Own(Before(es, n + 1)) <==> !(es[n].Cleanup? && Before(es, n).queue != [])
  {
    hide Run, Next, Structure, QueueHolds, EvidenceHolds, Own;
    PrefixRuns(es, n);
    RunKeepsHistory(es[..n]);
    RunKeepsStructure(es[..n]);
    OwnStep(Before(es, n), es[n]);
  }

  lemma OwnAtFirst(es: seq<Event>)
    ensures Own(Before(es, 0))
  {
    InitiallyEmpty();
    assert es[..0] == [];
  }

  lemma {:induction false} OwnUpTo(es: seq<Event>, n: nat)
    requires Run(es).Some? && n <= |es| && ReturnsFindNothing(es)
    ensures Own(Before(es, n))
  {
    hide Run, Next, Own;
    if n == 0 {
      OwnAtFirst(es);
    } else {
      OwnUpTo(es, n - 1);
      OwnBefore(es, n - 1);
    }
  }

  lemma CommentBefore(es: seq<Event>, n: nat)
    requires Run(es).Some? && n <= |es|
    ensures Own(Before(es, n)) <==> CommentHolds(Before(es, n))
  {
    hide Run, Next, Own, CommentHolds, QueueHolds, EvidenceHolds;
    PrefixRuns(es, n);
    RunKeepsHistory(es[..n]);
    OwnIsTheComment(Before(es, n));
  }

  /** The comment is true in every state of the run. */
  ghost predicate CommentThroughout(es: seq<Event>) {
    forall n :: 0 <= n <= |es| ==> CommentHolds(Before(es, n))
  }

  lemma CommentIfReturnsFindNothing(es: seq<Event>)
    requires Run(es).Some? && ReturnsFindNothing(es)
    ensures CommentThroughout(es)
  {
    hide Run, Next, Own, CommentHolds;
    forall n | 0 <= n <= |es| ensures CommentHolds(Before(es, n)) {
      OwnUpTo(es, n);
      CommentBefore(es, n);
    }
  }

  lemma ReturnFindsNothing(es: seq<Event>, n: nat)
    requires Run(es).Some? && n < |es| && es[n].Cleanup?
    requires CommentHolds(Before(es, n)) && CommentHolds(Before(es, n + 1))
    ensures Before(es, n).queue == []
  {
    hide Run, Next, Before, CommentHolds;
    CommentBefore(es, n);
    CommentBefore(es, n + 1);
    OwnBefore(es, n);
  }

  lemma ReturnsFindNothingIfComment(es: seq<Event>)
    requires Run(es).Some? && CommentThroughout(es)
    ensures ReturnsFindNothing(es)
  {
    forall n | 0 <= n < |es| && es[n].Cleanup? ensures Before(es, n).queue == [] {
      ReturnFindsNothing(es, n);
    }
  }

  /**
   For every run: the comment is true in each of its states if and only if every return
   of `begin_authentication` found the queue empty.
   */
  lemma CommentHoldsExactlyWhen(es: seq<Event>)
    requires Run(es).Some?
    ensures CommentThroughout(es) <==> ReturnsFindNothing(es)
  {
    if ReturnsFindNothing(es) {
      CommentIfReturnsFindNothing(es);
    }
    if CommentThroughout(es) {
      ReturnsFindNothingIfComment(es);
    }
  }

  /** Whether an event takes something out of the queue. */
  predicate TakesOut(e: Event) {
    e.TakeApproval? || e.Drain? || e.CancelDrain?
  }

  /** Between a push and every later return something has been taken out of the queue. */
  ghost predicate PushesAreSettled(es: seq<Event>) {
    forall i, n :: 0 <= i < n < |es| && es[i].Push? && es[n].Cleanup? ==> exists m :: i < m < n && TakesOut(es[m])
  }

  lemma QueueStep(s: State, e: Event)
    requires |s.log.origin| == |s.queue| && Next(s, e).Some?
    ensures var t := Next(s, e).value;
      && (e.Push? ==> t.queue != [])
      && (!e.Push? && !TakesOut(e) ==> t.queue == s.queue)
      && (TakesOut(e) && |s.queue| <= 1 ==> t.queue == [])
  {
    hide Next;
    if e.Push? {
      PushFills(s, e);
    } else if TakesOut(e) {
      if |s.queue| <= 1 {
        TakingEmpties(s, e);
      }
    } else if OfTask(e) {
      TaskLeavesQueue(s, e);
    } else {
      OthersLeaveQueue(s, e);
    }
  }

  lemma PushFills(s: State, e: Event)
    requires Next(s, e).Some? && e.Push?
    ensures Next(s, e).value.queue != []
  {
  }

  lemma TakingEmpties(s: State, e: Event)
    requires |s.log.origin| == |s.queue| <= 1 && Next(s, e).Some? && TakesOut(e)
    ensures Next(s, e).value.queue == []
  {
  }

  lemma TaskLeavesQueue(s: State, e: Event)
    requires Next(s, e).Some? && OfTask(e) && !e.Push? && !TakesOut(e)
    ensures Next(s, e).value.queue == s.queue
  {
    hide Grants.Fresh, Grants.Record, Polled, Decided, HandedOff;
  }

  lemma OthersLeaveQueue(s: State, e: Event)
    requires Next(s, e).Some? && !OfTask(e) && !TakesOut(e)
    ensures Next(s, e).value.queue == s.queue
  {
    hide NewTask;
  }

  lemma QueueBefore(es: seq<Event>, n: nat)
    requires Run(es).Some? && n < |es|
    ensures |Before(es, n).log.origin| == |Before(es, n).queue| && Next(Before(es, n), es[n]) == Some(Before(es, n + 1))
  {
    hide Next, EvidenceHolds;
    PrefixRuns(es, n);
    RunKeepsHistory(es[..n]);
  }

  /** Nothing taken out since a push: still something queued. */
  lemma {:induction false} StillQueued(es: seq<Event>, i: nat, n: nat)
    requires Run(es).Some? && i < n <= |es| && es[i].Push? && forall m :: i < m < n ==> !TakesOut(es[m])
    ensures Before(es, n).queue != []
    decreases n
  {
    hide Run, Next, Before;
    QueueBefore(es, n - 1);
    QueueStep(Before(es, n - 1), es[n - 1]);
    if i < n - 1 {
      StillQueued(es, i, n - 1);
    }
  }

  /** While the comment holds, something queued means a push with nothing taken out since. */
  lemma {:induction false} QueuedSince(es: seq<Event>, n: nat) returns (i: nat)
    requires Run(es).Some? && n <= |es| && Before(es, n).queue != []
    requires forall m :: 0 <= m < n ==> |Before(es, m).queue| <= 1
    ensures i < n && es[i].Push? && forall m :: i < m < n ==> !TakesOut(es[m])
    decreases n
  {
    hide Run, Next, Before;
    i := if n > 0 then n - 1 else 0;
    NothingAtFirst(es);
    if n > 0 {
      QueueBefore(es, n - 1);
      QueueStep(Before(es, n - 1), es[n - 1]);
      if !es[n - 1].Push? {
        i := QueuedSince(es, n - 1);
      }
    }
  }

  lemma NothingAtFirst(es: seq<Event>)
    ensures Before(es, 0).queue == []
  {
    assert es[..0] == [];
  }

  lemma {:induction false} SettledUpTo(es: seq<Event>, n: nat)
    requires Run(es).Some? && n <= |es| && PushesAreSettled(es)
    ensures forall m :: 0 <= m <= n ==> Own(Before(es, m)) && |Before(es, m).queue| <= 1
  {
    hide Run, Next, Before, Own;
    if n == 0 {
      OwnAtFirst(es);
      NothingAtFirst(es);
    } else {
      SettledUpTo(es, n - 1);
      OwnBefore(es, n - 1);
      if es[n - 1].Cleanup? && Before(es, n - 1).queue != [] {
        var i := QueuedSince(es, n - 1);
        assert false;
      }
      AtMostOne(es, n);
    }
  }

  lemma AtMostOne(es: seq<Event>, n: nat)
    requires Run(es).Some? && n <= |es| && Own(Before(es, n))
    ensures |Before(es, n).queue| <= 1
  {
    hide Run, Next, Before, Own;
    CommentBefore(es, n);
  }

  /**
   The same in terms of events alone: the comment is true throughout a run if and only if
   between every push and every later return of a `begin_authentication` there is a take
   or a drain.
   */
  lemma CommentHoldsExactlyWhenSettled(es: seq<Event>)
    requires Run(es).Some?
    ensures CommentThroughout(es) <==> PushesAreSettled(es)
  {
    hide Run, Next, Before, Own, CommentHolds, TakesOut;
    if PushesAreSettled(es) {
      SettledUpTo(es, |es|);
      forall n | 0 <= n <= |es| ensures CommentHolds(Before(es, n)) { CommentBefore(es, n); }
    }
    if CommentThroughout(es) {
      ReturnsFindNothingIfComment(es);
      forall i, n | 0 <= i < n < |es| && es[i].Push? && es[n].Cleanup?
        ensures exists m :: i < m < n && TakesOut(es[m])
      {
        if forall m :: i < m < n ==> !TakesOut(es[m]) {
          StillQueued(es, i, n);
        }
      }
    }
  }

  /** The approval of `c` is queued. */
  ghost predicate HasQueued(s: State, c: nat) {
    exists i :: 0 <= i < |s.log.origin| && s.log.origin[i] < |s.log.pushes| && s.log.pushes[s.log.origin[i]].call == c
  }

  /**
   At the exits: a session that ends leaves its approval behind exactly if it is queued at
   that moment and the end is a hand-off error, SUCCESS or an abort; where the comment has
   held so far, that is exactly if the queue is not empty.
   */
  lemma ExitLeavesExactlyWhen(es: seq<Event>, e: Event)
    requires Run(es).Some? && Next(Run(es).value, e).Some? && OfTask(e)
    requires e.c in Next(Run(es).value, e).value.tasks && Next(Run(es).value, e).value.tasks[e.c].phase.Ended?
    ensures var s, t := Run(es).value, Next(Run(es).value, e).value;
      && (HasQueued(t, e.c) <==> (e.Handoff? || e.Reap?) && HasQueued(s, e.c))
      && (Own(s) ==> (HasQueued(t, e.c) <==> (e.Handoff? || e.Reap?) && s.queue != []))
  {
    hide Run, Next, Structure, EvidenceHolds, HasQueued, Own;
    RunKeepsHistory(es);
    RunKeepsStructure(es);
    EndLeaves(Run(es).value, e);
  }

  lemma EndLeaves(s: State, e: Event)
    requires Structure(s) && EvidenceHolds(s) && |s.log.origin| == |s.queue| && Next(s, e).Some? && OfTask(e)
    requires e.c in Next(s, e).value.tasks && Next(s, e).value.tasks[e.c].phase.Ended?
    ensures var t := Next(s, e).value;
      && (HasQueued(t, e.c) <==> (e.Handoff? || e.Reap?) && HasQueued(s, e.c))
      && (Own(s) ==> (HasQueued(t, e.c) <==> (e.Handoff? || e.Reap?) && s.queue != []))
  {
    hide Next, Structure, Evidence, TaskHolds;
    EndFrame(s, e);
    LiveIsHolder(s, e.c);
    if HasQueued(s, e.c) {
      var i :| 0 <= i < |s.log.origin| && s.log.origin[i] < |s.log.pushes| && s.log.pushes[s.log.origin[i]].call == e.c;
      PusherIsKnown(s, s.log.origin[i]);
    }
    if Own(s) && s.queue != [] {
      assert s.log.pushes[s.log.origin[0]].call == e.c;
    }
  }

  lemma LiveIsHolder(s: State, c: nat)
    requires Structure(s) && Live(s, c)
    ensures s.inflight == Some(c)
  {
  }

  lemma EndFrame(s: State, e: Event)
    requires Next(s, e).Some? && OfTask(e) && e.c in Next(s, e).value.tasks && Next(s, e).value.tasks[e.c].phase.Ended?
    ensures var t := Next(s, e).value;
      && e.c in s.tasks && !s.tasks[e.c].phase.Ended? && t.log.pushes == s.log.pushes
      && (e.Drain? ==> t.log.origin == []) && (!e.Drain? ==> t.log.origin == s.log.origin)
      && (MayHavePushed(s.tasks[e.c].phase) <==> e.Handoff? || e.Drain? || e.Reap?)
  {
  }

  // ---- disciplined runs: hand-offs never fail to run, SUCCESS follows a take, a cancel is one step

  datatype Move = Single(e: Event) | CancelAtOnce(k: nat, cookie: string)

  predicate Disciplined(s: State, m: Move) {
    match m
    case CancelAtOnce(_, _) => true
    case Single(CancelDrain(_, _)) => false
    case Single(CancelAbort(_)) => false
    case Single(Handoff(c, None)) => false
    case Single(Handoff(c, Some(true))) => c in s.log.takesAtPush && |s.log.takes| > s.log.takesAtPush[c]
    case Single(_) => true
  }

  function NextMove(s: State, m: Move): Option<State> {
    match m
    case Single(e) => Next(s, e)
    case CancelAtOnce(k, cookie) =>
      match Next(s, CancelDrain(k, cookie))
      case None => None
      case Some(t) => Next(t, CancelAbort(k))
  }

  function RunMoves(ms: seq<Move>): Option<State> {
    if ms == [] then Some(INITIAL)
    else match RunMoves(ms[..|ms| - 1])
      case None => None
      case Some(s) => if Disciplined(s, ms[|ms| - 1]) then NextMove(s, ms[|ms| - 1]) else None
  }

  /** The events of a run of moves. */
  function Events(ms: seq<Move>): seq<Event> {
    if ms == [] then []
    else Events(ms[..|ms| - 1]) + match ms[|ms| - 1]
      case Single(e) => [e]
      case CancelAtOnce(k, cookie) => [CancelDrain(k, cookie), CancelAbort(k)]
  }

  /** A run of moves is a run, so everything proved of runs holds of it. */
  lemma {:induction false} MovesAreARun(ms: seq<Move>)
    requires RunMoves(ms).Some?
    ensures Run(Events(ms)) == RunMoves(ms)
  {
    if ms != [] {
      var before, m := ms[..|ms| - 1], ms[|ms| - 1];
      MovesAreARun(before);
      match m {
        case Single(e) => RunAppend(Events(before), e);
        case CancelAtOnce(k, cookie) =>
          RunAppend(Events(before), CancelDrain(k, cookie));
          RunAppend(Events(before) + [CancelDrain(k, cookie)], CancelAbort(k));
          assert Events(ms) == Events(before) + [CancelDrain(k, cookie)] + [CancelAbort(k)];
      }
    }
  }

  /** The queue is the pending approval of the one session that is handing off, or empty. */
  ghost predicate Tidy(s: State) {
    && |s.cancels| == 0
    && (s.queue != [] ==> Pending(s))
    && (forall c :: c in s.tasks && s.tasks[c].phase.HandingOff? ==>
          && c in s.log.takesAtPush && s.log.takesAtPush[c] <= |s.log.takes|
          && (|s.log.takes| > s.log.takesAtPush[c] ==> s.queue == []))
  }

  ghost predicate Pending(s: State) {
    && |s.queue| == 1 && s.inflight.Some? && s.inflight.value in s.tasks && s.inflight.value in s.calls
    && (s.tasks[s.inflight.value].phase.HandingOff? || s.tasks[s.inflight.value].phase.Draining?)
    && s.queue[0].actionId == s.calls[s.inflight.value].action
  }

  lemma PushIsTidy(s: State, e: Event)
    requires Structure(s) && Tidy(s) && Next(s, e).Some? && e.Push?
    ensures Tidy(Next(s, e).value)
  {
    assert Live(s, e.c);
    assert s.inflight == Some(e.c);
    assert s.queue == [];
  }

  lemma HandoffIsTidy(s: State, e: Event)
    requires Structure(s) && Tidy(s) && Next(s, e).Some? && e.Handoff? && Disciplined(s, Single(e))
    ensures Tidy(Next(s, e).value)
  {
    assert Live(s, e.c);
    assert s.inflight == Some(e.c);
  }

  lemma TakeIsTidy(s: State)
    requires QueueHolds(s) && Tidy(s)
    ensures Tidy(Dequeued(s))
  {
  }

  lemma OtherTaskStepIsTidy(s: State, e: Event)
    requires Structure(s) && Tidy(s) && Next(s, e).Some? && OfTask(e) && !e.Push? && !e.Handoff?
    ensures Tidy(Next(s, e).value)
  {
    TaskEventsMoveOnlyTheTask(s, e);
    OtherTaskStepQueue(s, e);
    assert s.inflight == Some(e.c);
  }

  lemma OtherTaskStepQueue(s: State, e: Event)
    requires Next(s, e).Some? && OfTask(e) && !e.Push? && !e.Handoff?
    ensures var t := Next(s, e).value;
      && !t.tasks[e.c].phase.HandingOff? && !s.tasks[e.c].phase.HandingOff?
      && t.log.takesAtPush == s.log.takesAtPush
      && (if s.tasks[e.c].phase.Draining? then t.queue == [] else t.queue == s.queue)
  {
  }

  /** The steps of the calls release or pass the guard only when the holder's task is over. */
  lemma CallStepIsTidy(s: State, e: Event)
    requires Structure(s) && Tidy(s) && Next(s, e).Some? && !OfTask(e)
    requires !e.CancelDrain? && !e.CancelAbort? && !e.TakeApproval?
    requires forall c :: c in s.calls ==> NUL !in s.calls[c].action
    ensures Tidy(Next(s, e).value)
  {
    var t := Next(s, e).value;
    OtherStepFrame(s, e);
    CallStepGuard(s, e);
  }

  lemma CallStepGuard(s: State, e: Event)
    requires Structure(s) && Next(s, e).Some? && !OfTask(e)
    requires !e.CancelDrain? && !e.CancelAbort? && !e.TakeApproval?
    ensures var t := Next(s, e).value;
      && t.queue == s.queue && t.log.takes == s.log.takes && t.cancels == s.cancels
        && t.log.takesAtPush == s.log.takesAtPush
      && (s.inflight.Some? && Live(s, s.inflight.value) ==> t.inflight == s.inflight)
  {
  }

  lemma AbortAlone(s: State, k: nat)
    requires Next(s, CancelAbort(k)).Some?
    ensures var t := Next(s, CancelAbort(k)).value;
      && t.queue == s.queue && t.log.takes == s.log.takes && t.log.takesAtPush == s.log.takesAtPush
      && t.cancels == s.cancels - {k}
      && (t.tasks == s.tasks || exists c :: c in s.tasks && t.tasks == s.tasks[c := s.tasks[c].(phase := Aborted)])
  {
  }

  /** A cancel in one step empties the queue and at most tells one task to abort. */
  lemma CancelAtOnceShape(s: State, k: nat, cookie: string)
    requires s.cancels == map[] && NextMove(s, CancelAtOnce(k, cookie)).Some?
    ensures var t := NextMove(s, CancelAtOnce(k, cookie)).value;
      && t.queue == [] && t.log.takes == s.log.takes && t.log.takesAtPush == s.log.takesAtPush
      && t.cancels == map[]
      && (t.tasks == s.tasks || exists c :: c in s.tasks && t.tasks == s.tasks[c := s.tasks[c].(phase := Aborted)])
  {
    hide StepCancelAbort;
    var t := DrainedFor(s, k, cookie);
    AbortAlone(t, k);
    assert t.cancels - {k} == map[];
  }

  lemma CancelIsTidy(s: State, m: Move)
    requires Tidy(s) && m.CancelAtOnce? && NextMove(s, m).Some?
    ensures Tidy(NextMove(s, m).value)
  {
    assert s.cancels == map[];
    CancelAtOnceShape(s, m.k, m.cookie);
  }

  lemma MoveIsTidy(s: State, m: Move)
    requires Structure(s) && QueueHolds(s) && Tidy(s) && Disciplined(s, m) && NextMove(s, m).Some?
    requires forall c :: c in s.calls ==> NUL !in s.calls[c].action
    ensures Tidy(NextMove(s, m).value)
  {
    if m.CancelAtOnce? {
      CancelIsTidy(s, m);
    } else if m.e.Push? {
      PushIsTidy(s, m.e);
    } else if m.e.Handoff? {
      HandoffIsTidy(s, m.e);
    } else if m.e.TakeApproval? {
      TakeIsTidy(s);
    } else if OfTask(m.e) {
      OtherTaskStepIsTidy(s, m.e);
    } else {
      CallStepIsTidy(s, m.e);
    }
  }

  lemma {:induction false} RunMovesIsTidy(ms: seq<Move>)
    requires RunMoves(ms).Some?
    ensures Tidy(RunMoves(ms).value)
  {
    hide Next, NextMove, Tidy, Structure, QueueHolds;
    InitiallyEmpty();
    if ms != [] {
      var before := ms[..|ms| - 1];
      RunMovesIsTidy(before);
      MovesAreARun(before);
      RunKeepsStructure(Events(before));
      RunKeepsHistory(Events(before));
      MoveIsTidy(RunMoves(before).value, ms[|ms| - 1]);
    }
  }

  lemma TidyReturnFindsNothing(s: State, e: Event)
    requires Structure(s) && Tidy(s) && Next(s, e).Some? && e.Cleanup?
    ensures s.queue == []
  {
    assert !Live(s, e.c);
  }

  /** The events of a last move, where a return is a move of its own. */
  lemma LastMove(ms: seq<Move>, n: nat)
    requires ms != [] && n < |Events(ms)| && Events(ms)[n].Cleanup?
    ensures var es := Events(ms[..|ms| - 1]);
      && Events(ms)[..n] == (if n < |es| then es[..n] else es)
      && (n < |es| ==> Events(ms)[n] == es[n])
      && (n >= |es| ==> ms[|ms| - 1] == Single(Events(ms)[n]))
  {
  }

  /** A disciplined run returns only with an empty queue. */
  lemma {:induction false} DisciplinedReturnsFindNothing(ms: seq<Move>)
    requires RunMoves(ms).Some?
    ensures ReturnsFindNothing(Events(ms))
  {
    hide Run, Next, Structure, Tidy, Events, Disciplined;
    if ms != [] {
      var before, all := ms[..|ms| - 1], Events(ms);
      DisciplinedReturnsFindNothing(before);
      MovesAreARun(before);
      RunMovesIsTidy(before);
      RunKeepsStructure(Events(before));
      forall n | 0 <= n < |all| && all[n].Cleanup? ensures Before(all, n).queue == [] {
        LastMove(ms, n);
        if n < |Events(before)| {
          assert Before(all, n) == Before(Events(before), n);
        } else {
          TidyReturnFindsNothing(RunMoves(before).value, all[n]);
        }
      }
    } else {
      NoEvents();
    }
  }

  lemma NoEvents()
    ensures Events([]) == []
  {
  }

  /** So on disciplined runs the comment is true in the end as in every state before. */
  lemma AtMostOneApproval(ms: seq<Move>)
    requires RunMoves(ms).Some?
    ensures CommentHolds(RunMoves(ms).value)
    ensures CommentThroughout(Events(ms))
  {
    hide Run, Next, RunMoves, Events, CommentHolds;
    var es := Events(ms);
    MovesAreARun(ms);
    DisciplinedReturnsFindNothing(ms);
    CommentHoldsExactlyWhen(es);
    assert es[..|es|] == es;
    assert CommentHolds(Before(es, |es|));
  }

  // ---- each of the three conditions is needed

  ghost predicate Reachable(s: State) {
    exists es :: Run(es) == Some(s)
  }

  lemma ReachNext(s: State, e: Event, t: State)
    requires Reachable(s) && Next(s, e) == Some(t)
    ensures Reachable(t)
  {
    var es :| Run(es) == Some(s);
    RunAppend(es, e);
  }

  lemma ReachInitial()
    ensures Reachable(INITIAL)
  {
    assert Run([]) == Some(INITIAL);
  }

  /** A configuration whose policy allows one action. */
  function Allowing(action: string): ServiceConfig {
    ServiceConfig(true, Config.Password, Policy.Policy([action], []), 0, Elevation.Command)
  }

  const NO_DETAILS := AgentDetails(None, None, None, None)

  lemma AllowingAllows(action: string)
    ensures NewTask(action, Allowing(action), NO_DETAILS).facts.decision == Policy.Allow
  {
    assert Policy.EntryMatches([action][0], NewTask(action, Allowing(action), NO_DETAILS).inputs.exe, Some(action));
  }

  /** The state once a session for `action` is polled and about to push. */
  function AboutToPush(s: State, c: nat, action: string, cookie: string): State {
    s.(calls := s.calls[c := Call(action, cookie, Awaiting)], inflight := Some(c), lock := None,
       sessions := s.sessions[cookie := c],
       tasks := s.tasks[c := NewTask(action, Allowing(action), NO_DETAILS).(phase := Pushing(ByPolicy))])
  }

  /** A new call that has got as far as the sessions lock. */
  function AtTheLock(s: State, c: nat, action: string, cookie: string): State {
    s.(calls := s.calls[c := Call(action, cookie, Locked)], inflight := Some(c), lock := Some(c))
  }

  lemma ReachLock(s: State, c: nat, action: string, cookie: string)
    requires Reachable(s) && s.inflight.None? && s.lock.None? && c !in s.calls && NUL !in action
    ensures Reachable(AtTheLock(s, c, action, cookie))
  {
    hide Run, Reachable;
    var s1 := s.(calls := s.calls[c := Call(action, cookie, Waiting)]);
    ReachNext(s, Begin(c, action, cookie), s1);
    var s2 := s.(calls := s.calls[c := Call(action, cookie, Guarded)], inflight := Some(c));
    assert s2.calls == s1.calls[c := Call(action, cookie, Guarded)];
    ReachNext(s1, Acquire(c), s2);
    var s3 := AtTheLock(s, c, action, cookie);
    assert s3.calls == s2.calls[c := Call(action, cookie, Locked)];
    ReachNext(s2, Lock(c), s3);
  }

  /** Between two sessions, a policy-allowed one can get as far as its push. */
  lemma ReachAboutToPush(s: State, c: nat, action: string, cookie: string)
    requires Reachable(s) && s.inflight.None? && s.lock.None? && c !in s.calls && NUL !in action
    ensures Reachable(AboutToPush(s, c, action, cookie))
  {
    hide Run, Reachable;
    ReachLock(s, c, action, cookie);
    var task := NewTask(action, Allowing(action), NO_DETAILS);
    var s3 := AtTheLock(s, c, action, cookie);
    var s4 := s3.(calls := s.calls[c := Call(action, cookie, Spawned)], tasks := s.tasks[c := task]);
    assert s4.calls == s3.calls[c := Call(action, cookie, Spawned)];
    ReachNext(s3, Spawn(c, Allowing(action), NO_DETAILS), s4);
    ReachPolled(s, s4, c, action, cookie, task);
  }

  lemma ReachPolled(s: State, s4: State, c: nat, action: string, cookie: string, task: Task)
    requires Reachable(s4) && task == NewTask(action, Allowing(action), NO_DETAILS)
    requires s4 == s.(calls := s.calls[c := Call(action, cookie, Spawned)], tasks := s.tasks[c := task],
                      inflight := Some(c), lock := Some(c))
    ensures Reachable(AboutToPush(s, c, action, cookie))
  {
    hide Run, Reachable, NewTask;
    var s5 := s4.(calls := s.calls[c := Call(action, cookie, Awaiting)], lock := None,
      sessions := s.sessions[cookie := c]);
    assert s5.calls == s4.calls[c := Call(action, cookie, Awaiting)];
    ReachNext(s4, Insert(c), s5);
    ReachPushing(s5, c, task);
    assert AboutToPush(s, c, action, cookie).tasks == s5.tasks[c := task.(phase := Pushing(ByPolicy))];
  }

  lemma ReachPushing(s: State, c: nat, task: Task)
    requires Reachable(s) && c in s.calls && c in s.tasks && s.tasks[c] == task
    requires exists action :: task == NewTask(action, Allowing(action), NO_DETAILS)
    ensures Reachable(s.(tasks := s.tasks[c := task.(phase := Pushing(ByPolicy))]))
  {
    hide Run, Reachable, SubjectOf;
    var action :| task == NewTask(action, Allowing(action), NO_DETAILS);
    AllowingAllows(action);
    ReachNext(s, Poll(c), WithPhase(s, c, Pushing(ByPolicy)));
  }

  /** Once a task is over its call leaves and frees the guard, whatever is queued. */
  lemma ReachLeft(s: State, c: nat)
    requires Reachable(s) && AtStage(s, c, Awaiting) && c in s.tasks && s.tasks[c].phase.Ended? && s.lock.None?
    ensures exists t :: Reachable(t) && Left(s, c, t)
  {
    hide Run, Reachable;
    var t := WithStage(s, c, Cleaning);
    ReachNext(s, SeeDone(c), t);
    var u := WithStage(t, c, Returned).(inflight := None, sessions := t.sessions - {t.calls[c].cookie});
    ReachNext(t, Cleanup(c), u);
    assert Left(s, c, u);
  }

  ghost predicate Left(s: State, c: nat, t: State) {
    && t.inflight.None? && t.lock.None? && t.queue == s.queue && t.log.origin == s.log.origin && t.now == s.now
    && t.calls.Keys == s.calls.Keys
  }

  /**
   The approval of `a` is still queued while the guard is held for `b`, and the next
   `TakeApproval` answers with it.
   */
  ghost predicate Mispaired(s: State, a: string, b: string) {
    && Reachable(s) && |s.queue| == 2
    && s.inflight.Some? && s.inflight.value in s.calls && s.calls[s.inflight.value].action == b
    && s.queue[0].actionId == a && s.queue[1].actionId == b && TakeAnswer(s)
    && Q.Take(s.queue, s.now).result.value.actionId == a
  }

  /** Any leftover of the first session meets the second one's approval. */
  lemma SecondSessionMeetsLeftover(s: State, a: string, b: string)
    requires Reachable(s) && AtStage(s, 0, Awaiting) && 0 in s.tasks && s.tasks[0].phase.Ended? && s.lock.None?
    requires s.calls.Keys == {0} && NUL !in b
    requires s.queue == [Q.Approval(a, s.now + Q.TTL)] && |s.log.origin| == 1
    ensures exists t :: Mispaired(t, a, b)
  {
    hide Run, Reachable, Mispaired;
    ReachLeft(s, 0);
    var t :| Reachable(t) && Left(s, 0, t);
    ReachAboutToPush(t, 1, b, "y");
    PushBehind(AboutToPush(t, 1, b, "y"), 1, a, b);
  }

  /** A push behind another session's approval. */
  lemma PushBehind(u: State, c: nat, a: string, b: string)
    requires Reachable(u) && u.inflight == Some(c) && AtPhase(u, c, Pushing(ByPolicy)) && u.calls[c].action == b
    requires u.queue == [Q.Approval(a, u.now + Q.TTL)] && |u.log.origin| == 1
    ensures exists t :: Mispaired(t, a, b)
  {
    hide Run, Reachable;
    var v := Approved(u, c, ByPolicy);
    ReachNext(u, Push(c), v);
    assert Mispaired(v, a, b);
  }

  /** A first session that is about to push, with nothing queued. */
  ghost predicate Ready(s: State, a: string, cookie: string) {
    && AtStage(s, 0, Awaiting) && AtPhase(s, 0, Pushing(ByPolicy)) && s.lock.None?
    && s.calls.Keys == {0} && s.calls[0].action == a && s.queue == [] && s.log.origin == []
    && cookie in s.sessions && s.sessions[cookie] == 0 && s.cancels == map[] && s.log.drainedAt == map[]
  }

  lemma ReachReady(a: string, cookie: string) returns (s: State)
    requires NUL !in a
    ensures Reachable(s) && Ready(s, a, cookie)
  {
    ReachInitial();
    ReachAboutToPush(INITIAL, 0, a, cookie);
    s := AboutToPush(INITIAL, 0, a, cookie);
  }

  /** Its approval queued, whether or not a cancel has drained before. */
  ghost predicate Queued(s: State, a: string, cookie: string) {
    && AtStage(s, 0, Awaiting) && AtPhase(s, 0, HandingOff) && s.lock.None?
    && s.calls.Keys == {0} && s.queue == [Q.Approval(a, s.now + Q.TTL)] && |s.log.origin| == 1
    && cookie in s.sessions && s.sessions[cookie] == 0
  }

  lemma PushWhenReady(s: State, a: string, cookie: string) returns (t: State)
    requires Reachable(s) && AtStage(s, 0, Awaiting) && AtPhase(s, 0, Pushing(ByPolicy)) && s.lock.None?
    requires s.calls.Keys == {0} && s.calls[0].action == a && s.queue == [] && s.log.origin == []
    requires cookie in s.sessions && s.sessions[cookie] == 0
    ensures Reachable(t) && Queued(t, a, cookie) && t.cancels == s.cancels
  {
    hide Run, Reachable;
    t := Approved(s, 0, ByPolicy);
    ReachNext(s, Push(0), t);
  }

  /** A hand-off that cannot be run leaves its approval for the next session. */
  lemma FailedHandoffMispairs(a: string, b: string)
    requires NUL !in a && NUL !in b
    ensures exists s :: Mispaired(s, a, b)
  {
    hide Run, Reachable, Mispaired;
    var s := ReachReady(a, "x");
    var t := PushWhenReady(s, a, "x");
    var u := WithPhase(t, 0, Ended(HandoffFailed));
    ReachNext(t, Handoff(0, None), u);
    SecondSessionMeetsLeftover(u, a, b);
  }

  /** So does a helper-1 that reports SUCCESS without having taken the approval. */
  lemma UntakenSuccessMispairs(a: string, b: string)
    requires NUL !in a && NUL !in b
    ensures exists s :: Mispaired(s, a, b)
  {
    hide Run, Reachable, Mispaired;
    var s := ReachReady(a, "x");
    var t := PushWhenReady(s, a, "x");
    var u := WithPhase(t, 0, Ended(Succeeded));
    ReachNext(t, Handoff(0, Some(true)), u);
    SecondSessionMeetsLeftover(u, a, b);
  }

  /** And a cancel between whose drain and abort the session gets to push. */
  lemma SplitCancelMispairs(a: string, b: string)
    requires NUL !in a && NUL !in b
    ensures exists s :: Mispaired(s, a, b)
  {
    hide Run, Reachable, Next, Mispaired, AbortedWithLeftover, Ready;
    var s := ReachReady(a, "x");
    var u := PushAfterDrain(s, a, 7, "x");
    AbortAfterPush(u, 7, "x", a);
    var v :| Reachable(v) && AbortedWithLeftover(v, a);
    var w := DropAborted(v, a);
    SecondSessionMeetsLeftover(w, a, b);
  }

  lemma PushAfterDrain(s: State, a: string, k: nat, cookie: string) returns (u: State)
    requires Reachable(s) && Ready(s, a, cookie)
    ensures Reachable(u) && Queued(u, a, cookie) && k in u.cancels && u.cancels[k] == cookie
  {
    hide Run, Reachable;
    var t := DrainedFor(s, k, cookie);
    ReachNext(s, CancelDrain(k, cookie), t);
    u := PushWhenReady(t, a, cookie);
  }

  lemma DropAborted(v: State, a: string) returns (w: State)
    requires Reachable(v) && AbortedWithLeftover(v, a)
    ensures Reachable(w) && AtStage(w, 0, Awaiting) && 0 in w.tasks && w.tasks[0].phase.Ended? && w.lock.None?
    ensures w.calls.Keys == {0} && w.queue == [Q.Approval(a, w.now + Q.TTL)] && |w.log.origin| == 1
  {
    hide Run, Reachable;
    w := WithPhase(v, 0, Ended(Dropped));
    ReachNext(v, Reap(0), w);
  }

  ghost predicate AbortedWithLeftover(s: State, a: string) {
    && AtStage(s, 0, Awaiting) && 0 in s.tasks && s.tasks[0].phase.Aborted? && s.lock.None?
    && s.calls.Keys == {0} && s.queue == [Q.Approval(a, s.now + Q.TTL)] && |s.log.origin| == 1
  }

  lemma AbortAfterPush(u: State, k: nat, cookie: string, a: string)
    requires Reachable(u) && u.lock.None? && k in u.cancels && u.cancels[k] == cookie
    requires cookie in u.sessions && u.sessions[cookie] == 0 && AtStage(u, 0, Awaiting) && AtPhase(u, 0, HandingOff)
    requires u.calls.Keys == {0} && u.queue == [Q.Approval(a, u.now + Q.TTL)] && |u.log.origin| == 1
    ensures exists v :: Reachable(v) && AbortedWithLeftover(v, a)
  {
    hide Run, Reachable;
    var v := WithPhase(u.(cancels := u.cancels - {k}, sessions := u.sessions - {cookie}), 0, Aborted)
             .(log := u.log.(abortedBy := u.log.abortedBy[0 := k]));
    ReachNext(u, CancelAbort(k), v);
    assert AbortedWithLeftover(v, a);
  }
}
