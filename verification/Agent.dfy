/**
 The agent object. Its ghost trace is a run of the protocol that leads to its present
 state, so that everything proved of runs holds of the object. `Authenticate`,
 `RunSession` and `Cancel` are `begin_authentication`, `session::run` and
 `cancel_authentication` from arrival to return, with the rest of the agent free to move
 at every await; the small methods are the code between two awaits.
 */
module Agent {
  import opened Common
  import opened AgentModel
  import opened AgentDecisions
  import opened AgentHistory
  import opened AgentScript
  import opened Config
  import opened ProcInfo
  import AgentSessions
  import Q = ApprovalQueue
  import Grants
  import RememberCache
  import VerdictWire

  /** The push that was answered, and why it had been made. */
  ghost predicate AnswersAllowed(s: State, t: TakeRecord) {
    && t.push < |s.log.pushes|
    && var p := s.log.pushes[t.push];
      p.at <= t.at < p.at + 1_000_000_000 && p.action == t.action && Evidence(s, p.call, p.why)
  }

  lemma LastTakeIsAllowed(es: seq<Event>)
    requires Run(es).Some? && Run(es).value.log.takes != []
    ensures var s := Run(es).value; AnswersAllowed(s, s.log.takes[|s.log.takes| - 1])
  {
    hide Run, Next, QueueHolds, EvidenceHolds, AnswersAllowed;
    RunKeepsHistory(es);
    TakeIsAllowed(Run(es).value, |Run(es).value.log.takes| - 1);
  }

  lemma TakeIsAllowed(s: State, j: nat)
    requires QueueHolds(s) && EvidenceHolds(s) && j < |s.log.takes|
    ensures AnswersAllowed(s, s.log.takes[j])
  {
    assert TakeHolds(s, s.log.takes[j]);
    assert PushHolds(s, s.log.pushes[s.log.takes[j].push]);
  }

  lemma EndingInSteps(c: nat, so: seq<Event>, handoff: Option<bool>)
    ensures var s2 := so + [Push(c)] + [Handoff(c, handoff)];
      && so <= so + [Push(c)] <= s2 <= so + Ending(c, handoff)
      && so + Ending(c, handoff) == if handoff == Some(false) then s2 + [AgentModel.Drain(c)] else s2
  {
  }

  lemma AskingInSteps(c: nat, so: seq<Event>, f: Facts, verdict: Option<VerdictWire.Verdict>, handoff: Option<bool>)
    ensures var s1 := so + [Verdict(c, verdict)];
      && so <= s1 <= so + Asking(c, f, verdict, handoff)
      && so + Asking(c, f, verdict, handoff) ==
           if Decided(f, verdict).Ended? then s1
           else if Decided(f, verdict).Recording? then s1 + [AgentModel.Remember(c)] + Ending(c, handoff)
           else s1 + Ending(c, handoff)
  {
  }

  /** How `session::run` comes out; `DroppedFuture` is no return at all. */
  datatype Outcome = Done(success: bool) | Failed | DroppedFuture

  predicate OutcomeOf(o: Outcome, phase: Phase) {
    match o
    case DroppedFuture => phase.Aborted?
    case Failed => phase == Ended(DialogFailed) || phase == Ended(HandoffFailed)
    case Done(true) => phase == Ended(Succeeded)
    case Done(false) =>
      || phase == Ended(PolicyDenied) || phase == Ended(UserDenied) || phase == Ended(TimedOut)
      || phase == Ended(Refused)
  }

  /** What `session::run` returns if it is not aborted; `?` on the dialog or on helper-1 is a failure. */
  function Returns(
      asked: bool, granted: bool, verdict: Option<VerdictWire.Verdict>, handoff: Option<bool>): Outcome
  {
    if asked && verdict.None? then Failed
    else if !granted then Done(false)
    else if handoff.None? then Failed
    else Done(handoff.value)
  }

  predicate SaidAllow(verdict: Option<VerdictWire.Verdict>) {
    verdict.Some? && verdict.value.outcome == VerdictWire.Allow
  }

  /** How `begin_authentication` comes out; a call may wait for the guard or its task for ever. */
  datatype CallOutcome = Completed | BadIdentity | StillWaiting

  /** The guard holder never finds the sessions lock taken. */
  lemma HolderFindsLockFree(es: seq<Event>, c: nat)
    requires Run(es).Some? && c in Run(es).value.calls
    requires Run(es).value.calls[c].stage.Guarded? || Run(es).value.calls[c].stage.Cleaning?
    ensures Run(es).value.lock.None?
  {
    hide Run, Next, AgentSessions.TasksHold, AgentSessions.SessionsHold;
    AgentSessions.RunKeepsStructure(es);
  }

  class Agent {
    const queue: Q.ApprovalQueue
    const remember: RememberCache.RememberCache
    var now: nat
    var inflight: Option<nat>
    var lock: Option<nat>
    var sessions: map<string, nat>
    var calls: map<nat, Call>
    var tasks: map<nat, Task>
    var cancels: map<nat, string>
    ghost var pushes: seq<PushRecord>
    ghost var takes: seq<TakeRecord>
    ghost var origin: seq<nat>
    ghost var takesAtPush: map<nat, nat>
    ghost var drainedAt: map<nat, nat>
    ghost var abortedBy: map<nat, nat>
    ghost var trace: seq<Event>

    ghost predicate Valid()
      reads this, queue, remember
    {
      && |origin| == |queue.inner|
      && remember.Valid() && remember.last <= now
      && Run(trace) == Some(View())
    }

    ghost function View(): State
      reads this, queue, remember
    {
      State(now, inflight, lock, calls, tasks, sessions, queue.inner, remember.inner, cancels, TheLog())
    }

    ghost function TheLog(): Log
      reads this
    {
      Log(pushes, takes, origin, takesAtPush, drainedAt, abortedBy)
    }

    constructor ()
      ensures Valid() && trace == [] && fresh(queue) && fresh(remember)
    {
      queue := new Q.ApprovalQueue();
      remember := new RememberCache.RememberCache();
      now, inflight, lock := 0, None, None;
      sessions, calls, tasks, cancels := map[], map[], map[], map[];
      pushes, takes, origin := [], [], [];
      takesAtPush, drainedAt, abortedBy := map[], map[], map[];
      trace := [];
    }

    /** The trace takes note of a step. */
    ghost method Did(s: State, e: Event)
      requires |origin| == |queue.inner| && remember.Valid() && remember.last <= now
      requires Run(trace) == Some(s) && Next(s, e) == Some(View())
      modifies this`trace
      ensures Valid() && trace == old(trace) + [e]
    {
      hide Next;
      RunAppend(trace, e);
      trace := trace + [e];
    }

    method Advance(step: nat)
      requires Valid()
      modifies this`now, this`trace
      ensures Valid() && trace == old(trace) + [Tick(step)]
    {
      hide Run;
      ghost var s := View();
      now := now + step;
      Did(s, Tick(step));
    }

    /**
     An await point: everybody else may do anything, and callers know no more than that
     the party itself did nothing.
     */
    method Await(r: Role)
      requires Valid()
      modifies this, queue, remember
      ensures Valid() && old(trace) <= trace && OwnEvents(trace, r) == OwnEvents(old(trace), r)
    {
    }

    // ---- begin_authentication

    method Arrive(c: nat, action: string, cookie: string)
      requires Valid() && c !in calls && NUL !in action
      modifies this`calls, this`trace
      ensures Valid() && trace == old(trace) + [Begin(c, action, cookie)]
      ensures c in calls && calls[c] == Call(action, cookie, Waiting)
    {
      hide Run;
      ghost var s := View();
      calls := calls[c := Call(action, cookie, Waiting)];
      Did(s, Begin(c, action, cookie));
    }

    method AcquireInflight(c: nat)
      requires Valid() && c in calls && calls[c].stage.Waiting? && inflight.None?
      modifies this`calls, this`inflight, this`trace
      ensures Valid() && trace == old(trace) + [Acquire(c)]
      ensures c in calls && calls[c] == old(calls[c]).(stage := Guarded)
    {
      hide Run;
      ghost var s := View();
      inflight := Some(c);
      calls := calls[c := calls[c].(stage := Guarded)];
      Did(s, Acquire(c));
    }

    /** No acceptable identity, or a uid without a passwd entry: the guard is dropped on return. */
    method FailIdentity(c: nat)
      requires Valid() && c in calls && calls[c].stage.Guarded?
      modifies this`calls, this`inflight, this`trace
      ensures Valid() && trace == old(trace) + [Reject(c)]
      ensures c in calls && calls[c] == old(calls[c]).(stage := Returned)
    {
      hide Run;
      ghost var s := View();
      calls := calls[c := calls[c].(stage := Returned)];
      inflight := None;
      Did(s, Reject(c));
    }

    method LockSessions(c: nat)
      requires Valid() && c in calls && calls[c].stage.Guarded? && lock.None?
      modifies this`calls, this`lock, this`trace
      ensures Valid() && trace == old(trace) + [Lock(c)]
      ensures c in calls && calls[c] == old(calls[c]).(stage := Locked)
    {
      hide Run;
      ghost var s := View();
      lock := Some(c);
      calls := calls[c := calls[c].(stage := Locked)];
      Did(s, Lock(c));
    }

    method SpawnSession(c: nat, cfg: ServiceConfig, details: AgentDetails)
      requires Valid() && c in calls && calls[c].stage.Locked?
      modifies this`calls, this`tasks, this`trace
      ensures Valid() && trace == old(trace) + [Spawn(c, cfg, details)]
      ensures c in calls && calls[c] == old(calls[c]).(stage := Spawned)
      ensures c in tasks && tasks[c] == NewTask(calls[c].action, cfg, details)
    {
      hide Run, SubjectOf, FactsOf;
      ghost var s := View();
      var subject := SubjectOf(details);
      var inputs := Inputs(cfg, subject.exe, subject.cmdline);
      tasks := tasks[c := Task(inputs, FactsOf(inputs, calls[c].action), Fresh, None, None, None)];
      calls := calls[c := calls[c].(stage := Spawned)];
      Did(s, Spawn(c, cfg, details));
    }

    method InsertHandle(c: nat)
      requires Valid() && c in calls && calls[c].stage.Spawned?
      modifies this`calls, this`sessions, this`lock, this`trace
      ensures Valid() && trace == old(trace) + [Insert(c)]
      ensures c in calls && calls[c] == old(calls[c]).(stage := Awaiting)
      ensures calls[c].cookie in sessions && sessions[calls[c].cookie] == c
    {
      hide Run;
      ghost var s := View();
      PutHandle(c);
      Did(s, Insert(c));
    }

    method PutHandle(c: nat)
      requires c in calls
      modifies this`calls, this`sessions, this`lock
      ensures View() == WithStage(old(View()), c, Awaiting).(
                lock := None, sessions := old(sessions)[old(calls)[c].cookie := c])
    {
      hide Run;
      sessions := sessions[calls[c].cookie := c];
      lock := None;
      calls := calls[c := calls[c].(stage := Awaiting)];
    }

    method ObserveDone(c: nat)
      requires Valid() && c in calls && calls[c].stage.Awaiting? && c in tasks && tasks[c].phase.Ended?
      modifies this`calls, this`trace
      ensures Valid() && trace == old(trace) + [SeeDone(c)]
      ensures c in calls && calls[c] == old(calls[c]).(stage := Cleaning)
    {
      hide Run;
      ghost var s := View();
      calls := calls[c := calls[c].(stage := Cleaning)];
      Did(s, SeeDone(c));
    }

    method RemoveSession(c: nat)
      requires Valid() && c in calls && calls[c].stage.Cleaning? && lock.None?
      modifies this`calls, this`sessions, this`inflight, this`trace
      ensures Valid() && trace == old(trace) + [Cleanup(c)]
      ensures c in calls && calls[c] == old(calls[c]).(stage := Returned)
      ensures calls[c].cookie !in sessions && inflight.None?
    {
      hide Run;
      ghost var s := View();
      DropHandle(c);
      Did(s, Cleanup(c));
    }

    method DropHandle(c: nat)
      requires c in calls
      modifies this`calls, this`sessions, this`inflight
      ensures View() == WithStage(old(View()), c, Returned).(
                inflight := None, sessions := old(sessions) - {old(calls)[c].cookie})
    {
      hide Run;
      sessions := sessions - {calls[c].cookie};
      calls := calls[c := calls[c].(stage := Returned)];
      inflight := None;
    }

    /** The guard holder never finds the sessions lock taken. */
    lemma LockIsFree(c: nat)
      requires Valid() && c in calls && (calls[c].stage.Guarded? || calls[c].stage.Cleaning?)
      ensures lock.None?
    {
      hide Run, Next;
      HolderFindsLockFree(trace, c);
    }

    /** An await of the call: it is where it was, and its task is still known. */
    method AwaitCall(c: nat, ghost start: seq<Event>, ghost so: seq<Event>)
      requires Valid() && c in calls && Played(start, trace, TheCall(c), so, true)
      modifies this, queue, remember
      ensures Valid() && Played(start, trace, TheCall(c), so, true)
      ensures c in calls && calls[c] == old(calls[c]) && (c in old(tasks) ==> c in tasks)
    {
      hide Run, Next, Played, OwnEvents;
      ghost var before := trace;
      Await(TheCall(c));
      OthersLeaveCall(before, trace, c);
      PlayedOn(start, before, trace, TheCall(c), so);
    }

    /** Arrival, and the wait for the guard. */
    method EnterCall(c: nat, action: string, cookie: string) returns (entered: bool)
      requires Valid() && c !in calls && NUL !in action
      modifies this, queue, remember
      ensures Valid() && c in calls && calls[c] == Call(action, cookie, if entered then Guarded else Waiting)
      ensures Played(old(trace), trace, TheCall(c),
                if entered then [Begin(c, action, cookie), Acquire(c)] else [Begin(c, action, cookie)], true)
    {
      hide Run, Next, Played, OwnEvents, Valid;
      ghost var start := trace;
      ghost var s1 := [Begin(c, action, cookie)];
      NothingPlayed(start, TheCall(c));
      Arrive(c, action, cookie);
      PlayedStep(start, start, TheCall(c), [], Begin(c, action, cookie));
      assert [] + s1 == s1;
      AwaitCall(c, start, s1);
      if inflight.Some? { return false; }
      ghost var before := trace;
      AcquireInflight(c);
      PlayedStep(start, before, TheCall(c), s1, Acquire(c));
      assert s1 + [Acquire(c)] == [Begin(c, action, cookie), Acquire(c)];
      entered := true;
    }

    /** Lock, spawn and insert, without an await in between. */
    method LaunchSession(
        c: nat, cfg: ServiceConfig, details: AgentDetails, ghost start: seq<Event>, ghost so: seq<Event>)
      requires Valid() && c in calls && calls[c].stage.Guarded? && lock.None?
        && Played(start, trace, TheCall(c), so, true)
      modifies this, queue, remember
      ensures Valid() && c in calls && c in tasks && calls[c] == old(calls[c]).(stage := Awaiting)
      ensures calls[c].cookie in sessions && sessions[calls[c].cookie] == c
      ensures Played(start, trace, TheCall(c), so + [Lock(c), Spawn(c, cfg, details), Insert(c)], true)
    {
      hide Run, Next, Played, OwnEvents, Valid;
      ghost var s2, s3 := so + [Lock(c)], so + [Lock(c)] + [Spawn(c, cfg, details)];
      ghost var t0 := trace;
      LockSessions(c);
      PlayedStep(start, t0, TheCall(c), so, Lock(c));
      ghost var t1 := trace;
      SpawnSession(c, cfg, details);
      PlayedStep(start, t1, TheCall(c), s2, Spawn(c, cfg, details));
      ghost var t2 := trace;
      InsertHandle(c);
      PlayedStep(start, t2, TheCall(c), s3, Insert(c));
      assert s3 + [Insert(c)] == so + [Lock(c), Spawn(c, cfg, details), Insert(c)];
    }

    /** The wait for the task, and the clean-up. */
    method LeaveCall(c: nat, ghost start: seq<Event>, ghost so: seq<Event>) returns (left: bool)
      requires Valid() && c in calls && c in tasks && calls[c].stage.Awaiting?
        && Played(start, trace, TheCall(c), so, true)
      modifies this, queue, remember
      ensures Valid() && c in calls && calls[c] == old(calls[c]).(stage := if left then Returned else Awaiting)
      ensures left ==> inflight.None? && calls[c].cookie !in sessions
      ensures Played(start, trace, TheCall(c), if left then so + [SeeDone(c), Cleanup(c)] else so, true)
    {
      hide Run, Next, Played, OwnEvents, Valid;
      AwaitCall(c, start, so);
      if !tasks[c].phase.Ended? { return false; }
      ghost var t0 := trace;
      ObserveDone(c);
      PlayedStep(start, t0, TheCall(c), so, SeeDone(c));
      AwaitCall(c, start, so + [SeeDone(c)]);
      LockIsFree(c);
      ghost var t1 := trace;
      RemoveSession(c);
      PlayedStep(start, t1, TheCall(c), so + [SeeDone(c)], Cleanup(c));
      assert so + [SeeDone(c)] + [Cleanup(c)] == so + [SeeDone(c), Cleanup(c)];
      left := true;
    }

    /**
     `begin_authentication`, given whether the identity is good, the configuration and
     what the details yield: with everybody else, its own session included, free to move
     at each await, it plays its script, or waits at one of the two waits in it, and never
     finds the sessions lock taken.
     */
    method Authenticate(
        c: nat, action: string, cookie: string, goodIdentity: bool, cfg: ServiceConfig, details: AgentDetails)
      returns (o: CallOutcome)
      requires Valid() && c !in calls && NUL !in action
      modifies this, queue, remember
      ensures Valid() && c in calls && calls[c].action == action && calls[c].cookie == cookie
      ensures Played(old(trace), trace, TheCall(c), CallScript(c, action, cookie, goodIdentity, cfg, details),
        !o.StillWaiting?)
      ensures if o.StillWaiting? then calls[c].stage.Waiting? || calls[c].stage.Awaiting? else calls[c].stage.Returned?
      ensures o.BadIdentity? ==> !goodIdentity
      ensures o.Completed? ==> goodIdentity && inflight.None? && cookie !in sessions
    {
      hide Run, Next, Played, OwnEvents, Valid;
      ghost var start := trace;
      ghost var script := CallScript(c, action, cookie, goodIdentity, cfg, details);
      ghost var s2 := [Begin(c, action, cookie), Acquire(c)];
      var entered := EnterCall(c, action, cookie);
      if !entered {
        PlayedPart(start, trace, TheCall(c), [Begin(c, action, cookie)], script);
        return StillWaiting;
      }
      if !goodIdentity {
        ghost var before := trace;
        FailIdentity(c);
        PlayedStep(start, before, TheCall(c), s2, Reject(c));
        assert s2 + [Reject(c)] == script;
        return BadIdentity;
      }
      AwaitCall(c, start, s2);
      LockIsFree(c);
      LaunchSession(c, cfg, details, start, s2);
      ghost var s5 := s2 + [Lock(c), Spawn(c, cfg, details), Insert(c)];
      assert s5 + [SeeDone(c), Cleanup(c)] == script;
      var left := LeaveCall(c, start, s5);
      if !left {
        PlayedPart(start, trace, TheCall(c), s5, script);
        return StillWaiting;
      }
      o := Completed;
    }

    // ---- session::run

    method SetPhase(c: nat, phase: Phase)
      requires c in tasks
      modifies this`tasks
      ensures View() == WithPhase(old(View()), c, phase)
    {
      tasks := tasks[c := tasks[c].(phase := phase)];
    }

    method StartSession(c: nat)
      requires Valid() && c in calls && c in tasks && tasks[c].phase.Fresh?
      modifies this`tasks, this`trace
      ensures Valid() && trace == old(trace) + [Poll(c)]
      ensures c in tasks && tasks[c] == old(tasks[c]).(phase := Polled(old(tasks[c].facts)))
    {
      hide Run;
      ghost var s := View();
      var f := tasks[c].facts;
      match f.decision {
        case Deny => SetPhase(c, Ended(PolicyDenied));
        case Allow => SetPhase(c, Pushing(ByPolicy));
        case Ask =>
          if f.rememberSecs > 0 {
            SetPhase(c, CheckingCache);
          } else {
            SetPhase(c, InDialog);
          }
      }
      Did(s, Poll(c));
    }

    method LookupGrant(c: nat) returns (hit: bool)
      requires Valid() && c in calls && c in tasks && tasks[c].phase.CheckingCache?
      modifies this`tasks, this`trace
      ensures Valid() && trace == old(trace) + [Lookup(c)]
      ensures c in tasks && tasks[c].facts == old(tasks[c].facts)
      ensures tasks[c].phase == if hit then Pushing(ByCache) else InDialog
    {
      hide Run, Grants.Fresh, RememberCache.Key;
      ghost var s := View();
      var f := tasks[c].facts;
      hit := remember.IsFresh(calls[c].action, f.keyCmd, f.rememberSecs, now);
      if hit {
        tasks := tasks[c := tasks[c].(phase := Pushing(ByCache), hitAt := Some(now))];
      } else {
        SetPhase(c, InDialog);
      }
      Did(s, Lookup(c));
    }

    method OnVerdict(c: nat, v: Option<VerdictWire.Verdict>)
      requires Valid() && c in calls && c in tasks && tasks[c].phase.InDialog?
      modifies this`tasks, this`trace
      ensures Valid() && trace == old(trace) + [Verdict(c, v)]
      ensures c in tasks && tasks[c].phase == Decided(old(tasks[c].facts), v)
    {
      hide Run;
      ghost var s := View();
      var phase := PhaseAfter(tasks[c].facts, v);
      tasks := tasks[c := tasks[c].(phase := phase, verdict := v)];
      hide Decided;
      Did(s, Verdict(c, v));
    }

    static method PhaseAfter(f: Facts, v: Option<VerdictWire.Verdict>) returns (phase: Phase)
      ensures phase == Decided(f, v)
    {
      if v.None? { return Ended(DialogFailed); }
      match v.value.outcome {
        case Deny => phase := Ended(UserDenied);
        case Timeout => phase := Ended(TimedOut);
        case Allow => phase := if v.value.remember && f.rememberSecs > 0 then Recording else Pushing(ByDialog);
      }
    }

    method RecordGrant(c: nat)
      requires Valid() && c in calls && c in tasks && tasks[c].phase.Recording?
      modifies this`tasks, remember, this`trace
      ensures Valid() && trace == old(trace) + [AgentModel.Remember(c)]
      ensures c in tasks && tasks[c].phase == Pushing(ByDialog)
    {
      hide Run, Grants.Record, RememberCache.Key;
      ghost var s := View();
      remember.Remember(calls[c].action, tasks[c].facts.keyCmd, now);
      tasks := tasks[c := tasks[c].(phase := Pushing(ByDialog), recordedAt := Some(now))];
      Did(s, AgentModel.Remember(c));
    }

    method PushApproval(c: nat)
      requires Valid() && c in calls && c in tasks && tasks[c].phase.Pushing?
      modifies this`tasks, this`origin, this`pushes, this`takesAtPush, queue, this`trace
      ensures Valid() && trace == old(trace) + [Push(c)]
      ensures c in tasks && tasks[c].phase == HandingOff
    {
      hide Run, Approved;
      ghost var s := View();
      Enqueue(c);
      Did(s, Push(c));
    }

    /** The push itself; what follows it, up to the hand-off, is in the same stretch. */
    method Enqueue(c: nat)
      requires |origin| == |queue.inner| && c in calls && c in tasks && tasks[c].phase.Pushing?
      modifies this`tasks, this`origin, this`pushes, this`takesAtPush, queue
      ensures |origin| == |queue.inner| && View() == Approved(old(View()), c, old(tasks[c].phase.why))
      ensures c in tasks && tasks[c].phase == HandingOff
    {
      hide Run;
      NotePush(PushRecord(c, calls[c].action, now, tasks[c].phase.why));
      queue.Push(calls[c].action, now);
      tasks := tasks[c := tasks[c].(phase := HandingOff)];
    }

    ghost method NotePush(p: PushRecord)
      modifies this`origin, this`pushes, this`takesAtPush
      ensures TheLog() == old(TheLog()).(
                origin := old(origin) + [|old(pushes)|], pushes := old(pushes) + [p],
                takesAtPush := old(takesAtPush)[p.call := |takes|])
    {
      hide Run;
      origin := origin + [|pushes|];
      pushes := pushes + [p];
      takesAtPush := takesAtPush[p.call := |takes|];
    }

    /** helper-1's SUCCESS or FAILURE; None when it could not be run, and the `?` ends the session. */
    method OnHandoff(c: nat, success: Option<bool>)
      requires Valid() && c in calls && c in tasks && tasks[c].phase.HandingOff?
      modifies this`tasks, this`trace
      ensures Valid() && trace == old(trace) + [Handoff(c, success)]
      ensures c in tasks && tasks[c].phase == HandedOff(success)
    {
      hide Run;
      ghost var s := View();
      if success.None? {
        SetPhase(c, Ended(HandoffFailed));
      } else if success.value {
        SetPhase(c, Ended(Succeeded));
      } else {
        SetPhase(c, Draining);
      }
      Did(s, Handoff(c, success));
    }

    method DrainLeftover(c: nat)
      requires Valid() && c in calls && c in tasks && tasks[c].phase.Draining?
      modifies this`tasks, this`origin, queue, this`trace
      ensures Valid() && trace == old(trace) + [AgentModel.Drain(c)]
      ensures c in tasks && tasks[c].phase == Ended(Refused)
    {
      hide Run;
      ghost var s := View();
      queue.Drain();
      origin := [];
      tasks := tasks[c := tasks[c].(phase := Ended(Refused))];
      Did(s, AgentModel.Drain(c));
    }

    /** An await of the session: it goes on where it was, unless it was aborted meanwhile. */
    method AwaitTurn(c: nat, ghost start: seq<Event>, ghost so: seq<Event>) returns (alive: bool)
      requires Valid() && c in calls && c in tasks && !tasks[c].phase.Ended? && !tasks[c].phase.Aborted?
      requires Played(start, trace, TheTask(c), so, true)
      modifies this, queue, remember
      ensures Valid() && Played(start, trace, TheTask(c), so, true)
      ensures c in calls && c in tasks
      ensures tasks[c] == if alive then old(tasks[c]) else old(tasks[c]).(phase := Aborted)
    {
      hide Run, Next, Played, OwnEvents;
      ghost var before := trace;
      Await(TheTask(c));
      OthersLeaveTask(before, trace, c);
      PlayedOn(start, before, trace, TheTask(c), so);
      alive := !tasks[c].phase.Aborted?;
    }

    method PushTurn(c: nat, ghost start: seq<Event>, ghost so: seq<Event>) returns (alive: bool)
      requires Valid() && c in calls && c in tasks && tasks[c].phase.Pushing?
        && Played(start, trace, TheTask(c), so, true)
      modifies this, queue, remember
      ensures Valid() && c in calls && c in tasks && tasks[c].phase == if alive then HandingOff else Aborted
      ensures Played(start, trace, TheTask(c), if alive then so + [Push(c)] else so, true)
    {
      hide Run, Next, Played, OwnEvents, Valid;
      alive := AwaitTurn(c, start, so);
      if alive {
        ghost var before := trace;
        PushApproval(c);
        PlayedStep(start, before, TheTask(c), so, Push(c));
      }
    }

    method HandoffTurn(c: nat, handoff: Option<bool>, ghost start: seq<Event>, ghost so: seq<Event>)
      returns (alive: bool)
      requires Valid() && c in calls && c in tasks && tasks[c].phase.HandingOff?
        && Played(start, trace, TheTask(c), so, true)
      modifies this, queue, remember
      ensures Valid() && c in calls && c in tasks && tasks[c].phase == if alive then HandedOff(handoff) else Aborted
      ensures Played(start, trace, TheTask(c), if alive then so + [Handoff(c, handoff)] else so, true)
    {
      hide Run, Next, Played, OwnEvents, Valid, HandedOff;
      alive := AwaitTurn(c, start, so);
      if alive {
        ghost var before := trace;
        OnHandoff(c, handoff);
        PlayedStep(start, before, TheTask(c), so, Handoff(c, handoff));
      }
    }

    method DrainTurn(c: nat, ghost start: seq<Event>, ghost so: seq<Event>) returns (alive: bool)
      requires Valid() && c in calls && c in tasks && tasks[c].phase.Draining?
        && Played(start, trace, TheTask(c), so, true)
      modifies this, queue, remember
      ensures Valid() && c in calls && c in tasks && tasks[c].phase == if alive then Ended(Refused) else Aborted
      ensures Played(start, trace, TheTask(c), if alive then so + [AgentModel.Drain(c)] else so, true)
    {
      hide Run, Next, Played, OwnEvents, Valid;
      alive := AwaitTurn(c, start, so);
      if alive {
        ghost var before := trace;
        DrainLeftover(c);
        PlayedStep(start, before, TheTask(c), so, AgentModel.Drain(c));
      }
    }

    method VerdictTurn(c: nat, verdict: Option<VerdictWire.Verdict>, ghost start: seq<Event>, ghost so: seq<Event>)
      returns (alive: bool)
      requires Valid() && c in calls && c in tasks && tasks[c].phase.InDialog?
        && Played(start, trace, TheTask(c), so, true)
      modifies this, queue, remember
      ensures Valid() && c in calls && c in tasks
      ensures tasks[c].phase == if alive then Decided(old(tasks[c].facts), verdict) else Aborted
      ensures Played(start, trace, TheTask(c), if alive then so + [Verdict(c, verdict)] else so, true)
    {
      hide Run, Next, Played, OwnEvents, Valid, Decided;
      alive := AwaitTurn(c, start, so);
      if alive {
        ghost var before := trace;
        OnVerdict(c, verdict);
        PlayedStep(start, before, TheTask(c), so, Verdict(c, verdict));
      }
    }

    method RecordTurn(c: nat, ghost start: seq<Event>, ghost so: seq<Event>) returns (alive: bool)
      requires Valid() && c in calls && c in tasks && tasks[c].phase.Recording?
        && Played(start, trace, TheTask(c), so, true)
      modifies this, queue, remember
      ensures Valid() && c in calls && c in tasks && tasks[c].phase == if alive then Pushing(ByDialog) else Aborted
      ensures Played(start, trace, TheTask(c), if alive then so + [AgentModel.Remember(c)] else so, true)
    {
      hide Run, Next, Played, OwnEvents, Valid;
      alive := AwaitTurn(c, start, so);
      if alive {
        ghost var before := trace;
        RecordGrant(c);
        PlayedStep(start, before, TheTask(c), so, AgentModel.Remember(c));
      }
    }

    method CacheTurn(c: nat, ghost start: seq<Event>, ghost so: seq<Event>) returns (alive: bool, hit: bool)
      requires Valid() && c in calls && c in tasks && tasks[c].phase.CheckingCache?
      requires Played(start, trace, TheTask(c), so, true)
      modifies this, queue, remember
      ensures Valid() && c in calls && c in tasks && tasks[c].facts == old(tasks[c].facts)
      ensures tasks[c].phase == if !alive then Aborted else if hit then Pushing(ByCache) else InDialog
      ensures Played(start, trace, TheTask(c), if alive then so + [Lookup(c)] else so, true)
    {
      hide Run, Next, Played, OwnEvents, Valid;
      hit := false;
      alive := AwaitTurn(c, start, so);
      if alive {
        ghost var before := trace;
        hit := LookupGrant(c);
        PlayedStep(start, before, TheTask(c), so, Lookup(c));
      }
    }

    /** The end of an allowed session: push, hand off, drain on FAILURE. */
    method HandOff(c: nat, handoff: Option<bool>, ghost start: seq<Event>, ghost so: seq<Event>) returns (o: Outcome)
      requires Valid() && c in calls && c in tasks && tasks[c].phase.Pushing?
        && Played(start, trace, TheTask(c), so, true)
      modifies this, queue, remember
      ensures Valid() && c in tasks && OutcomeOf(o, tasks[c].phase)
      ensures Played(start, trace, TheTask(c), so + Ending(c, handoff), !o.DroppedFuture?)
      ensures !o.DroppedFuture? ==> o == if handoff.None? then Failed else Done(handoff.value)
    {
      hide Run, Next, Played, OwnEvents, Valid;
      ghost var script := so + Ending(c, handoff);
      ghost var s1, s2 := so + [Push(c)], so + [Push(c)] + [Handoff(c, handoff)];
      EndingInSteps(c, so, handoff);
      var alive := PushTurn(c, start, so);
      if !alive {
        PlayedPart(start, trace, TheTask(c), so, script);
        return DroppedFuture;
      }
      alive := HandoffTurn(c, handoff, start, s1);
      if !alive {
        PlayedPart(start, trace, TheTask(c), s1, script);
        return DroppedFuture;
      }
      if handoff == Some(false) {
        alive := DrainTurn(c, start, s2);
        if !alive {
          PlayedPart(start, trace, TheTask(c), s2, script);
          return DroppedFuture;
        }
      }
      o := if handoff.None? then Failed else Done(handoff.value);
    }

    /** A session past its policy and cache: the dialog, and what follows from its verdict. */
    method AskUser(
        c: nat, verdict: Option<VerdictWire.Verdict>, handoff: Option<bool>, ghost start: seq<Event>,
        ghost so: seq<Event>)
      returns (o: Outcome)
      requires Valid() && c in calls && c in tasks && tasks[c].phase.InDialog?
        && Played(start, trace, TheTask(c), so, true)
      modifies this, queue, remember
      ensures Valid() && c in tasks && OutcomeOf(o, tasks[c].phase)
      ensures Played(start, trace, TheTask(c), so + Asking(c, old(tasks[c].facts), verdict, handoff), !o.DroppedFuture?)
      ensures !o.DroppedFuture? ==> o == Returns(true, SaidAllow(verdict), verdict, handoff)
    {
      hide Run, Next, Played, OwnEvents, Valid;
      ghost var f := tasks[c].facts;
      ghost var script := so + Asking(c, f, verdict, handoff);
      ghost var s1, s2 := so + [Verdict(c, verdict)], so + [Verdict(c, verdict)] + [AgentModel.Remember(c)];
      AskingInSteps(c, so, f, verdict, handoff);
      var alive := VerdictTurn(c, verdict, start, so);
      if !alive {
        PlayedPart(start, trace, TheTask(c), so, script);
        return DroppedFuture;
      }
      if tasks[c].phase.Ended? {
        return if verdict.None? then Failed else Done(false);
      }
      if tasks[c].phase.Recording? {
        alive := RecordTurn(c, start, s1);
        if !alive {
          PlayedPart(start, trace, TheTask(c), s1, script);
          return DroppedFuture;
        }
        o := HandOff(c, handoff, start, s2);
      } else {
        o := HandOff(c, handoff, start, s1);
      }
    }

    /** After the policy has left it open: the cache if there is a window, else or on a miss the dialog. */
    method LookThenAsk(
        c: nat, verdict: Option<VerdictWire.Verdict>, handoff: Option<bool>, ghost start: seq<Event>,
        ghost so: seq<Event>)
      returns (o: Outcome, hit: bool)
      requires Valid() && c in calls && c in tasks && tasks[c].phase.CheckingCache?
        && Played(start, trace, TheTask(c), so, true)
      modifies this, queue, remember
      ensures Valid() && c in tasks && OutcomeOf(o, tasks[c].phase)
      ensures Played(start, trace, TheTask(c),
                so + [Lookup(c)]
                + (if hit then Ending(c, handoff) else Asking(c, old(tasks[c].facts), verdict, handoff)),
                !o.DroppedFuture?)
      ensures !o.DroppedFuture? ==> o == Returns(!hit, hit || SaidAllow(verdict), verdict, handoff)
    {
      hide Run, Next, Played, OwnEvents, Valid;
      ghost var f := tasks[c].facts;
      ghost var s1 := so + [Lookup(c)];
      var alive;
      alive, hit := CacheTurn(c, start, so);
      if !alive {
        PlayedPart(
          start, trace, TheTask(c), so,
          s1 + (if hit then Ending(c, handoff) else Asking(c, f, verdict, handoff)));
        return DroppedFuture, hit;
      }
      if hit {
        o := HandOff(c, handoff, start, s1);
      } else {
        o := AskUser(c, verdict, handoff, start, s1);
      }
    }

    /** What a session goes by is worked out from its own inputs. */
    lemma KnowsItsInputs(c: nat)
      requires Valid() && c in tasks
      ensures c in calls && tasks[c].facts == FactsOf(tasks[c].inputs, calls[c].action)
    {
      hide Run, Next;
      FactsAre(trace, c);
    }

    method StartTurn(c: nat)
      requires Valid() && c in calls && c in tasks && tasks[c].phase.Fresh?
      modifies this, queue, remember
      ensures Valid() && c in calls && c in tasks && tasks[c].facts == old(tasks[c].facts)
      ensures old(tasks[c].facts) == FactsOf(old(tasks[c].inputs), old(calls[c].action))
      ensures tasks[c].phase == Polled(old(tasks[c].facts))
      ensures Played(old(trace), trace, TheTask(c), [Poll(c)], true)
    {
      hide Run, Next, Played, OwnEvents, Valid, Polled;
      ghost var start := trace;
      NothingPlayed(start, TheTask(c));
      KnowsItsInputs(c);
      StartSession(c);
      PlayedStep(start, start, TheTask(c), [], Poll(c));
      assert [] + [Poll(c)] == [Poll(c)];
    }

    /**
     `session::run`, given what the dialog and helper-1 answer: whatever everybody else
     does at its awaits, it plays its script, or up to its abort a part of it, and returns
     accordingly.
     */
    method RunSession(c: nat, verdict: Option<VerdictWire.Verdict>, handoff: Option<bool>)
      returns (o: Outcome, hit: bool)
      requires Valid() && c in calls && c in tasks && tasks[c].phase.Fresh?
      modifies this, queue, remember
      ensures Valid() && c in tasks && OutcomeOf(o, tasks[c].phase)
      ensures Played(old(trace), trace, TheTask(c),
                Plan(c, old(tasks[c].inputs), old(calls[c].action), hit, verdict, handoff), !o.DroppedFuture?)
      ensures var i, action := old(tasks[c].inputs), old(calls[c].action);
        !o.DroppedFuture? ==>
          o == Returns(UserAsked(i, action, hit), Granted(i, action, hit, verdict), verdict, handoff)
    {
      hide Run, Next, Played, OwnEvents, Valid, Plan, FactsOf, Polled, Denied, Rememberable;
      ghost var start := trace;
      ghost var i, action := tasks[c].inputs, calls[c].action;
      hit := false;
      StartTurn(c);
      FirstStepIs(i, action);
      match tasks[c].phase {
        case CheckingCache =>
          o, hit := LookThenAsk(c, verdict, handoff, start, [Poll(c)]);
          assert [Poll(c)] + [Lookup(c)] == [Poll(c), Lookup(c)];
        case InDialog => o := AskUser(c, verdict, handoff, start, [Poll(c)]);
        case Pushing(_) => o := HandOff(c, handoff, start, [Poll(c)]);
        case _ => o := Done(false);
      }
      PlanStarts(c, i, action, hit, verdict, handoff);
    }

    /** The runtime drops an aborted task, and with it the sender its caller waits on. */
    method DropAborted(c: nat)
      requires Valid() && c in calls && c in tasks && tasks[c].phase.Aborted?
      modifies this`tasks, this`trace
      ensures Valid() && trace == old(trace) + [Reap(c)]
      ensures c in tasks && tasks[c].phase == Ended(Dropped)
    {
      hide Run;
      ghost var s := View();
      SetPhase(c, Ended(Dropped));
      Did(s, Reap(c));
    }

    // ---- root's bypass call

    /** A true answer is for an approval less than a second old, of a session that was allowed it. */
    method TakeApproval() returns (approved: bool)
      requires Valid()
      modifies this`origin, this`takes, queue, this`trace
      ensures Valid() && trace == old(trace) + [AgentModel.TakeApproval]
      ensures approved == TakeAnswer(old(View())) && View() == Dequeued(old(View()))
      ensures approved ==> |takes| == |old(takes)| + 1 && AnswersAllowed(View(), takes[|takes| - 1])
    {
      hide Run, Dequeued, TakeAnswer, AnswersAllowed;
      ghost var s := View();
      approved := TakeOne();
      Did(s, AgentModel.TakeApproval);
      if approved {
        LastTakeIsAllowed(trace);
      }
    }

    method TakeOne() returns (approved: bool)
      requires |origin| == |queue.inner|
      modifies this`origin, this`takes, queue
      ensures |origin| == |queue.inner| && View() == Dequeued(old(View())) && approved == TakeAnswer(old(View()))
      ensures approved ==> |takes| == |old(takes)| + 1
    {
      hide Run;
      ghost var before := |queue.inner|;
      var taken := queue.TakeOne(now);
      Note(before - |queue.inner|, taken);
      approved := taken.Some?;
    }

    ghost method Note(gone: nat, answer: Option<Q.Approval>)
      requires gone <= |origin| && (answer.Some? ==> gone > 0)
      modifies this`origin, this`takes
      ensures TheLog() == Noted(old(TheLog()), gone, answer, now)
    {
      hide Run;
      if answer.Some? {
        takes := takes + [TakeRecord(origin[gone - 1], answer.value.actionId, now)];
      }
      origin := origin[gone..];
    }

    // ---- cancel_authentication

    method DrainForCancel(k: nat, cookie: string)
      requires Valid() && k !in drainedAt
      modifies this`origin, this`cancels, this`drainedAt, queue, this`trace
      ensures Valid() && trace == old(trace) + [CancelDrain(k, cookie)]
      ensures k in cancels && cancels[k] == cookie && queue.inner == []
    {
      hide Run, DrainedFor;
      ghost var s := View();
      DrainAll(k, cookie);
      Did(s, CancelDrain(k, cookie));
    }

    method DrainAll(k: nat, cookie: string)
      modifies this`origin, this`cancels, this`drainedAt, queue
      ensures |origin| == |queue.inner| && View() == DrainedFor(old(View()), k, cookie)
      ensures k in cancels && cancels[k] == cookie && queue.inner == []
    {
      hide Run;
      queue.Drain();
      origin := [];
      cancels := cancels[k := cookie];
      drainedAt := drainedAt[k := |pushes|];
    }

    method AbortForCancel(k: nat)
      requires Valid() && k in cancels && lock.None?
      modifies this`tasks, this`sessions, this`cancels, this`abortedBy, this`trace
      ensures Valid() && trace == old(trace) + [CancelAbort(k)]
      ensures old(cancels[k]) !in sessions
      ensures var cookie := old(cancels[k]);
        cookie in old(sessions) && old(sessions)[cookie] in old(tasks) ==>
          var handle := old(sessions)[cookie];
          handle in tasks && (tasks[handle].phase.Ended? || tasks[handle].phase.Aborted?)
    {
      hide Run;
      ghost var s := View();
      var cookie := cancels[k];
      RemoveAndAbort(k, cookie);
      Did(s, CancelAbort(k));
    }

    method RemoveAndAbort(k: nat, cookie: string)
      modifies this`tasks, this`sessions, this`cancels, this`abortedBy
      ensures var s := old(View());
        var t := s.(cancels := s.cancels - {k}, sessions := s.sessions - {cookie});
        View() ==
          if cookie in s.sessions && s.sessions[cookie] in s.tasks && !s.tasks[s.sessions[cookie]].phase.Ended?
          then WithPhase(t, s.sessions[cookie], Aborted).(
            log := s.log.(abortedBy := s.log.abortedBy[s.sessions[cookie] := k]))
          else t
    {
      hide Run;
      cancels := cancels - {k};
      if cookie in sessions {
        var handle := sessions[cookie];
        if handle in tasks && !tasks[handle].phase.Ended? {
          SetPhase(handle, Aborted);
          abortedBy := abortedBy[handle := k];
        }
      }
      sessions := sessions - {cookie};
    }

    /**
     `cancel_authentication`: the drain, and with everybody free to move in between, the
     abort of the task that has the cookie by then, unless the sessions lock stays taken.
     */
    method Cancel(k: nat, cookie: string) returns (done: bool)
      requires Valid() && k !in drainedAt
      modifies this, queue, remember
      ensures Valid() && Played(old(trace), trace, TheCancel(k), CancelScript(k, cookie), done)
      ensures done ==> cookie !in sessions
      ensures !done ==> k in cancels && cancels[k] == cookie && lock.Some?
    {
      hide Run, Next, Played, OwnEvents;
      ghost var start := trace;
      ghost var s1 := [CancelDrain(k, cookie)];
      NothingPlayed(start, TheCancel(k));
      DrainForCancel(k, cookie);
      PlayedStep(start, start, TheCancel(k), [], CancelDrain(k, cookie));
      assert [] + s1 == s1;
      ghost var t1 := trace;
      Await(TheCancel(k));
      OthersLeaveCancel(t1, trace, k);
      PlayedOn(start, t1, trace, TheCancel(k), s1);
      if lock.Some? {
        PlayedPart(start, trace, TheCancel(k), s1, CancelScript(k, cookie));
        return false;
      }
      ghost var t2 := trace;
      AbortForCancel(k);
      PlayedStep(start, t2, TheCancel(k), s1, CancelAbort(k));
      assert s1 + [CancelAbort(k)] == CancelScript(k, cookie);
      done := true;
    }
  }
}
