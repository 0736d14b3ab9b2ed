/** At most one session task is alive, its caller holds the guard, and a cancel that names it finds it. */
module AgentSessions {
  import opened Common
  import opened AgentModel
  import opened Config
  import opened ProcInfo
  import Elevation
  import Policy

  predicate HoldsGuard(stage: Stage) {
    !stage.Waiting? && !stage.Returned?
  }

  predicate HoldsLock(stage: Stage) {
    stage.Locked? || stage.Spawned?
  }

  predicate BeforeSpawn(stage: Stage) {
    stage.Waiting? || stage.Guarded? || stage.Locked?
  }

  predicate Live(s: State, c: nat) {
    c in s.tasks && !s.tasks[c].phase.Ended?
  }

  ghost predicate GuardHolds(s: State) {
    && (s.inflight.Some? ==> s.inflight.value in s.calls && HoldsGuard(s.calls[s.inflight.value].stage))
    && (forall c :: c in s.calls && HoldsGuard(s.calls[c].stage) ==> s.inflight == Some(c))
    && (s.lock.Some? ==> s.lock.value in s.calls && HoldsLock(s.calls[s.lock.value].stage))
    && (forall c :: c in s.calls && HoldsLock(s.calls[c].stage) ==> s.lock == Some(c))
  }

  ghost predicate TasksHold(s: State) {
    && (forall c :: c in s.tasks ==> c in s.calls && !BeforeSpawn(s.calls[c].stage))
    && (forall c :: c in s.calls && !BeforeSpawn(s.calls[c].stage) && !s.calls[c].stage.Returned? ==> c in s.tasks)
    && (forall c :: Live(s, c) ==> s.calls[c].stage.Spawned? || s.calls[c].stage.Awaiting?)
  }

  ghost predicate SessionsHold(s: State) {
    && (forall k :: k in s.sessions ==>
          && s.sessions[k] in s.calls && s.calls[s.sessions[k]].cookie == k
          && (s.calls[s.sessions[k]].stage.Awaiting? || s.calls[s.sessions[k]].stage.Cleaning?))
    && (forall c :: Live(s, c) && c in s.calls && s.calls[c].stage.Awaiting? && !s.tasks[c].phase.Aborted? ==>
          s.calls[c].cookie in s.sessions && s.sessions[s.calls[c].cookie] == c)
  }

  ghost predicate Structure(s: State) {
    GuardHolds(s) && TasksHold(s) && SessionsHold(s)
  }

  // the steps of `begin_authentication`, one part of the structure at a time

  /** Arrival and the guard. */
  predicate Arrives(e: Event) {
    e.Begin? || e.Acquire?
  }

  /** With the guard held: an early return, or the sessions lock. */
  predicate GetsReady(e: Event) {
    e.Reject? || e.Lock?
  }

  /** Under the sessions lock. */
  predicate Starts(e: Event) {
    e.Spawn? || e.Insert?
  }

  /** After the task. */
  predicate Finishes(e: Event) {
    e.SeeDone? || e.Cleanup?
  }

  lemma ArrivalGuard(s: State, e: Event)
    requires GuardHolds(s) && Next(s, e).Some? && Arrives(e)
    ensures GuardHolds(Next(s, e).value)
  {
  }

  lemma ReadyGuard(s: State, e: Event)
    requires GuardHolds(s) && Next(s, e).Some? && GetsReady(e)
    ensures GuardHolds(Next(s, e).value)
  {
  }

  lemma StartGuard(s: State, e: Event)
    requires GuardHolds(s) && Next(s, e).Some? && Starts(e)
    ensures GuardHolds(Next(s, e).value)
  {
  }

  lemma FinishGuard(s: State, e: Event)
    requires GuardHolds(s) && Next(s, e).Some? && Finishes(e)
    ensures GuardHolds(Next(s, e).value)
  {
  }

  lemma ArrivalTasks(s: State, e: Event)
    requires TasksHold(s) && Next(s, e).Some? && Arrives(e)
    ensures TasksHold(Next(s, e).value)
  {
  }

  lemma ReadyTasks(s: State, e: Event)
    requires TasksHold(s) && Next(s, e).Some? && GetsReady(e)
    ensures TasksHold(Next(s, e).value)
  {
  }

  lemma SpawnTasks(s: State, e: Event)
    requires TasksHold(s) && Next(s, e).Some? && e.Spawn?
    ensures TasksHold(Next(s, e).value)
  {
  }

  lemma InsertTasks(s: State, e: Event)
    requires TasksHold(s) && Next(s, e).Some? && e.Insert?
    ensures TasksHold(Next(s, e).value)
  {
  }

  lemma FinishTasks(s: State, e: Event)
    requires TasksHold(s) && Next(s, e).Some? && Finishes(e)
    ensures TasksHold(Next(s, e).value)
  {
  }

  lemma EarlySessions(s: State, e: Event)
    requires SessionsHold(s) && Next(s, e).Some? && (Arrives(e) || GetsReady(e))
    ensures SessionsHold(Next(s, e).value)
  {
  }

  lemma TaskSessions(s: State, e: Event)
    requires SessionsHold(s) && Next(s, e).Some? && (e.Spawn? || e.SeeDone?)
    ensures SessionsHold(Next(s, e).value)
  {
  }

  /** Only the guard holder has an entry, so no other is overwritten or removed. */
  lemma InsertSessions(s: State, e: Event)
    requires GuardHolds(s) && SessionsHold(s) && Next(s, e).Some? && e.Insert?
    ensures SessionsHold(Next(s, e).value)
  {
  }

  lemma CleanupSessions(s: State, e: Event)
    requires GuardHolds(s) && SessionsHold(s) && Next(s, e).Some? && e.Cleanup?
    ensures SessionsHold(Next(s, e).value)
  {
  }

  lemma EarlyStep(s: State, e: Event)
    requires Structure(s) && Next(s, e).Some? && (Arrives(e) || GetsReady(e))
    ensures Structure(Next(s, e).value)
  {
    hide Next, GuardHolds, TasksHold, SessionsHold;
    EarlySessions(s, e);
    if Arrives(e) {
      ArrivalGuard(s, e);
      ArrivalTasks(s, e);
    } else {
      ReadyGuard(s, e);
      ReadyTasks(s, e);
    }
  }

  lemma LateStep(s: State, e: Event)
    requires Structure(s) && Next(s, e).Some? && (Starts(e) || Finishes(e))
    ensures Structure(Next(s, e).value)
  {
    hide Next, GuardHolds, TasksHold, SessionsHold;
    match e
    case Spawn(_, _, _) =>
      StartGuard(s, e);
      SpawnTasks(s, e);
      TaskSessions(s, e);
    case Insert(_) =>
      StartGuard(s, e);
      InsertTasks(s, e);
      InsertSessions(s, e);
    case SeeDone(_) =>
      FinishGuard(s, e);
      FinishTasks(s, e);
      TaskSessions(s, e);
    case Cleanup(_) =>
      FinishGuard(s, e);
      FinishTasks(s, e);
      CleanupSessions(s, e);
  }

  lemma SameStructure(s: State, t: State)
    requires Structure(s)
    requires t.inflight == s.inflight && t.lock == s.lock && t.calls == s.calls && t.tasks == s.tasks
      && t.sessions == s.sessions
    ensures Structure(t)
  {
    assert forall c :: Live(t, c) ==> Live(s, c);
  }

  /** Time, takes and drains are no part of the structure. */
  lemma QuietStep(s: State, e: Event)
    requires Structure(s) && Next(s, e).Some? && (e.Tick? || e.TakeApproval? || e.CancelDrain?)
    ensures Structure(Next(s, e).value)
  {
    hide Structure;
    SameStructure(s, Next(s, e).value);
  }

  /** A step of the session task of `c`: its phase moves on, the rest of the structure does not change. */
  lemma TaskStep(s: State, c: nat, t: State)
    requires Structure(s) && Live(s, c) && c in t.tasks
    requires t.inflight == s.inflight && t.lock == s.lock && t.calls == s.calls && t.sessions == s.sessions
    requires t.tasks == s.tasks[c := t.tasks[c]]
    requires s.tasks[c].phase.Aborted? ==> t.tasks[c].phase.Ended?
    ensures Structure(t)
  {
    assert forall d :: Live(t, d) ==> Live(s, d);
  }

  /** A cancel takes an entry out and tells its task, if alive, to abort. */
  lemma CancelMove(s: State, cookie: string, t: State)
    requires Structure(s) && t.inflight == s.inflight && t.lock == s.lock && t.calls == s.calls
    requires t.sessions == s.sessions - {cookie}
    requires
      if cookie in s.sessions && Live(s, s.sessions[cookie])
      then t.tasks == s.tasks[s.sessions[cookie] := s.tasks[s.sessions[cookie]].(phase := Aborted)]
      else t.tasks == s.tasks
    ensures Structure(t)
  {
    assert forall c :: Live(t, c) ==> Live(s, c);
  }

  lemma CancelStep(s: State, e: Event)
    requires Structure(s) && e.CancelAbort? && Next(s, e).Some?
    ensures Structure(Next(s, e).value)
  {
    hide Structure;
    CancelMove(s, s.cancels[e.k], Next(s, e).value);
  }

  lemma NextKeepsStructure(s: State, e: Event)
    requires Structure(s) && Next(s, e).Some?
    ensures Structure(Next(s, e).value)
  {
    hide Next, Structure;
    if Arrives(e) || GetsReady(e) {
      EarlyStep(s, e);
    } else if Starts(e) || Finishes(e) {
      LateStep(s, e);
    } else if e.CancelAbort? {
      CancelStep(s, e);
    } else if e.Tick? || e.TakeApproval? || e.CancelDrain? {
      QuietStep(s, e);
    } else {
      TaskEventsMoveOnlyTheTask(s, e);
      TaskStep(s, e.c, Next(s, e).value);
    }
  }

  /** The steps of `session::run`. */
  predicate OfTask(e: Event) {
    e.Poll? || e.Lookup? || e.Verdict? || e.Remember? || e.Push? || e.Handoff? || e.Drain? || e.Reap?
  }

  /** What a step of the session task of `c` leaves alone. */
  ghost predicate MovesOnlyTask(s: State, c: nat, t: State) {
    && c in s.calls && Live(s, c) && c in t.tasks
    && t.inflight == s.inflight && t.lock == s.lock && t.calls == s.calls && t.sessions == s.sessions
    && t.tasks == s.tasks[c := t.tasks[c]]
    && (s.tasks[c].phase.Aborted? ==> t.tasks[c].phase.Ended?)
    && t.now == s.now && t.cancels == s.cancels
    && t.log.takes == s.log.takes && t.log.drainedAt == s.log.drainedAt && t.log.abortedBy == s.log.abortedBy
    && t.tasks[c].inputs == s.tasks[c].inputs && t.tasks[c].facts == s.tasks[c].facts
  }

  lemma EarlyTaskEvents(s: State, e: Event)
    requires Next(s, e).Some? && (e.Poll? || e.Lookup? || e.Verdict? || e.Remember?)
    ensures MovesOnlyTask(s, e.c, Next(s, e).value)
  {
  }

  lemma LateTaskEvents(s: State, e: Event)
    requires Next(s, e).Some? && (e.Push? || e.Handoff? || e.Drain? || e.Reap?)
    ensures MovesOnlyTask(s, e.c, Next(s, e).value)
  {
  }

  lemma TaskEventsMoveOnlyTheTask(s: State, e: Event)
    requires Next(s, e).Some? && OfTask(e)
    ensures MovesOnlyTask(s, e.c, Next(s, e).value)
  {
    hide Next, MovesOnlyTask;
    if e.Poll? || e.Lookup? || e.Verdict? || e.Remember? {
      EarlyTaskEvents(s, e);
    } else {
      LateTaskEvents(s, e);
    }
  }

  lemma InitiallyIdle()
    ensures Structure(INITIAL)
  {
  }

  lemma {:induction false} RunKeepsStructure(es: seq<Event>)
    requires Run(es).Some?
    ensures Structure(Run(es).value)
  {
    hide Next, Structure;
    InitiallyIdle();
    if es != [] {
      RunKeepsStructure(es[..|es| - 1]);
      NextKeepsStructure(Run(es[..|es| - 1]).value, es[|es| - 1]);
    }
  }

  /** In every reachable state at most one session task is alive, and its caller holds `inflight`. */
  lemma OneLiveSession(es: seq<Event>, c: nat, other: nat)
    requires Run(es).Some? && Live(Run(es).value, c)
    ensures Run(es).value.inflight == Some(c)
    ensures Live(Run(es).value, other) ==> other == c
  {
    hide Run, Next;
    RunKeepsStructure(es);
  }

  /** `sessions` never holds more than the guard holder's own entry. */
  lemma OneSessionEntry(es: seq<Event>)
    requires Run(es).Some?
    ensures var s := Run(es).value;
      |s.sessions| <= 1 && forall k :: k in s.sessions ==>
        s.inflight == Some(s.sessions[k]) && s.sessions[k] in s.calls && k == s.calls[s.sessions[k]].cookie
  {
    hide Run, Next, TasksHold;
    RunKeepsStructure(es);
    var s := Run(es).value;
    if s.sessions.Keys != {} {
      var k :| k in s.sessions;
      assert s.sessions.Keys == {k};
      assert |s.sessions| == |s.sessions.Keys|;
    }
  }

  /**
   Spawning under the sessions lock leaves no gap: whenever that lock is free, a live
   task not yet told to abort is in `sessions`, so a cancel naming its cookie aborts it.
   */
  lemma CancelFindsTheSession(es: seq<Event>, c: nat, k: nat)
    requires Run(es).Some? && Live(Run(es).value, c) && !Run(es).value.tasks[c].phase.Aborted?
    requires Run(es).value.lock.None?
    ensures var s := Run(es).value;
      && c in s.calls && s.calls[c].cookie in s.sessions && s.sessions[s.calls[c].cookie] == c
      && (k in s.cancels && s.cancels[k] == s.calls[c].cookie ==>
            Next(s, CancelAbort(k)).Some? && Next(s, CancelAbort(k)).value.tasks[c].phase == Aborted)
  {
    hide Run;
    RunKeepsStructure(es);
    var s := Run(es).value;
    assert s.calls[c].stage.Awaiting?;
  }

  // ---- progress

  /** The steps that begin, carry and end an authentication, environment answers included. */
  predicate OfCall(e: Event) {
    e.Acquire? || e.Reject? || e.Lock? || e.Spawn? || e.Insert? || e.SeeDone? || e.Cleanup? || OfTask(e)
  }

  /** The session task of `c` can take its next step, whatever that is. */
  lemma TaskCanStep(s: State, c: nat) returns (e: Event)
    requires c in s.calls && Live(s, c)
    ensures OfTask(e) && e.c == c && Next(s, e).Some?
  {
    match s.tasks[c].phase
    case Fresh => e := Poll(c);
    case CheckingCache => e := Lookup(c);
    case InDialog => e := Verdict(c, None);
    case Recording => e := Remember(c);
    case Pushing(_) => e := Push(c);
    case HandingOff => e := Handoff(c, None);
    case Draining => e := Drain(c);
    case Aborted => e := Reap(c);
  }

  /** So can the call that holds the guard. */
  lemma HolderCanStep(s: State, g: nat) returns (e: Event)
    requires Structure(s) && s.inflight == Some(g)
    ensures OfCall(e) && e.c == g && Next(s, e).Some?
  {
    if Live(s, g) && s.calls[g].stage.Awaiting? {
      e := TaskCanStep(s, g);
    } else {
      match s.calls[g].stage
      case Guarded => e := Lock(g);
      case Locked => e := Spawn(g, NoConfig(), AgentDetails(None, None, None, None));
      case Spawned => e := Insert(g);
      case Awaiting => e := SeeDone(g);
      case Cleaning => e := Cleanup(g);
    }
  }

  function NoConfig(): ServiceConfig {
    ServiceConfig(true, Config.Password, Policy.Policy([], []), 0, Elevation.Command)
  }

  /**
   Holding both locks cannot deadlock: in every reachable state with a call that has not
   returned, some call can take a step of its own.
   */
  lemma NoDeadlock(es: seq<Event>, c: nat)
    requires Run(es).Some? && c in Run(es).value.calls && !Run(es).value.calls[c].stage.Returned?
    ensures exists e :: OfCall(e) && Next(Run(es).value, e).Some?
  {
    hide Run;
    RunKeepsStructure(es);
    var s := Run(es).value;
    if s.inflight.Some? {
      var e := HolderCanStep(s, s.inflight.value);
    } else {
      assert OfCall(Acquire(c)) && Next(s, Acquire(c)).Some?;
    }
  }

  function StageRank(stage: Stage): nat {
    match stage
    case Waiting => 6
    case Guarded => 5
    case Locked => 4
    case Spawned => 3
    case Awaiting => 2
    case Cleaning => 1
    case Returned => 0
  }

  function PhaseRank(phase: Phase): nat {
    match phase
    case Fresh => 8
    case CheckingCache => 7
    case InDialog => 6
    case Recording => 5
    case Pushing(_) => 4
    case HandingOff => 3
    case Draining => 2
    case Aborted => 1
    case Ended(_) => 0
  }

  /** How many steps of its own a call has left at most. */
  function Rank(s: State, c: nat): nat
    requires c in s.calls
  {
    StageRank(s.calls[c].stage) + if c in s.tasks then PhaseRank(s.tasks[c].phase) else 9
  }

  /** Every step brings the call it belongs to nearer its end, and none takes another call back. */
  lemma StepsAdvance(s: State, e: Event, c: nat)
    requires Structure(s) && Next(s, e).Some? && c in s.calls
    ensures var t := Next(s, e).value;
      && c in t.calls && Rank(t, c) <= Rank(s, c)
      && (OfCall(e) && e.c == c ==> Rank(t, c) < Rank(s, c))
  {
    hide Next, Structure;
    if OfTask(e) {
      TaskEventsMoveOnlyTheTask(s, e);
      TaskAdvances(s, e);
    } else if OfCall(e) {
      CallAdvances(s, e);
    } else {
      OutsideStepsBack(s, e);
    }
  }

  lemma CallAdvances(s: State, e: Event)
    requires Structure(s) && Next(s, e).Some? && OfCall(e) && !OfTask(e)
    ensures var t := Next(s, e).value;
      && e.c in s.calls && e.c in t.calls && t.calls == s.calls[e.c := t.calls[e.c]] && Rank(t, e.c) < Rank(s, e.c)
      && (if e.Spawn? then e.c in t.tasks && t.tasks == s.tasks[e.c := t.tasks[e.c]] else t.tasks == s.tasks)
  {
    hide Next, Structure;
    if e.Spawn? {
      UnspawnedHasNoTask(s, e);
    }
    StageAdvances(s, e);
  }

  lemma UnspawnedHasNoTask(s: State, e: Event)
    requires Structure(s) && Next(s, e).Some? && e.Spawn?
    ensures e.c !in s.tasks
  {
    hide GuardHolds, SessionsHold;
  }

  lemma StageAdvances(s: State, e: Event)
    requires Next(s, e).Some? && OfCall(e) && !OfTask(e)
    ensures var t := Next(s, e).value;
      && e.c in s.calls && e.c in t.calls && t.calls == s.calls[e.c := t.calls[e.c]]
      && StageRank(t.calls[e.c].stage) < StageRank(s.calls[e.c].stage)
      && t.calls[e.c].action == s.calls[e.c].action
      && (if e.Spawn? then e.c in t.tasks && t.tasks == s.tasks[e.c := t.tasks[e.c]] && t.tasks[e.c].phase == Fresh
          else t.tasks == s.tasks)
  {
  }

  /** Arrivals, time, takes and cancels at most tell a task to abort. */
  lemma OutsideStepsBack(s: State, e: Event)
    requires Next(s, e).Some? && !OfCall(e)
    ensures var t := Next(s, e).value;
      && (forall c :: c in s.calls ==> c in t.calls && t.calls[c] == s.calls[c])
      && t.tasks.Keys == s.tasks.Keys
      && (forall c :: c in s.tasks ==> PhaseRank(t.tasks[c].phase) <= PhaseRank(s.tasks[c].phase))
  {
  }

  lemma TaskAdvances(s: State, e: Event)
    requires Next(s, e).Some? && OfTask(e)
    ensures e.c in s.tasks && e.c in Next(s, e).value.tasks
    ensures PhaseRank(Next(s, e).value.tasks[e.c].phase) < PhaseRank(s.tasks[e.c].phase)
  {
  }

  /** The steps of `c` in a list of events. */
  function OwnSteps(es: seq<Event>, c: nat): nat {
    if es == [] then 0
    else OwnSteps(es[..|es| - 1], c) + if OfCall(es[|es| - 1]) && es[|es| - 1].c == c then 1 else 0
  }

  /** In every run a call takes at most fifteen steps of its own. */
  lemma {:induction false} OwnStepsAreFew(es: seq<Event>, c: nat)
    requires Run(es).Some?
    ensures c in Run(es).value.calls ==> OwnSteps(es, c) + Rank(Run(es).value, c) <= 15
    ensures c !in Run(es).value.calls ==> OwnSteps(es, c) == 0
  {
    hide Next, Structure, Rank;
    if es != [] {
      var before := es[..|es| - 1];
      var s, e := Run(before).value, es[|es| - 1];
      OwnStepsAreFew(before, c);
      RunKeepsStructure(before);
      if c in s.calls {
        StepsAdvance(s, e, c);
      } else {
        NewCall(s, e, c);
      }
    }
  }

  lemma NewCall(s: State, e: Event, c: nat)
    requires Structure(s) && Next(s, e).Some? && c !in s.calls
    ensures !(OfCall(e) && e.c == c)
    ensures c in Next(s, e).value.calls ==> Rank(Next(s, e).value, c) == 15
  {
    hide Structure, GuardHolds, SessionsHold;
    NotCalledYet(s, e, c);
    if e.Begin? {
      assert c !in s.tasks by { NoTaskYet(s, c); }
    }
  }

  lemma NoTaskYet(s: State, c: nat)
    requires Structure(s) && c !in s.calls
    ensures c !in s.tasks
  {
  }

  lemma NotCalledYet(s: State, e: Event, c: nat)
    requires Next(s, e).Some? && c !in s.calls
    ensures !(OfCall(e) && e.c == c) && (c in Next(s, e).value.calls ==> e.Begin?)
  {
  }
}
