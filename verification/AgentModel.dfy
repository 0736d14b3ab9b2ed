/**
 The polkit agent as a protocol of steps, one step per stretch of code between two
 await points. `begin_authentication` calls, the session task each of them spawns,
 `cancel_authentication` calls and root's `TakeApproval` interleave freely.
 */
module AgentModel {
  import opened Common
  import opened Elevation
  import opened ProcInfo
  import opened Config
  import Q = ApprovalQueue
  import Policy
  import Grants
  import RememberCache
  import VerdictWire

  /** Where a `begin_authentication` call stands. */
  datatype Stage =
    | Waiting     // for the inflight mutex
    | Guarded     // holds it, works out user, subject and config
    | Locked      // holds the sessions lock as well
    | Spawned     // has spawned the task, has not inserted the handle
    | Awaiting    // handle inserted, lock released, waits for the task
    | Cleaning    // saw the task end, waits for the sessions lock
    | Returned

  datatype Call = Call(action: string, cookie: string, stage: Stage)

  /** What `session::run` is started with. */
  datatype Inputs = Inputs(cfg: ServiceConfig, exe: Option<string>, cmdline: Option<string>)

  /** What `session::run` works out from its inputs: the policy's word, the effective remember window, the key. */
  datatype Facts = Facts(decision: Policy.Decision, rememberSecs: u32, keyCmd: string)

  /** Why an approval is about to be pushed. */
  datatype Why = ByPolicy | ByCache | ByDialog

  datatype Exit =
    | PolicyDenied | UserDenied | TimedOut | DialogFailed
    | HandoffFailed          // helper-1 could not be run: the `?` exits
    | Succeeded
    | Refused                // helper-1 said FAILURE, queue drained
    | Dropped                // aborted, future dropped

  /** Where a session task stands; every phase but the last is one await point. */
  datatype Phase =
    | Fresh
    | CheckingCache
    | InDialog
    | Recording
    | Pushing(why: Why)
    | HandingOff
    | Draining
    | Aborted                // told to abort, future not dropped yet
    | Ended(exit: Exit)

  /** A session task, with the verdict it got, the instant of its cache hit and of its recording. */
  datatype Task = Task(
    inputs: Inputs, facts: Facts, phase: Phase, verdict: Option<VerdictWire.Verdict>, hitAt: Option<nat>,
    recordedAt: Option<nat>)

  /** The n-th push of the run, and a `TakeApproval` that answered true. */
  datatype PushRecord = PushRecord(call: nat, action: string, at: nat, why: Why)
  datatype TakeRecord = TakeRecord(push: nat, action: string, at: nat)

  /**
   What the properties speak about and the agent does not keep: all pushes and true
   takes; `origin[i]`, the index in `pushes` of `queue[i]`; `takesAtPush[c]`, the
   number of takes when `c` pushed; `drainedAt[k]`, the number of pushes when cancel
   `k` drained; `abortedBy[c]`, the cancel that aborted `c`.
   */
  datatype Log = Log(
    pushes: seq<PushRecord>, takes: seq<TakeRecord>, origin: seq<nat>,
    takesAtPush: map<nat, nat>, drainedAt: map<nat, nat>, abortedBy: map<nat, nat>)

  /** The agent. `cancels` are the `cancel_authentication` calls between their drain and their abort. */
  datatype State = State(
    now: nat, inflight: Option<nat>, lock: Option<nat>, calls: map<nat, Call>, tasks: map<nat, Task>,
    sessions: map<string, nat>, queue: seq<Q.Approval>, cache: Grants.Store, cancels: map<nat, string>, log: Log)

  const INITIAL := State(
    0, None, None, map[], map[], map[], [], map[], map[], Log([], [], [], map[], map[], map[]))

  datatype Event =
    | Tick(step: nat)
    // begin_authentication
    | Begin(c: nat, action: string, cookie: string)
    | Acquire(c: nat)
    | Reject(c: nat)
    | Lock(c: nat)
    | Spawn(c: nat, cfg: ServiceConfig, details: AgentDetails)
    | Insert(c: nat)
    | SeeDone(c: nat)
    | Cleanup(c: nat)
    // session::run
    | Poll(c: nat)
    | Lookup(c: nat)
    | Verdict(c: nat, verdict: Option<VerdictWire.Verdict>)   // None: the dialog could not be run
    | Remember(c: nat)
    | Push(c: nat)
    | Handoff(c: nat, success: Option<bool>)                  // None: helper-1 could not be run
    | Drain(c: nat)
    | Reap(c: nat)
    // the others
    | TakeApproval
    | CancelDrain(k: nat, cookie: string)
    | CancelAbort(k: nat)

  function CommandLine(i: Inputs): string {
    if i.cmdline.Some? then i.cmdline.value else ""
  }

  /** The effective remember window: 0 unless the elevated command is eligible. */
  function RememberSecs(i: Inputs): u32 {
    if Eligible(CommandLine(i)) then i.cfg.rememberSeconds else 0
  }

  function KeyCmd(i: Inputs): string {
    KeyCommand(CommandLine(i), i.cfg.rememberScope)
  }

  function Decision(i: Inputs, action: string): Policy.Decision {
    i.cfg.policy.Decide(i.exe, Some(action))
  }

  function FactsOf(i: Inputs, action: string): Facts {
    Facts(Decision(i, action), RememberSecs(i), KeyCmd(i))
  }

  predicate AtStage(s: State, c: nat, stage: Stage) {
    c in s.calls && s.calls[c].stage == stage
  }

  predicate AtPhase(s: State, c: nat, phase: Phase) {
    c in s.calls && c in s.tasks && s.tasks[c].phase == phase
  }

  function WithStage(s: State, c: nat, stage: Stage): State
    requires c in s.calls
  {
    s.(calls := s.calls[c := s.calls[c].(stage := stage)])
  }

  function WithPhase(s: State, c: nat, phase: Phase): State
    requires c in s.tasks
  {
    s.(tasks := s.tasks[c := s.tasks[c].(phase := phase)])
  }

  /** The first stretch of `session::run`: the static policy, then whether the cache is worth asking. */
  function Polled(f: Facts): Phase {
    match f.decision
    case Deny => Ended(PolicyDenied)
    case Allow => Pushing(ByPolicy)
    case Ask => if f.rememberSecs > 0 then CheckingCache else InDialog
  }

  /** The stretch after the dialog. */
  function Decided(f: Facts, v: Option<VerdictWire.Verdict>): Phase {
    if v.None? then Ended(DialogFailed)
    else match v.value.outcome
      case Deny => Ended(UserDenied)
      case Timeout => Ended(TimedOut)
      case Allow => if v.value.remember && f.rememberSecs > 0 then Recording else Pushing(ByDialog)
  }

  function HandedOff(success: Option<bool>): Phase {
    match success
    case None => Ended(HandoffFailed)
    case Some(true) => Ended(Succeeded)
    case Some(false) => Draining
  }

  function NewTask(action: string, cfg: ServiceConfig, details: AgentDetails): Task {
    var subject := SubjectOf(details);
    var i := Inputs(cfg, subject.exe, subject.cmdline);
    Task(i, FactsOf(i, action), Fresh, None, None, None)
  }

  function Emptied(s: State): State {
    s.(queue := [], log := s.log.(origin := []))
  }

  function Approved(s: State, c: nat, why: Why): State
    requires c in s.calls && c in s.tasks
  {
    WithPhase(s, c, HandingOff).(
      queue := Q.Pushed(s.queue, s.calls[c].action, s.now),
      log := s.log.(
        origin := s.log.origin + [|s.log.pushes|],
        pushes := s.log.pushes + [PushRecord(c, s.calls[c].action, s.now, why)],
        takesAtPush := s.log.takesAtPush[c := |s.log.takes|]))
  }

  /** `gone` entries left the queue, the last of them as the answer if there was one. */
  function Noted(log: Log, gone: nat, answer: Option<Q.Approval>, now: nat): Log
    requires gone <= |log.origin| && (answer.Some? ==> gone > 0)
  {
    log.(
      origin := log.origin[gone..],
      takes := if answer.None? then log.takes
               else log.takes + [TakeRecord(log.origin[gone - 1], answer.value.actionId, now)])
  }

  function Dequeued(s: State): State {
    var t := Q.Take(s.queue, s.now);
    var gone := |s.queue| - |t.rest|;
    s.(queue := t.rest, log := if |s.log.origin| == |s.queue| then Noted(s.log, gone, t.result, s.now) else s.log)
  }

  function DrainedFor(s: State, k: nat, cookie: string): State {
    s.(queue := [], cancels := s.cancels[k := cookie],
       log := s.log.(origin := [], drainedAt := s.log.drainedAt[k := |s.log.pushes|]))
  }

  // ---- the steps of `begin_authentication`

  function StepBegin(s: State, c: nat, action: string, cookie: string): Option<State> {
    // D-Bus strings carry no NUL
    if c in s.calls || NUL in action then None
    else Some(s.(calls := s.calls[c := Call(action, cookie, Waiting)]))
  }

  function StepAcquire(s: State, c: nat): Option<State> {
    if AtStage(s, c, Waiting) && s.inflight.None? then Some(WithStage(s, c, Guarded).(inflight := Some(c))) else None
  }

  function StepReject(s: State, c: nat): Option<State> {
    if AtStage(s, c, Guarded) then Some(WithStage(s, c, Returned).(inflight := None)) else None
  }

  function StepLock(s: State, c: nat): Option<State> {
    if AtStage(s, c, Guarded) && s.lock.None? then Some(WithStage(s, c, Locked).(lock := Some(c))) else None
  }

  function StepSpawn(s: State, c: nat, cfg: ServiceConfig, details: AgentDetails): Option<State> {
    if AtStage(s, c, Locked) then
      Some(WithStage(s, c, Spawned).(tasks := s.tasks[c := NewTask(s.calls[c].action, cfg, details)]))
    else None
  }

  function StepInsert(s: State, c: nat): Option<State> {
    if AtStage(s, c, Spawned) then
      Some(WithStage(s, c, Awaiting).(lock := None, sessions := s.sessions[s.calls[c].cookie := c]))
    else None
  }

  function StepSeeDone(s: State, c: nat): Option<State> {
    if AtStage(s, c, Awaiting) && c in s.tasks && s.tasks[c].phase.Ended? then Some(WithStage(s, c, Cleaning)) else None
  }

  function StepCleanup(s: State, c: nat): Option<State> {
    if AtStage(s, c, Cleaning) && s.lock.None? then
      Some(WithStage(s, c, Returned).(inflight := None, sessions := s.sessions - {s.calls[c].cookie}))
    else None
  }

  // ---- the steps of `session::run`

  function StepPoll(s: State, c: nat): Option<State> {
    if AtPhase(s, c, Fresh) then Some(WithPhase(s, c, Polled(s.tasks[c].facts))) else None
  }

  function StepLookup(s: State, c: nat): Option<State> {
    if !AtPhase(s, c, CheckingCache) then None
    else
      var f := s.tasks[c].facts;
      if Grants.Fresh(s.cache, RememberCache.Key(s.calls[c].action, f.keyCmd), f.rememberSecs, s.now) then
        Some(s.(tasks := s.tasks[c := s.tasks[c].(phase := Pushing(ByCache), hitAt := Some(s.now))]))
      else Some(WithPhase(s, c, InDialog))
  }

  function StepVerdict(s: State, c: nat, v: Option<VerdictWire.Verdict>): Option<State> {
    if AtPhase(s, c, InDialog) then
      Some(s.(tasks := s.tasks[c := s.tasks[c].(phase := Decided(s.tasks[c].facts, v), verdict := v)]))
    else None
  }

  function StepRemember(s: State, c: nat): Option<State> {
    if AtPhase(s, c, Recording) then
      Some(s.(cache := Grants.Record(s.cache, RememberCache.Key(s.calls[c].action, s.tasks[c].facts.keyCmd), s.now),
              tasks := s.tasks[c := s.tasks[c].(phase := Pushing(ByDialog), recordedAt := Some(s.now))]))
    else None
  }

  function StepPush(s: State, c: nat): Option<State> {
    if c in s.calls && c in s.tasks && s.tasks[c].phase.Pushing? then Some(Approved(s, c, s.tasks[c].phase.why))
    else None
  }

  function StepHandoff(s: State, c: nat, success: Option<bool>): Option<State> {
    if AtPhase(s, c, HandingOff) then Some(WithPhase(s, c, HandedOff(success))) else None
  }

  function StepDrain(s: State, c: nat): Option<State> {
    if AtPhase(s, c, Draining) then Some(Emptied(WithPhase(s, c, Ended(Refused)))) else None
  }

  function StepReap(s: State, c: nat): Option<State> {
    if AtPhase(s, c, Aborted) then Some(WithPhase(s, c, Ended(Dropped))) else None
  }

  // ---- the steps of `cancel_authentication`

  function StepCancelDrain(s: State, k: nat, cookie: string): Option<State> {
    if k in s.log.drainedAt then None else Some(DrainedFor(s, k, cookie))
  }

  function StepCancelAbort(s: State, k: nat): Option<State> {
    if k !in s.cancels || s.lock.Some? then None
    else
      var cookie := s.cancels[k];
      var t := s.(cancels := s.cancels - {k}, sessions := s.sessions - {cookie});
      if cookie in s.sessions && s.sessions[cookie] in s.tasks && !s.tasks[s.sessions[cookie]].phase.Ended?
      then Some(WithPhase(t, s.sessions[cookie], Aborted).(
        log := s.log.(abortedBy := s.log.abortedBy[s.sessions[cookie] := k])))
      else Some(t)
  }

  /** One step; None when the event cannot happen in this state. */
  function Next(s: State, e: Event): Option<State> {
    match e
    case Tick(d) => Some(s.(now := s.now + d))
    case Begin(c, action, cookie) => StepBegin(s, c, action, cookie)
    case Acquire(c) => StepAcquire(s, c)
    case Reject(c) => StepReject(s, c)
    case Lock(c) => StepLock(s, c)
    case Spawn(c, cfg, details) => StepSpawn(s, c, cfg, details)
    case Insert(c) => StepInsert(s, c)
    case SeeDone(c) => StepSeeDone(s, c)
    case Cleanup(c) => StepCleanup(s, c)
    case Poll(c) => StepPoll(s, c)
    case Lookup(c) => StepLookup(s, c)
    case Verdict(c, v) => StepVerdict(s, c, v)
    case Remember(c) => StepRemember(s, c)
    case Push(c) => StepPush(s, c)
    case Handoff(c, success) => StepHandoff(s, c, success)
    case Drain(c) => StepDrain(s, c)
    case Reap(c) => StepReap(s, c)
    case TakeApproval => Some(Dequeued(s))
    case CancelDrain(k, cookie) => StepCancelDrain(s, k, cookie)
    case CancelAbort(k) => StepCancelAbort(s, k)
  }

  /** What `TakeApproval` answers in this state. */
  function TakeAnswer(s: State): bool {
    Q.Take(s.queue, s.now).result.Some?
  }

  function Run(es: seq<Event>): Option<State> {
    if es == [] then Some(INITIAL)
    else match Run(es[..|es| - 1])
      case None => None
      case Some(s) => Next(s, es[|es| - 1])
  }

  lemma RunAppend(es: seq<Event>, e: Event)
    ensures Run(es + [e]) == match Run(es) case None => None case Some(s) => Next(s, e)
  {
    assert (es + [e])[..|es|] == es;
  }
}
