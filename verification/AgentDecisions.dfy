/**
 What the agent decides, in terms of what a request is about: the program and the action
 id against the lists, the command line against the cache. `Plan` says from these which
 steps a session takes.
 */
module AgentDecisions {
  import opened Common
  import opened Elevation
  import opened AgentModel
  import opened AgentSessions
  import opened AgentHistory
  import opened AgentScript
  import opened ProcInfo
  import opened Text
  import Policy
  import Grants
  import RememberCache
  import VerdictWire

  // ---- the session's plan

  /** A deny entry names the program or the action. */
  ghost predicate Denied(i: Inputs, action: string) {
    exists k :: 0 <= k < |i.cfg.policy.deny| && Policy.Names(i.cfg.policy.deny[k], i.exe, Some(action))
  }

  /** An allow entry does, and no deny entry. */
  ghost predicate Allowed(i: Inputs, action: string) {
    && !Denied(i, action)
    && exists k :: 0 <= k < |i.cfg.policy.allow| && Policy.Names(i.cfg.policy.allow[k], i.exe, Some(action))
  }

  /** Something may be remembered: a window is configured, and the command line is an eligible one. */
  predicate Rememberable(i: Inputs) {
    i.cmdline.Some? && Eligible(i.cmdline.value) && i.cfg.rememberSeconds > 0
  }

  /** The cache is asked where the lists leave it open; the user is, unless the cache answers. */
  ghost predicate CacheAsked(i: Inputs, action: string) {
    !Denied(i, action) && !Allowed(i, action) && Rememberable(i)
  }

  ghost predicate UserAsked(i: Inputs, action: string, hit: bool) {
    !Denied(i, action) && !Allowed(i, action) && !(Rememberable(i) && hit)
  }

  /** The request is granted: by the lists, by the cache or by the user. */
  ghost predicate Granted(i: Inputs, action: string, hit: bool, verdict: Option<VerdictWire.Verdict>) {
    || Allowed(i, action)
    || (CacheAsked(i, action) && hit)
    || (UserAsked(i, action, hit) && verdict.Some? && verdict.value.outcome == VerdictWire.Allow)
  }

  /** The steps of `session::run`, each with what it takes for it to be there. */
  ghost function Plan(
      c: nat, i: Inputs, action: string, hit: bool, verdict: Option<VerdictWire.Verdict>, handoff: Option<bool>)
      : seq<Event>
  {
    var granted := Granted(i, action, hit, verdict);
    var asked := UserAsked(i, action, hit);
    [Poll(c)]
    + (if CacheAsked(i, action) then [Lookup(c)] else [])
    + (if asked then [Verdict(c, verdict)] else [])
    + (if asked && Rememberable(i) && verdict == Some(VerdictWire.Verdict(VerdictWire.Allow, true)) then [Remember(c)]
       else [])
    + (if granted then [Push(c), Handoff(c, handoff)] else [])
    + (if granted && handoff == Some(false) then [Drain(c)] else [])
  }

  lemma DecisionIs(i: Inputs, action: string)
    ensures Decision(i, action) ==
      if Denied(i, action) then Policy.Deny else if Allowed(i, action) then Policy.Allow else Policy.Ask
  {
    Policy.DecidedByNames(i.cfg.policy, i.exe, Some(action));
  }

  lemma WindowIs(i: Inputs)
    ensures RememberSecs(i) > 0 <==> Rememberable(i)
    ensures RememberSecs(i) > 0 ==> RememberSecs(i) == i.cfg.rememberSeconds
  {
    assert Split("") == [];
  }

  lemma EndingPlanned(c: nat, handoff: Option<bool>)
    ensures Ending(c, handoff) == [Push(c), Handoff(c, handoff)] + (if handoff == Some(false) then [Drain(c)] else [])
  {
  }

  lemma AskingPlanned(c: nat, f: Facts, verdict: Option<VerdictWire.Verdict>, handoff: Option<bool>)
    ensures var granted := verdict.Some? && verdict.value.outcome == VerdictWire.Allow;
      var recorded := f.rememberSecs > 0 && verdict == Some(VerdictWire.Verdict(VerdictWire.Allow, true));
      Asking(c, f, verdict, handoff) ==
        [Verdict(c, verdict)] + (if recorded then [Remember(c)] else []) + (if granted then Ending(c, handoff) else [])
  {
  }

  /** The script that follows the code's branches is the plan. */
  lemma ScriptIsThePlan(
      c: nat, i: Inputs, action: string, hit: bool, verdict: Option<VerdictWire.Verdict>, handoff: Option<bool>)
    ensures Script(c, FactsOf(i, action), hit, verdict, handoff) == Plan(c, i, action, hit, verdict, handoff)
  {
    hide Denied, Policy.Names, Decision, RememberSecs, Rememberable, KeyCmd, Ending, Asking;
    DecisionIs(i, action);
    WindowIs(i);
    EndingPlanned(c, handoff);
    AskingPlanned(c, FactsOf(i, action), verdict, handoff);
    if Denied(i, action) {
      assert Plan(c, i, action, hit, verdict, handoff) == [Poll(c)];
    }
  }

  /** How the plan goes on from where the first step leads. */
  lemma PlanStarts(
      c: nat, i: Inputs, action: string, hit: bool, verdict: Option<VerdictWire.Verdict>, handoff: Option<bool>)
    ensures var f := FactsOf(i, action);
      Plan(c, i, action, hit, verdict, handoff) ==
        match Polled(f)
        case CheckingCache => [Poll(c), Lookup(c)] + if hit then Ending(c, handoff) else Asking(c, f, verdict, handoff)
        case InDialog => [Poll(c)] + Asking(c, f, verdict, handoff)
        case Pushing(_) => [Poll(c)] + Ending(c, handoff)
        case _ => [Poll(c)]
  {
    hide Plan, Ending, Asking, Decision, RememberSecs, KeyCmd;
    ScriptIsThePlan(c, i, action, hit, verdict, handoff);
  }

  lemma FirstStepIs(i: Inputs, action: string)
    ensures Polled(FactsOf(i, action)) ==
      if Denied(i, action) then Ended(PolicyDenied)
      else if Allowed(i, action) then Pushing(ByPolicy)
      else if Rememberable(i) then CheckingCache
      else InDialog
  {
    hide Denied, Allowed, Rememberable, Decision, RememberSecs, KeyCmd;
    DecisionIs(i, action);
    WindowIs(i);
  }

  // ---- what a session is about

  lemma InputsKept(s: State, e: Event, c: nat)
    requires Structure(s) && Next(s, e).Some? && c in s.tasks
    ensures c in Next(s, e).value.tasks && Next(s, e).value.tasks[c].inputs == s.tasks[c].inputs
  {
    hide Next, Structure;
    if OfTask(e) {
      TaskEventsMoveOnlyTheTask(s, e);
    } else if OfCall(e) {
      StageAdvances(s, e);
      if e.Spawn? { UnspawnedHasNoTask(s, e); }
    } else {
      OutsideLeavesTask(s, e);
    }
  }

  lemma SpawnsWith(s: State, e: Event)
    requires Next(s, e).Some? && e.Spawn?
    ensures e.c in Next(s, e).value.tasks
    ensures Next(s, e).value.tasks[e.c].inputs == Inputs(e.cfg, SubjectOf(e.details).exe, SubjectOf(e.details).cmdline)
  {
    hide SubjectOf, FactsOf;
  }

  /** In every run a session is about what it was spawned with, to its end. */
  lemma {:induction false} AboutWhatItWasSpawnedWith(es: seq<Event>, n: nat)
    requires Run(es).Some? && n < |es| && es[n].Spawn?
    ensures var s := Run(es).value;
      && es[n].c in s.tasks
      && s.tasks[es[n].c].inputs ==
           Inputs(es[n].cfg, SubjectOf(es[n].details).exe, SubjectOf(es[n].details).cmdline)
  {
    hide Next, Structure, SubjectOf;
    var front := es[..|es| - 1];
    if n == |es| - 1 {
      SpawnsWith(Run(front).value, es[n]);
    } else {
      AboutWhatItWasSpawnedWith(front, n);
      RunKeepsStructure(front);
      InputsKept(Run(front).value, es[|es| - 1], es[n].c);
    }
  }

  /** Where a session can be that was denied by the lists. */
  predicate DeniedPhase(p: Phase) {
    p == Fresh || p == Ended(PolicyDenied) || p == Aborted || p == Ended(Dropped)
  }

  ghost predicate DeniedHold(s: State) {
    forall c :: c in s.tasks && s.tasks[c].facts.decision == Policy.Deny ==> DeniedPhase(s.tasks[c].phase)
  }

  lemma DeniedTaskStep(s: State, e: Event)
    requires DeniedHold(s) && Next(s, e).Some? && OfTask(e)
    ensures DeniedHold(Next(s, e).value)
  {
    hide Next;
    TaskEventsMoveOnlyTheTask(s, e);
    DeniedOwnStep(s, e);
  }

  lemma DeniedOwnStep(s: State, e: Event)
    requires Next(s, e).Some? && OfTask(e) && e.c in s.tasks && e.c in Next(s, e).value.tasks
    requires s.tasks[e.c].facts.decision == Policy.Deny ==> DeniedPhase(s.tasks[e.c].phase)
    ensures s.tasks[e.c].facts.decision == Policy.Deny ==> DeniedPhase(Next(s, e).value.tasks[e.c].phase)
  {
    hide Grants.Fresh, Grants.Record, Decided, HandedOff;
  }

  lemma NextKeepsDenied(s: State, e: Event)
    requires Structure(s) && DeniedHold(s) && Next(s, e).Some?
    ensures DeniedHold(Next(s, e).value)
  {
    hide Next, Structure;
    if OfTask(e) {
      DeniedTaskStep(s, e);
    } else if OfCall(e) {
      StageAdvances(s, e);
      if e.Spawn? { UnspawnedHasNoTask(s, e); }
    } else {
      OutsideLeavesTask(s, e);
      OutsideStepsBack(s, e);
    }
  }

  lemma {:induction false} RunKeepsDenied(es: seq<Event>)
    requires Run(es).Some?
    ensures DeniedHold(Run(es).value)
  {
    hide Next, DeniedHold, Structure;
    if es == [] {
      InitiallyNoneDenied();
    } else {
      RunKeepsDenied(es[..|es| - 1]);
      RunKeepsStructure(es[..|es| - 1]);
      NextKeepsDenied(Run(es[..|es| - 1]).value, es[|es| - 1]);
    }
  }

  lemma InitiallyNoneDenied()
    ensures DeniedHold(INITIAL)
  {
  }

  lemma FactsAre(es: seq<Event>, c: nat)
    requires Run(es).Some? && c in Run(es).value.tasks
    ensures var s := Run(es).value; c in s.calls && s.tasks[c].facts == FactsOf(s.tasks[c].inputs, s.calls[c].action)
  {
    hide Run, Next;
    RunKeepsFacts(es);
  }

  /**
   In every run: a session whose program or action a deny entry names never pushes. Its
   first step ends it, and until then, or ever after, it can only be aborted.
   */
  lemma DeniedNeverPushes(es: seq<Event>, c: nat)
    requires Run(es).Some? && c in Run(es).value.tasks
    requires var s := Run(es).value; c in s.calls && Denied(s.tasks[c].inputs, s.calls[c].action)
    ensures var s := Run(es).value;
      && (forall p :: 0 <= p < |s.log.pushes| ==> s.log.pushes[p].call != c)
      && DeniedPhase(s.tasks[c].phase)
      && (s.tasks[c].phase == Fresh ==>
            Next(s, Poll(c)).Some? && c in Next(s, Poll(c)).value.tasks
            && Next(s, Poll(c)).value.tasks[c].phase == Ended(PolicyDenied))
  {
    hide Run, Denied;
    FactsAre(es, c);
    var s := Run(es).value;
    DecisionIs(s.tasks[c].inputs, s.calls[c].action);
    RunKeepsDenied(es);
    forall p | 0 <= p < |s.log.pushes| ensures s.log.pushes[p].call != c { PushIsNotDenied(es, p); }
    DeniedPoll(s, c);
  }

  lemma DeniedPoll(s: State, c: nat)
    requires c in s.calls && c in s.tasks && s.tasks[c].facts.decision == Policy.Deny
    ensures s.tasks[c].phase == Fresh ==>
      Next(s, Poll(c)).Some? && c in Next(s, Poll(c)).value.tasks
      && Next(s, Poll(c)).value.tasks[c].phase == Ended(PolicyDenied)
  {
  }

  lemma PushIsNotDenied(es: seq<Event>, p: nat)
    requires Run(es).Some? && p < |Run(es).value.log.pushes|
    ensures var s := Run(es).value; var c := s.log.pushes[p].call;
      c in s.tasks && s.tasks[c].facts.decision != Policy.Deny
  {
    hide Run, Next;
    EveryPushWasAllowed(es, p);
  }

  /** In particular one whose forwarded program has a plain name on the deny list, under whatever directory. */
  lemma DeniedProgramNeverPushes(es: seq<Event>, n: nat, dir: string, name: string)
    requires Run(es).Some? && n < |es| && es[n].Spawn?
    requires name in es[n].cfg.policy.deny && name != "" && name != "." && name != ".." && '/' !in name
    requires (dir == "" || dir[|dir| - 1] == '/') && es[n].details.program == Some(dir + name)
    ensures var s := Run(es).value;
      && (forall p :: 0 <= p < |s.log.pushes| ==> s.log.pushes[p].call != es[n].c)
      && es[n].c in s.tasks && DeniedPhase(s.tasks[es[n].c].phase)
  {
    hide Run, Next, SubjectOf, DeniedPhase;
    AboutWhatItWasSpawnedWith(es, n);
    ForwardedWins(es[n].details);
    FactsAre(es, es[n].c);
    var s := Run(es).value;
    var i := s.tasks[es[n].c].inputs;
    FileNameOf(dir, name);
    var k :| 0 <= k < |i.cfg.policy.deny| && i.cfg.policy.deny[k] == name;
    assert Policy.Names(i.cfg.policy.deny[k], i.exe, Some(s.calls[es[n].c].action));
    DeniedNeverPushes(es, es[n].c);
  }

  /** Every push on the lists' word has an allow entry that names its program or action, and no deny entry that does. */
  lemma ListedPushesAreListed(es: seq<Event>, p: nat)
    requires Run(es).Some? && p < |Run(es).value.log.pushes| && Run(es).value.log.pushes[p].why == ByPolicy
    ensures var s := Run(es).value; var c := s.log.pushes[p].call;
      c in s.tasks && Allowed(s.tasks[c].inputs, s.log.pushes[p].action)
  {
    hide Run, Next, Denied, Allowed;
    EveryPushWasAllowed(es, p);
    var s := Run(es).value;
    var c := s.log.pushes[p].call;
    FactsAre(es, c);
    DecisionIs(s.tasks[c].inputs, s.calls[c].action);
  }

  /** And every other push, by the cache or the user, is of a request that no entry names. */
  lemma OtherPushesAreUnlisted(es: seq<Event>, p: nat)
    requires Run(es).Some? && p < |Run(es).value.log.pushes| && Run(es).value.log.pushes[p].why != ByPolicy
    ensures var s := Run(es).value; var c := s.log.pushes[p].call;
      && c in s.tasks && !Denied(s.tasks[c].inputs, s.log.pushes[p].action)
      && !Allowed(s.tasks[c].inputs, s.log.pushes[p].action)
  {
    hide Run, Next, Denied, Allowed;
    EveryPushWasAllowed(es, p);
    var s := Run(es).value;
    var c := s.log.pushes[p].call;
    FactsAre(es, c);
    DecisionIs(s.tasks[c].inputs, s.calls[c].action);
  }

  // ---- the cache

  /** What was recorded is in the cache, as of then or later, until its 900 s are over. */
  ghost predicate RecordingsHold(s: State) {
    forall r :: r in s.tasks && s.tasks[r].recordedAt.Some? ==> RecordingHolds(s, r, s.tasks[r].recordedAt.value)
  }

  ghost predicate RecordingHolds(s: State, r: nat, at: nat)
    requires r in s.tasks
  {
    && r in s.calls && at <= s.now
    && var k := RememberCache.Key(s.calls[r].action, s.tasks[r].facts.keyCmd);
      (k in s.cache && at <= s.cache[k] <= s.now) || at + 900_000_000_000 <= s.now
  }

  /** A step that records nothing. */
  ghost predicate RecordsNothing(s: State, t: State) {
    && t.cache == s.cache && s.now <= t.now
    && (forall c :: c in s.calls ==> c in t.calls && t.calls[c].action == s.calls[c].action)
    && forall c :: c in t.tasks && t.tasks[c].recordedAt.Some? ==>
         c in s.tasks && t.tasks[c].recordedAt == s.tasks[c].recordedAt && t.tasks[c].facts == s.tasks[c].facts
  }

  lemma TaskRecordsNothing(s: State, e: Event)
    requires Next(s, e).Some? && OfTask(e) && !e.Remember?
    ensures RecordsNothing(s, Next(s, e).value)
  {
    hide Next, RecordsNothing;
    if e.Poll? || e.Lookup? || e.Verdict? {
      AskingRecordsNothing(s, e);
    } else {
      EndingRecordsNothing(s, e);
    }
  }

  lemma AskingRecordsNothing(s: State, e: Event)
    requires Next(s, e).Some? && (e.Poll? || e.Lookup? || e.Verdict?)
    ensures RecordsNothing(s, Next(s, e).value)
  {
    hide Grants.Fresh, Polled, Decided;
  }

  lemma EndingRecordsNothing(s: State, e: Event)
    requires Next(s, e).Some? && (e.Push? || e.Handoff? || e.Drain? || e.Reap?)
    ensures RecordsNothing(s, Next(s, e).value)
  {
    hide HandedOff;
  }

  lemma OthersRecordNothing(s: State, e: Event)
    requires Next(s, e).Some? && !OfTask(e)
    ensures RecordsNothing(s, Next(s, e).value)
  {
    hide SubjectOf, FactsOf;
  }

  lemma QuietStepKeepsRecordings(s: State, t: State)
    requires RecordingsHold(s) && RecordsNothing(s, t)
    ensures RecordingsHold(t)
  {
    forall r | r in t.tasks && t.tasks[r].recordedAt.Some? ensures RecordingHolds(t, r, t.tasks[r].recordedAt.value) {
      assert RecordingHolds(s, r, s.tasks[r].recordedAt.value);
    }
  }

  lemma RememberKeepsRecordings(s: State, e: Event)
    requires RecordingsHold(s) && Next(s, e).Some? && e.Remember?
    requires forall k :: k in s.cache ==> s.cache[k] <= s.now
    ensures RecordingsHold(Next(s, e).value)
  {
    hide RememberCache.Key;
    var t := Next(s, e).value;
    var key := RememberCache.Key(s.calls[e.c].action, s.tasks[e.c].facts.keyCmd);
    forall r | r in t.tasks && t.tasks[r].recordedAt.Some? ensures RecordingHolds(t, r, t.tasks[r].recordedAt.value) {
      if r != e.c {
        assert RecordingHolds(s, r, s.tasks[r].recordedAt.value);
        Grants.RecordPrunes(s.cache, key, s.now, RememberCache.Key(s.calls[r].action, s.tasks[r].facts.keyCmd));
      }
    }
  }

  lemma NextKeepsRecordings(s: State, e: Event)
    requires RecordingsHold(s) && Next(s, e).Some?
    requires forall k :: k in s.cache ==> s.cache[k] <= s.now
    ensures RecordingsHold(Next(s, e).value)
  {
    hide Next, RecordingsHold, RecordsNothing;
    if e.Remember? {
      RememberKeepsRecordings(s, e);
    } else {
      if OfTask(e) {
        TaskRecordsNothing(s, e);
      } else {
        OthersRecordNothing(s, e);
      }
      QuietStepKeepsRecordings(s, Next(s, e).value);
    }
  }

  lemma CacheIsNotAhead(es: seq<Event>)
    requires Run(es).Some?
    ensures forall k :: k in Run(es).value.cache ==> Run(es).value.cache[k] <= Run(es).value.now
  {
    hide Run, Next, QueueHolds;
    RunKeepsHistory(es);
  }

  lemma {:induction false} RunKeepsRecordings(es: seq<Event>)
    requires Run(es).Some?
    ensures RecordingsHold(Run(es).value)
  {
    hide Next, RecordingsHold;
    if es == [] {
      InitiallyNoRecordings();
    } else {
      RunKeepsRecordings(es[..|es| - 1]);
      CacheIsNotAhead(es[..|es| - 1]);
      NextKeepsRecordings(Run(es[..|es| - 1]).value, es[|es| - 1]);
    }
  }

  lemma InitiallyNoRecordings()
    ensures RecordingsHold(INITIAL)
  {
  }

  /** `r` recorded, at `at`, the grant that `c` looks for: same action, same key command, and it still holds. */
  ghost predicate Matches(s: State, c: nat, r: nat, at: nat) {
    && c in s.calls && c in s.tasks && r in s.calls && r in s.tasks
    && s.tasks[r].recordedAt == Some(at) && s.calls[r].action == s.calls[c].action
    && KeyCmd(s.tasks[r].inputs) == KeyCmd(s.tasks[c].inputs)
    && s.now < at + Min(s.tasks[c].inputs.cfg.rememberSeconds as nat * 1_000_000_000, 900_000_000_000)
  }

  /**
   In every reachable state the cache answers as if nothing were ever pruned, overwritten
   or flattened: a session that asks it is spared the dialog if and only if some session
   recorded this action and key command and that grant still holds.
   */
  lemma LookupHitsExactlyWhen(es: seq<Event>, c: nat)
    requires Run(es).Some? && AtPhase(Run(es).value, c, CheckingCache)
    ensures var s := Run(es).value;
      && Next(s, Lookup(c)).Some? && c in Next(s, Lookup(c)).value.tasks
      && Next(s, Lookup(c)).value.tasks[c].phase ==
           if exists r, at: nat :: Matches(s, c, r, at) then Pushing(ByCache) else InDialog
  {
    hide Run;
    var s := Run(es).value;
    RunKeepsHistory(es);
    RunKeepsRecordings(es);
    RunKeepsFacts(es);
    assert TaskHolds(s, c);
    LookupIs(s, c);
    var f := s.tasks[c].facts;
    WindowIs(s.tasks[c].inputs);
    if Grants.Fresh(s.cache, RememberCache.Key(s.calls[c].action, f.keyCmd), f.rememberSecs, s.now) {
      var r := FreshHasASource(s, c);
      assert Matches(s, c, r, s.cache[RememberCache.Key(s.calls[c].action, f.keyCmd)]);
    } else if r, at: nat :| Matches(s, c, r, at) {
      MatchIsFresh(s, c, r, at);
    }
  }

  lemma LookupIs(s: State, c: nat)
    requires AtPhase(s, c, CheckingCache)
    ensures var f := s.tasks[c].facts;
      && Next(s, Lookup(c)).Some? && c in Next(s, Lookup(c)).value.tasks
      && Next(s, Lookup(c)).value.tasks[c].phase ==
           if Grants.Fresh(s.cache, RememberCache.Key(s.calls[c].action, f.keyCmd), f.rememberSecs, s.now)
           then Pushing(ByCache) else InDialog
  {
    hide Grants.Fresh, RememberCache.Key;
  }

  lemma FreshHasASource(s: State, c: nat) returns (r: nat)
    requires EvidenceHolds(s) && FactsHold(s) && c in s.calls && c in s.tasks
    requires var k := RememberCache.Key(s.calls[c].action, s.tasks[c].facts.keyCmd);
      Grants.Fresh(s.cache, k, s.tasks[c].facts.rememberSecs, s.now)
    ensures Matches(s, c, r, s.cache[RememberCache.Key(s.calls[c].action, s.tasks[c].facts.keyCmd)])
  {
    var f := s.tasks[c].facts;
    var k := RememberCache.Key(s.calls[c].action, f.keyCmd);
    assert CacheEntryHolds(s, k, s.cache[k]);
    r :| r in s.calls && r in s.tasks
      && Recorded(s, r, s.calls[r].action, s.tasks[r].facts.keyCmd, s.cache[k])
      && RememberCache.Key(s.calls[r].action, s.tasks[r].facts.keyCmd) == k;
    RememberCache.KeyInjective(
      RememberCache.CacheKey(s.calls[r].action, s.tasks[r].facts.keyCmd),
      RememberCache.CacheKey(s.calls[c].action, f.keyCmd));
    Grants.FreshExactlyWhen(s.cache, k, f.rememberSecs, s.now);
    WindowIs(s.tasks[c].inputs);
  }

  lemma MatchIsFresh(s: State, c: nat, r: nat, at: nat)
    requires RecordingsHold(s) && FactsHold(s) && Matches(s, c, r, at) && s.tasks[c].facts.rememberSecs > 0
    ensures var f := s.tasks[c].facts;
      Grants.Fresh(s.cache, RememberCache.Key(s.calls[c].action, f.keyCmd), f.rememberSecs, s.now)
  {
    hide RememberCache.Key, KeyCmd;
    var k := RememberCache.Key(s.calls[c].action, s.tasks[c].facts.keyCmd);
    assert RecordingHolds(s, r, at);
    WindowIs(s.tasks[c].inputs);
    Grants.FreshExactlyWhen(s.cache, k, s.tasks[c].facts.rememberSecs, s.now);
  }

  /**
   What a matching key means for the two commands: they start with the same word, and if
   both are remembered by the full command they are the same words, and the same text but
   for whitespace around it.
   */
  lemma SameKeyMeans(i: Inputs, j: Inputs)
    requires Rememberable(i) && Rememberable(j) && KeyCmd(i) == KeyCmd(j)
    ensures Split(i.cmdline.value) != [] && Split(j.cmdline.value) != []
    ensures Split(i.cmdline.value)[0] == Split(j.cmdline.value)[0]
    ensures i.cfg.rememberScope == Command && j.cfg.rememberScope == Command ==>
      Split(i.cmdline.value) == Split(j.cmdline.value) && Trim(i.cmdline.value) == Trim(j.cmdline.value)
  {
    hide Eligible;
    KeyKeepsEligibility(i.cmdline.value, i.cfg.rememberScope);
    KeyKeepsEligibility(j.cmdline.value, j.cfg.rememberScope);
    EligibleHasWords(i.cmdline.value);
    EligibleHasWords(j.cmdline.value);
    var words := Split(KeyCmd(i));
    assert words[0] == Split(i.cmdline.value)[0] && words[0] == Split(j.cmdline.value)[0];
  }

  /**
   In every run a cache hit connects two sessions for one action: both commands are
   eligible, they are the same as far as their scopes look, and the grant is younger than
   the window of the session that hits, and than 900 s.
   */
  lemma CacheHitsAreSound(es: seq<Event>, c: nat, r: nat, at: nat)
    requires Run(es).Some?
    requires var s := Run(es).value; c in s.calls && c in s.tasks && s.tasks[c].hitAt.Some? && HitFrom(s, c, r, at)
    ensures var s := Run(es).value; var i, j := s.tasks[c].inputs, s.tasks[r].inputs;
      && Rememberable(i) && Rememberable(j) && s.calls[c].action == s.calls[r].action
      && Split(i.cmdline.value) != [] && Split(j.cmdline.value) != []
      && Split(i.cmdline.value)[0] == Split(j.cmdline.value)[0]
      && (i.cfg.rememberScope == j.cfg.rememberScope == Command ==> Trim(i.cmdline.value) == Trim(j.cmdline.value))
      && s.tasks[c].hitAt.value < at + Min(i.cfg.rememberSeconds as nat * 1_000_000_000, 900_000_000_000)
  {
    hide Run, Next, KeyCmd, Rememberable, Eligible;
    RunKeepsHistory(es);
    FactsAre(es, c);
    FactsAre(es, r);
    var s := Run(es).value;
    WindowIs(s.tasks[c].inputs);
    WindowIs(s.tasks[r].inputs);
    SameKeyMeans(s.tasks[c].inputs, s.tasks[r].inputs);
    RememberableHasALine(s.tasks[c].inputs);
    RememberableHasALine(s.tasks[r].inputs);
  }

  lemma RememberableHasALine(i: Inputs)
    requires Rememberable(i)
    ensures i.cmdline.Some?
  {
  }

  lemma EligibleHasWords(cmd: string)
    requires Eligible(cmd)
    ensures Split(cmd) != []
  {
  }
}
