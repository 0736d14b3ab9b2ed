/** What the approvals that root takes go back to, over every interleaving. */
module AgentHistory {
  import opened Common
  import opened AgentModel
  import opened AgentSessions
  import opened ProcInfo
  import opened Config
  import Q = ApprovalQueue
  import Policy
  import Grants
  import RememberCache
  import VerdictWire

  // ---- takes against pushes

  ghost predicate Increasing(ns: seq<nat>) {
    forall i, j :: 0 <= i < j < |ns| ==> ns[i] < ns[j]
  }

  ghost predicate TakeHolds(s: State, t: TakeRecord) {
    && t.push < |s.log.pushes| && t.action == s.log.pushes[t.push].action
    && s.log.pushes[t.push].at <= t.at < s.log.pushes[t.push].at + Q.TTL
    && t.at <= s.now
  }

  ghost predicate QueueHolds(s: State) {
    && |s.log.origin| == |s.queue| && Increasing(s.log.origin)
    && (forall i :: 0 <= i < |s.log.origin| ==>
          && s.log.origin[i] < |s.log.pushes|
          && s.queue[i] == Q.Approval(s.log.pushes[s.log.origin[i]].action, s.log.pushes[s.log.origin[i]].at + Q.TTL))
    && (forall p :: 0 <= p < |s.log.pushes| ==> s.log.pushes[p].at <= s.now)
    && (forall j :: 0 <= j < |s.log.takes| ==> TakeHolds(s, s.log.takes[j]))
    && (forall i, j :: 0 <= i < j < |s.log.takes| ==> s.log.takes[i].push < s.log.takes[j].push)
    && (forall i, j :: 0 <= i < |s.log.takes| && 0 <= j < |s.log.origin| ==> s.log.takes[i].push < s.log.origin[j])
  }

  /** A take cuts queue and origins alike, and if it answers true, records the entry just before the cut. */
  lemma DequeuedShape(s: State)
    requires |s.log.origin| == |s.queue|
    ensures var t := Dequeued(s); var gone := |s.queue| - |t.queue|;
      && 0 <= gone <= |s.queue| && t.queue == s.queue[gone..] && t.log.origin == s.log.origin[gone..]
      && t == s.(queue := t.queue, log := s.log.(origin := t.log.origin, takes := t.log.takes))
      && (if TakeAnswer(s) then AnswersAt(s, t, gone) else t.log.takes == s.log.takes)
  {
    var taken := Q.Take(s.queue, s.now);
    var gone := |s.queue| - |taken.rest|;
    assert taken.rest == s.queue[gone..];
    NotedShape(s.log, gone, taken.result, s.now);
  }

  lemma NotedShape(log: Log, gone: nat, answer: Option<Q.Approval>, now: nat)
    requires gone <= |log.origin| && (answer.Some? ==> gone > 0)
    ensures var after := Noted(log, gone, answer, now);
      after == log.(origin := log.origin[gone..], takes := after.takes)
  {
  }

  /** The ghost take is recorded exactly when `TakeApproval` answers true. */
  lemma AnswersAreRecorded(es: seq<Event>)
    requires Run(es).Some?
    ensures var s := Run(es).value;
      && TakeAnswer(s) == (|Dequeued(s).log.takes| == |s.log.takes| + 1)
      && Dequeued(s).queue == Q.Take(s.queue, s.now).rest
  {
    hide Run, Next, EvidenceHolds;
    RunKeepsHistory(es);
    DequeuedShape(Run(es).value);
  }

  ghost predicate AnswersAt(s: State, t: State, gone: nat) {
    && 1 <= gone <= |s.queue| == |s.log.origin|
    && s.queue[gone - 1].expiresAt > s.now
    && t.log.takes == s.log.takes + [TakeRecord(s.log.origin[gone - 1], s.queue[gone - 1].actionId, s.now)]
  }

  /** A true answer is for the oldest push still open, and less than a second old. */
  lemma AnswerHolds(s: State, t: State, gone: nat)
    requires QueueHolds(s) && AnswersAt(s, t, gone) && t.log.pushes == s.log.pushes && t.now == s.now
    ensures forall j :: 0 <= j < |t.log.takes| ==> TakeHolds(t, t.log.takes[j])
    ensures forall i, j :: 0 <= i < j < |t.log.takes| ==> t.log.takes[i].push < t.log.takes[j].push
  {
    forall j | 0 <= j < |t.log.takes| ensures TakeHolds(t, t.log.takes[j]) {
      if j < |s.log.takes| { assert TakeHolds(s, s.log.takes[j]); }
    }
  }

  lemma AnswerBeforeRest(s: State, t: State, gone: nat)
    requires QueueHolds(s) && AnswersAt(s, t, gone) && t.log.origin == s.log.origin[gone..]
    ensures forall i, j :: 0 <= i < |t.log.takes| && 0 <= j < |t.log.origin| ==> t.log.takes[i].push < t.log.origin[j]
  {
    forall i, j | 0 <= i < |t.log.takes| && 0 <= j < |t.log.origin| ensures t.log.takes[i].push < t.log.origin[j] {
      assert t.log.origin[j] == s.log.origin[gone + j];
    }
  }

  /** Cutting the front keeps everything said of the queue itself. */
  lemma CutKeepsQueue(s: State, t: State, gone: nat)
    requires QueueHolds(s) && gone <= |s.queue|
    requires t == s.(queue := s.queue[gone..], log := s.log.(origin := s.log.origin[gone..]))
    ensures QueueHolds(t)
  {
    forall j | 0 <= j < |t.log.takes| ensures TakeHolds(t, t.log.takes[j]) { assert TakeHolds(s, s.log.takes[j]); }
    assert forall i :: 0 <= i < |t.log.origin| ==>
      t.log.origin[i] == s.log.origin[gone + i] && t.queue[i] == s.queue[gone + i];
  }

  lemma DequeueKeepsQueue(s: State)
    requires QueueHolds(s)
    ensures QueueHolds(Dequeued(s))
  {
    DequeuedShape(s);
    CutAndAnswer(s, Dequeued(s), |s.queue| - |Dequeued(s).queue|);
  }

  lemma CutAndAnswer(s: State, t: State, gone: nat)
    requires QueueHolds(s) && gone <= |s.queue|
    requires t == s.(queue := s.queue[gone..], log := s.log.(origin := s.log.origin[gone..], takes := t.log.takes))
    requires t.log.takes == s.log.takes || AnswersAt(s, t, gone)
    ensures QueueHolds(t)
  {
    var cut := t.(log := t.log.(takes := s.log.takes));
    CutKeepsQueue(s, cut, gone);
    if t.log.takes == s.log.takes {
      assert t == cut;
    } else {
      AnswerHolds(s, t, gone);
      AnswerBeforeRest(s, t, gone);
      TakesApart(cut, t);
    }
  }

  /** The takes are held to account apart from the queue. */
  lemma TakesApart(s: State, t: State)
    requires QueueHolds(s) && t == s.(log := s.log.(takes := t.log.takes))
    requires forall j :: 0 <= j < |t.log.takes| ==> TakeHolds(t, t.log.takes[j])
    requires forall i, j :: 0 <= i < j < |t.log.takes| ==> t.log.takes[i].push < t.log.takes[j].push
    requires forall i, j :: 0 <= i < |t.log.takes| && 0 <= j < |t.log.origin| ==> t.log.takes[i].push < t.log.origin[j]
    ensures QueueHolds(t)
  {
  }

  lemma PushKeepsQueue(s: State, c: nat, why: Why)
    requires QueueHolds(s) && c in s.calls && c in s.tasks
    ensures QueueHolds(Approved(s, c, why))
  {
    var t := Approved(s, c, why);
    forall j | 0 <= j < |t.log.takes| ensures TakeHolds(t, t.log.takes[j]) {
      assert TakeHolds(s, s.log.takes[j]);
    }
  }

  /** Steps that leave queue and histories alone, or empty the queue. */
  lemma OtherStepsKeepQueue(s: State, t: State)
    requires QueueHolds(s) && t.now >= s.now && t.log.pushes == s.log.pushes && t.log.takes == s.log.takes
    requires (t.queue == s.queue && t.log.origin == s.log.origin) || (t.queue == [] && t.log.origin == [])
    ensures QueueHolds(t)
  {
    forall j | 0 <= j < |t.log.takes| ensures TakeHolds(t, t.log.takes[j]) {
      assert TakeHolds(s, s.log.takes[j]);
    }
  }

  lemma QueueUntouched(s: State, e: Event)
    requires Next(s, e).Some? && !e.TakeApproval? && !e.Push?
    ensures var t := Next(s, e).value;
      && t.now >= s.now && t.log.pushes == s.log.pushes && t.log.takes == s.log.takes
      && ((t.queue == s.queue && t.log.origin == s.log.origin) || (t.queue == [] && t.log.origin == []))
  {
  }

  lemma NextKeepsQueue(s: State, e: Event)
    requires QueueHolds(s) && Next(s, e).Some?
    ensures QueueHolds(Next(s, e).value)
  {
    hide QueueHolds;
    match e {
      case TakeApproval => DequeueKeepsQueue(s);
      case Push(c) => PushKeepsQueue(s, c, s.tasks[c].phase.why);
      case _ =>
        QueueUntouched(s, e);
        OtherStepsKeepQueue(s, Next(s, e).value);
    }
  }

  // ---- why every push was allowed

  /** The session of `r` was answered ALLOW REMEMBER and recorded, at `at`, a grant for this action and key. */
  ghost predicate Recorded(s: State, r: nat, action: string, command: string, at: nat) {
    && r in s.calls && r in s.tasks
    && s.tasks[r].verdict == Some(VerdictWire.Verdict(VerdictWire.Allow, true))
    && s.tasks[r].recordedAt == Some(at)
    && s.calls[r].action == action && s.tasks[r].facts.keyCmd == command
    && s.tasks[r].facts.rememberSecs > 0
  }

  /** The cache hit of `c` goes back to such a grant, younger than the capped window at the hit. */
  ghost predicate HitHolds(s: State, c: nat) {
    && c in s.calls && c in s.tasks && s.tasks[c].hitAt.Some?
    && s.tasks[c].facts.rememberSecs > 0
    && exists r, at: nat :: HitFrom(s, c, r, at)
  }

  ghost predicate HitFrom(s: State, c: nat, r: nat, at: nat)
    requires c in s.calls && c in s.tasks && s.tasks[c].hitAt.Some?
  {
    && Recorded(s, r, s.calls[c].action, s.tasks[c].facts.keyCmd, at)
    && at <= s.tasks[c].hitAt.value < at + Grants.Window(s.tasks[c].facts.rememberSecs)
  }

  ghost predicate Evidence(s: State, c: nat, why: Why) {
    && c in s.calls && c in s.tasks
    && match why
       case ByPolicy => s.tasks[c].facts.decision == Policy.Allow
       case ByDialog => AskedFirst(s, c) && s.tasks[c].verdict.Some?
         && s.tasks[c].verdict.value.outcome == VerdictWire.Allow
       case ByCache => AskedFirst(s, c) && HitHolds(s, c)
  }

  ghost predicate AskedFirst(s: State, c: nat)
    requires c in s.calls && c in s.tasks
  {
    s.tasks[c].facts.decision == Policy.Ask
  }

  /** Phases a session can only be in once it has pushed, or been aborted. */
  predicate MayHavePushed(p: Phase) {
    || p.HandingOff? || p.Draining? || p.Aborted?
    || (p.Ended? && (p.exit.HandoffFailed? || p.exit.Succeeded? || p.exit.Refused? || p.exit.Dropped?))
  }

  ghost predicate TaskHolds(s: State, c: nat) {
    && c in s.calls && c in s.tasks
    && var t := s.tasks[c];
      && (t.recordedAt.Some? ==>
            && t.verdict == Some(VerdictWire.Verdict(VerdictWire.Allow, true))
            && t.facts.rememberSecs > 0 && t.recordedAt.value <= s.now)
      && (t.verdict.Some? ==> AskedFirst(s, c) && t.hitAt.None?)
      && match t.phase
         case Fresh => t.verdict.None? && t.hitAt.None? && t.recordedAt.None?
         case CheckingCache => AskedFirst(s, c) && t.facts.rememberSecs > 0 && t.verdict.None? && t.hitAt.None?
           && t.recordedAt.None?
         case InDialog => AskedFirst(s, c) && t.verdict.None? && t.hitAt.None? && t.recordedAt.None?
         case Recording =>
           && AskedFirst(s, c) && t.recordedAt.None? && t.facts.rememberSecs > 0
           && t.verdict == Some(VerdictWire.Verdict(VerdictWire.Allow, true))
         case Pushing(why) => Evidence(s, c, why)
         case Ended(PolicyDenied) => t.facts.decision == Policy.Deny
         case Ended(UserDenied) => t.verdict.Some? && t.verdict.value.outcome == VerdictWire.Deny
         case Ended(DialogFailed) => AskedFirst(s, c) && t.hitAt.None?
         case Ended(TimedOut) => t.verdict.Some? && t.verdict.value.outcome == VerdictWire.Timeout
         case _ => true
  }

  ghost predicate PushHolds(s: State, p: PushRecord) {
    && Evidence(s, p.call, p.why) && p.action == s.calls[p.call].action
    && MayHavePushed(s.tasks[p.call].phase)
  }

  ghost predicate CacheEntryHolds(s: State, k: string, at: nat) {
    && at <= s.now
    && exists r :: r in s.calls && r in s.tasks
         && Recorded(s, r, s.calls[r].action, s.tasks[r].facts.keyCmd, at)
         && RememberCache.Key(s.calls[r].action, s.tasks[r].facts.keyCmd) == k
  }

  ghost predicate EvidenceHolds(s: State) {
    && (forall c :: c in s.calls ==> NUL !in s.calls[c].action)
    && (forall c :: c in s.tasks ==> TaskHolds(s, c))
    && (forall p :: 0 <= p < |s.log.pushes| ==> PushHolds(s, s.log.pushes[p]))
    && (forall p, q :: 0 <= p < q < |s.log.pushes| ==> s.log.pushes[p].call != s.log.pushes[q].call)
    && (forall k :: k in s.cache ==> CacheEntryHolds(s, k, s.cache[k]))
  }

  /** Nothing a session has seen is ever unseen. */
  ghost predicate Grew(s: State, t: State) {
    && s.now <= t.now
    && (forall c :: c in s.calls ==> c in t.calls && t.calls[c].action == s.calls[c].action)
    && (forall c :: c in s.tasks ==>
          && c in t.tasks && t.tasks[c].facts == s.tasks[c].facts
          && (s.tasks[c].verdict.Some? ==> t.tasks[c].verdict == s.tasks[c].verdict)
          && (s.tasks[c].hitAt.Some? ==> t.tasks[c].hitAt == s.tasks[c].hitAt)
          && (s.tasks[c].recordedAt.Some? ==> t.tasks[c].recordedAt == s.tasks[c].recordedAt))
  }

  lemma HitLater(s: State, t: State, c: nat)
    requires Grew(s, t) && HitHolds(s, c)
    ensures HitHolds(t, c)
  {
    var r, at: nat :| HitFrom(s, c, r, at);
    assert HitFrom(t, c, r, at);
  }

  lemma EvidenceLater(s: State, t: State, c: nat, why: Why)
    requires Grew(s, t) && Evidence(s, c, why)
    ensures Evidence(t, c, why)
  {
    if why == ByCache { HitLater(s, t, c); }
  }

  lemma TaskLater(s: State, t: State, c: nat)
    requires Grew(s, t) && TaskHolds(s, c) && c in t.tasks && t.tasks[c] == s.tasks[c]
    ensures TaskHolds(t, c)
  {
    if s.tasks[c].phase.Pushing? { EvidenceLater(s, t, c, s.tasks[c].phase.why); }
  }

  lemma CacheEntryLater(s: State, t: State, k: string, at: nat)
    requires Grew(s, t) && CacheEntryHolds(s, k, at)
    ensures CacheEntryHolds(t, k, at)
  {
    var r :| r in s.calls && r in s.tasks
         && Recorded(s, r, s.calls[r].action, s.tasks[r].facts.keyCmd, at)
         && RememberCache.Key(s.calls[r].action, s.tasks[r].facts.keyCmd) == k;
    assert Recorded(t, r, t.calls[r].action, t.tasks[r].facts.keyCmd, at);
  }

  lemma PushLater(s: State, t: State, p: PushRecord)
    requires Grew(s, t) && PushHolds(s, p) && MayHavePushed(t.tasks[p.call].phase)
    ensures PushHolds(t, p)
  {
    EvidenceLater(s, t, p.call, p.why);
  }

  /** Steps that move no session task. */
  lemma OutsideStep(s: State, t: State)
    requires EvidenceHolds(s) && Grew(s, t) && t.log.pushes == s.log.pushes && t.cache == s.cache
    requires forall c :: c in t.calls ==> NUL !in t.calls[c].action
    requires forall c :: c in t.tasks ==> TaskHolds(t, c)
    requires forall p :: 0 <= p < |s.log.pushes| ==> MayHavePushed(t.tasks[s.log.pushes[p].call].phase)
    ensures EvidenceHolds(t)
  {
    forall p | 0 <= p < |t.log.pushes| ensures PushHolds(t, t.log.pushes[p]) { PushLater(s, t, s.log.pushes[p]); }
    forall k | k in t.cache ensures CacheEntryHolds(t, k, t.cache[k]) { CacheEntryLater(s, t, k, s.cache[k]); }
  }

  /** A step of the session task of `c` that neither pushes nor records. */
  lemma PlainTaskStep(s: State, c: nat, t: State)
    requires EvidenceHolds(s) && Grew(s, t)
    requires t.calls == s.calls && t.log.pushes == s.log.pushes && t.cache == s.cache
    requires c in s.tasks && c in t.tasks && t.tasks == s.tasks[c := t.tasks[c]]
    requires TaskHolds(t, c)
    requires MayHavePushed(s.tasks[c].phase) ==> MayHavePushed(t.tasks[c].phase)
    ensures EvidenceHolds(t)
  {
    forall d | d in t.tasks ensures TaskHolds(t, d) { if d != c { TaskLater(s, t, d); } }
    OutsideStep(s, t);
  }

  /** The session of `c` moves on, and what it has seen stays seen. */
  lemma TaskGrew(s: State, c: nat, t: State)
    requires t.now == s.now && t.calls == s.calls && c in s.tasks && c in t.tasks && t.tasks == s.tasks[c := t.tasks[c]]
    requires t.tasks[c].facts == s.tasks[c].facts
    requires s.tasks[c].verdict.Some? ==> t.tasks[c].verdict == s.tasks[c].verdict
    requires s.tasks[c].hitAt.Some? ==> t.tasks[c].hitAt == s.tasks[c].hitAt
    requires s.tasks[c].recordedAt.Some? ==> t.tasks[c].recordedAt == s.tasks[c].recordedAt
    ensures Grew(s, t)
  {
  }

  lemma PollTask(s: State, c: nat, t: State)
    requires TaskHolds(s, c) && s.tasks[c].phase.Fresh? && t == WithPhase(s, c, Polled(s.tasks[c].facts))
    ensures TaskHolds(t, c)
  {
  }

  lemma PollStep(s: State, e: Event)
    requires EvidenceHolds(s) && e.Poll? && Next(s, e).Some?
    ensures Grew(s, Next(s, e).value) && EvidenceHolds(Next(s, e).value)
  {
    hide TaskHolds, Grew, Polled;
    var t := Next(s, e).value;
    PollTask(s, e.c, t);
    TaskGrew(s, e.c, t);
    PlainTaskStep(s, e.c, t);
  }

  /** A hit in the cache is a hit on exactly this action and key. */
  lemma CacheHit(s: State, c: nat)
    requires EvidenceHolds(s) && c in s.calls && c in s.tasks
    requires Grants.Fresh(s.cache, RememberCache.Key(s.calls[c].action, s.tasks[c].facts.keyCmd),
      s.tasks[c].facts.rememberSecs, s.now)
    ensures var k := RememberCache.Key(s.calls[c].action, s.tasks[c].facts.keyCmd);
      && k in s.cache && s.cache[k] <= s.now < s.cache[k] + Grants.Window(s.tasks[c].facts.rememberSecs)
      && exists r :: Recorded(s, r, s.calls[c].action, s.tasks[c].facts.keyCmd, s.cache[k])
  {
    var action, command := s.calls[c].action, s.tasks[c].facts.keyCmd;
    var k := RememberCache.Key(action, command);
    assert CacheEntryHolds(s, k, s.cache[k]);
    var r :| r in s.calls && r in s.tasks
      && Recorded(s, r, s.calls[r].action, s.tasks[r].facts.keyCmd, s.cache[k])
      && RememberCache.Key(s.calls[r].action, s.tasks[r].facts.keyCmd) == k;
    Grants.FirstField(s.calls[r].action, s.tasks[r].facts.keyCmd, action, command);
    assert Recorded(s, r, action, command, s.cache[k]);
  }

  lemma AtTheCache(s: State, c: nat)
    requires TaskHolds(s, c) && s.tasks[c].phase.CheckingCache?
    ensures AskedFirst(s, c) && s.tasks[c].facts.rememberSecs > 0
    ensures s.tasks[c].verdict.None? && s.tasks[c].hitAt.None? && s.tasks[c].recordedAt.None?
  {
  }

  lemma LookupHit(s: State, c: nat, t: State)
    requires EvidenceHolds(s) && AtPhase(s, c, CheckingCache)
    requires Grants.Fresh(s.cache, RememberCache.Key(s.calls[c].action, s.tasks[c].facts.keyCmd),
               s.tasks[c].facts.rememberSecs, s.now)
    requires t == s.(tasks := s.tasks[c := s.tasks[c].(phase := Pushing(ByCache), hitAt := Some(s.now))])
    ensures Grew(s, t) && EvidenceHolds(t)
  {
    hide TaskHolds, Grew, HitHolds, Recorded, Grants.Fresh, RememberCache.Key;
    AtTheCache(s, c);
    TaskGrew(s, c, t);
    CacheHit(s, c);
    HitIsRecorded(s, c, t, s.cache[RememberCache.Key(s.calls[c].action, s.tasks[c].facts.keyCmd)]);
    HitIsEvidence(t, c);
    PlainTaskStep(s, c, t);
  }

  lemma HitIsRecorded(s: State, c: nat, t: State, at: nat)
    requires c in s.calls && c in s.tasks && Grew(s, t) && t.calls == s.calls
    requires c in t.tasks && t.tasks[c].hitAt == Some(s.now) && s.tasks[c].facts.rememberSecs > 0
    requires at <= s.now < at + Grants.Window(s.tasks[c].facts.rememberSecs)
    requires exists r :: Recorded(s, r, s.calls[c].action, s.tasks[c].facts.keyCmd, at)
    ensures HitHolds(t, c)
  {
    var r :| Recorded(s, r, s.calls[c].action, s.tasks[c].facts.keyCmd, at);
    assert HitFrom(t, c, r, at);
  }

  lemma HitIsEvidence(s: State, c: nat)
    requires c in s.calls && c in s.tasks && AskedFirst(s, c) && HitHolds(s, c)
    requires s.tasks[c].phase == Pushing(ByCache) && s.tasks[c].recordedAt.None? && s.tasks[c].verdict.None?
    ensures TaskHolds(s, c)
  {
  }

  lemma LookupMiss(s: State, c: nat, t: State)
    requires EvidenceHolds(s) && AtPhase(s, c, CheckingCache) && t == WithPhase(s, c, InDialog)
    ensures Grew(s, t) && EvidenceHolds(t)
  {
    assert TaskHolds(s, c);
    PlainTaskStep(s, c, t);
  }

  lemma LookupStep(s: State, e: Event)
    requires EvidenceHolds(s) && e.Lookup? && Next(s, e).Some?
    ensures Grew(s, Next(s, e).value) && EvidenceHolds(Next(s, e).value)
  {
    var f := s.tasks[e.c].facts;
    if Grants.Fresh(s.cache, RememberCache.Key(s.calls[e.c].action, f.keyCmd), f.rememberSecs, s.now) {
      LookupHit(s, e.c, Next(s, e).value);
    } else {
      LookupMiss(s, e.c, Next(s, e).value);
    }
  }

  lemma VerdictTask(s: State, c: nat, v: Option<VerdictWire.Verdict>, t: State)
    requires TaskHolds(s, c) && s.tasks[c].phase.InDialog?
    requires t == s.(tasks := s.tasks[c := s.tasks[c].(phase := Decided(s.tasks[c].facts, v), verdict := v)])
    ensures TaskHolds(t, c) && s.tasks[c].verdict.None?
  {
  }

  lemma VerdictStep(s: State, e: Event)
    requires EvidenceHolds(s) && e.Verdict? && Next(s, e).Some?
    ensures Grew(s, Next(s, e).value) && EvidenceHolds(Next(s, e).value)
  {
    hide TaskHolds, Grew, Decided;
    var t := Next(s, e).value;
    VerdictTask(s, e.c, e.verdict, t);
    TaskGrew(s, e.c, t);
    PlainTaskStep(s, e.c, t);
  }

  lemma RememberStep(s: State, e: Event)
    requires EvidenceHolds(s) && e.Remember? && Next(s, e).Some?
    ensures Grew(s, Next(s, e).value) && EvidenceHolds(Next(s, e).value)
  {
    var t := Next(s, e).value;
    var u := t.(cache := s.cache);
    RecordedTask(s, e.c, u);
    GrantCached(u, e.c, t);
  }

  /** The session notes that its ALLOW REMEMBER is being recorded. */
  lemma RecordedTask(s: State, c: nat, u: State)
    requires EvidenceHolds(s) && AtPhase(s, c, Recording)
    requires u == s.(tasks := s.tasks[c := s.tasks[c].(phase := Pushing(ByDialog), recordedAt := Some(s.now))])
    ensures Grew(s, u) && EvidenceHolds(u) && Recorded(u, c, u.calls[c].action, u.tasks[c].facts.keyCmd, u.now)
  {
    assert TaskHolds(s, c);
    assert TaskHolds(u, c);
    PlainTaskStep(s, c, u);
  }

  /** And the cache takes it. */
  lemma GrantCached(u: State, c: nat, t: State)
    requires EvidenceHolds(u) && c in u.calls && c in u.tasks && NUL !in u.calls[c].action
    requires Recorded(u, c, u.calls[c].action, u.tasks[c].facts.keyCmd, u.now)
    requires t == u.(cache := Grants.Record(u.cache, RememberCache.Key(u.calls[c].action, u.tasks[c].facts.keyCmd),
      u.now))
    ensures Grew(u, t) && EvidenceHolds(t)
  {
    var key := RememberCache.Key(u.calls[c].action, u.tasks[c].facts.keyCmd);
    assert Recorded(t, c, t.calls[c].action, t.tasks[c].facts.keyCmd, u.now);
    forall k | k in t.cache ensures CacheEntryHolds(t, k, t.cache[k]) {
      if k != key { CacheEntryLater(u, t, k, u.cache[k]); }
    }
    CacheIsApart(u, t);
  }

  /** Everything but the cache entries themselves is independent of the cache. */
  lemma CacheIsApart(s: State, t: State)
    requires EvidenceHolds(s) && t == s.(cache := t.cache)
    requires forall k :: k in t.cache ==> CacheEntryHolds(t, k, t.cache[k])
    ensures EvidenceHolds(t)
  {
    assert Grew(s, t);
    forall c | c in t.tasks ensures TaskHolds(t, c) { TaskLater(s, t, c); }
    forall p | 0 <= p < |t.log.pushes| ensures PushHolds(t, t.log.pushes[p]) { PushLater(s, t, s.log.pushes[p]); }
  }

  /** The push, short of its record. */
  function Unrecorded(s: State, c: nat, why: Why): State
    requires c in s.calls && c in s.tasks
  {
    var t := Approved(s, c, why);
    t.(log := t.log.(pushes := s.log.pushes))
  }

  lemma PushedTask(s: State, c: nat, why: Why)
    requires EvidenceHolds(s) && c in s.calls && c in s.tasks && s.tasks[c].phase == Pushing(why)
    ensures var u := Unrecorded(s, c, why);
      && Grew(s, u) && EvidenceHolds(u) && Evidence(u, c, why)
      && forall p :: 0 <= p < |s.log.pushes| ==> s.log.pushes[p].call != c
  {
    var u := Unrecorded(s, c, why);
    assert TaskHolds(s, c);
    forall p | 0 <= p < |s.log.pushes| ensures s.log.pushes[p].call != c { assert PushHolds(s, s.log.pushes[p]); }
    TaskGrew(s, c, u);
    PushedTaskHolds(s, c, u);
    PlainTaskStep(s, c, u);
    EvidenceLater(s, u, c, why);
  }

  lemma PushedTaskHolds(s: State, c: nat, u: State)
    requires TaskHolds(s, c) && s.tasks[c].phase.Pushing? && u.calls == s.calls && u.now == s.now && c in u.tasks
    requires u.tasks[c] == s.tasks[c].(phase := HandingOff)
    ensures TaskHolds(u, c)
  {
  }

  lemma PushStep(s: State, e: Event)
    requires EvidenceHolds(s) && e.Push? && Next(s, e).Some?
    ensures Grew(s, Next(s, e).value) && EvidenceHolds(Next(s, e).value)
  {
    hide EvidenceHolds, Evidence, TaskHolds;
    var c, why := e.c, s.tasks[e.c].phase.why;
    PushedTask(s, c, why);
    PushAppended(Unrecorded(s, c, why), PushRecord(c, s.calls[c].action, s.now, why), Next(s, e).value);
  }

  lemma PushAppended(s: State, p: PushRecord, t: State)
    requires EvidenceHolds(s) && PushHolds(s, p) && t == s.(log := s.log.(pushes := s.log.pushes + [p]))
    requires forall q :: 0 <= q < |s.log.pushes| ==> s.log.pushes[q].call != p.call
    ensures EvidenceHolds(t)
  {
    assert Grew(s, t);
    forall c | c in t.tasks ensures TaskHolds(t, c) { TaskLater(s, t, c); }
    forall q | 0 <= q < |t.log.pushes| ensures PushHolds(t, t.log.pushes[q]) { PushLater(s, t, t.log.pushes[q]); }
    forall k | k in t.cache ensures CacheEntryHolds(t, k, t.cache[k]) { CacheEntryLater(s, t, k, s.cache[k]); }
  }

  /** Once a session has pushed, only its phase moves. */
  lemma LatePhase(s: State, c: nat, t: State)
    requires EvidenceHolds(s) && c in s.calls && c in s.tasks && c in t.tasks
    requires MayHavePushed(s.tasks[c].phase) && MayHavePushed(t.tasks[c].phase)
    requires t.calls == s.calls && t.log.pushes == s.log.pushes && t.cache == s.cache && t.now == s.now
    requires t.tasks == s.tasks[c := s.tasks[c].(phase := t.tasks[c].phase)]
    ensures Grew(s, t) && EvidenceHolds(t)
  {
    assert TaskHolds(s, c);
    PlainTaskStep(s, c, t);
  }

  lemma LateTaskStep(s: State, e: Event)
    requires EvidenceHolds(s) && (e.Handoff? || e.Drain? || e.Reap?) && Next(s, e).Some?
    ensures Grew(s, Next(s, e).value) && EvidenceHolds(Next(s, e).value)
  {
    LateTaskFrame(s, e);
    LatePhase(s, e.c, Next(s, e).value);
  }

  lemma LateTaskFrame(s: State, e: Event)
    requires (e.Handoff? || e.Drain? || e.Reap?) && Next(s, e).Some?
    ensures var t := Next(s, e).value;
      && e.c in s.calls && e.c in s.tasks && e.c in t.tasks
      && MayHavePushed(s.tasks[e.c].phase) && MayHavePushed(t.tasks[e.c].phase)
      && t.calls == s.calls && t.log.pushes == s.log.pushes && t.cache == s.cache && t.now == s.now
      && t.tasks == s.tasks[e.c := s.tasks[e.c].(phase := t.tasks[e.c].phase)]
  {
  }

  /** Some sessions have been told to abort, and nothing else has happened to what the evidence speaks of. */
  ghost predicate OnlyAborts(s: State, t: State) {
    && t.now == s.now && t.calls == s.calls && t.log.pushes == s.log.pushes && t.cache == s.cache
    && t.tasks.Keys == s.tasks.Keys
    && (forall c :: c in s.tasks ==> t.tasks[c] == s.tasks[c] || t.tasks[c] == s.tasks[c].(phase := Aborted))
  }

  lemma AbortShape(s: State, e: Event)
    requires e.CancelAbort? && Next(s, e).Some?
    ensures OnlyAborts(s, Next(s, e).value)
  {
  }

  lemma AbortedTask(s: State, t: State, c: nat)
    requires Grew(s, t) && TaskHolds(s, c) && c in t.tasks
    requires t.tasks[c] == s.tasks[c] || t.tasks[c] == s.tasks[c].(phase := Aborted)
    ensures TaskHolds(t, c)
  {
    if t.tasks[c] == s.tasks[c] { TaskLater(s, t, c); }
  }

  lemma AbortsKeepEvidence(s: State, t: State)
    requires EvidenceHolds(s) && OnlyAborts(s, t)
    ensures Grew(s, t) && EvidenceHolds(t)
  {
    hide TaskHolds, Evidence;
    assert Grew(s, t);
    forall c | c in t.tasks ensures TaskHolds(t, c) { AbortedTask(s, t, c); }
    forall p | 0 <= p < |s.log.pushes|
      ensures s.log.pushes[p].call in t.tasks && MayHavePushed(t.tasks[s.log.pushes[p].call].phase)
    {
      PusherIsKnown(s, p);
    }
    OutsideStep(s, t);
  }

  lemma PusherIsKnown(s: State, p: nat)
    requires EvidenceHolds(s) && p < |s.log.pushes|
    ensures s.log.pushes[p].call in s.tasks && MayHavePushed(s.tasks[s.log.pushes[p].call].phase)
  {
    assert PushHolds(s, s.log.pushes[p]);
  }

  lemma AbortStep(s: State, e: Event)
    requires EvidenceHolds(s) && e.CancelAbort? && Next(s, e).Some?
    ensures Grew(s, Next(s, e).value) && EvidenceHolds(Next(s, e).value)
  {
    hide Next, EvidenceHolds, Grew;
    AbortShape(s, e);
    AbortsKeepEvidence(s, Next(s, e).value);
  }

  /** Steps of calls, clock, takes and drains. */
  lemma OtherStep(s: State, e: Event)
    requires Structure(s) && EvidenceHolds(s) && Next(s, e).Some? && !OfTask(e) && !e.CancelAbort?
    ensures Grew(s, Next(s, e).value) && EvidenceHolds(Next(s, e).value)
  {
    var t := Next(s, e).value;
    OtherStepFrame(s, e);
    forall c | c in t.tasks ensures TaskHolds(t, c) {
      if c in s.tasks { TaskLater(s, t, c); }
    }
    forall p | 0 <= p < |s.log.pushes| ensures MayHavePushed(t.tasks[s.log.pushes[p].call].phase) {
      assert PushHolds(s, s.log.pushes[p]);
    }
    OutsideStep(s, t);
  }

  /** What those steps leave alone; a task they add is fresh. */
  ghost predicate Outside(s: State, t: State) {
    && Grew(s, t) && t.log.pushes == s.log.pushes && t.cache == s.cache
    && (forall c :: c in t.calls ==> NUL !in t.calls[c].action)
    && (forall c :: c in s.tasks ==> t.tasks[c] == s.tasks[c])
    && (forall c :: c in t.tasks && c !in s.tasks ==>
          c in t.calls && t.tasks[c].phase == Fresh && t.tasks[c].verdict.None? && t.tasks[c].hitAt.None?
            && t.tasks[c].recordedAt.None?)
  }

  lemma OtherStepFrame(s: State, e: Event)
    requires Structure(s) && Next(s, e).Some? && !OfTask(e) && !e.CancelAbort?
    requires forall c :: c in s.calls ==> NUL !in s.calls[c].action
    ensures Outside(s, Next(s, e).value)
  {
    match e {
      case Begin(_, _, _) => EarlyFrame(s, e);
      case Acquire(_) => EarlyFrame(s, e);
      case Reject(_) => EarlyFrame(s, e);
      case Lock(_) => EarlyFrame(s, e);
      case Spawn(_, _, _) => SpawnFrame(s, e);
      case Insert(_) => InsertFrame(s, e);
      case SeeDone(_) => FinishFrame(s, e);
      case Cleanup(_) => FinishFrame(s, e);
      case _ => QuietFrame(s, e);
    }
  }

  lemma EarlyFrame(s: State, e: Event)
    requires Next(s, e).Some? && (e.Begin? || e.Acquire? || e.Reject? || e.Lock?)
    requires forall c :: c in s.calls ==> NUL !in s.calls[c].action
    ensures Outside(s, Next(s, e).value)
  {
  }

  lemma SpawnFrame(s: State, e: Event)
    requires Structure(s) && Next(s, e).Some? && e.Spawn?
    requires forall c :: c in s.calls ==> NUL !in s.calls[c].action
    ensures Outside(s, Next(s, e).value)
  {
    hide Structure, NewTask;
    UnspawnedHasNoTask(s, e);
    NewTaskHasNoMarks(s.calls[e.c].action, e.cfg, e.details);
  }

  lemma NewTaskHasNoMarks(action: string, cfg: ServiceConfig, details: AgentDetails)
    ensures var t := NewTask(action, cfg, details);
      t.phase == Fresh && t.verdict.None? && t.hitAt.None? && t.recordedAt.None?
  {
    hide SubjectOf, FactsOf;
  }

  lemma InsertFrame(s: State, e: Event)
    requires Next(s, e).Some? && e.Insert?
    requires forall c :: c in s.calls ==> NUL !in s.calls[c].action
    ensures Outside(s, Next(s, e).value)
  {
  }

  lemma FinishFrame(s: State, e: Event)
    requires Next(s, e).Some? && (e.SeeDone? || e.Cleanup?)
    requires forall c :: c in s.calls ==> NUL !in s.calls[c].action
    ensures Outside(s, Next(s, e).value)
  {
  }

  lemma QuietFrame(s: State, e: Event)
    requires Next(s, e).Some? && (e.Tick? || e.TakeApproval? || e.CancelDrain?)
    requires forall c :: c in s.calls ==> NUL !in s.calls[c].action
    ensures Outside(s, Next(s, e).value)
  {
    SameIsOutside(s, Next(s, e).value);
  }

  lemma SameIsOutside(s: State, t: State)
    requires t.calls == s.calls && t.tasks == s.tasks && t.cache == s.cache && t.log.pushes == s.log.pushes
      && s.now <= t.now
    requires forall c :: c in s.calls ==> NUL !in s.calls[c].action
    ensures Outside(s, t)
  {
  }

  lemma NextKeepsEvidence(s: State, e: Event)
    requires Structure(s) && EvidenceHolds(s) && Next(s, e).Some?
    ensures Grew(s, Next(s, e).value) && EvidenceHolds(Next(s, e).value)
  {
    hide Next, Structure, EvidenceHolds, Grew;
    if OfTask(e) {
      TaskStepKeepsEvidence(s, e);
    } else if e.CancelAbort? {
      AbortStep(s, e);
    } else {
      OtherStep(s, e);
    }
  }

  lemma TaskStepKeepsEvidence(s: State, e: Event)
    requires EvidenceHolds(s) && Next(s, e).Some? && OfTask(e)
    ensures Grew(s, Next(s, e).value) && EvidenceHolds(Next(s, e).value)
  {
    hide Next, EvidenceHolds, Grew;
    match e {
      case Poll(_) => PollStep(s, e);
      case Lookup(_) => LookupStep(s, e);
      case Verdict(_, _) => VerdictStep(s, e);
      case Remember(_) => RememberStep(s, e);
      case Push(_) => PushStep(s, e);
      case _ => LateTaskStep(s, e);
    }
  }

  lemma InitiallyClean()
    ensures QueueHolds(INITIAL) && EvidenceHolds(INITIAL)
  {
  }

  lemma {:induction false} RunKeepsHistory(es: seq<Event>)
    requires Run(es).Some?
    ensures QueueHolds(Run(es).value) && EvidenceHolds(Run(es).value)
  {
    hide Next, Structure, QueueHolds, EvidenceHolds;
    InitiallyClean();
    if es != [] {
      var before := es[..|es| - 1];
      RunKeepsHistory(before);
      RunKeepsStructure(before);
      NextKeepsQueue(Run(before).value, es[|es| - 1]);
      NextKeepsEvidence(Run(before).value, es[|es| - 1]);
    }
  }

  // ---- the results

  /** The push each true `TakeApproval` answered, in the order of the answers. */
  ghost function Answered(s: State): seq<nat> {
    seq(|s.log.takes|, j requires 0 <= j < |s.log.takes| => s.log.takes[j].push)
  }

  /**
   In every interleaving, the true replies to `TakeApproval` go one to one and in
   order to earlier pushes, each less than a second old when it was taken.
   */
  lemma TakesAnswerPushes(es: seq<Event>)
    requires Run(es).Some?
    ensures var s := Run(es).value;
      && Increasing(Answered(s))
      && forall j :: 0 <= j < |s.log.takes| ==>
           && Answered(s)[j] < |s.log.pushes| && s.log.takes[j].action == s.log.pushes[Answered(s)[j]].action
           && s.log.pushes[Answered(s)[j]].at <= s.log.takes[j].at < s.log.pushes[Answered(s)[j]].at + 1_000_000_000
  {
    hide Run, Next, EvidenceHolds;
    RunKeepsHistory(es);
    var s := Run(es).value;
    forall j | 0 <= j < |s.log.takes| ensures TakeHolds(s, s.log.takes[j]) {}
  }

  /**
   Every push was made by a session that saw policy Allow, or ALLOW from its own
   dialog, or a fresh cache hit: a grant that another ALLOW REMEMBER recorded for the
   same action and key command less than min(remember_seconds, 900 s) earlier, both
   commands being eligible. No session pushes twice.
   */
  lemma EveryPushWasAllowed(es: seq<Event>, p: nat)
    requires Run(es).Some? && p < |Run(es).value.log.pushes|
    ensures var s := Run(es).value; var c := s.log.pushes[p].call;
      && Evidence(s, c, s.log.pushes[p].why) && s.log.pushes[p].action == s.calls[c].action
      && s.tasks[c].facts.decision != Policy.Deny
      && forall q :: 0 <= q < |s.log.pushes| && q != p ==> s.log.pushes[q].call != c
  {
    hide Run, Next, QueueHolds;
    RunKeepsHistory(es);
    var s := Run(es).value;
    assert PushHolds(s, s.log.pushes[p]);
  }

  /** Every session acts on the facts its own inputs give. */
  ghost predicate FactsHold(s: State) {
    forall c :: c in s.tasks ==> c in s.calls && s.tasks[c].facts == FactsOf(s.tasks[c].inputs, s.calls[c].action)
  }

  lemma NextKeepsFacts(s: State, e: Event)
    requires FactsHold(s) && Next(s, e).Some?
    ensures FactsHold(Next(s, e).value)
  {
    hide Next, FactsHold;
    if OfTask(e) {
      TaskKeepsFacts(s, e);
    } else if e.Spawn? {
      SpawnKeepsFacts(s, e);
    } else if OfCall(e) {
      CallKeepsFacts(s, e);
    } else {
      OutsideKeepsFacts(s, e);
    }
  }

  lemma TaskKeepsFacts(s: State, e: Event)
    requires FactsHold(s) && Next(s, e).Some? && OfTask(e)
    ensures FactsHold(Next(s, e).value)
  {
    hide Next;
    TaskEventsMoveOnlyTheTask(s, e);
    MovedKeepsFacts(s, e.c, Next(s, e).value);
  }

  lemma MovedKeepsFacts(s: State, c: nat, t: State)
    requires FactsHold(s) && MovesOnlyTask(s, c, t)
    ensures FactsHold(t)
  {
    hide FactsOf;
  }

  lemma CallKeepsFacts(s: State, e: Event)
    requires FactsHold(s) && Next(s, e).Some? && OfCall(e) && !OfTask(e) && !e.Spawn?
    ensures FactsHold(Next(s, e).value)
  {
    hide Next, FactsOf;
    StageAdvances(s, e);
  }

  lemma SpawnKeepsFacts(s: State, e: Event)
    requires FactsHold(s) && Next(s, e).Some? && e.Spawn?
    ensures FactsHold(Next(s, e).value)
  {
    hide SubjectOf, FactsOf;
  }

  lemma OutsideKeepsFacts(s: State, e: Event)
    requires FactsHold(s) && Next(s, e).Some? && !OfCall(e)
    ensures FactsHold(Next(s, e).value)
  {
    hide SubjectOf, FactsOf;
  }

  lemma InitiallyWithoutTasks()
    ensures FactsHold(INITIAL)
  {
  }

  lemma {:induction false} RunKeepsFacts(es: seq<Event>)
    requires Run(es).Some?
    ensures FactsHold(Run(es).value)
  {
    hide Next, FactsHold;
    InitiallyWithoutTasks();
    if es != [] {
      RunKeepsFacts(es[..|es| - 1]);
      NextKeepsFacts(Run(es[..|es| - 1]).value, es[|es| - 1]);
    }
  }

  /** The dialog of this session is up, has failed, or has answered. */
  predicate WasShown(t: Task) {
    t.phase.InDialog? || t.phase == Ended(DialogFailed) || t.verdict.Some?
  }

  /**
   The user is asked only where the policy leaves it open and no grant was found; recording takes an ALLOW
   REMEMBER.
   */
  lemma AskedOnlyWhenOpen(es: seq<Event>, c: nat)
    requires Run(es).Some? && c in Run(es).value.tasks && WasShown(Run(es).value.tasks[c])
    ensures var t := Run(es).value.tasks[c];
      && t.facts.decision == Policy.Ask && t.hitAt.None?
      && (t.recordedAt.Some? ==>
            t.verdict == Some(VerdictWire.Verdict(VerdictWire.Allow, true)) && t.facts.rememberSecs > 0)
  {
    hide Run, Next, QueueHolds;
    RunKeepsHistory(es);
    assert TaskHolds(Run(es).value, c);
  }

  /** Sessions ended by policy, by the user, by the clock or without a verdict never push. */
  lemma DeniedSessionsNeverPush(es: seq<Event>, c: nat)
    requires Run(es).Some? && c in Run(es).value.tasks && Run(es).value.tasks[c].phase.Ended?
    requires !MayHavePushed(Run(es).value.tasks[c].phase)
    ensures var s := Run(es).value;
      && (forall p :: 0 <= p < |s.log.pushes| ==> s.log.pushes[p].call != c)
      && var exit := s.tasks[c].phase.exit;
        (exit == PolicyDenied || exit == UserDenied || exit == TimedOut || exit == DialogFailed)
  {
    hide Run, Next, QueueHolds;
    RunKeepsHistory(es);
    var s := Run(es).value;
    forall p | 0 <= p < |s.log.pushes| ensures s.log.pushes[p].call != c { assert PushHolds(s, s.log.pushes[p]); }
  }
}
