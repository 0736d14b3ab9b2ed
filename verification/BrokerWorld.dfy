/**
 Many PAM processes, one broker, and nothing reliable between them: any connection
 may fail at any byte, any answer may come too late, the broker may restart at any
 moment and forget everything.
 */
module BrokerWorld {
  import opened Common
  import opened BrokerProto
  import opened BrokerStore
  import opened BrokerServer
  import opened PamAuth
  import opened Config
  import Policy
  import Grants
  import VerdictWire

  datatype Phase =
    | Asking                                    // CheckRemember on its way, or its answer
    | Dialog                                    // the confirmation dialog is up
    | Recording                                 // RecordRemember on its way
    | Finished(rc: PamResult, source: Source)

  /** One `sm_authenticate`: what it got out of the broker's answer, and what its dialog returned, once it has. */
  datatype Proc = Proc(
    call: Call, bypass: bool, started: nat, phase: Phase, conn: Option<nat>, answer: Option<Response>,
    verdict: Option<DialogResult>)

  /** A connection: the bytes that reached the broker, and once handled the reply and the instant. */
  datatype Conn = Conn(owner: nat, request: Request, input: seq<byte>, reply: Option<Reply>)
  datatype Reply = Reply(bytes: seq<byte>, at: nat)

  /** A recording the broker made, and the process whose dialog asked for it. */
  datatype Granted = Granted(key: RememberKey, at: nat, pid: nat)

  /** `grants` is the history over all restarts; the broker itself has only `store`. */
  datatype World = World(
    now: nat, store: Grants.Store, procs: map<nat, Proc>, conns: map<nat, Conn>, grants: seq<Granted>)

  datatype Event =
    | Tick(step: nat)
    | Start(pid: nat, call: Call, bypass: bool)
    | Connect(pid: nat, cid: nat, arrives: nat)   // the shim writes its frame, `arrives` bytes get through
    | Handle(cid: nat)
    | Answer(pid: nat, arrives: nat)              // the shim reads, `arrives` bytes of the reply got through
    | GiveUp(pid: nat)                            // no connection, or the shim's I/O timeout
    | DialogDone(pid: nat, result: DialogResult)
    | Restart
    | Stranger(input: seq<byte>)                  // a peer that is not root

  const INITIAL := World(0, map[], map[], map[], [])

  /** What the shim of `p` is to send in its present phase. */
  function Outgoing(p: Proc): Option<Request> {
    match p.phase
    case Asking => CheckOf(p.call)
    case Recording => if p.verdict.Some? then RecordOf(p.call, p.verdict.value) else None
    case _ => None
  }

  /** Where the shim goes with the outcome of its round trip. */
  function Resumed(p: Proc, answer: Option<Response>): Proc {
    match p.phase
    case Asking =>
      if answer == Some(Remember(true))
      then p.(phase := Finished(PAM_SUCCESS, ByRemember), conn := None, answer := answer)
      else p.(phase := Dialog, conn := None, answer := answer)
    case Recording =>
      p.(phase := Finished(if p.verdict.Some? then DialogOutcome(p.verdict.value) else PAM_AUTH_ERR, ByDialog),
        conn := None)
    case _ => p
  }

  /** One step, None when the event cannot happen now. */
  function Next(w: Wire, s: World, e: Event): Option<World> {
    match e
    case Tick(d) => Some(s.(now := s.now + d))
    case Start(pid, call, bypass) =>
      // PAM hands the service name over as a C string
      if pid in s.procs || NUL in call.service then None
      else
        var phase := match Immediate(call, bypass)
          case Some(t) => Finished(t.rc, t.source)
          case None => if CheckOf(call).Some? then Asking else Dialog;
        Some(s.(procs := s.procs[pid := Proc(call, bypass, s.now, phase, None, None, None)]))
    case Connect(pid, cid, arrives) =>
      if pid !in s.procs || cid in s.conns || s.procs[pid].conn.Some? || Outgoing(s.procs[pid]).None? then None
      else
        var req := Outgoing(s.procs[pid]).value;
        var f := Frame(w.requests, req);
        if f.Err? || arrives > |f.value| then None
        else Some(s.(procs := s.procs[pid := s.procs[pid].(conn := Some(cid))],
                     conns := s.conns[cid := Conn(pid, req, f.value[..arrives], None)]))
    case Handle(cid) =>
      if cid !in s.conns || s.conns[cid].reply.Some? then None
      else
        var c := s.conns[cid];
        (match Served(w, true, c.input)
        case None => Some(s.(conns := s.conns - {cid}))
        case Some(req) =>
          var resp := Frame(w.responses, AnswerTo(req, s.store, s.now));
          Some(s.(store := StoreAfter(req, s.store, s.now),
                  grants := if req.RecordRemember? && req.grant.Bind().Some?
                            then s.grants + [Granted(req.grant, s.now, c.owner)] else s.grants,
                  conns := s.conns[cid := c.(reply := Some(Reply(if resp.Ok? then resp.value else [], s.now)))])))
    case Answer(pid, arrives) =>
      if pid !in s.procs || s.procs[pid].conn.None? then None
      else
        var p := s.procs[pid];
        if p.conn.value !in s.conns || s.conns[p.conn.value].owner != pid || s.conns[p.conn.value].reply.None? then None
        else
          var bytes := s.conns[p.conn.value].reply.value.bytes;
          if arrives > |bytes| then None
          else Some(s.(procs := s.procs[pid := Resumed(p, ClientResult(w, bytes[..arrives]))]))
    case GiveUp(pid) =>
      if pid !in s.procs || !(s.procs[pid].phase.Asking? || s.procs[pid].phase.Recording?) then None
      else Some(s.(procs := s.procs[pid := Resumed(s.procs[pid], None)]))
    case DialogDone(pid, result) =>
      if pid !in s.procs || !s.procs[pid].phase.Dialog? then None
      else
        var p := s.procs[pid].(verdict := Some(result));
        Some(s.(procs := s.procs[pid :=
          if RecordOf(p.call, result).Some? then p.(phase := Recording)
          else p.(phase := Finished(DialogOutcome(result), ByDialog))]))
    case Restart => Some(s.(store := map[], conns := map[]))
    case Stranger(input) =>
      (match Served(w, false, input)
       case None => Some(s)
       case Some(req) => Some(s.(store := StoreAfter(req, s.store, s.now))))
  }

  function Run(w: Wire, es: seq<Event>): Option<World> {
    if es == [] then Some(INITIAL)
    else match Run(w, es[..|es| - 1])
      case None => None
      case Some(s) => Next(w, s, es[|es| - 1])
  }

  // ---- what every reachable world keeps

  /** `pid` is an authentication whose dialog returned ALLOW REMEMBER for exactly this key. */
  ghost predicate OptedIn(s: World, pid: nat, key: RememberKey) {
    && pid in s.procs
    && s.procs[pid].verdict == Some(Some(VerdictWire.Verdict(VerdictWire.Allow, true)))
    && KeyOf(s.procs[pid].call) == Some(key)
  }

  /** At `at` the broker held a grant for `key` that was younger than the capped window, and it was opted into. */
  ghost predicate Justified(s: World, key: RememberKey, ttlSecs: u32, at: nat) {
    exists i :: 0 <= i < |s.grants| && Covers(s, s.grants[i], key, ttlSecs, at)
  }

  ghost predicate Covers(s: World, g: Granted, key: RememberKey, ttlSecs: u32, at: nat) {
    && g.key == key && g.at <= at < g.at + Grants.Window(ttlSecs)
    && OptedIn(s, g.pid, key)
  }

  ghost predicate GrantsHold(s: World) {
    forall i :: 0 <= i < |s.grants| ==>
      && s.grants[i].at <= s.now && NUL !in s.grants[i].key.service
      && OptedIn(s, s.grants[i].pid, s.grants[i].key)
  }

  ghost predicate StoreHolds(s: World) {
    forall k :: k in s.store ==>
      exists i :: 0 <= i < |s.grants| && KeyStr(s.grants[i].key) == k && s.grants[i].at == s.store[k]
  }

  /** The request on a connection is one its owner really makes. */
  ghost predicate RequestHolds(s: World, owner: nat, req: Request) {
    && owner in s.procs
    && (req.CheckRemember? ==> CheckOf(s.procs[owner].call) == Some(req))
    && (req.RecordRemember? ==> OptedIn(s, owner, req.grant))
    && !req.Ping?
  }

  ghost predicate ConnHolds(w: Wire, s: World, c: Conn) {
    && RequestHolds(s, c.owner, c.request)
    && Frame(w.requests, c.request).Ok? && c.input <= Frame(w.requests, c.request).value
    && (c.reply.Some? ==>
          ReplyHolds(w, s, c.request, c.reply.value) && s.procs[c.owner].started <= c.reply.value.at)
  }

  /** A reply is a whole frame of an answer, and a yes is justified at the instant it was given. */
  ghost predicate ReplyHolds(w: Wire, s: World, req: Request, r: Reply) {
    && r.at <= s.now
    && (r.bytes == [] || exists resp :: ReplyIs(w, s, req, r, resp))
  }

  ghost predicate ReplyIs(w: Wire, s: World, req: Request, r: Reply, resp: Response) {
    && Frame(w.responses, resp) == Result.Ok(r.bytes)
    && (resp == Remember(true) ==> req.CheckRemember? && Justified(s, req.key, req.ttlSecs, r.at))
  }

  ghost predicate ProcHolds(s: World, p: Proc) {
    && NUL !in p.call.service
    && (p.phase.Asking? ==> CheckOf(p.call).Some?)
    && (p.phase.Asking? || p.phase.Dialog? ==> p.verdict.None?)
    && (p.phase.Recording? ==> p.verdict.Some? && RecordOf(p.call, p.verdict.value).Some?)
    && (p.phase.Finished? && p.phase.source == ByRemember ==>
          p.verdict.None? && CheckOf(p.call).Some? && YesHolds(s, CheckOf(p.call).value, p.started))
    && p.started <= s.now
  }

  /** The broker's yes to this question was given since then, and justified when it was given. */
  ghost predicate YesHolds(s: World, req: Request, since: nat) {
    req.CheckRemember? && exists at: nat :: since <= at <= s.now && Justified(s, req.key, req.ttlSecs, at)
  }

  ghost predicate Inv(w: Wire, s: World) {
    && GrantsHold(s) && StoreHolds(s)
    && (forall cid :: cid in s.conns ==> ConnHolds(w, s, s.conns[cid]))
    && (forall pid :: pid in s.procs ==> ProcHolds(s, s.procs[pid]))
  }

  /** Later worlds: time passed, grants were only added, no call changed and no verdict was taken back. */
  ghost predicate Grew(s: World, t: World) {
    && s.now <= t.now && s.grants <= t.grants
    && forall pid :: pid in s.procs ==>
         && pid in t.procs && t.procs[pid].call == s.procs[pid].call && t.procs[pid].started == s.procs[pid].started
         && (s.procs[pid].verdict.Some? ==> t.procs[pid].verdict == s.procs[pid].verdict)
  }

  lemma JustifiedLater(s: World, t: World, key: RememberKey, ttlSecs: u32, at: nat)
    requires Grew(s, t) && Justified(s, key, ttlSecs, at)
    ensures Justified(t, key, ttlSecs, at)
  {
    var i :| 0 <= i < |s.grants| && Covers(s, s.grants[i], key, ttlSecs, at);
    assert t.grants[i] == s.grants[i];
    assert Covers(t, t.grants[i], key, ttlSecs, at);
  }

  lemma ConnLater(w: Wire, s: World, t: World, c: Conn)
    requires Grew(s, t) && ConnHolds(w, s, c)
    ensures ConnHolds(w, t, c)
  {
    if c.reply.Some? && c.reply.value.bytes != [] {
      var resp :| ReplyIs(w, s, c.request, c.reply.value, resp);
      if resp == Remember(true) {
        JustifiedLater(s, t, c.request.key, c.request.ttlSecs, c.reply.value.at);
      }
      assert ReplyIs(w, t, c.request, c.reply.value, resp);
    }
  }

  lemma ProcLater(s: World, t: World, p: Proc)
    requires Grew(s, t) && ProcHolds(s, p)
    ensures ProcHolds(t, p)
  {
    if p.phase.Finished? && p.phase.source == ByRemember {
      YesLater(s, t, CheckOf(p.call).value, p.started);
    }
  }

  lemma YesLater(s: World, t: World, req: Request, since: nat)
    requires Grew(s, t) && YesHolds(s, req, since)
    ensures YesHolds(t, req, since)
  {
    var at: nat :| since <= at <= s.now && Justified(s, req.key, req.ttlSecs, at);
    JustifiedLater(s, t, req.key, req.ttlSecs, at);
  }

  lemma GrantsLater(s: World, t: World)
    requires Grew(s, t) && GrantsHold(s)
    ensures forall i :: 0 <= i < |s.grants| ==>
      t.grants[i].at <= t.now && NUL !in t.grants[i].key.service && OptedIn(t, t.grants[i].pid, t.grants[i].key)
  {
    forall i | 0 <= i < |s.grants| ensures OptedIn(t, t.grants[i].pid, t.grants[i].key) {
      assert t.grants[i] == s.grants[i];
    }
  }

  lemma ConnsLater(w: Wire, s: World, t: World)
    requires Grew(s, t) && forall cid :: cid in s.conns ==> ConnHolds(w, s, s.conns[cid])
    ensures forall cid :: cid in s.conns ==> ConnHolds(w, t, s.conns[cid])
  {
    forall cid | cid in s.conns ensures ConnHolds(w, t, s.conns[cid]) { ConnLater(w, s, t, s.conns[cid]); }
  }

  lemma ProcsLater(s: World, t: World)
    requires Grew(s, t) && forall pid :: pid in s.procs ==> ProcHolds(s, s.procs[pid])
    ensures forall pid :: pid in s.procs ==> ProcHolds(t, s.procs[pid])
  {
    forall pid | pid in s.procs ensures ProcHolds(t, s.procs[pid]) { ProcLater(s, t, s.procs[pid]); }
  }

  /** A fresh map entry means a young, opted-into grant of exactly the key asked about. */
  lemma FreshIsJustified(s: World, key: RememberKey, ttlSecs: u32)
    requires GrantsHold(s) && StoreHolds(s) && NUL !in key.service
    requires Grants.Fresh(s.store, KeyStr(key), ttlSecs, s.now)
    ensures Justified(s, key, ttlSecs, s.now)
  {
    var i :| 0 <= i < |s.grants| && KeyStr(s.grants[i].key) == KeyStr(key) && s.grants[i].at == s.store[KeyStr(key)];
    KeyStrInjective(s.grants[i].key, key);
    assert Covers(s, s.grants[i], key, ttlSecs, s.now);
  }

  /** A peer that is not root changes nothing, in any world and with any bytes. */
  lemma StrangersChangeNothing(w: Wire, s: World, input: seq<byte>)
    ensures Next(w, s, Stranger(input)) == Some(s)
  {
    StrangersAreNotServed(w, input);
  }

  /** Steps that neither serve a request nor move a process. */
  lemma QuietStep(w: Wire, s: World, e: Event)
    requires Inv(w, s) && (e.Tick? || e.Restart?) && Next(w, s, e).Some?
    ensures Inv(w, Next(w, s, e).value) && Grew(s, Next(w, s, e).value)
  {
    var t := Next(w, s, e).value;
    forall cid | cid in t.conns ensures ConnHolds(w, t, t.conns[cid]) { ConnLater(w, s, t, t.conns[cid]); }
    forall pid | pid in t.procs ensures ProcHolds(t, t.procs[pid]) { ProcLater(s, t, t.procs[pid]); }
    GrantsLater(s, t);
  }

  lemma StrangerStep(w: Wire, s: World, e: Event)
    requires Inv(w, s) && e.Stranger?
    ensures Next(w, s, e) == Some(s) && Grew(s, s)
  {
    hide Next, Inv;
    StrangersChangeNothing(w, s, e.input);
  }

  /** Steps of one process; the rest of the world only watches. */
  lemma ProcStep(w: Wire, s: World, pid: nat, p: Proc)
    requires Inv(w, s)
    requires pid in s.procs ==>
      && p.call == s.procs[pid].call && p.started == s.procs[pid].started
      && (s.procs[pid].verdict.Some? ==> p.verdict == s.procs[pid].verdict)
    requires ProcHolds(s.(procs := s.procs[pid := p]), p)
    ensures Inv(w, s.(procs := s.procs[pid := p])) && Grew(s, s.(procs := s.procs[pid := p]))
  {
    hide ProcHolds, ConnHolds, StoreHolds;
    var t := s.(procs := s.procs[pid := p]);
    assert Grew(s, t);
    ProcsLater(s, t);
    ConnsLater(w, s, t);
    GrantsLater(s, t);
    StoreUnmoved(s, t);
  }

  lemma StoreUnmoved(s: World, t: World)
    requires StoreHolds(s) && t.store == s.store && t.grants == s.grants
    ensures StoreHolds(t)
  {
  }

  /** What a process sends is about its own key, and a grant only after an opt-in. */
  lemma OutgoingHolds(s: World, pid: nat)
    requires pid in s.procs && ProcHolds(s, s.procs[pid]) && Outgoing(s.procs[pid]).Some?
    ensures RequestHolds(s, pid, Outgoing(s.procs[pid]).value)
  {
    var p := s.procs[pid];
    if p.phase.Asking? {
      CheckOfIs(p.call);
    } else {
      RecordOfIs(p.call, p.verdict.value);
    }
  }

  /** A new connection, whose request its owner really makes. */
  lemma NewConn(w: Wire, s: World, cid: nat, c: Conn)
    requires Inv(w, s) && cid !in s.conns && ConnHolds(w, s, c)
    ensures Inv(w, s.(conns := s.conns[cid := c])) && Grew(s, s.(conns := s.conns[cid := c]))
  {
    var t := s.(conns := s.conns[cid := c]);
    assert Grew(s, t);
    GrantsUnmoved(s, t);
    ProcsLater(s, t);
    ConnsLater(w, s, t);
    ConnLater(w, s, t, c);
  }

  /** Grants and store are no matter of connections. */
  lemma GrantsUnmoved(s: World, t: World)
    requires GrantsHold(s) && StoreHolds(s) && t == s.(conns := t.conns)
    ensures GrantsHold(t) && StoreHolds(t)
  {
  }

  lemma ConnectStep(w: Wire, s: World, e: Event)
    requires Inv(w, s) && e.Connect? && Next(w, s, e).Some?
    ensures Inv(w, Next(w, s, e).value) && Grew(s, Next(w, s, e).value)
  {
    hide KeyStr, KeyOf, Resumed, ClientResult, Served, StoreAfter, AnswerTo;
    var t := Next(w, s, e).value;
    var u := s.(procs := t.procs);
    OutgoingHolds(s, e.pid);
    ConnectedProc(s, e.pid, e.cid);
    ProcStep(w, s, e.pid, t.procs[e.pid]);
    NewConn(w, u, e.cid, t.conns[e.cid]);
  }

  lemma ConnectedProc(s: World, pid: nat, cid: nat)
    requires pid in s.procs && ProcHolds(s, s.procs[pid])
    ensures var p := s.procs[pid].(conn := Some(cid)); ProcHolds(s.(procs := s.procs[pid := p]), p)
  {
    var p := s.procs[pid].(conn := Some(cid));
    ProcLater(s, s.(procs := s.procs[pid := p]), s.procs[pid]);
  }

  /** A connection that brought no whole request is dropped. */
  lemma DropStep(w: Wire, s: World, cid: nat)
    requires Inv(w, s)
    ensures Inv(w, s.(conns := s.conns - {cid})) && Grew(s, s.(conns := s.conns - {cid}))
  {
    var t := s.(conns := s.conns - {cid});
    assert Grew(s, t);
    GrantsUnmoved(s, t);
    ProcsLater(s, t);
    ConnsLater(w, s, t);
  }

  /** The broker's step: one whole request, read off the bytes that arrived, is served. */
  lemma HandleStep(w: Wire, s: World, e: Event)
    requires Lossless(w.requests) && Inv(w, s) && e.Handle? && Next(w, s, e).Some?
    ensures Inv(w, Next(w, s, e).value) && Grew(s, Next(w, s, e).value)
  {
    var c := s.conns[e.cid];
    var f := Frame(w.requests, c.request).value;
    assert c.input == f[..|c.input|];
    BrokerActsOnWholeFrames(w, c.request, |c.input|);
    if Served(w, true, c.input).Some? {
      ServeStep(w, s, e);
    } else {
      DropStep(w, s, e.cid);
    }
  }

  lemma ServeStep(w: Wire, s: World, e: Event)
    requires Inv(w, s) && e.Handle? && Next(w, s, e).Some? && e.cid in s.conns
      && Served(w, true, s.conns[e.cid].input) == Some(s.conns[e.cid].request)
    ensures Inv(w, Next(w, s, e).value) && Grew(s, Next(w, s, e).value)
  {
    hide Next, StoreHolds, ConnHolds, ProcHolds;
    var t := Next(w, s, e).value;
    var c := s.conns[e.cid];
    ServedWorld(w, s, e);
    assert Grew(s, t);
    GrantsLater(s, t);
    OwnerHolds(w, s, c);
    ServedConn(w, s, t, c);
    ServedGrant(s, t, c);
    ServedStore(s, t, c.request);
    ConnsLater(w, s, t);
    ProcsLater(s, t);
  }

  /** The world after a request was served. */
  lemma ServedWorld(w: Wire, s: World, e: Event)
    requires e.Handle? && Next(w, s, e).Some? && e.cid in s.conns
    requires Served(w, true, s.conns[e.cid].input) == Some(s.conns[e.cid].request)
    ensures s.conns[e.cid].reply.None?
    ensures var c := s.conns[e.cid]; var req := c.request;
      var resp := Frame(w.responses, AnswerTo(req, s.store, s.now));
      Next(w, s, e).value == s.(
        store := StoreAfter(req, s.store, s.now),
        grants := if req.RecordRemember? && req.grant.Bind().Some?
                  then s.grants + [Granted(req.grant, s.now, c.owner)] else s.grants,
        conns := s.conns[e.cid := c.(reply := Some(Reply(if resp.Ok? then resp.value else [], s.now)))])
  {
    hide StoreAfter, AnswerTo;
  }

  lemma OwnerHolds(w: Wire, s: World, c: Conn)
    requires Inv(w, s) && ConnHolds(w, s, c)
    ensures c.owner in s.procs && NUL !in s.procs[c.owner].call.service && s.procs[c.owner].started <= s.now
    ensures c.request.RecordRemember? ==> OptedIn(s, c.owner, c.request.grant) && NUL !in c.request.grant.service
  {
    if c.request.RecordRemember? {
      assert ProcHolds(s, s.procs[c.owner]);
      KeyIsSound(s.procs[c.owner].call);
    }
  }

  /** What was recorded, if anything, was opted into. */
  lemma ServedGrant(s: World, t: World, c: Conn)
    requires GrantsHold(s) && Grew(s, t) && t.now == s.now
    requires c.request.RecordRemember? ==> OptedIn(s, c.owner, c.request.grant) && NUL !in c.request.grant.service
    requires t.grants == s.grants
      || (c.request.RecordRemember? && t.grants == s.grants + [Granted(c.request.grant, s.now, c.owner)])
    ensures GrantsHold(t)
  {
    GrantsLater(s, t);
  }

  lemma ServedConn(w: Wire, s: World, t: World, c: Conn)
    requires ConnHolds(w, s, c) && c.reply.None? && GrantsHold(s) && StoreHolds(s) && Grew(s, t) && t.now == s.now
    requires c.owner in s.procs && NUL !in s.procs[c.owner].call.service && s.procs[c.owner].started <= s.now
    ensures var resp := Frame(w.responses, AnswerTo(c.request, s.store, s.now));
      ConnHolds(w, t, c.(reply := Some(Reply(if resp.Ok? then resp.value else [], s.now))))
  {
    var answer := AnswerTo(c.request, s.store, s.now);
    var frame := Frame(w.responses, answer);
    var c' := c.(reply := Some(Reply(if frame.Ok? then frame.value else [], s.now)));
    ConnLater(w, s, t, c);
    if frame.Ok? {
      if answer == Remember(true) {
        KeyIsSound(s.procs[c.owner].call);
        FreshIsJustified(s, c.request.key, c.request.ttlSecs);
        JustifiedLater(s, t, c.request.key, c.request.ttlSecs, s.now);
      }
      assert ReplyIs(w, t, c'.request, c'.reply.value, answer);
    }
  }

  lemma ServedStore(s: World, t: World, req: Request)
    requires StoreHolds(s) && t.now == s.now && t.store == StoreAfter(req, s.store, s.now)
    requires s.grants <= t.grants
    requires t.store != s.store ==>
      && |t.grants| == |s.grants| + 1 && t.grants[|s.grants|].key == req.grant
      && t.grants[|s.grants|].at == s.now
    ensures StoreHolds(t)
  {
    forall k | k in t.store
      ensures exists i :: 0 <= i < |t.grants| && KeyStr(t.grants[i].key) == k && t.grants[i].at == t.store[k]
    {
      if k in s.store && t.store[k] == s.store[k] {
        var i :| 0 <= i < |s.grants| && KeyStr(s.grants[i].key) == k && s.grants[i].at == s.store[k];
        assert t.grants[i] == s.grants[i];
      } else {
        assert KeyStr(t.grants[|s.grants|].key) == k;
      }
    }
  }

  /** A yes that reaches a shim was justified when the broker gave it. */
  lemma YesIsJustified(w: Wire, s: World, c: Conn, arrives: nat)
    requires Lossless(w.responses) && ConnHolds(w, s, c) && c.reply.Some? && arrives <= |c.reply.value.bytes|
    requires ClientResult(w, c.reply.value.bytes[..arrives]) == Some(Remember(true))
    ensures c.owner in s.procs && YesHolds(s, c.request, s.procs[c.owner].started)
  {
    var bytes := c.reply.value.bytes;
    if bytes != [] {
      var resp :| ReplyIs(w, s, c.request, c.reply.value, resp);
      ClientFailsClosed(w, resp, arrives);
    }
  }

  lemma AnswerStep(w: Wire, s: World, e: Event)
    requires Lossless(w.responses) && Inv(w, s) && e.Answer? && Next(w, s, e).Some?
    ensures Inv(w, Next(w, s, e).value) && Grew(s, Next(w, s, e).value)
  {
    var p := s.procs[e.pid];
    var c := s.conns[p.conn.value];
    var answer := ClientResult(w, c.reply.value.bytes[..e.arrives]);
    if answer == Some(Remember(true)) {
      YesIsJustified(w, s, c, e.arrives);
    }
    ResumedHolds(s, e.pid, answer);
    ProcStep(w, s, e.pid, Resumed(p, answer));
  }

  /** Whatever the round trip brought, the process goes on soundly. */
  lemma ResumedHolds(s: World, pid: nat, answer: Option<Response>)
    requires pid in s.procs && ProcHolds(s, s.procs[pid])
    requires answer == Some(Remember(true)) && s.procs[pid].phase.Asking? ==>
      CheckOf(s.procs[pid].call).Some? && YesHolds(s, CheckOf(s.procs[pid].call).value, s.procs[pid].started)
    ensures var p := Resumed(s.procs[pid], answer); ProcHolds(s.(procs := s.procs[pid := p]), p)
  {
    var p := Resumed(s.procs[pid], answer);
    var t := s.(procs := s.procs[pid := p]);
    assert Grew(s, t);
    ProcLater(s, t, s.procs[pid]);
    if p.phase.Finished? && p.phase.source == ByRemember && s.procs[pid].phase.Asking? {
      YesLater(s, t, CheckOf(p.call).value, p.started);
    }
  }

  /** A process starts, gives up waiting, or hears from its dialog. */
  lemma LocalStep(w: Wire, s: World, e: Event)
    requires Inv(w, s) && (e.Start? || e.GiveUp? || e.DialogDone?) && Next(w, s, e).Some?
    ensures Inv(w, Next(w, s, e).value) && Grew(s, Next(w, s, e).value)
  {
    hide ConnHolds, GrantsHold, StoreHolds, Grew;
    if e.GiveUp? {
      ResumedHolds(s, e.pid, None);
    }
    ProcStep(w, s, e.pid, Next(w, s, e).value.procs[e.pid]);
  }

  lemma NextKeepsInv(w: Wire, s: World, e: Event)
    requires Lossless(w.requests) && Lossless(w.responses)
    requires Inv(w, s) && Next(w, s, e).Some?
    ensures Inv(w, Next(w, s, e).value) && Grew(s, Next(w, s, e).value)
  {
    hide Next, Inv, Grew, Lossless;
    match e {
      case Tick(_) => QuietStep(w, s, e);
      case Restart => QuietStep(w, s, e);
      case Stranger(_) => StrangerStep(w, s, e);
      case Connect(_, _, _) => ConnectStep(w, s, e);
      case Handle(_) => HandleStep(w, s, e);
      case Answer(_, _) => AnswerStep(w, s, e);
      case _ => LocalStep(w, s, e);
    }
  }

  lemma InitiallyQuiet(w: Wire)
    ensures Inv(w, INITIAL)
  {
  }

  lemma {:induction false} RunKeepsInv(w: Wire, es: seq<Event>)
    requires Lossless(w.requests) && Lossless(w.responses) && Run(w, es).Some?
    ensures Inv(w, Run(w, es).value)
  {
    hide Next, Inv, Lossless;
    InitiallyQuiet(w);
    if es != [] {
      RunKeepsInv(w, es[..|es| - 1]);
      NextKeepsInv(w, Run(w, es[..|es| - 1]).value, es[|es| - 1]);
    }
  }

  /**
   In every run, a success by a remembered grant goes back to another authentication
   whose dialog returned ALLOW REMEMBER for the same login, session, service and key
   command, both ids set. The broker recorded it, and said yes during this call, less
   than min(ttl, 900 s) later.
   */
  lemma RememberedMeansOptedIn(w: Wire, es: seq<Event>, pid: nat)
    requires Lossless(w.requests) && Lossless(w.responses) && Run(w, es).Some?
    requires var s := Run(w, es).value; pid in s.procs && s.procs[pid].phase == Finished(PAM_SUCCESS, ByRemember)
    ensures var s := Run(w, es).value;
      var call := s.procs[pid].call;
      && KeyOf(call).Some? && KeyOf(call).value.IsBindable()
      && exists i, at: nat :: GrantUsed(s, pid, KeyOf(call).value, i, at)
  {
    hide Run, Next;
    RunKeepsInv(w, es);
    var s := Run(w, es).value;
    var call := s.procs[pid].call;
    assert ProcHolds(s, s.procs[pid]);
    CheckOfIs(call);
    KeyIsSound(call);
    GrantOfYes(s, pid, CheckOf(call).value);
  }

  /**
   The `i`-th recording, for exactly this key and by another call's opt-in, was young when the broker said yes at
   `at`, during this call.
   */
  ghost predicate GrantUsed(s: World, pid: nat, key: RememberKey, i: nat, at: nat) {
    && i < |s.grants| && pid in s.procs && s.grants[i].pid != pid
    && s.procs[pid].started <= at <= s.now
    && s.grants[i].key == key && OptedIn(s, s.grants[i].pid, key)
    && s.grants[i].at <= at
    && at < s.grants[i].at + Min(s.procs[pid].call.cfg.rememberSeconds as nat * 1_000_000_000, 900_000_000_000)
  }

  lemma GrantOfYes(s: World, pid: nat, req: Request)
    requires pid in s.procs && s.procs[pid].verdict.None? && YesHolds(s, req, s.procs[pid].started)
    requires req.ttlSecs == s.procs[pid].call.cfg.rememberSeconds
    ensures exists i, at: nat :: GrantUsed(s, pid, req.key, i, at)
  {
    var at: nat :| s.procs[pid].started <= at <= s.now && Justified(s, req.key, req.ttlSecs, at);
    var i :| 0 <= i < |s.grants| && Covers(s, s.grants[i], req.key, req.ttlSecs, at);
    assert GrantUsed(s, pid, req.key, i, at);
  }

  // ---- every process does what `sm_authenticate` says

  /** The dialog's result as far as the call got. */
  function DialogSoFar(p: Proc): DialogResult {
    if p.verdict.Some? then p.verdict.value else None
  }

  /** Where a process stands, in terms of the whole call's decision. */
  ghost predicate Follows(p: Proc) {
    var whole := Authenticated(p.call, p.bypass, p.answer, DialogSoFar(p));
    match p.phase
    case Asking => Immediate(p.call, p.bypass).None? && CheckOf(p.call).Some? && p.verdict.None?
    case Dialog => whole.source == ByDialog && p.verdict.None?
    case Recording => whole.source == ByDialog && p.verdict.Some?
    case Finished(rc, source) => whole.rc == rc && whole.source == source
  }

  lemma ResumedFollows(p: Proc, answer: Option<Response>)
    requires Follows(p)
    ensures Follows(Resumed(p, answer))
  {
  }

  lemma StartFollows(w: Wire, s: World, e: Event)
    requires e.Start? && Next(w, s, e).Some? && e.pid in Next(w, s, e).value.procs
    ensures Follows(Next(w, s, e).value.procs[e.pid])
  {
    hide KeyOf;
  }

  lemma DialogFollows(w: Wire, s: World, e: Event)
    requires e.DialogDone? && e.pid in s.procs && Follows(s.procs[e.pid])
    requires Next(w, s, e).Some? && e.pid in Next(w, s, e).value.procs
    ensures Follows(Next(w, s, e).value.procs[e.pid])
  {
    hide KeyOf, Served, ClientResult, StoreAfter, AnswerTo, Resumed, PolicyDecision;
  }

  /** Which processes a step moves, and how. */
  lemma WhoMoves(w: Wire, s: World, e: Event, pid: nat)
    requires Next(w, s, e).Some? && pid in Next(w, s, e).value.procs
    ensures var t := Next(w, s, e).value;
      if (e.Start? || e.DialogDone?) && e.pid == pid then (e.DialogDone? ==> pid in s.procs)
      else
        && pid in s.procs
        && (|| t.procs[pid] == s.procs[pid]
            || (exists cid :: t.procs[pid] == s.procs[pid].(conn := Some(cid)))
            || (exists answer :: t.procs[pid] == Resumed(s.procs[pid], answer)))
  {
    hide Resumed, Immediate, CheckOf, Served, ClientResult, StoreAfter, AnswerTo;
  }

  lemma NextFollows(w: Wire, s: World, e: Event, pid: nat)
    requires forall q :: q in s.procs ==> Follows(s.procs[q])
    requires Next(w, s, e).Some? && pid in Next(w, s, e).value.procs
    ensures Follows(Next(w, s, e).value.procs[pid])
  {
    hide Next, Resumed, Authenticated, Immediate, CheckOf;
    WhoMoves(w, s, e, pid);
    var p := Next(w, s, e).value.procs[pid];
    if e.Start? && e.pid == pid {
      StartFollows(w, s, e);
    } else if e.DialogDone? && e.pid == pid {
      DialogFollows(w, s, e);
    } else if answer :| p == Resumed(s.procs[pid], answer) {
      ResumedFollows(s.procs[pid], answer);
    }
  }

  /**
   However connections fail, every finished call has the result and the reason that `sm_authenticate` gives for
   what reached it.
   */
  lemma {:induction false} ProcessesAuthenticate(w: Wire, es: seq<Event>, pid: nat)
    requires Run(w, es).Some? && pid in Run(w, es).value.procs
    ensures var p := Run(w, es).value.procs[pid];
      && Follows(p)
      && (p.phase.Finished? ==>
            var whole := Authenticated(p.call, p.bypass, p.answer, DialogSoFar(p));
            p.phase == Finished(whole.rc, whole.source))
  {
    hide Next, Authenticated;
    var before := Run(w, es[..|es| - 1]).value;
    forall q | q in before.procs ensures Follows(before.procs[q]) {
      ProcessesAuthenticate(w, es[..|es| - 1], q);
    }
    NextFollows(w, before, es[|es| - 1], pid);
  }

  /** Why a finished call may have succeeded. */
  ghost predicate HasReason(s: World, pid: nat)
    requires pid in s.procs
  {
    var p := s.procs[pid];
    var call := p.call;
    || p.bypass
    || (call.cfg.enabled && !call.hasDisplay && call.cfg.headlessAction == HeadlessAction.Allow)
    || (call.cfg.enabled && call.hasDisplay && PolicyDecision(call) == Policy.Allow)
    || (call.cfg.enabled && call.hasDisplay && PolicyDecision(call) == Policy.Ask &&
          (|| (DialogSoFar(p).Some? && DialogSoFar(p).value.outcome == VerdictWire.Allow)
           || (KeyOf(call).Some? && exists i, at: nat :: GrantUsed(s, pid, KeyOf(call).value, i, at))))
  }

  /**
   In every run, with messages lost and the broker restarting at will, every success has
   one of these reasons: the agent's approval, the administrator's headless or policy
   setting, an Allow from the call's own dialog, or a young grant that another call's
   ALLOW REMEMBER gave for the same key. A deny match never succeeds but by the agent's
   approval.
   */
  lemma EverySuccessHasAReason(w: Wire, es: seq<Event>, pid: nat)
    requires Lossless(w.requests) && Lossless(w.responses) && Run(w, es).Some? && pid in Run(w, es).value.procs
    requires Run(w, es).value.procs[pid].phase.Finished? && Run(w, es).value.procs[pid].phase.rc == PAM_SUCCESS
    ensures HasReason(Run(w, es).value, pid)
  {
    hide Run, Next, GrantUsed, KeyOf, PolicyDecision;
    var s := Run(w, es).value;
    var p := s.procs[pid];
    ProcessesAuthenticate(w, es, pid);
    if p.phase.source == ByRemember {
      RememberedMeansOptedIn(w, es, pid);
    }
  }

  // ---- that remembering works at all

  /** One undisturbed round trip of `pid`: every byte arrives, and the broker handles the request in between. */
  ghost predicate RoundTrip(w: Wire, s: World, pid: nat, cid: nat, t: World) {
    exists a, b, sent, got ::
      && Next(w, s, Connect(pid, cid, sent)) == Some(a) && Next(w, a, Handle(cid)) == Some(b)
      && Next(w, b, Answer(pid, got)) == Some(t)
  }

  /** A process about to send a request that fits in a frame, over a new connection. */
  ghost predicate Ready(w: Wire, s: World, pid: nat, cid: nat) {
    && pid in s.procs && s.procs[pid].conn.None? && cid !in s.conns
    && Outgoing(s.procs[pid]).Some? && Frame(w.requests, Outgoing(s.procs[pid]).value).Ok?
  }

  /** The request of a process is served, and the broker's answer is what it goes on with. */
  lemma RoundTripOf(w: Wire, s: World, pid: nat, cid: nat) returns (t: World)
    requires Lossless(w.requests) && Lossless(w.responses) && Ready(w, s, pid, cid)
    requires Frame(w.responses, AnswerTo(Outgoing(s.procs[pid]).value, s.store, s.now)).Ok?
    ensures RoundTrip(w, s, pid, cid, t)
    ensures var req := Outgoing(s.procs[pid]).value;
      && t.store == StoreAfter(req, s.store, s.now) && t.now == s.now && t.conns.Keys == s.conns.Keys + {cid}
      && t.procs == s.procs[pid := Resumed(s.procs[pid].(conn := Some(cid)), Some(AnswerTo(req, s.store, s.now)))]
  {
    hide Frame, StoreAfter, AnswerTo, Lossless, CheckOf, RecordOf, Unframe;
    var req := Outgoing(s.procs[pid]).value;
    var f, reply := Frame(w.requests, req).value, Frame(w.responses, AnswerTo(req, s.store, s.now)).value;
    assert f[..|f|] == f && reply[..|reply|] == reply;
    BrokerActsOnWholeFrames(w, req, |f|);
    ClientFailsClosed(w, AnswerTo(req, s.store, s.now), |reply|);
    var a := Next(w, s, Connect(pid, cid, |f|)).value;
    var b := Next(w, a, Handle(cid)).value;
    t := Next(w, b, Answer(pid, |reply|)).value;
    assert t.procs == s.procs[pid := Resumed(s.procs[pid].(conn := Some(cid)), Some(AnswerTo(req, s.store, s.now)))];
  }

  /** A grant of this key that still holds at `now`, for the shorter of the time asked for and 900 s. */
  predicate Holds(m: Grants.Store, key: RememberKey, ttlSecs: u32, now: nat) {
    && KeyStr(key) in m
    && m[KeyStr(key)] <= now < m[KeyStr(key)] + Min(ttlSecs as nat * 1_000_000_000, 900_000_000_000)
  }

  /** An opt-in that reaches the broker is kept, as of this instant, and the call succeeds. */
  lemma RecordingIsKept(w: Wire, s: World, pid: nat, cid: nat, key: RememberKey) returns (t: World)
    requires Lossless(w.requests) && Lossless(w.responses) && Frame(w.responses, Recorded).Ok?
    requires Ready(w, s, pid, cid) && s.procs[pid].phase.Recording? && OptedIn(s, pid, key)
    ensures RoundTrip(w, s, pid, cid, t) && KeyStr(key) in t.store && t.store[KeyStr(key)] == s.now == t.now
    ensures t.conns.Keys == s.conns.Keys + {cid} && t.procs.Keys == s.procs.Keys
    ensures t.procs[pid].phase == Finished(PAM_SUCCESS, ByDialog)
  {
    hide Frame, KeyOf, Next, KeyStr, RoundTrip;
    var p := s.procs[pid];
    RecordOfIs(p.call, p.verdict.value);
    KeyIsSound(p.call);
    t := RoundTripOf(w, s, pid, cid);
  }

  /** A call that asks while the broker holds a live grant of its key succeeds without a dialog. */
  lemma GrantIsHonoured(w: Wire, s: World, pid: nat, cid: nat, key: RememberKey) returns (t: World)
    requires Lossless(w.requests) && Lossless(w.responses) && Frame(w.responses, Remember(true)).Ok?
    requires Ready(w, s, pid, cid) && s.procs[pid].phase.Asking? && KeyOf(s.procs[pid].call) == Some(key)
    requires Holds(s.store, key, s.procs[pid].call.cfg.rememberSeconds, s.now)
    ensures RoundTrip(w, s, pid, cid, t) && pid in t.procs
    ensures t.procs[pid].phase == Finished(PAM_SUCCESS, ByRemember)
  {
    hide Frame, KeyOf, Next, KeyStr, RoundTrip;
    var call := s.procs[pid].call;
    CheckOfIs(call);
    KeyIsSound(call);
    Grants.FreshExactlyWhen(s.store, KeyStr(key), call.cfg.rememberSeconds, s.now);
    t := RoundTripOf(w, s, pid, cid);
  }

  /** A call that would ask the broker about this key. */
  ghost predicate WouldAsk(w: Wire, call: Call, key: RememberKey) {
    && call.cfg.enabled && call.hasDisplay && PolicyDecision(call) == Policy.Ask && NUL !in call.service
    && KeyOf(call) == Some(key) && Frame(w.requests, CheckRemember(key, call.cfg.rememberSeconds)).Ok?
  }

  /** A round trip of `first`, a while, the start of `second`, and a round trip that spares it the dialog. */
  ghost predicate Spares(
    w: Wire, s: World, first: nat, cid: nat, wait: nat, second: nat, call: Call, cid2: nat)
  {
    exists t, u, v ::
      && RoundTrip(w, s, first, cid, t) && second !in t.procs
      && Next(w, t.(now := t.now + wait), Start(second, call, false)) == Some(u)
      && RoundTrip(w, u, second, cid2, v)
      && second in v.procs && v.procs[second].phase == Finished(PAM_SUCCESS, ByRemember)
  }

  function Started(s: World, pid: nat, call: Call): World {
    s.(procs := s.procs[pid := Proc(call, false, s.now, Asking, None, None, None)])
  }

  /** Time passes, and a call that would ask starts. */
  lemma StartedIsReached(w: Wire, s: World, wait: nat, pid: nat, call: Call, key: RememberKey)
    requires pid !in s.procs && WouldAsk(w, call, key) && call.cfg.rememberSeconds > 0
    ensures var later := s.(now := s.now + wait);
      && Next(w, s, Event.Tick(wait)) == Some(later)
      && Next(w, later, Start(pid, call, false)) == Some(Started(later, pid, call))
    ensures CheckOf(call) == Some(CheckRemember(key, call.cfg.rememberSeconds))
  {
    hide KeyOf, PolicyDecision;
  }

  /**
   From an opt-in to its use: a call whose dialog returned ALLOW REMEMBER has its grant
   recorded, time passes, another call with the same key starts, and with no connection
   failing it succeeds without a dialog, as long as its own window and 900 s allow.
   */
  lemma RememberingWorks(
      w: Wire, s: World, key: RememberKey, first: nat, cid: nat, wait: nat, second: nat, call: Call, cid2: nat)
    requires Lossless(w.requests) && Lossless(w.responses)
    requires Frame(w.responses, Recorded).Ok? && Frame(w.responses, Remember(true)).Ok?
    requires Ready(w, s, first, cid) && s.procs[first].phase.Recording? && OptedIn(s, first, key)
    requires second !in s.procs && cid2 !in s.conns && cid2 != cid && WouldAsk(w, call, key)
    requires wait < Min(call.cfg.rememberSeconds as nat * 1_000_000_000, 900_000_000_000)
    ensures Spares(w, s, first, cid, wait, second, call, cid2)
  {
    hide Frame, KeyOf, KeyStr, PolicyDecision, RoundTrip, Lossless, CheckOf, RecordOf;
    var t := RecordingIsKept(w, s, first, cid, key);
    StartedIsReached(w, t, wait, second, call, key);
    var u := Started(t.(now := t.now + wait), second, call);
    var v := GrantIsHonoured(w, u, second, cid2, key);
  }
}
