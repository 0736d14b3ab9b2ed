/** Both ends of one broker connection: the daemon's handler and the PAM module's client. */
module BrokerServer {
  import opened Common
  import opened BrokerProto
  import opened BrokerStore
  import Grants

  /** The two message codecs in use on a connection. */
  datatype Wire = Wire(requests: Codec<Request>, responses: Codec<Response>)

  function AnswerTo(req: Request, m: Grants.Store, now: nat): Response {
    match req
    case Ping => Pong(PROTOCOL_VERSION)
    case CheckRemember(key, ttl) => Remember(key.Bind().Some? && Grants.Fresh(m, KeyStr(key), ttl, now))
    case RecordRemember(key) => if key.Bind().Some? then Recorded else Error("unbindable key")
  }

  function StoreAfter(req: Request, m: Grants.Store, now: nat): Grants.Store {
    if req.RecordRemember? && req.grant.Bind().Some? then Grants.Record(m, KeyStr(req.grant), now) else m
  }

  /** The one place where a key off the wire is turned away or let through to the store. */
  method Dispatch(req: Request, store: RememberStore, now: nat) returns (resp: Response)
    requires store.Valid() && store.last <= now
    modifies store
    ensures store.Valid() && store.last <= now
    ensures resp == AnswerTo(req, old(store.inner), now)
    ensures store.inner == StoreAfter(req, old(store.inner), now)
    ensures store.history == old(store.history) +
      if resp == Recorded then [Grants.Grant(req.grant, now)] else []
  {
    match req {
      case Ping => resp := Pong(PROTOCOL_VERSION);
      case CheckRemember(key, ttl) =>
        var bound := key.Bind();
        if bound.None? { return Remember(false); }
        var granted := store.IsFresh(bound.value, ttl, now);
        resp := Remember(granted);
      case RecordRemember(key) =>
        var bound := key.Bind();
        if bound.None? { return Error("unbindable key"); }
        store.Record(bound.value, now);
        resp := Recorded;
    }
  }

  /**
   What was just recorded is granted for exactly the capped window, to exactly the bindable keys, whatever the
   store held.
   */
  lemma RecordThenCheck(key: RememberKey, ttlSecs: u32, m: Grants.Store, now: nat, later: nat)
    requires now <= later
    ensures AnswerTo(CheckRemember(key, ttlSecs), StoreAfter(RecordRemember(key), m, now), later) ==
      Remember(key.IsBindable() && later - now < Min(ttlSecs as nat * 1_000_000_000, 900_000_000_000))
    ensures AnswerTo(RecordRemember(key), m, now) == Recorded <==> key.IsBindable()
  {
  }

  /** Questions leave the store alone, and so does a recording under a key without login, session or command. */
  lemma OnlyBoundRecordingsAreKept(req: Request, m: Grants.Store, now: nat)
    ensures req.Ping? || req.CheckRemember? ==> StoreAfter(req, m, now) == m
    ensures req.RecordRemember? ==>
      var k := req.grant;
      k.loginuid == U32_MAX || k.sessionid == U32_MAX || k.command == "" ==>
        StoreAfter(req, m, now) == m && AnswerTo(req, m, now).Error?
    ensures AnswerTo(Ping, m, now) == Pong(1)
  {
  }

  /** What one connection does to the store, given the peer and the bytes it sent. */
  function Served(w: Wire, peerIsRoot: bool, input: seq<byte>): Option<Request> {
    if peerIsRoot && Unframe(w.requests, input).result.Ok? then Some(Unframe(w.requests, input).result.value) else None
  }

  /** Peer check, one request, one response. Anything off drops the connection with the store untouched. */
  method Handle(w: Wire, peerIsRoot: bool, input: Stream, output: Stream, store: RememberStore, now: nat)
    requires store.Valid() && store.last <= now && input != output
    modifies input, output, store
    ensures store.Valid() && store.last <= now
    ensures var req := Served(w, peerIsRoot, old(input.pending));
      && store.inner == (if req.Some? then StoreAfter(req.value, old(store.inner), now) else old(store.inner))
      && output.pending == old(output.pending)
           + if req.Some? && Frame(w.responses, AnswerTo(req.value, old(store.inner), now)).Ok?
             then Frame(w.responses, AnswerTo(req.value, old(store.inner), now)).value else []
    ensures !peerIsRoot ==>
      && store.inner == old(store.inner) && store.history == old(store.history)
      && output.pending == old(output.pending) && input.pending == old(input.pending)
    ensures peerIsRoot && Unframe(w.requests, old(input.pending)).result.Ok? ==>
      store.inner == StoreAfter(Unframe(w.requests, old(input.pending)).result.value, old(store.inner), now)
  {
    if !peerIsRoot { return; }
    var req, _ := ReadFrame(w.requests, input);
    if req.Err? { return; }
    var resp := Dispatch(req.value, store, now);
    var _ := WriteFrame(w.responses, output, resp);
  }

  /** Only root is served, whatever the bytes. */
  lemma StrangersAreNotServed(w: Wire, input: seq<byte>)
    ensures Served(w, false, input).None?
  {
  }

  /** The client's half: `reply` is whatever the broker sent before the connection ended. */
  function ClientResult(w: Wire, reply: seq<byte>): Option<Response> {
    if Unframe(w.responses, reply).result.Ok? then Some(Unframe(w.responses, reply).result.value) else None
  }

  /** Only a whole `Remember(true)` frame is a yes; a cut one, or any other answer, is not. */
  lemma ClientFailsClosed(w: Wire, resp: Response, cut: nat)
    requires Lossless(w.responses) && Frame(w.responses, resp).Ok? && cut <= |Frame(w.responses, resp).value|
    ensures ClientResult(w, Frame(w.responses, resp).value[..cut]) ==
      if cut == |Frame(w.responses, resp).value| then Some(resp) else None
  {
    var f := Frame(w.responses, resp).value;
    if cut < |f| {
      CutFrameIsAnError(w.responses, resp, cut);
    } else {
      FrameReadsBack(w.responses, resp, []);
      assert f[..cut] == f + [];
    }
  }

  /** The broker acts only on a whole frame. */
  lemma BrokerActsOnWholeFrames(w: Wire, req: Request, cut: nat)
    requires Lossless(w.requests) && Frame(w.requests, req).Ok? && cut <= |Frame(w.requests, req).value|
    ensures Served(w, true, Frame(w.requests, req).value[..cut]) ==
      if cut == |Frame(w.requests, req).value| then Some(req) else None
  {
    var f := Frame(w.requests, req).value;
    if cut < |f| {
      CutFrameIsAnError(w.requests, req, cut);
    } else {
      FrameReadsBack(w.requests, req, []);
      assert f[..cut] == f + [];
    }
  }
}
