/** The wire contract between the PAM module and the remember broker. */
module BrokerProto {
  import opened Common

  const PROTOCOL_VERSION: nat := 1
  const MAX_FRAME_LEN: nat := 64 * 1024

  datatype RememberKey = RememberKey(loginuid: u32, sessionid: u32, service: string, command: string) {
    predicate IsBindable() {
      loginuid != U32_MAX && sessionid != U32_MAX && command != ""
    }

    function Bind(): Option<BoundKey> {
      if IsBindable() then Some(this) else None
    }
  }

  /** A key that passed `bind`, the only kind the store accepts. */
  type BoundKey = k: RememberKey | k.IsBindable() witness RememberKey(0, 0, "", "true")

  datatype Request = CheckRemember(key: RememberKey, ttlSecs: u32) | RecordRemember(grant: RememberKey) | Ping

  datatype Response = Remember(isFresh: bool) | Recorded | Pong(protocol: nat) | Error(message: string)

  // ---- framing

  /** The serializer, of which only its round trip matters; either direction may fail. */
  datatype Codec<!M> = Codec(encode: M -> Option<seq<byte>>, decode: seq<byte> -> Option<M>)

  ghost predicate Lossless<M(!new)>(c: Codec<M>) {
    forall m :: c.encode(m).Some? ==> c.decode(c.encode(m).value) == Some(m)
  }

  datatype ProtoError = TooLarge(size: nat) | EncodeError | DecodeError | IoError

  datatype Result<+T> = Ok(value: T) | Err(error: ProtoError)

  /** `u32::to_le_bytes` and back. */
  function ToLe(n: nat): (bs: seq<byte>)
    requires n < 0x1_0000_0000
    ensures |bs| == 4 && FromLe(bs) == n
    ensures bs[0] as nat == n % 256 && bs[3] as nat == n / 0x100_0000
  {
    var n1 := n / 256;
    var n2 := n1 / 256;
    var n3 := n2 / 256;
    [(n % 256) as byte, (n1 % 256) as byte, (n2 % 256) as byte, n3 as byte]
  }

  function FromLe(bs: seq<byte>): (n: nat)
    requires |bs| == 4
    ensures n < 0x1_0000_0000
  {
    bs[0] as nat + 256 * (bs[1] as nat + 256 * (bs[2] as nat + 256 * bs[3] as nat))
  }

  function Frame<M>(c: Codec<M>, m: M): Result<seq<byte>> {
    match c.encode(m)
    case None => Err(EncodeError)
    case Some(body) =>
      if |body| > MAX_FRAME_LEN then Err(TooLarge(|body|)) else Ok(ToLe(|body|) + body)
  }

  /** What a read yields, what it leaves unread, and the size of the body buffer it made. */
  datatype ReadOutcome<+M> = ReadOutcome(result: Result<M>, rest: seq<byte>, buffered: nat)

  function Unframe<M>(c: Codec<M>, input: seq<byte>): ReadOutcome<M> {
    if |input| < 4 then ReadOutcome(Err(IoError), [], 0)
    else
      var n := FromLe(input[..4]);
      if n > MAX_FRAME_LEN then ReadOutcome(Err(TooLarge(n)), input[4..], 0)
      else if |input| < 4 + n then ReadOutcome(Err(IoError), [], n)
      else
        match c.decode(input[4..4 + n])
        case None => ReadOutcome(Err(DecodeError), input[4 + n..], n)
        case Some(m) => ReadOutcome(Ok(m), input[4 + n..], n)
  }

  /** One direction of a connected socket: the bytes written and not yet read. */
  class Stream {
    var pending: seq<byte>

    constructor ()
      ensures pending == []
    {
      pending := [];
    }

    method WriteAll(bs: seq<byte>)
      modifies this
      ensures pending == old(pending) + bs
    {
      pending := pending + bs;
    }

    /** `read_exact` on a stream that has nothing more to come. */
    method ReadExact(n: nat) returns (r: Option<seq<byte>>)
      modifies this
      ensures r == if n <= |old(pending)| then Some(old(pending)[..n]) else None
      ensures pending == if n <= |old(pending)| then old(pending)[n..] else []
    {
      if n > |pending| {
        pending := [];
        return None;
      }
      r := Some(pending[..n]);
      pending := pending[n..];
    }
  }

  method WriteFrame<M>(c: Codec<M>, w: Stream, m: M) returns (r: Result<()>)
    modifies w
    ensures Frame(c, m).Err? ==> r == Err(Frame(c, m).error) && w.pending == old(w.pending)
    ensures Frame(c, m).Ok? ==> r == Ok(()) && w.pending == old(w.pending) + Frame(c, m).value
  {
    match c.encode(m) {
      case None => return Err(EncodeError);
      case Some(body) =>
        if |body| > MAX_FRAME_LEN { return Err(TooLarge(|body|)); }
        w.WriteAll(ToLe(|body|));
        w.WriteAll(body);
        r := Ok(());
    }
  }

  method ReadFrame<M>(c: Codec<M>, r: Stream) returns (result: Result<M>, buffered: nat)
    modifies r
    ensures ReadOutcome(result, r.pending, buffered) == Unframe(c, old(r.pending))
  {
    buffered := 0;
    var lenBuf := r.ReadExact(4);
    if lenBuf.None? { return Err(IoError), 0; }
    var n := FromLe(lenBuf.value);
    if n > MAX_FRAME_LEN { return Err(TooLarge(n)), 0; }
    buffered := n;
    assert 4 + n <= |old(r.pending)| ==>
        && old(r.pending)[4..][..n] == old(r.pending)[4..4 + n]
        && old(r.pending)[4..][n..] == old(r.pending)[4 + n..];
    var body := r.ReadExact(n);
    if body.None? { return Err(IoError), n; }
    var decoded := c.decode(body.value);
    result := if decoded.Some? then Ok(decoded.value) else Err(DecodeError);
  }

  /** Reading a frame with anything after it gives the message and leaves exactly what followed. */
  lemma FrameReadsBack<M(!new)>(c: Codec<M>, m: M, tail: seq<byte>)
    requires Lossless(c) && Frame(c, m).Ok?
    ensures var o := Unframe(c, Frame(c, m).value + tail);
      o.result == Ok(m) && o.rest == tail && o.buffered <= 65536
  {
    var body := c.encode(m).value;
    var input := Frame(c, m).value + tail;
    assert input[..4] == ToLe(|body|);
    assert input[4..4 + |body|] == body && input[4 + |body|..] == tail;
  }

  /** A frame cut anywhere is an error, and so is any longer-than-allowed length, before a body buffer exists. */
  lemma CutFrameIsAnError<M(!new)>(c: Codec<M>, m: M, cut: nat)
    requires Frame(c, m).Ok? && cut < |Frame(c, m).value|
    ensures Unframe(c, Frame(c, m).value[..cut]).result == Err(IoError)
  {
    var f := Frame(c, m).value;
    if cut >= 4 {
      assert f[..cut][..4] == ToLe(|c.encode(m).value|);
    }
  }

  /** A message makes a frame if and only if it can be encoded in at most 64 KiB. */
  lemma FramedExactlyWhen<M>(c: Codec<M>, m: M)
    ensures Frame(c, m).Ok? <==> c.encode(m).Some? && |c.encode(m).value| <= 65536
  {
  }

  lemma OverlongHeaderIsRefused<M>(c: Codec<M>, n: nat, tail: seq<byte>)
    requires 65536 < n < 0x1_0000_0000
    ensures Unframe(c, ToLe(n) + tail) == ReadOutcome(Err(TooLarge(n)), tail, 0)
  {
    assert (ToLe(n) + tail)[..4] == ToLe(n) && (ToLe(n) + tail)[4..] == tail;
  }

  function Frames<M>(c: Codec<M>, ms: seq<M>): seq<byte>
    requires forall i :: 0 <= i < |ms| ==> Frame(c, ms[i]).Ok?
  {
    if ms == [] then [] else Frame(c, ms[0]).value + Frames(c, ms[1..])
  }

  lemma FramesFrom<M>(c: Codec<M>, ms: seq<M>, k: nat)
    requires k < |ms| && forall i :: 0 <= i < |ms| ==> Frame(c, ms[i]).Ok?
    ensures Frames(c, ms[k..]) == Frame(c, ms[k]).value + Frames(c, ms[k + 1..])
  {
    hide Frame;
    assert ms[k..][1..] == ms[k + 1..];
  }

  method WriteAllFrames<M>(c: Codec<M>, w: Stream, ms: seq<M>)
    requires forall i :: 0 <= i < |ms| ==> Frame(c, ms[i]).Ok?
    modifies w
    ensures w.pending == old(w.pending) + Frames(c, ms)
  {
    hide Frame, Frames;
    assert ms[0..] == ms;
    for k := 0 to |ms|
      invariant w.pending + Frames(c, ms[k..]) == old(w.pending) + Frames(c, ms)
    {
      var r := WriteFrame(c, w, ms[k]);
      FramesFrom(c, ms, k);
    }
    NoFrames(c, ms[|ms|..]);
  }

  lemma NoFrames<M>(c: Codec<M>, ms: seq<M>)
    requires ms == []
    ensures Frames(c, ms) == []
  {
  }

  datatype ReadMany<+M> = ReadMany(read: seq<M>, rest: seq<byte>)

  /** `n` reads in a row, None as soon as one fails. */
  function UnframeMany<M>(c: Codec<M>, input: seq<byte>, n: nat): Option<ReadMany<M>>
    decreases n
  {
    if n == 0 then Some(ReadMany([], input))
    else
      var o := Unframe(c, input);
      if o.result.Err? then None
      else match UnframeMany(c, o.rest, n - 1)
        case None => None
        case Some(more) => Some(ReadMany([o.result.value] + more.read, more.rest))
  }

  /** Any list of messages, written and read back frame by frame, with any bytes behind it. */
  lemma {:induction false} FramesReadBack<M(!new)>(c: Codec<M>, ms: seq<M>, tail: seq<byte>)
    requires Lossless(c) && forall i :: 0 <= i < |ms| ==> Frame(c, ms[i]).Ok?
    ensures UnframeMany(c, Frames(c, ms) + tail, |ms|) == Some(ReadMany(ms, tail))
  {
    if ms == [] {
      assert Frames(c, ms) + tail == tail;
    } else {
      var rest := Frames(c, ms[1..]) + tail;
      assert Frames(c, ms) + tail == Frame(c, ms[0]).value + rest;
      FrameReadsBack(c, ms[0], rest);
      FramesReadBack(c, ms[1..], tail);
      assert [ms[0]] + ms[1..] == ms;
    }
  }
}
