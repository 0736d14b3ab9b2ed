/** The broker's remember store: grants under a flattened, NUL-separated key. */
module BrokerStore {
  import opened Common
  import opened BrokerProto
  import Grants

  // ---- keystr

  function Digit(d: nat): char
    requires d < 10
  {
    ('0' as int + d) as char
  }

  /** Decimal rendering, as `{}` of an integer. */
  function Dec(n: nat): string {
    if n < 10 then [Digit(n)] else Dec(n / 10) + [Digit(n % 10)]
  }

  function Value(s: string): int {
    if s == "" then 0 else 10 * Value(s[..|s| - 1]) + (s[|s| - 1] as int - '0' as int)
  }

  lemma {:induction false} DecReadsBack(n: nat)
    ensures Value(Dec(n)) == n
    ensures NUL !in Dec(n)
  {
    if n >= 10 {
      DecReadsBack(n / 10);
      assert Dec(n)[..|Dec(n)| - 1] == Dec(n / 10);
    } else {
      assert Dec(n)[..0] == "";
    }
  }

  function KeyStr(k: RememberKey): string {
    Dec(k.loginuid as nat) + [NUL] + (Dec(k.sessionid as nat) + [NUL] + (k.service + [NUL] + k.command))
  }

  lemma KeyStrIds(k1: RememberKey, k2: RememberKey)
    requires KeyStr(k1) == KeyStr(k2)
    ensures k1.loginuid == k2.loginuid && k1.sessionid == k2.sessionid
    ensures k1.service + [NUL] + k1.command == k2.service + [NUL] + k2.command
  {
    DecReadsBack(k1.loginuid as nat);
    DecReadsBack(k2.loginuid as nat);
    DecReadsBack(k1.sessionid as nat);
    DecReadsBack(k2.sessionid as nat);
    var tail1, tail2 := k1.service + [NUL] + k1.command, k2.service + [NUL] + k2.command;
    Grants.FirstField(Dec(k1.loginuid as nat), Dec(k1.sessionid as nat) + [NUL] + tail1,
               Dec(k2.loginuid as nat), Dec(k2.sessionid as nat) + [NUL] + tail2);
    Grants.FirstField(Dec(k1.sessionid as nat), tail1, Dec(k2.sessionid as nat), tail2);
  }

  /** Keys of NUL-free services never share a string; the command may hold anything. */
  lemma KeyStrInjective(k1: RememberKey, k2: RememberKey)
    requires NUL !in k1.service && NUL !in k2.service
    requires KeyStr(k1) == KeyStr(k2)
    ensures k1 == k2
  {
    KeyStrIds(k1, k2);
    Grants.FirstField(k1.service, k1.command, k2.service, k2.command);
  }

  /** Among all keys, exactly those without a NUL in service and command have a string of their own. */
  lemma KeyStrUnique(k: RememberKey)
    ensures (forall other :: KeyStr(other) == KeyStr(k) ==> other == k)
       <==> NUL !in k.service && NUL !in k.command
  {
    var tail := k.service + [NUL] + k.command;
    if NUL in k.service {
      var i :| 0 <= i < |k.service| && k.service[i] == NUL;
      var other := k.(service := k.service[..i], command := k.service[i + 1..] + [NUL] + k.command);
      assert other.service + [NUL] + other.command == tail;
      assert KeyStr(other) == KeyStr(k) && |other.service| < |k.service|;
    } else if NUL in k.command {
      var j :| 0 <= j < |k.command| && k.command[j] == NUL;
      var other := k.(service := k.service + [NUL] + k.command[..j], command := k.command[j + 1..]);
      assert other.service + [NUL] + other.command == tail;
      assert KeyStr(other) == KeyStr(k) && |other.service| > |k.service|;
    } else {
      forall other | KeyStr(other) == KeyStr(k) ensures other == k {
        KeyStrIds(other, k);
        assert (other.service + [NUL] + other.command)[|other.service|] == NUL;
        assert forall i :: 0 <= i < |k.service| ==> tail[i] == k.service[i];
        assert forall i :: |k.service| < i < |tail| ==> tail[i] == k.command[i - |k.service| - 1];
        assert other.service == tail[..|other.service|] && k.service == tail[..|k.service|];
        assert other.command == tail[|other.service| + 1..] && k.command == tail[|k.service| + 1..];
      }
    }
  }

  // ---- the store

  type History = seq<Grants.Grant<RememberKey>>

  ghost predicate Clean(h: History) {
    forall i :: 0 <= i < |h| ==> NUL !in h[i].key.service
  }

  /** On NUL-free services the flattened history answers like the history of keys. */
  lemma FlatAnswers(h: History, key: RememberKey, ttlSecs: u32, now: nat)
    requires Clean(h) && NUL !in key.service
    ensures Grants.HistoryFresh(Grants.Flat(h, KeyStr), KeyStr(key), ttlSecs, now)
      <==> Grants.HistoryFresh(h, key, ttlSecs, now)
  {
    forall i | 0 <= i < |h| && KeyStr(h[i].key) == KeyStr(key) ensures h[i].key == key {
      KeyStrInjective(h[i].key, key);
    }
    Grants.FlatAnswers(h, KeyStr, key, ttlSecs, now);
  }

  class RememberStore {
    var inner: Grants.Store
    /** Every recording ever made, and the instant of the last call. */
    ghost var history: History
    ghost var last: nat

    ghost predicate Valid()
      reads this
    {
      Grants.Agrees(inner, Grants.Flat(history, KeyStr), last)
    }

    constructor ()
      ensures Valid() && inner == map[] && history == []
    {
      inner, history, last := map[], [], 0;
    }

    method IsFresh(key: BoundKey, ttlSecs: u32, now: nat) returns (granted: bool)
      requires Valid() && last <= now
      ensures granted <==> Grants.Fresh(inner, KeyStr(key), ttlSecs, now)
      ensures Clean(history) && NUL !in key.service ==> (granted <==> Grants.HistoryFresh(history, key, ttlSecs, now))
    {
      granted := Grants.Fresh(inner, KeyStr(key), ttlSecs, now);
      Grants.AgreesLater(inner, Grants.Flat(history, KeyStr), last, now);
      Grants.SameAnswers(inner, Grants.Flat(history, KeyStr), KeyStr(key), ttlSecs, now);
      if Clean(history) && NUL !in key.service {
        FlatAnswers(history, key, ttlSecs, now);
      }
    }

    method Record(key: BoundKey, now: nat)
      requires Valid() && last <= now
      modifies this
      ensures Valid() && last == now
      ensures inner == Grants.Record(old(inner), KeyStr(key), now)
      ensures history == old(history) + [Grants.Grant(key, now)]
    {
      Grants.AgreesLater(inner, Grants.Flat(history, KeyStr), last, now);
      Grants.RecordAgrees(inner, Grants.Flat(history, KeyStr), KeyStr(key), now);
      inner := map k | k in inner && Grants.Elapsed(inner[k], now) < Grants.MAX_REMEMBER :: inner[k];
      inner := inner[KeyStr(key) := now];
      history := history + [Grants.Grant(key, now)];
      last := now;
      Grants.FlatSnoc(old(history), KeyStr, Grants.Grant(key, now));
    }
  }

  // ---- whole runs

  datatype Op = Granting(key: BoundKey) | Query(key: BoundKey, ttlSecs: u32) | Tick(step: nat)

  /** What the pruned, string-keyed map answers to the queries of a run. */
  function StoreAnswers(m: Grants.Store, now: nat, ops: seq<Op>): seq<bool>
    decreases |ops|
  {
    if ops == [] then []
    else match ops[0]
      case Granting(k) => StoreAnswers(Grants.Record(m, KeyStr(k), now), now, ops[1..])
      case Query(k, ttl) => [Grants.Fresh(m, KeyStr(k), ttl, now)] + StoreAnswers(m, now, ops[1..])
      case Tick(d) => StoreAnswers(m, now + d, ops[1..])
  }

  /** What the full history answers. */
  ghost function HistoryAnswers(h: History, now: nat, ops: seq<Op>): seq<bool>
    decreases |ops|
  {
    if ops == [] then []
    else match ops[0]
      case Granting(k) => HistoryAnswers(h + [Grants.Grant(k, now)], now, ops[1..])
      case Query(k, ttl) => [Grants.HistoryFresh(h, k, ttl, now)] + HistoryAnswers(h, now, ops[1..])
      case Tick(d) => HistoryAnswers(h, now + d, ops[1..])
  }

  predicate CleanOps(ops: seq<Op>) {
    forall i :: 0 <= i < |ops| && !ops[i].Tick? ==> NUL !in ops[i].key.service
  }

  /** Over every run of recordings, queries and passing time the two answer every query alike. */
  lemma {:induction false} StoreAnswersAsHistory(m: Grants.Store, h: History, now: nat, ops: seq<Op>)
    requires Grants.Agrees(m, Grants.Flat(h, KeyStr), now) && Clean(h) && CleanOps(ops)
    ensures StoreAnswers(m, now, ops) == HistoryAnswers(h, now, ops)
    decreases |ops|
  {
    if ops != [] {
      assert CleanOps(ops[1..]);
      match ops[0] {
        case Granting(k) =>
          var h' := h + [Grants.Grant(k, now)];
          Grants.RecordAgrees(m, Grants.Flat(h, KeyStr), KeyStr(k), now);
          Grants.FlatSnoc(h, KeyStr, Grants.Grant(k, now));
          StoreAnswersAsHistory(Grants.Record(m, KeyStr(k), now), h', now, ops[1..]);
        case Query(k, ttl) =>
          Grants.SameAnswers(m, Grants.Flat(h, KeyStr), KeyStr(k), ttl, now);
          FlatAnswers(h, k, ttl, now);
          StoreAnswersAsHistory(m, h, now, ops[1..]);
        case Tick(d) =>
          Grants.AgreesLater(m, Grants.Flat(h, KeyStr), now, now + d);
          StoreAnswersAsHistory(m, h, now + d, ops[1..]);
      }
    }
  }
}
