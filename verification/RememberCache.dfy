/** The agent's in-memory remember cache, keyed by action and key command. */
module RememberCache {
  import opened Common
  import Grants

  /** NUL-separated, so that no command reaches into the action's field. */
  function Key(action: string, command: string): string {
    action + [NUL] + command
  }

  datatype CacheKey = CacheKey(action: string, command: string)

  function KeyStr(k: CacheKey): string {
    Key(k.action, k.command)
  }

  /** Every recorded action came over D-Bus, whose strings carry no NUL. */
  ghost predicate Clean(h: seq<Grants.Grant<CacheKey>>) {
    forall i :: 0 <= i < |h| ==> NUL !in h[i].key.action
  }

  /** Pairs whose actions hold no NUL have a string of their own. */
  lemma KeyInjective(k1: CacheKey, k2: CacheKey)
    requires NUL !in k1.action && NUL !in k2.action && KeyStr(k1) == KeyStr(k2)
    ensures k1 == k2
  {
    Grants.FirstField(k1.action, k1.command, k2.action, k2.command);
  }

  lemma FlatAnswers(h: seq<Grants.Grant<CacheKey>>, key: CacheKey, ttlSecs: u32, now: nat)
    requires Clean(h) && NUL !in key.action
    ensures Grants.HistoryFresh(Grants.Flat(h, KeyStr), KeyStr(key), ttlSecs, now)
      <==> Grants.HistoryFresh(h, key, ttlSecs, now)
  {
    forall i | 0 <= i < |h| && KeyStr(h[i].key) == KeyStr(key) ensures h[i].key == key { KeyInjective(h[i].key, key); }
    Grants.FlatAnswers(h, KeyStr, key, ttlSecs, now);
  }

  class RememberCache {
    var inner: Grants.Store
    /** Every recording ever made, and the instant of the last one. */
    ghost var history: seq<Grants.Grant<CacheKey>>
    ghost var last: nat

    ghost predicate Valid()
      reads this
    {
      Grants.Agrees(inner, Grants.Flat(history, KeyStr), last)
    }

    constructor ()
      ensures Valid() && inner == map[] && history == [] && last == 0
    {
      inner, history, last := map[], [], 0;
    }

    method IsFresh(action: string, command: string, ttlSecs: u32, now: nat) returns (granted: bool)
      requires Valid() && last <= now
      ensures granted <==> Grants.Fresh(inner, Key(action, command), ttlSecs, now)
      ensures Clean(history) && NUL !in action
        ==> (granted <==> Grants.HistoryFresh(history, CacheKey(action, command), ttlSecs, now))
    {
      granted := Grants.Fresh(inner, Key(action, command), ttlSecs, now);
      Grants.AgreesLater(inner, Grants.Flat(history, KeyStr), last, now);
      Grants.SameAnswers(inner, Grants.Flat(history, KeyStr), Key(action, command), ttlSecs, now);
      if Clean(history) && NUL !in action {
        FlatAnswers(history, CacheKey(action, command), ttlSecs, now);
      }
    }

    method Remember(action: string, command: string, now: nat)
      requires Valid() && last <= now
      modifies this
      ensures Valid() && last == now
      ensures inner == Grants.Record(old(inner), Key(action, command), now)
      ensures history == old(history) + [Grants.Grant(CacheKey(action, command), now)]
    {
      Grants.AgreesLater(inner, Grants.Flat(history, KeyStr), last, now);
      Grants.RecordAgrees(inner, Grants.Flat(history, KeyStr), Key(action, command), now);
      inner := map k | k in inner && Grants.Elapsed(inner[k], now) < Grants.MAX_REMEMBER :: inner[k];
      inner := inner[Key(action, command) := now];
      history := history + [Grants.Grant(CacheKey(action, command), now)];
      last := now;
      Grants.FlatSnoc(old(history), KeyStr, Grants.Grant(CacheKey(action, command), now));
    }
  }
}
