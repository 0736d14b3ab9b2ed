/**
 Remember grants: a map from a flattened key to the instant of the last recording,
 pruned when something is recorded and capped at 900 s. The broker's store and the
 agent's cache are both made of it.
 */
module Grants {
  import opened Common

  const MAX_REMEMBER: nat := 900 * SECOND

  type Store = map<string, nat>

  /** `Instant::elapsed`. */
  function Elapsed(t: nat, now: nat): nat {
    if t <= now then now - t else 0
  }

  function Window(ttlSecs: u32): nat {
    Min(ttlSecs as nat * SECOND, MAX_REMEMBER)
  }

  predicate Fresh(m: Store, key: string, ttlSecs: u32, now: nat) {
    ttlSecs != 0 && key in m && Elapsed(m[key], now) < Window(ttlSecs)
  }

  function Record(m: Store, key: string, now: nat): Store {
    (map k | k in m && Elapsed(m[k], now) < MAX_REMEMBER :: m[k])[key := now]
  }

  /** What a recording leaves: itself, and of the others exactly those younger than 900 s, untouched. */
  lemma RecordPrunes(m: Store, key: string, now: nat, k: string)
    ensures key in Record(m, key, now) && Record(m, key, now)[key] == now
    ensures k != key ==>
      (k in Record(m, key, now) <==> k in m && now < m[k] + 900_000_000_000)
    ensures k != key && k in Record(m, key, now) ==> Record(m, key, now)[k] == m[k]
  {
  }

  /** A grant holds for the shorter of the time asked for and 900 s, and never for no time at all. */
  lemma FreshExactlyWhen(m: Store, key: string, ttlSecs: u32, now: nat)
    requires key in m && m[key] <= now
    ensures Fresh(m, key, ttlSecs, now) <==>
      now < m[key] + ttlSecs as nat * 1_000_000_000 && now < m[key] + 900_000_000_000
  {
  }

  // ---- flattened keys

  /** The first NUL says where the first field ends. */
  lemma FirstField(a: string, restA: string, b: string, restB: string)
    requires NUL !in a && NUL !in b
    requires a + [NUL] + restA == b + [NUL] + restB
    ensures a == b && restA == restB
  {
    var s, t := a + [NUL] + restA, b + [NUL] + restB;
    assert s[|a|] == NUL && t[|b|] == NUL;
    assert (forall i :: 0 <= i < |a| ==> s[i] == a[i]) && (forall i :: 0 <= i < |b| ==> t[i] == b[i]);
    assert s[..|a|] == a && t[..|b|] == b && s[|a| + 1..] == restA && t[|b| + 1..] == restB;
  }

  // ---- against a history that forgets nothing

  datatype Grant<+K> = Grant(key: K, at: nat)

  /** Some recording of exactly this key is younger than the capped window. */
  ghost predicate HistoryFresh<K(!new)>(h: seq<Grant<K>>, key: K, ttlSecs: u32, now: nat) {
    ttlSecs != 0 && exists i :: 0 <= i < |h| && h[i].key == key && Elapsed(h[i].at, now) < Window(ttlSecs)
  }

  /** The history under flattened keys. */
  ghost function Flat<K>(h: seq<Grant<K>>, str: K -> string): seq<Grant<string>> {
    seq(|h|, i requires 0 <= i < |h| => Grant(str(h[i].key), h[i].at))
  }

  /** If no recorded key shares the string of this one, the flattened history answers like the history of keys. */
  lemma FlatAnswers<K(!new)>(h: seq<Grant<K>>, str: K -> string, key: K, ttlSecs: u32, now: nat)
    requires forall i :: 0 <= i < |h| && str(h[i].key) == str(key) ==> h[i].key == key
    ensures HistoryFresh(Flat(h, str), str(key), ttlSecs, now) <==> HistoryFresh(h, key, ttlSecs, now)
  {
    if HistoryFresh(h, key, ttlSecs, now) {
      var i :| 0 <= i < |h| && h[i].key == key && Elapsed(h[i].at, now) < Window(ttlSecs);
      assert Flat(h, str)[i].key == str(key);
    }
  }

  lemma FlatSnoc<K>(h: seq<Grant<K>>, str: K -> string, g: Grant<K>)
    ensures Flat(h + [g], str) == Flat(h, str) + [Grant(str(g.key), g.at)]
  {
  }

  /** The map and the full history tell the same story at `now`. */
  ghost predicate Agrees(m: Store, h: seq<Grant<string>>, now: nat) {
    && (forall i :: 0 <= i < |h| ==> h[i].at <= now)
    && (forall k :: k in m ==> Grant(k, m[k]) in h)
    && (forall i :: 0 <= i < |h| ==>
          (h[i].key in m && h[i].at <= m[h[i].key]) || now - h[i].at >= MAX_REMEMBER)
  }

  lemma AgreesLater(m: Store, h: seq<Grant<string>>, now: nat, later: nat)
    requires Agrees(m, h, now) && now <= later
    ensures Agrees(m, h, later)
  {
  }

  lemma RecordAgrees(m: Store, h: seq<Grant<string>>, key: string, now: nat)
    requires Agrees(m, h, now)
    ensures Agrees(Record(m, key, now), h + [Grant(key, now)], now)
  {
    var m', h' := Record(m, key, now), h + [Grant(key, now)];
    forall k | k in m' ensures Grant(k, m'[k]) in h' {
      if k == key {
        assert h'[|h|] == Grant(key, now);
      } else {
        var i :| 0 <= i < |h| && h[i] == Grant(k, m[k]);
        assert h'[i] == h[i];
      }
    }
  }

  /** Pruning and overwriting never change an answer. */
  lemma SameAnswers(m: Store, h: seq<Grant<string>>, key: string, ttlSecs: u32, now: nat)
    requires Agrees(m, h, now)
    ensures Fresh(m, key, ttlSecs, now) <==> HistoryFresh(h, key, ttlSecs, now)
  {
    if Fresh(m, key, ttlSecs, now) {
      var i :| 0 <= i < |h| && h[i] == Grant(key, m[key]);
    }
  }
}
