/** The caching resolver: entries with relative lifetimes, standing for answers with absolute expiry times. */
module DnsCache {
  import opened DnsAnswers

  /** The sequence has exactly the answers of the map, in some order. */
  predicate Lists(results: seq<Answer>, m: map<Key, Answer>) {
    && |results| == |m|
    && (forall i, j :: 0 <= i < j < |results| ==> KeyOf(results[i]) != KeyOf(results[j]))
    && (forall k :: k in m ==> m[k] in results)
    && (forall i :: 0 <= i < |results| ==> KeyOf(results[i]) in m && m[KeyOf(results[i])] == results[i])
  }

  lemma ListsMore(results: seq<Answer>, m: map<Key, Answer>, a: Answer)
    requires Lists(results, m) && KeyOf(a) !in m
    ensures Lists(results + [a], m[KeyOf(a) := a])
  {
    hide KeyOf;
    var rs, m' := results + [a], m[KeyOf(a) := a];
    assert m'.Keys == m.Keys + {KeyOf(a)} && |m'| == |m'.Keys|;
    forall i | 0 <= i < |rs| ensures KeyOf(rs[i]) in m' && m'[KeyOf(rs[i])] == rs[i] {
      if i < |results| { assert rs[i] == results[i]; }
    }
    forall i, j | 0 <= i < j < |rs| ensures KeyOf(rs[i]) != KeyOf(rs[j]) {
      assert rs[i] == results[i];
      if j < |results| { assert rs[j] == results[j]; }
    }
    assert rs[|results|] == a;
    forall k | k in m' ensures m'[k] in rs { if k in m { assert m[k] in results; } }
  }

  predicate Wanted(a: Answer, family: Family) {
    a.kind.AddressKind? && (family.AnyFamily? || a.family == family)
  }

  // ----- What readers see -----

  /** The answers of a family, with the time that each has left. */
  function Remaining(e: Entry, family: Family, now: int): map<Key, Answer> {
    map k | k in e.answers && Wanted(e.answers[k], family) :: e.answers[k].(ttl := e.base + e.answers[k].ttl - now)
  }

  /** The answers of a family that are not past their time, with the age of the entry. */
  function Aged(e: Entry, family: Family, now: int): map<Key, Answer> {
    map k | k in e.answers && Wanted(e.answers[k], family) && e.base + e.answers[k].ttl > now ::
      e.answers[k].(ttl := now - e.base, priority := 0)
  }

  predicate SomeExpired(e: Entry, family: Family, now: int) {
    exists k :: k in e.answers && Wanted(e.answers[k], family) && e.base + e.answers[k].ttl < now
  }

  /** Some address, of whatever family, can still be used. */
  predicate SomeUsable(e: Entry, now: int) {
    exists k :: k in e.answers && e.answers[k].kind.AddressKind? && e.base + e.answers[k].ttl >= now
  }

  /** An entry answers a request when it has addresses of the family and none of them has expired. */
  predicate Hits(e: Entry, family: Family, now: int) {
    !SomeExpired(e, family, now) && exists k :: k in e.answers && Wanted(e.answers[k], family)
  }

  /** Part of a map. */
  function Only<V>(m: map<Key, V>, ks: set<Key>): map<Key, V> { map k | k in m && k in ks :: m[k] }

  /** What was put under a name since it was last absent, and when the last time was. */
  datatype Past = Past(base: int, insertions: seq<Insertion>)

  function InsertionsOf(hist: map<string, Past>, name: string): seq<Insertion> {
    if name in hist then hist[name].insertions else []
  }

  /** The record of a name after one more insertion. */
  function Extended(hist: map<string, Past>, name: string, now: int, answers: seq<Answer>, pf: int -> int): Past {
    Past(now, InsertionsOf(hist, name) + Insertions(answers, now, pf))
  }

  /** An entry and its record agree. */
  predicate Recorded(e: Entry, p: Past) { EntryOk(e) && e.base == p.base && Faithful(e, p.insertions) }

  class Cache {
    var entries: map<string, Entry>
    ghost var hist: map<string, Past>
    ghost var clock: int

    ghost predicate Valid()
      reads this
    {
      && entries.Keys == hist.Keys
      && forall n :: n in entries ==> Recorded(entries[n], hist[n]) && entries[n].base <= clock
    }

    constructor (now: int)
      ensures Valid() && entries == map[] && hist == map[] && clock == now
    {
      entries, hist, clock := map[], map[], now;
    }

    /** The map that evicts may drop any entry at any time. */
    method Evict(name: string)
      requires Valid()
      modifies this
      ensures Valid() && entries == old(entries) - {name} && hist == old(hist) - {name} && clock == old(clock)
    {
      entries, hist := entries - {name}, hist - {name};
    }

    method Flush()
      requires Valid()
      modifies this
      ensures Valid() && entries == map[] && hist == map[] && clock == old(clock)
    {
      entries, hist := map[], map[];
    }

    ghost function EntryAt(name: string, now: int): Entry
      reads this
    {
      if name in entries then entries[name] else Entry(now, map[])
    }

    /** Prunes and rebases what there is, and merges the new answers. */
    method Insert(name: string, answers: seq<Answer>, pf: int -> int, now: int)
      requires Valid() && clock <= now && forall i :: 0 <= i < |answers| ==> pf(answers[i].ttl) >= 0
      modifies this
      ensures Valid() && clock == now
      ensures entries == old(entries)[name := Inserted(old(EntryAt(name, now)), now, answers, pf)]
      ensures hist == old(hist)[name := Extended(old(hist), name, now, answers, pf)]
    {
      hide EntryOk, Faithful, Rebased, MergedAll, Insertions;
      ghost var e := EntryAt(name, now);
      NothingFaithful(now);
      ghost var next := Extended(hist, name, now, answers, pf);
      InsertedFaithful(e, InsertionsOf(hist, name), now, answers, pf);
      var kept := map[];
      if name in entries {
        kept := Prune(entries[name], now);
      } else {
        NothingRebased(now);
      }
      var merged := Merge(kept, answers, pf);
      entries := entries[name := Entry(now, merged)];
      hist := hist[name := next];
      clock := now;
    }

    /** Looks for answers that are not past their time. */
    method Search(name: string, family: Family, now: int) returns (answers: seq<Answer>)
      requires Valid()
      ensures if name in entries then Lists(answers, Aged(entries[name], family, now)) else answers == []
    {
      answers := [];
      if name in entries { answers := Collect(entries[name], family, now); }
    }
  }

  lemma NothingFaithful(now: int)
    ensures EntryOk(Entry(now, map[])) && Faithful(Entry(now, map[]), [])
  {
  }

  lemma NothingRebased(now: int)
    ensures Rebased(Entry(now, map[]), now) == map[]
  {
  }

  method Prune(e: Entry, now: int) returns (kept: map<Key, Answer>)
    ensures kept == Rebased(e, now)
  {
    kept := map[];
    var todo := e.answers.Keys;
    while todo != {}
      invariant todo <= e.answers.Keys && kept == Only(Rebased(e, now), e.answers.Keys - todo)
      decreases todo
    {
      var k :| k in todo;
      if e.base + e.answers[k].ttl >= now {
        kept := kept[k := e.answers[k].(ttl := e.answers[k].ttl - (now - e.base))];
      }
      todo := todo - {k};
    }
  }

  method Merge(m: map<Key, Answer>, answers: seq<Answer>, pf: int -> int) returns (merged: map<Key, Answer>)
    ensures merged == MergedAll(m, answers, pf)
  {
    merged := m;
    var i := 0;
    while i < |answers|
      invariant 0 <= i <= |answers| && merged == MergedAll(m, answers[..i], pf)
    {
      assert answers[..i + 1][..i] == answers[..i];
      var a := answers[i].(ttl := pf(answers[i].ttl));
      if KeyOf(a) !in merged {
        merged := merged[KeyOf(a) := a];
      } else if merged[KeyOf(a)].ttl < a.ttl {
        merged := (merged - {KeyOf(a)})[KeyOf(a) := a];
        assert merged == MergedAll(m, answers[..i + 1], pf);
      }
      i := i + 1;
    }
    assert answers[..i] == answers;
  }

  method Collect(e: Entry, family: Family, now: int) returns (results: seq<Answer>)
    requires EntryOk(e)
    ensures Lists(results, Aged(e, family, now))
  {
    hide Lists, Only, Aged, Wanted;
    results := [];
    var todo := e.answers.Keys;
    ghost var all, done: set<Key> := Aged(e, family, now), {};
    NothingListed();
    OnlyNone(all);
    while todo != {}
      invariant todo !! done && done + todo == e.answers.Keys && Lists(results, Only(all, done))
      decreases todo
    {
      var k :| k in todo;
      var a := e.answers[k];
      OnlyMore(all, done, k);
      AgedAt(e, family, now, k);
      if Wanted(a, family) && e.base + a.ttl > now {
        var b := a.(ttl := now - e.base, priority := 0);
        ListsMore(results, Only(all, done), b);
        results := results + [b];
      }
      todo, done := todo - {k}, done + {k};
    }
    AgedWithin(e, family, now);
    OnlyAll(all, done);
  }

  lemma OnlyNone<V>(m: map<Key, V>)
    ensures Only(m, {}) == map[]
  {
  }

  lemma OnlyAll<V>(m: map<Key, V>, ks: set<Key>)
    requires m.Keys <= ks
    ensures Only(m, ks) == m
  {
  }

  lemma OnlyMore<V>(m: map<Key, V>, ks: set<Key>, k: Key)
    requires k !in ks
    ensures Only(m, ks + {k}) == if k in m then Only(m, ks)[k := m[k]] else Only(m, ks)
    ensures k !in Only(m, ks)
  {
  }

  lemma AgedAt(e: Entry, family: Family, now: int, k: Key)
    requires k in e.answers && EntryOk(e)
    ensures k in Aged(e, family, now) <==> Wanted(e.answers[k], family) && e.base + e.answers[k].ttl > now
    ensures k in Aged(e, family, now) ==>
              && Aged(e, family, now)[k] == e.answers[k].(ttl := now - e.base, priority := 0)
              && KeyOf(Aged(e, family, now)[k]) == k
  {
  }

  lemma AgedWithin(e: Entry, family: Family, now: int)
    ensures Aged(e, family, now).Keys <= e.answers.Keys
  {
  }

  lemma NothingListed()
    ensures Lists([], map[])
  {
  }

  // ----- The resolver -----

  /** What the loop of a lookup has found among some of the answers. */
  ghost predicate Looked(e: Entry, family: Family, now: int, done: set<Key>, results: seq<Answer>, expired: bool,
      usable: bool) {
    && Lists(results, Only(Usable(e, family, now), done))
    && (expired <==>
          exists k :: k in done && k in e.answers && Wanted(e.answers[k], family) && e.base + e.answers[k].ttl < now)
    && (usable <==>
          exists k ::
            k in done && k in e.answers && e.answers[k].kind.AddressKind? && e.base + e.answers[k].ttl >= now)
  }

  /** The answers of a family that have not expired, with the time that each has left. */
  function Usable(e: Entry, family: Family, now: int): map<Key, Answer> {
    map k | k in e.answers && Wanted(e.answers[k], family) && e.base + e.answers[k].ttl >= now ::
      e.answers[k].(ttl := e.base + e.answers[k].ttl - now)
  }

  lemma LookedMore(e: Entry, family: Family, now: int, done: set<Key>, results: seq<Answer>, expired: bool,
      usable: bool, k: Key)
    requires EntryOk(e) && Looked(e, family, now, done, results, expired, usable) && k in e.answers && k !in done
    ensures var a, late := e.answers[k], e.base + e.answers[k].ttl < now;
            Looked(e, family, now, done + {k},
                   if Wanted(a, family) && !late then results + [a.(ttl := e.base + a.ttl - now)] else results,
                   expired || (Wanted(a, family) && late), usable || (a.kind.AddressKind? && !late))
  {
    hide Lists, Only, Wanted;
    var a := e.answers[k];
    var b := a.(ttl := e.base + a.ttl - now);
    OnlyMore(Usable(e, family, now), done, k);
    if Wanted(a, family) && e.base + a.ttl >= now {
      assert KeyOf(b) == KeyOf(a) == k;
      ListsMore(results, Only(Usable(e, family, now), done), b);
    }
    assert k in done + {k};
    assert forall j :: j in done ==> j in done + {k};
  }

  lemma LookedNone(e: Entry, family: Family, now: int)
    ensures Looked(e, family, now, {}, [], false, false)
  {
    OnlyNone(Usable(e, family, now));
  }

  /** A complete lookup without expired answers has found all answers of the family. */
  lemma LookedAll(e: Entry, family: Family, now: int, results: seq<Answer>, expired: bool, usable: bool)
    requires Looked(e, family, now, e.answers.Keys, results, expired, usable)
    ensures expired <==> SomeExpired(e, family, now)
    ensures usable <==> SomeUsable(e, now)
    ensures !expired ==> Lists(results, Remaining(e, family, now))
    ensures !expired && results != [] <==> Hits(e, family, now)
  {
    hide Lists, Only, Wanted;
    var m := Usable(e, family, now);
    OnlyAll(m, e.answers.Keys);
    ListsSome(results, m);
    if !expired {
      forall k | k in e.answers && Wanted(e.answers[k], family) ensures e.base + e.answers[k].ttl >= now { }
      assert m == Remaining(e, family, now);
      if Hits(e, family, now) {
        var k :| k in e.answers && Wanted(e.answers[k], family);
        assert k in m;
      }
    }
  }

  lemma ListsSome(results: seq<Answer>, m: map<Key, Answer>)
    requires Lists(results, m)
    ensures results != [] <==> exists k :: k in m
  {
    if results != [] { assert KeyOf(results[0]) in m; }
  }

  method LookUp(e: Entry, family: Family, now: int) returns (results: seq<Answer>, expired: bool, usable: bool)
    requires EntryOk(e)
    ensures expired <==> SomeExpired(e, family, now)
    ensures usable <==> SomeUsable(e, now)
    ensures !expired ==> Lists(results, Remaining(e, family, now))
    ensures !expired && results != [] <==> Hits(e, family, now)
  {
    hide Looked, Hits, SomeExpired, SomeUsable, Lists, Remaining;
    results, expired, usable := [], false, false;
    var todo := e.answers.Keys;
    ghost var done: set<Key> := {};
    LookedNone(e, family, now);
    while todo != {}
      invariant todo !! done && done + todo == e.answers.Keys && Looked(e, family, now, done, results, expired, usable)
      decreases todo
    {
      var k :| k in todo;
      LookedMore(e, family, now, done, results, expired, usable, k);
      todo, done := todo - {k}, done + {k};
      var a := e.answers[k];
      if a.kind.AddressKind? {
        if family.AnyFamily? || a.family == family {
          if e.base + a.ttl < now {
            expired := true;
          } else {
            results := results + [a.(ttl := e.base + a.ttl - now)];
          }
        }
        usable := usable || e.base + a.ttl >= now;
      }
    }
    assert done == e.answers.Keys;
    LookedAll(e, family, now, results, expired, usable);
  }

  function SameTtl(ttl: int): int { ttl }

  /** Stale answers live longer. */
  function StaleTtl(least: nat, scale: nat): int -> int {
    (ttl: int) => if ttl * scale < least then least else ttl * scale
  }

  class CachingResolver {
    const cache: Cache
    const staleCache: Cache
    const staleMin: nat
    const staleScale: nat

    constructor (least: nat, scale: nat, now: int)
      ensures Valid() && fresh(cache) && fresh(staleCache) && staleMin == least && staleScale == scale
      ensures cache.hist == map[] && staleCache.hist == map[] && cache.clock == now && staleCache.clock == now
    {
      cache := new Cache(now);
      staleCache := new Cache(now);
      staleMin, staleScale := least, scale;
    }

    ghost predicate Valid()
      reads cache, staleCache
    {
      && cache != staleCache && cache.Valid() && staleCache.Valid()
      && (forall n :: n in cache.hist ==> LivesBy(cache.hist[n].insertions, SameTtl))
      && (forall n :: n in staleCache.hist ==> LivesBy(staleCache.hist[n].insertions, StaleTtl(staleMin, staleScale)))
    }

    /** Answers from the cache, or none if the name must be asked for. */
    method ResolveHostname(name: string, family: Family, now: int) returns (hit: bool, results: seq<Answer>)
      requires Valid()
      modifies cache
      ensures Valid() && cache.clock == old(cache.clock)
      ensures hit <==> name in old(cache.entries) && Hits(old(cache.entries)[name], family, now)
      ensures hit ==> Lists(results, Remaining(old(cache.entries)[name], family, now))
      ensures var gone :=
                if name in old(cache.entries) && !SomeUsable(old(cache.entries)[name], now) then {name} else {};
              cache.entries == old(cache.entries) - gone && cache.hist == old(cache.hist) - gone
    {
      hide Hits, Remaining, Lists, SomeUsable, SomeExpired, Recorded, LivesBy;
      hit, results := false, [];
      assert cache.entries - {} == cache.entries && cache.hist - {} == cache.hist;
      if name in cache.entries {
        RecordedOk(cache.entries[name], cache.hist[name]);
        var found, expired, usable := LookUp(cache.entries[name], family, now);
        if !usable { cache.Evict(name); }
        if !expired && found != [] { return true, found; }
      }
    }

    /** An answer from the network goes into both caches. */
    method ResolutionSuccess(name: string, answers: seq<Answer>, now: int)
      requires Valid() && cache.clock <= now && staleCache.clock <= now
      requires forall i :: 0 <= i < |answers| ==> answers[i].ttl >= 0
      modifies cache, staleCache
      ensures Valid() && cache.clock <= now && staleCache.clock <= now
      ensures answers == [] ==> unchanged(cache) && unchanged(staleCache)
      ensures var pf := StaleTtl(staleMin, staleScale);
              answers != [] ==>
                && cache.entries
                   == old(cache.entries)[name := Inserted(old(cache.EntryAt(name, now)), now, answers, SameTtl)]
                && staleCache.entries ==
                   old(staleCache.entries)[name := Inserted(old(staleCache.EntryAt(name, now)), now, answers, pf)]
                && cache.hist == old(cache.hist)[name := Extended(old(cache.hist), name, now, answers, SameTtl)]
                && staleCache.hist
                   == old(staleCache.hist)[name := Extended(old(staleCache.hist), name, now, answers, pf)]
    {
      hide Recorded, Inserted, LivesBy;
      var pf := StaleTtl(staleMin, staleScale);
      LivesOn(cache.hist, name, now, answers, SameTtl);
      LivesOn(staleCache.hist, name, now, answers, pf);
      if answers != [] {
        cache.Insert(name, answers, SameTtl, now);
        staleCache.Insert(name, answers, pf, now);
      }
    }

    /** After a failure stale answers are served if there are any. */
    method ResolutionError(name: string, family: Family, now: int) returns (served: bool, answers: seq<Answer>)
      requires Valid()
      ensures served <==> name in staleCache.entries && exists k :: k in Aged(staleCache.entries[name], family, now)
      ensures served ==> Lists(answers, Aged(staleCache.entries[name], family, now))
    {
      hide Lists, Aged;
      answers := staleCache.Search(name, family, now);
      served := answers != [];
      if name in staleCache.entries { ListsSome(answers, Aged(staleCache.entries[name], family, now)); }
    }
  }

  lemma RecordedOk(e: Entry, p: Past)
    requires Recorded(e, p)
    ensures EntryOk(e)
  {
  }

  lemma LivesOn(hist: map<string, Past>, name: string, now: int, answers: seq<Answer>, pf: int -> int)
    requires name in hist ==> LivesBy(hist[name].insertions, pf)
    ensures LivesBy(Extended(hist, name, now, answers, pf).insertions, pf)
  {
    InsertionsLive(answers, now, pf);
  }
}
