/** Runs of the caching resolver: what every hit and every stale answer is worth, told from the events alone. */
module DnsCacheRuns {
  import opened DnsAnswers
  import opened DnsCache

  // ----- Events and what they leave behind -----

  /** Either cache may drop any entry at any time. */
  datatype Action =
    | Resolved(name: string, answers: seq<Answer>)
    | Look(name: string, family: Family)
    | Failed(name: string, family: Family)
    | Evict(name: string)
    | EvictStale(name: string)
    | Flush

  datatype Event = Event(time: int, act: Action)

  /** The lives of the answers in the two caches. */
  datatype Rules = Rules(least: nat, scale: nat)

  /** For every name what was inserted since it was last absent, in absolute times. */
  datatype Record = Record(cache: map<string, Past>, stale: map<string, Past>)

  const NOTHING := Record(map[], map[])

  /** Some address inserted under the name has not run out. */
  ghost predicate PastUsable(p: Past, now: int) {
    exists i :: 0 <= i < |p.insertions| && p.insertions[i].key.AddressKey? && AliveTwice(p, p.insertions[i].key, now)
  }

  /** Alive now, and when something was last inserted. */
  predicate AliveTwice(p: Past, k: Key, now: int) { Alive(p.insertions, k, p.base) && Alive(p.insertions, k, now) }

  ghost function Next(rules: Rules, r: Record, e: Event): Record {
    match e.act
    case Resolved(n, answers) =>
      if answers == [] then r
      else Record(r.cache[n := Extended(r.cache, n, e.time, answers, SameTtl)],
                  r.stale[n := Extended(r.stale, n, e.time, answers, StaleTtl(rules.least, rules.scale))])
    case Look(n, _) => if n in r.cache && !PastUsable(r.cache[n], e.time) then r.(cache := r.cache - {n}) else r
    case Failed(_, _) => r
    case Evict(n) => r.(cache := r.cache - {n})
    case EvictStale(n) => r.(stale := r.stale - {n})
    case Flush => r.(cache := map[])
  }

  /** The record after a run. */
  ghost function After(rules: Rules, events: seq<Event>): Record {
    if events == [] then NOTHING else Next(rules, After(rules, events[..|events| - 1]), events[|events| - 1])
  }

  // ----- What the outputs should be -----

  datatype Output = Silent | Hit(answers: seq<Answer>) | Miss | Stale(answers: seq<Answer>) | Error

  predicate WantedKey(k: Key, family: Family) { k.AddressKey? && (family.AnyFamily? || k.family == family) }

  /** The addresses of a family that were alive at the last insertion. */
  ghost predicate Stored(p: Past, family: Family, k: Key) { WantedKey(k, family) && Alive(p.insertions, k, p.base) }

  /** There are such addresses, and all of them are still alive. */
  ghost predicate PastHits(p: Past, family: Family, now: int) {
    && (exists k :: Stored(p, family, k))
    && (forall k :: Stored(p, family, k) ==> Alive(p.insertions, k, now))
  }

  predicate Distinct(answers: seq<Answer>) {
    forall i, j :: 0 <= i < j < |answers| ==> KeyOf(answers[i]) != KeyOf(answers[j])
  }

  /** One answer for each stored address of the family; it has as much time left as the latest of its insertions. */
  ghost predicate RightHit(p: Past, family: Family, now: int, answers: seq<Answer>) {
    && Distinct(answers)
    && (forall i :: 0 <= i < |answers| ==>
          && Stored(p, family, KeyOf(answers[i]))
          && answers[i].ttl >= 0 && Latest(p.insertions, KeyOf(answers[i]), now + answers[i].ttl))
    && (forall k :: Stored(p, family, k) ==> exists i :: 0 <= i < |answers| && KeyOf(answers[i]) == k)
  }

  /** A stored address whose scaled life is not over. */
  ghost predicate Servable(p: Past, family: Family, now: int, k: Key) {
    Stored(p, family, k) && Alive(p.insertions, k, now + 1)
  }

  /** One answer for each servable address of the family, with the time since the last insertion. */
  ghost predicate RightStale(p: Past, family: Family, now: int, answers: seq<Answer>) {
    && Distinct(answers)
    && (forall i :: 0 <= i < |answers| ==>
          Servable(p, family, now, KeyOf(answers[i])) && answers[i].ttl == now - p.base)
    && (forall k :: Servable(p, family, now, k) ==> exists i :: 0 <= i < |answers| && KeyOf(answers[i]) == k)
  }

  /** What an event may answer, given what was inserted before it. */
  ghost predicate Right(r: Record, e: Event, out: Output) {
    match e.act
    case Look(n, family) =>
      if n in r.cache && PastHits(r.cache[n], family, e.time)
      then out.Hit? && RightHit(r.cache[n], family, e.time, out.answers)
      else out == Miss
    case Failed(n, family) =>
      if n in r.stale && exists k :: Servable(r.stale[n], family, e.time, k)
      then out.Stale? && RightStale(r.stale[n], family, e.time, out.answers)
      else out == Error
    case _ => out == Silent
  }

  // ----- Entries and records tell the same -----

  lemma WantedIs(a: Answer, family: Family)
    ensures Wanted(a, family) <==> WantedKey(KeyOf(a), family)
  {
  }

  lemma StoredIs(e: Entry, p: Past, family: Family, k: Key, t: int)
    requires Recorded(e, p)
    ensures Stored(p, family, k) <==> k in e.answers && Wanted(e.answers[k], family)
    ensures k in e.answers ==> (Expiry(e, k) >= t <==> Alive(p.insertions, k, t))
  {
    hide Alive, Faithful, Wanted, WantedKey;
    HoldsAlive(e, p.insertions, k, t);
    if k in e.answers { WantedIs(e.answers[k], family); }
  }

  lemma UsableIs(e: Entry, p: Past, now: int)
    requires Recorded(e, p)
    ensures SomeUsable(e, now) <==> PastUsable(p, now)
  {
    hide Faithful, Alive;
    if SomeUsable(e, now) {
      var k :| k in e.answers && e.answers[k].kind.AddressKind? && e.base + e.answers[k].ttl >= now;
      HoldsAlive(e, p.insertions, k, now);
      var i := AliveAt(p.insertions, k, p.base);
    }
    if PastUsable(p, now) {
      var i :| 0 <= i < |p.insertions| && p.insertions[i].key.AddressKey? && AliveTwice(p, p.insertions[i].key, now);
      var k := p.insertions[i].key;
      HoldsAlive(e, p.insertions, k, now);
      assert k in e.answers && e.answers[k].kind.AddressKind?;
    }
  }

  lemma AliveAt(hist: seq<Insertion>, k: Key, t: int) returns (i: nat)
    requires Alive(hist, k, t)
    ensures i < |hist| && hist[i].key == k && hist[i].Expiry() >= t
  {
    i :| 0 <= i < |hist| && hist[i].key == k && hist[i].Expiry() >= t;
  }

  lemma HitsIs(e: Entry, p: Past, family: Family, now: int)
    requires Recorded(e, p)
    ensures Hits(e, family, now) <==> PastHits(p, family, now)
  {
    hide Recorded, Stored, Alive, Wanted;
    forall k
      ensures Stored(p, family, k) <==> k in e.answers && Wanted(e.answers[k], family)
      ensures k in e.answers ==> (Expiry(e, k) >= now <==> Alive(p.insertions, k, now))
    {
      StoredIs(e, p, family, k, now);
    }
    if PastHits(p, family, now) {
      forall k | k in e.answers && Wanted(e.answers[k], family) ensures e.base + e.answers[k].ttl >= now {
        assert Stored(p, family, k) && Expiry(e, k) >= now;
      }
    }
    if Hits(e, family, now) {
      forall k | Stored(p, family, k) ensures Alive(p.insertions, k, now) { assert Expiry(e, k) >= now; }
    }
  }

  /** The answers of a hit are right. */
  lemma HitIsRight(e: Entry, p: Past, family: Family, now: int, answers: seq<Answer>)
    requires Recorded(e, p) && Hits(e, family, now) && Lists(answers, Remaining(e, family, now))
    ensures RightHit(p, family, now, answers)
  {
    hide Stored, Wanted, Latest, KeyOf;
    var m := Remaining(e, family, now);
    forall i | 0 <= i < |answers|
      ensures Stored(p, family, KeyOf(answers[i]))
      ensures answers[i].ttl >= 0 && Latest(p.insertions, KeyOf(answers[i]), now + answers[i].ttl)
    {
      var k := KeyOf(answers[i]);
      assert k in m && m[k] == answers[i];
      StoredIs(e, p, family, k, now);
      assert now + answers[i].ttl == Expiry(e, k);
    }
    forall k | Stored(p, family, k) ensures exists i :: 0 <= i < |answers| && KeyOf(answers[i]) == k {
      StoredIs(e, p, family, k, now);
      Find(answers, m, k);
    }
  }

  /** Every key of a listed map has its answer in the list. */
  lemma Find(answers: seq<Answer>, m: map<Key, Answer>, k: Key)
    requires Lists(answers, m) && k in m && KeyOf(m[k]) == k
    ensures exists i :: 0 <= i < |answers| && KeyOf(answers[i]) == k
  {
    assert m[k] in answers;
  }

  lemma ServableIs(e: Entry, p: Past, family: Family, now: int, k: Key)
    requires Recorded(e, p)
    ensures Servable(p, family, now, k) <==> k in Aged(e, family, now)
    ensures k in Aged(e, family, now) ==>
              KeyOf(Aged(e, family, now)[k]) == k && Aged(e, family, now)[k].ttl == now - p.base
  {
    hide Stored, Wanted, Alive, Faithful;
    StoredIs(e, p, family, k, now + 1);
    if k in e.answers { AgedAt(e, family, now, k); }
  }

  /** The stale answers that are served are right. */
  lemma StaleIsRight(e: Entry, p: Past, family: Family, now: int, answers: seq<Answer>)
    requires Recorded(e, p) && Lists(answers, Aged(e, family, now))
    ensures RightStale(p, family, now, answers)
  {
    hide Servable, Aged, KeyOf, Recorded;
    var m := Aged(e, family, now);
    forall i | 0 <= i < |answers|
      ensures Servable(p, family, now, KeyOf(answers[i])) && answers[i].ttl == now - p.base
    {
      ServableIs(e, p, family, now, KeyOf(answers[i]));
    }
    forall k | Servable(p, family, now, k) ensures exists i :: 0 <= i < |answers| && KeyOf(answers[i]) == k {
      ServableIs(e, p, family, now, k);
      Find(answers, m, k);
    }
  }

  lemma SomeServable(e: Entry, p: Past, family: Family, now: int)
    requires Recorded(e, p)
    ensures (exists k :: Servable(p, family, now, k)) <==> (exists k :: k in Aged(e, family, now))
  {
    hide Servable, Aged, Recorded;
    forall k ensures Servable(p, family, now, k) <==> k in Aged(e, family, now) { ServableIs(e, p, family, now, k); }
  }

  // ----- Runs -----

  ghost function RecordOf(c: CachingResolver): Record
    reads c.cache, c.staleCache
  {
    Record(c.cache.hist, c.staleCache.hist)
  }

  ghost predicate Ready(c: CachingResolver, time: int)
    reads c.cache, c.staleCache
  {
    c.Valid() && c.cache.clock <= time && c.staleCache.clock <= time
  }

  /** Times to live are not negative. */
  predicate Proper(e: Event) {
    e.act.Resolved? ==> forall i :: 0 <= i < |e.act.answers| ==> e.act.answers[i].ttl >= 0
  }

  function RulesOf(c: CachingResolver): Rules { Rules(c.staleMin, c.staleScale) }

  method HandleLook(c: CachingResolver, e: Event) returns (out: Output)
    requires Ready(c, e.time) && e.act.Look?
    modifies c.cache
    ensures Ready(c, e.time) && RecordOf(c) == Next(RulesOf(c), old(RecordOf(c)), e) && Right(old(RecordOf(c)), e, out)
  {
    hide Recorded, Lists, Remaining, Hits, PastHits, RightHit, PastUsable, SomeUsable, LivesBy;
    var n, family := e.act.name, e.act.family;
    if n in c.cache.entries {
      HitsIs(c.cache.entries[n], c.cache.hist[n], family, e.time);
      UsableIs(c.cache.entries[n], c.cache.hist[n], e.time);
    }
    assert c.cache.hist - {} == c.cache.hist;
    var hit, answers := c.ResolveHostname(n, family, e.time);
    if hit {
      HitIsRight(old(c.cache.entries)[n], old(c.cache.hist)[n], family, e.time, answers);
      out := Hit(answers);
    } else {
      out := Miss;
    }
  }

  method HandleFailed(c: CachingResolver, e: Event) returns (out: Output)
    requires Ready(c, e.time) && e.act.Failed?
    ensures Right(RecordOf(c), e, out)
  {
    hide Recorded, Lists, Aged, Servable, RightStale, LivesBy;
    var n, family := e.act.name, e.act.family;
    if n in c.staleCache.entries { SomeServable(c.staleCache.entries[n], c.staleCache.hist[n], family, e.time); }
    var served, answers := c.ResolutionError(n, family, e.time);
    if served {
      StaleIsRight(c.staleCache.entries[n], c.staleCache.hist[n], family, e.time, answers);
      out := Stale(answers);
    } else {
      out := Error;
    }
  }

  /** Any one event. */
  method Handle(c: CachingResolver, e: Event) returns (out: Output)
    requires Ready(c, e.time) && Proper(e)
    modifies c.cache, c.staleCache
    ensures Ready(c, e.time) && RecordOf(c) == Next(RulesOf(c), old(RecordOf(c)), e) && Right(old(RecordOf(c)), e, out)
  {
    hide Recorded, LivesBy, PastHits, Servable, RightHit, RightStale, PastUsable, Inserted;
    out := Silent;
    match e.act
    case Resolved(n, answers) => c.ResolutionSuccess(n, answers, e.time);
    case Look(_, _) => out := HandleLook(c, e);
    case Failed(_, _) => out := HandleFailed(c, e);
    case Evict(n) => c.cache.Evict(n);
    case EvictStale(n) => c.staleCache.Evict(n);
    case Flush => c.cache.Flush();
  }

  predicate InOrder(events: seq<Event>) {
    forall i, j :: 0 <= i < j < |events| ==> events[i].time <= events[j].time
  }

  /** Any run from the start, with a clock that does not go back: every answer is right for the events before it. */
  method HandleAll(c: CachingResolver, events: seq<Event>) returns (outs: seq<Output>)
    requires c.Valid() && RecordOf(c) == NOTHING && InOrder(events) && (events != [] ==> Ready(c, events[0].time))
    requires forall i :: 0 <= i < |events| ==> Proper(events[i])
    modifies c.cache, c.staleCache
    ensures c.Valid() && RecordOf(c) == After(RulesOf(c), events) && |outs| == |events|
    ensures forall i :: 0 <= i < |events| ==> Right(After(RulesOf(c), events[..i]), events[i], outs[i])
  {
    hide Right, Next, Proper;
    outs := [];
    var i := 0;
    while i < |events|
      invariant 0 <= i <= |events| && |outs| == i && c.Valid()
      invariant i < |events| ==> Ready(c, events[i].time)
      invariant RecordOf(c) == After(RulesOf(c), events[..i])
      invariant forall j :: 0 <= j < i ==> Right(After(RulesOf(c), events[..j]), events[j], outs[j])
    {
      var out := Handle(c, events[i]);
      outs := outs + [out];
      assert events[..i + 1][..i] == events[..i];
      i := i + 1;
    }
    assert events[..i] == events;
  }

  // ----- The insertions of a run -----

  /** The entry of a name is thrown away. */
  predicate Drops(e: Event, name: string, stale: bool) {
    if stale then e.act == EvictStale(name) else e.act == Evict(name) || e.act == Flush
  }

  /** An insertion was made by an event of the run that no later event undid. */
  ghost predicate MadeBy(events: seq<Event>, name: string, stale: bool, rules: Rules, x: Insertion, j: nat) {
    && j < |events| && events[j].act.Resolved? && events[j].act.name == name && x.time == events[j].time
    && (exists i :: 0 <= i < |events[j].act.answers| &&
          KeyOf(events[j].act.answers[i]) == x.key && events[j].act.answers[i].ttl == x.ttl)
    && x.life == (if stale then StaleTtl(rules.least, rules.scale)(x.ttl) else x.ttl)
    && forall i :: j < i < |events| ==> !Drops(events[i], name, stale)
  }

  function Part(r: Record, stale: bool): map<string, Past> { if stale then r.stale else r.cache }

  lemma {:induction false} InsertionsFrom(answers: seq<Answer>, now: int, pf: int -> int, x: nat)
    requires x < |Insertions(answers, now, pf)|
    ensures var y := Insertions(answers, now, pf)[x];
            && y.time == now && y.life == pf(y.ttl)
            && exists i :: 0 <= i < |answers| && KeyOf(answers[i]) == y.key && answers[i].ttl == y.ttl
    decreases |answers|
  {
    hide KeyOf;
    var n := |answers| - 1;
    if x < |Insertions(answers[..n], now, pf)| {
      InsertionsFrom(answers[..n], now, pf, x);
      var y := Insertions(answers, now, pf)[x];
      var i :| 0 <= i < n && KeyOf(answers[..n][i]) == y.key && answers[..n][i].ttl == y.ttl;
      assert KeyOf(answers[i]) == y.key;
    } else {
      assert KeyOf(answers[n]) == Insertions(answers, now, pf)[x].key;
    }
  }

  /** Every insertion that counts was made in the run, under its name, and has not been thrown away since. */
  lemma {:induction false} AllMade(rules: Rules, events: seq<Event>, name: string, stale: bool, x: nat) returns (j: nat)
    requires var m := Part(After(rules, events), stale); name in m && x < |m[name].insertions|
    ensures MadeBy(events, name, stale, rules, Part(After(rules, events), stale)[name].insertions[x], j)
    decreases |events|
  {
    hide PastUsable, Insertions, KeyOf;
    var n := |events| - 1;
    var before, e := events[..n], events[n];
    var m, m' := Part(After(rules, before), stale), Part(After(rules, events), stale);
    var old' := InsertionsOf(m, name);
    if x < |old'| {
      j := AllMade(rules, before, name, stale, x);
      StillMade(before, e, name, stale, rules, old'[x], j);
      assert before + [e] == events;
    } else {
      j := n;
      var pf: int -> int := if stale then StaleTtl(rules.least, rules.scale) else SameTtl;
      InsertionsFrom(e.act.answers, e.time, pf, x - |old'|);
    }
  }

  lemma StillMade(before: seq<Event>, e: Event, name: string, stale: bool, rules: Rules, x: Insertion, j: nat)
    requires MadeBy(before, name, stale, rules, x, j) && !Drops(e, name, stale)
    ensures MadeBy(before + [e], name, stale, rules, x, j)
  {
    hide KeyOf, Drops;
    assert (before + [e])[j] == before[j];
    forall i | j < i < |before + [e]| ensures !Drops((before + [e])[i], name, stale) {
      if i < |before| { assert (before + [e])[i] == before[i]; }
    }
  }

  /** A hit is answered from the run: each answer runs out when some earlier result for the name says so. */
  lemma HitFromRun(rules: Rules, events: seq<Event>, i: nat, out: Output, a: nat) returns (j: nat)
    requires i < |events| && events[i].act.Look? && Right(After(rules, events[..i]), events[i], out) && out.Hit? &&
        a < |out.answers|
    ensures j < i && events[j].act.Resolved? && events[j].act.name == events[i].act.name
    ensures exists x :: 0 <= x < |events[j].act.answers| && KeyOf(events[j].act.answers[x]) == KeyOf(out.answers[a]) &&
              events[j].time + events[j].act.answers[x].ttl == events[i].time + out.answers[a].ttl >= events[i].time
    ensures forall k :: j < k < i ==> !Drops(events[k], events[i].act.name, false)
  {
    hide PastUsable, KeyOf, PastHits, Stored;
    var n := events[i].act.name;
    var p := After(rules, events[..i]).cache[n];
    var x :| 0 <= x < |p.insertions| && p.insertions[x].key == KeyOf(out.answers[a]) &&
      p.insertions[x].Expiry() == events[i].time + out.answers[a].ttl;
    j := AllMade(rules, events[..i], n, false, x);
    forall k | j < k < i ensures !Drops(events[k], n, false) { assert events[..i][k] == events[k]; }
  }

  /** A stale answer is served from the run: its scaled life, or the least one, has not run out. */
  lemma StaleFromRun(rules: Rules, events: seq<Event>, i: nat, out: Output, a: nat) returns (j: nat)
    requires i < |events| && events[i].act.Failed? && Right(After(rules, events[..i]), events[i], out)
    requires out.Stale? && a < |out.answers|
    ensures j < i && events[j].act.Resolved? && events[j].act.name == events[i].act.name
    ensures exists x :: 0 <= x < |events[j].act.answers| && KeyOf(events[j].act.answers[x]) == KeyOf(out.answers[a]) &&
              events[j].time + StaleTtl(rules.least, rules.scale)(events[j].act.answers[x].ttl) > events[i].time
    ensures forall k :: j < k < i ==> !Drops(events[k], events[i].act.name, true)
  {
    hide PastUsable, KeyOf, Stored;
    var n := events[i].act.name;
    var p := After(rules, events[..i]).stale[n];
    var x := AliveAt(p.insertions, KeyOf(out.answers[a]), events[i].time + 1);
    j := AllMade(rules, events[..i], n, true, x);
    forall k | j < k < i ensures !Drops(events[k], n, true) { assert events[..i][k] == events[k]; }
  }
}
