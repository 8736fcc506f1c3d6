/** DNS answers: the order that decides which of them are the same, and cache entries as sets of answers. */
module DnsAnswers {
  datatype Kind = AddressKind | NameKind | CNameKind | TxtKind | SrvKind | MxKind

  datatype Family = AnyFamily | Inet | Inet6

  datatype Answer = Answer(kind: Kind, family: Family, address: string, name: string, priority: nat, ttl: int)

  function Number(k: Kind): nat {
    match k
    case AddressKind => 0
    case NameKind => 1
    case CNameKind => 2
    case TxtKind => 3
    case SrvKind => 4
    case MxKind => 5
  }

  function FamilyNumber(f: Family): nat {
    match f
    case AnyFamily => 0
    case Inet => 2
    case Inet6 => 10
  }

  predicate LessText(a: string, b: string) {
    b != [] && (a == [] || a[0] < b[0] || (a[0] == b[0] && LessText(a[1..], b[1..])))
  }

  /** The order on socket addresses: by family, then by address. */
  predicate LessAddress(a: Answer, b: Answer) {
    FamilyNumber(a.family) < FamilyNumber(b.family) || (a.family == b.family && LessText(a.address, b.address))
  }

  /** The order of answers, which does not look at the time to live. */
  predicate Less(a: Answer, b: Answer) {
    if a.kind != b.kind then Number(a.kind) < Number(b.kind)
    else if a.kind.AddressKind? then LessAddress(a, b)
    else if a.kind.MxKind? then a.priority < b.priority || (a.priority == b.priority && LessText(a.name, b.name))
    else LessText(a.name, b.name)
  }

  /** What the order looks at. */
  datatype Key =
    | AddressKey(family: Family, address: string)
    | NameKey(kind: Kind, name: string)
    | MxKey(priority: nat, name: string)

  function KeyOf(a: Answer): Key {
    match a.kind
    case AddressKind => AddressKey(a.family, a.address)
    case MxKind => MxKey(a.priority, a.name)
    case _ => NameKey(a.kind, a.name)
  }

  lemma {:induction false} LessTextLaws(a: string, b: string, c: string)
    ensures !LessText(a, a)
    ensures LessText(a, b) && LessText(b, c) ==> LessText(a, c)
    ensures !LessText(a, b) && !LessText(b, a) ==> a == b
    decreases |a| + |b| + |c|
  {
    if a != [] && b != [] {
      LessTextLaws(a[1..], b[1..], if c == [] then [] else c[1..]);
    } else if a != [] {
      LessTextLaws(a[1..], [], []);
    }
  }

  /** The order is a strict weak order, so a set ordered by it is well defined. */
  lemma LessIsStrict(a: Answer, b: Answer, c: Answer)
    ensures !Less(a, a)
    ensures Less(a, b) && Less(b, c) ==> Less(a, c)
  {
    LessTextLaws(a.name, b.name, c.name);
    LessTextLaws(a.address, b.address, c.address);
  }

  /** Answers that the order does not tell apart are those with the same key. */
  lemma SameKey(a: Answer, b: Answer)
    ensures !Less(a, b) && !Less(b, a) <==> KeyOf(a) == KeyOf(b)
  {
    LessTextLaws(a.name, b.name, a.name);
    LessTextLaws(a.address, b.address, a.address);
    LessTextLaws(b.name, b.name, b.name);
    LessTextLaws(b.address, b.address, b.address);
  }

  // ----- Entries -----

  /** A set of answers without two of the same key, and the time their lives are counted from. */
  datatype Entry = Entry(base: int, answers: map<Key, Answer>)

  predicate EntryOk(e: Entry) { forall k :: k in e.answers ==> KeyOf(e.answers[k]) == k }

  function Expiry(e: Entry, k: Key): int
    requires k in e.answers
  {
    e.base + e.answers[k].ttl
  }

  /** What is left of an entry at a later time, counted from that time. */
  function Rebased(e: Entry, now: int): map<Key, Answer> {
    map k | k in e.answers && e.base + e.answers[k].ttl >= now ::
        e.answers[k].(ttl := e.answers[k].ttl - (now - e.base))
  }

  /** Of two answers with one key the one that lives longer stays. */
  function Merged(m: map<Key, Answer>, a: Answer): map<Key, Answer> {
    if KeyOf(a) !in m || m[KeyOf(a)].ttl < a.ttl then m[KeyOf(a) := a] else m
  }

  function MergedAll(m: map<Key, Answer>, answers: seq<Answer>, pf: int -> int): map<Key, Answer> {
    if answers == [] then m
    else
      var a := answers[|answers| - 1];
      Merged(MergedAll(m, answers[..|answers| - 1], pf), a.(ttl := pf(a.ttl)))
  }

  // ----- Absolute expiry -----

  /** One answer that was put into an entry: when, with which time to live, and how long it was to be kept. */
  datatype Insertion = Insertion(key: Key, time: int, ttl: int, life: int) {
    function Expiry(): int { time + life }
  }

  function Insertions(answers: seq<Answer>, now: int, pf: int -> int): seq<Insertion> {
    if answers == [] then []
    else
      var a := answers[|answers| - 1];
      Insertions(answers[..|answers| - 1], now, pf) + [Insertion(KeyOf(a), now, a.ttl, pf(a.ttl))]
  }

  /** `x` is the latest expiry among the insertions of a key. */
  predicate Latest(hist: seq<Insertion>, k: Key, x: int) {
    && (exists i :: 0 <= i < |hist| && hist[i].key == k && hist[i].Expiry() == x)
    && (forall i :: 0 <= i < |hist| && hist[i].key == k ==> hist[i].Expiry() <= x)
  }

  /** Every answer expires when the latest of its insertions does; answers that are gone had expired. */
  predicate Faithful(e: Entry, hist: seq<Insertion>) {
    && (forall k :: k in e.answers ==> Latest(hist, k, Expiry(e, k)) && e.base <= Expiry(e, k))
    && (forall i :: 0 <= i < |hist| ==> hist[i].key in e.answers || hist[i].Expiry() < e.base)
  }

  lemma RebasedFaithful(e: Entry, hist: seq<Insertion>, now: int)
    requires EntryOk(e) && Faithful(e, hist) && e.base <= now
    ensures EntryOk(Entry(now, Rebased(e, now))) && Faithful(Entry(now, Rebased(e, now)), hist)
  {
    var e' := Entry(now, Rebased(e, now));
    forall k | k in e'.answers ensures Latest(hist, k, Expiry(e', k)) { assert Expiry(e', k) == Expiry(e, k); }
    forall i | 0 <= i < |hist| ensures hist[i].key in e'.answers || hist[i].Expiry() < e'.base {
      var k := hist[i].key;
      if k in e.answers { assert Latest(hist, k, Expiry(e, k)); }
    }
  }

  lemma MergedFaithful(e: Entry, hist: seq<Insertion>, a: Answer, ttl: int)
    requires EntryOk(e) && Faithful(e, hist) && a.ttl >= 0
    ensures var e' := Entry(e.base, Merged(e.answers, a));
            EntryOk(e') && Faithful(e', hist + [Insertion(KeyOf(a), e.base, ttl, a.ttl)])
  {
    var e', added := Entry(e.base, Merged(e.answers, a)), Insertion(KeyOf(a), e.base, ttl, a.ttl);
    var hist' := hist + [added];
    assert hist'[|hist|] == added;
    forall k | k in e'.answers ensures Latest(hist', k, Expiry(e', k)) {
      MergedLatest(e, hist, a, ttl, k);
    }
  }

  lemma MergedLatest(e: Entry, hist: seq<Insertion>, a: Answer, ttl: int, k: Key)
    requires EntryOk(e) && Faithful(e, hist) && a.ttl >= 0 && k in Merged(e.answers, a)
    ensures Latest(hist + [Insertion(KeyOf(a), e.base, ttl, a.ttl)], k, e.base + Merged(e.answers, a)[k].ttl)
  {
    var added := Insertion(KeyOf(a), e.base, ttl, a.ttl);
    var hist', x := hist + [added], e.base + Merged(e.answers, a)[k].ttl;
    assert hist'[|hist|] == added;
    if k in e.answers {
      assert Latest(hist, k, Expiry(e, k));
      var i :| 0 <= i < |hist| && hist[i].key == k && hist[i].Expiry() == Expiry(e, k);
      assert hist'[i] == hist[i];
    }
    forall i | 0 <= i < |hist'| && hist'[i].key == k ensures hist'[i].Expiry() <= x {
      if i < |hist| { assert hist'[i] == hist[i]; }
    }
  }

  lemma {:induction false} MergedAllFaithful(e: Entry, hist: seq<Insertion>, answers: seq<Answer>, pf: int -> int)
    requires EntryOk(e) && Faithful(e, hist)
    requires forall i :: 0 <= i < |answers| ==> pf(answers[i].ttl) >= 0
    ensures var e' := Entry(e.base, MergedAll(e.answers, answers, pf));
            EntryOk(e') && Faithful(e', hist + Insertions(answers, e.base, pf))
    decreases |answers|
  {
    hide EntryOk, Faithful;
    if answers == [] {
      assert hist + [] == hist;
    } else {
      var rest, a := answers[..|answers| - 1], answers[|answers| - 1];
      MergedAllFaithful(e, hist, rest, pf);
      var e' := Entry(e.base, MergedAll(e.answers, rest, pf));
      var b := a.(ttl := pf(a.ttl));
      MergedFaithful(e', hist + Insertions(rest, e.base, pf), b, a.ttl);
      assert KeyOf(b) == KeyOf(a);
      assert hist + Insertions(rest, e.base, pf) + [Insertion(KeyOf(a), e.base, a.ttl, pf(a.ttl))] ==
             hist + Insertions(answers, e.base, pf);
    }
  }

  /** The entry that an insertion leaves behind. */
  function Inserted(e: Entry, now: int, answers: seq<Answer>, pf: int -> int): Entry {
    Entry(now, MergedAll(Rebased(e, now), answers, pf))
  }

  lemma InsertedFaithful(e: Entry, hist: seq<Insertion>, now: int, answers: seq<Answer>, pf: int -> int)
    requires EntryOk(e) && Faithful(e, hist) && e.base <= now
    requires forall i :: 0 <= i < |answers| ==> pf(answers[i].ttl) >= 0
    ensures EntryOk(Inserted(e, now, answers, pf))
    ensures Faithful(Inserted(e, now, answers, pf), hist + Insertions(answers, now, pf))
  {
    hide EntryOk, Faithful, Rebased, MergedAll, Insertions;
    RebasedFaithful(e, hist, now);
    MergedAllFaithful(Entry(now, Rebased(e, now)), hist, answers, pf);
  }

  /** Every insertion was kept as long as the rule says. */
  predicate LivesBy(hist: seq<Insertion>, pf: int -> int) {
    forall i :: 0 <= i < |hist| ==> hist[i].life == pf(hist[i].ttl)
  }

  lemma {:induction false} InsertionsLive(answers: seq<Answer>, now: int, pf: int -> int)
    ensures LivesBy(Insertions(answers, now, pf), pf)
    decreases |answers|
  {
    if answers != [] { InsertionsLive(answers[..|answers| - 1], now, pf); }
  }

  /** Some insertion of the key has not run out at a time. */
  predicate Alive(hist: seq<Insertion>, k: Key, t: int) {
    exists i :: 0 <= i < |hist| && hist[i].key == k && hist[i].Expiry() >= t
  }

  /** An entry holds exactly what was alive when it was last touched, and each answer lives as long as its key does. */
  lemma HoldsAlive(e: Entry, hist: seq<Insertion>, k: Key, t: int)
    requires Faithful(e, hist)
    ensures k in e.answers <==> Alive(hist, k, e.base)
    ensures k in e.answers ==> (Expiry(e, k) >= t <==> Alive(hist, k, t))
  {
    if k in e.answers { assert Latest(hist, k, Expiry(e, k)); }
  }
}
