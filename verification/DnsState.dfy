/** The DNS resolver as a state machine: live queries, fan-outs, the callbacks that wait for them, and a history. */
module DnsState {
  datatype Option<T> = None | Some(value: T)

  type Id = nat

  const MAX_CNAMES := 9

  datatype Status = TimedOut | TooManyRedirects | NoData | Unknown | OtherStatus(code: nat)

  datatype Outcome = Success(answers: seq<string>) | Failure(status: Status)

  /** What the callback of a query points to: a callback of the user, or the fan-out that made the query. */
  datatype Owner = User(cb: nat) | Parent(multi: Id)

  datatype Query = Query(callback: Option<Owner>, cnames: nat, timer: bool)

  /** A fan-out: the number of results it still waits for, what it collected, and its unfinished queries. */
  datatype Multi = Multi(callback: nat, pending: nat, answers: seq<string>, error: Option<Status>, subs: set<Id>)

  /** The history of a request of the user. */
  datatype Fate = Fate(cancelled: bool, results: seq<Outcome>)

  datatype State = State(
    refcnt: nat,
    queries: map<Id, Query>,
    multis: map<Id, Multi>,
    sets: map<nat, set<Id>>,
    nextId: Id,
    fates: map<Id, Fate>,
    heard: map<Id, seq<Outcome>>,
    sent: map<Id, nat>)

  // ----- What a fan-out makes of its results -----

  function AllAnswers(os: seq<Outcome>): seq<string> {
    if os == [] then []
    else AllAnswers(os[..|os| - 1]) + if os[|os| - 1].Success? then os[|os| - 1].answers else []
  }

  /** The latest failure. */
  function LastError(os: seq<Outcome>): Option<Status> {
    if os == [] then None
    else if os[|os| - 1].Failure? then Some(os[|os| - 1].status)
    else LastError(os[..|os| - 1])
  }

  /** All answers if there are any, else the latest failure, else no data. */
  function Combine(os: seq<Outcome>): Outcome {
    if AllAnswers(os) != [] then Success(AllAnswers(os))
    else match LastError(os)
      case Some(e) => Failure(e)
      case None => Failure(NoData)
  }

  // ----- The invariant -----

  function Active(queries: map<Id, Query>): set<Id> { set q | q in queries && queries[q].callback.Some? }

  function SetOf(s: State, cb: nat): set<Id> { if cb in s.sets then s.sets[cb] else {} }

  /** The reference count is the number of queries whose callback is still set. */
  predicate Counted(s: State) { s.refcnt == |Active(s.queries)| }

  predicate QueryOk(s: State, q: Id)
    requires q in s.queries
  {
    var x := s.queries[q];
    && q < s.nextId && q !in s.multis && q !in s.heard
    && x.cnames <= MAX_CNAMES && q in s.sent && s.sent[q] == x.cnames + 1
    && (x.timer ==> x.callback.Some?)
    && (match x.callback
        case None => true
        case Some(User(cb)) => q in SetOf(s, cb)
        case Some(Parent(m)) => m in s.multis && q in s.multis[m].subs)
  }

  ghost predicate QueriesOk(s: State) { forall q :: q in s.queries ==> QueryOk(s, q) }

  /** Members of a callback's set are live and wait for that callback. */
  predicate MemberOk(s: State, cb: nat, x: Id) {
    || (x in s.queries && s.queries[x].callback == Some(User(cb)))
    || (x in s.multis && s.multis[x].callback == cb)
  }

  ghost predicate SetsOk(s: State) { forall cb, x :: cb in s.sets && x in s.sets[cb] ==> MemberOk(s, cb, x) }

  ghost predicate MultiOk(s: State, m: Id)
    requires m in s.multis
  {
    var x := s.multis[m];
    && m < s.nextId && m !in s.queries && m in SetOf(s, x.callback)
    && x.pending == |x.subs| > 0
    && (forall q :: q in x.subs ==> q in s.queries && s.queries[q].callback == Some(Parent(m)))
    && m in s.heard && |s.heard[m]| + x.pending == 2
    && x.answers == AllAnswers(s.heard[m]) && x.error == LastError(s.heard[m])
  }

  ghost predicate MultisOk(s: State) { forall m :: m in s.multis ==> MultiOk(s, m) }

  /** The user still waits for this request. */
  predicate Waiting(s: State, r: Id) {
    r in s.multis || (r in s.queries && s.queries[r].callback.Some? && s.queries[r].callback.value.User?)
  }

  /** A request waits, or was cancelled without a result, or has exactly one result. */
  predicate FateOk(s: State, r: Id)
    requires r in s.fates
  {
    var f := s.fates[r];
    && r < s.nextId
    && (f.cancelled ==> f.results == []) && |f.results| <= 1
    && (Waiting(s, r) <==> !f.cancelled && f.results == [])
    && (r in s.heard && !f.cancelled && f.results != [] ==> |s.heard[r]| == 2 && f.results == [Combine(s.heard[r])])
  }

  ghost predicate FatesOk(s: State) {
    && (forall r :: r in s.fates ==> FateOk(s, r))
    && (forall r :: Waiting(s, r) ==> r in s.fates)
    && (forall r :: r in s.heard ==> r < s.nextId)
  }

  /** No query is sent more often than once and once for each alias it may follow. */
  ghost predicate SentOk(s: State) { forall q :: q in s.sent ==> q < s.nextId && s.sent[q] <= MAX_CNAMES + 1 }

  ghost predicate Inv(s: State) {
    Counted(s) && QueriesOk(s) && SetsOk(s) && MultisOk(s) && FatesOk(s) && SentOk(s)
  }

  const IDLE := State(0, map[], map[], map[], 0, map[], map[], map[])

  lemma IdleInv()
    ensures Inv(IDLE)
  {
    assert Active(map[]) == {};
  }

  // ----- The steps -----

  /** A query of its own. */
  function OpenOne(s: State, cb: nat, timer: bool): State {
    var q := s.nextId;
    s.(refcnt := s.refcnt + 1,
       queries := s.queries[q := Query(Some(User(cb)), 0, timer)],
       sets := s.sets[cb := SetOf(s, cb) + {q}],
       nextId := q + 1,
       fates := s.fates[q := Fate(false, [])],
       sent := s.sent[q := 1])
  }

  /** A fan-out with two queries. */
  function OpenBoth(s: State, cb: nat, timer: bool): State {
    var m, a, b := s.nextId, s.nextId + 1, s.nextId + 2;
    s.(refcnt := s.refcnt + 2,
       queries := s.queries[a := Query(Some(Parent(m)), 0, timer)][b := Query(Some(Parent(m)), 0, timer)],
       multis := s.multis[m := Multi(cb, 2, [], None, {a, b})],
       sets := s.sets[cb := SetOf(s, cb) + {m}],
       nextId := m + 3,
       fates := s.fates[m := Fate(false, [])],
       heard := s.heard[m := []],
       sent := s.sent[a := 1][b := 1])
  }

  function Detached(x: Query): Query { x.(callback := None, timer := false) }

  /** The callback of a query is cleared. */
  function Detach(s: State, q: Id): State
    requires q in s.queries && s.refcnt > 0
  {
    s.(refcnt := s.refcnt - 1, queries := s.queries[q := Detached(s.queries[q])])
  }

  /** The user gets the result of a request. */
  function Deliver(s: State, r: Id, cb: nat, o: Outcome): State {
    s.(sets := s.sets[cb := SetOf(s, cb) - {r}],
       fates := if r in s.fates then s.fates[r := s.fates[r].(results := s.fates[r].results + [o])] else s.fates)
  }

  /** A fan-out hears from one of its queries. */
  function Collect(x: Multi, q: Id, o: Outcome): Multi
    requires x.pending > 0
  {
    x.(pending := x.pending - 1, subs := x.subs - {q},
       answers := x.answers + if o.Success? then o.answers else [],
       error := if o.Failure? then Some(o.status) else x.error)
  }

  function Verdict(x: Multi): Outcome {
    if x.answers != [] then Success(x.answers)
    else match x.error
      case Some(e) => Failure(e)
      case None => Failure(NoData)
  }

  function Hear(s: State, m: Id, q: Id, o: Outcome): State
    requires m in s.multis && s.multis[m].pending > 0 && m in s.heard
  {
    var x := Collect(s.multis[m], q, o);
    var s' := s.(heard := s.heard[m := s.heard[m] + [o]]);
    if x.pending > 0 then s'.(multis := s.multis[m := x])
    else Deliver(s'.(multis := s.multis - {m}), m, x.callback, Verdict(x))
  }

  /** A query with a callback has a result. */
  function Complete(s: State, q: Id, o: Outcome): State
    requires Inv(s) && q in s.queries && s.queries[q].callback.Some?
  {
    ActiveCounted(s, q);
    assert QueryOk(s, q);
    match s.queries[q].callback.value
    case User(cb) => Deliver(Detach(s, q), q, cb, o)
    case Parent(m) =>
      assert MultiOk(s, m);
      Hear(Detach(s, q), m, q, o)
  }

  lemma ActiveCounted(s: State, q: Id)
    requires Counted(s) && q in s.queries && s.queries[q].callback.Some?
    ensures s.refcnt > 0 && Active(s.queries[q := Detached(s.queries[q])]) == Active(s.queries) - {q}
  {
    assert q in Active(s.queries);
  }

  /** A query without a callback is deleted. */
  function Drop(s: State, q: Id): State { s.(queries := s.queries - {q}) }

  /** A query is sent again, for the name that its own is an alias of. */
  function Requery(s: State, q: Id): State
    requires q in s.queries && q in s.sent
  {
    s.(queries := s.queries[q := s.queries[q].(cnames := s.queries[q].cnames + 1)], sent := s.sent[q := s.sent[q] + 1])
  }

  function DetachAll(queries: map<Id, Query>, qs: set<Id>): map<Id, Query> {
    map q | q in queries :: if q in qs then Detached(queries[q]) else queries[q]
  }

  /** A request ends: its queries lose their callback, and its history gets its last entry. */
  ghost function Settle(s: State, r: Id, cb: nat, qs: set<Id>, fate: Fate, heard: map<Id, seq<Outcome>>): State
    requires |qs| <= s.refcnt
  {
    s.(refcnt := s.refcnt - |qs|,
       queries := DetachAll(s.queries, qs),
       multis := s.multis - {r},
       sets := s.sets[cb := SetOf(s, cb) - {r}],
       fates := s.fates[r := fate],
       heard := heard)
  }

  /** A fan-out with two queries left hears from one of them. */
  ghost function HearMore(s: State, m: Id, q: Id, o: Outcome): State
    requires Inv(s) && q in s.queries && s.queries[q].callback == Some(Parent(m))
  {
    ActiveCounted(s, q);
    assert QueryOk(s, q) && MultiOk(s, m);
    Detach(s, q).(multis := s.multis[m := Collect(s.multis[m], q, o)], heard := s.heard[m := s.heard[m] + [o]])
  }

  // ----- Every step keeps the invariant -----

  lemma InvBy(s: State)
    requires Counted(s) && SentOk(s)
    requires forall q :: q in s.queries ==> QueryOk(s, q)
    requires forall cb, x :: cb in s.sets && x in s.sets[cb] ==> MemberOk(s, cb, x)
    requires forall m :: m in s.multis ==> MultiOk(s, m)
    requires forall r :: r in s.fates ==> FateOk(s, r)
    requires forall r :: Waiting(s, r) ==> r in s.fates
    requires forall r :: r in s.heard ==> r < s.nextId
    ensures Inv(s)
  {
    hide QueryOk, MemberOk, MultiOk, FateOk, Waiting;
  }

  lemma ActiveAdd(queries: map<Id, Query>, q: Id, x: Query)
    requires q !in queries && x.callback.Some?
    ensures |Active(queries[q := x])| == |Active(queries)| + 1
  {
    assert Active(queries[q := x]) == Active(queries) + {q};
  }

  lemma InvCounts(s: State)
    requires Inv(s)
    ensures Counted(s) && SentOk(s) && forall r :: r in s.heard ==> r < s.nextId
  {
    hide QueryOk, MemberOk, MultiOk, FateOk, Waiting, SentOk, Counted;
  }

  lemma QueryIs(s: State, q: Id)
    requires Inv(s) && q in s.queries
    ensures QueryOk(s, q)
  {
    hide QueryOk, MultisOk, SetsOk, FatesOk, SentOk;
  }

  lemma MemberIs(s: State, cb: nat, x: Id)
    requires Inv(s) && x in SetOf(s, cb)
    ensures MemberOk(s, cb, x)
  {
    hide MemberOk, MultisOk, QueriesOk, FatesOk, SentOk;
  }

  lemma MultiIs(s: State, m: Id)
    requires Inv(s) && m in s.multis
    ensures MultiOk(s, m)
  {
    hide MultiOk, QueriesOk, SetsOk, FatesOk, SentOk;
  }

  lemma FateIs(s: State, r: Id)
    requires Inv(s)
    ensures r in s.fates ==> FateOk(s, r)
    ensures Waiting(s, r) ==> r in s.fates
  {
    hide FateOk, Waiting, QueriesOk, SetsOk, MultisOk, SentOk;
  }

  /** Ids that have not been given out yet are not in use. */
  lemma Unused(s: State, x: Id)
    requires Inv(s) && x >= s.nextId
    ensures x !in s.queries && x !in s.multis && x !in s.fates && x !in s.heard && x !in s.sent
    ensures forall cb :: x !in SetOf(s, cb)
    ensures forall m :: m in s.multis ==> x !in s.multis[m].subs
  {
    if x in s.queries { QueryIs(s, x); }
    if x in s.multis { MultiIs(s, x); }
    if x in s.fates { FateIs(s, x); }
    forall cb ensures x !in SetOf(s, cb) { if x in SetOf(s, cb) { MemberIs(s, cb, x); } }
    forall m | m in s.multis ensures x !in s.multis[m].subs { MultiIs(s, m); }
  }

  lemma NotSent(s: State, x: Id)
    requires Inv(s) && x >= s.nextId
    ensures x !in s.sent
  {
    Unused(s, x);
  }

  lemma OpenOneQuery(s: State, cb: nat, timer: bool, p: Id)
    requires Inv(s) && p in OpenOne(s, cb, timer).queries
    ensures QueryOk(OpenOne(s, cb, timer), p)
  {
    hide Inv;
    Unused(s, s.nextId);
    if p != s.nextId { QueryIs(s, p); }
  }

  lemma OpenOneMember(s: State, cb: nat, timer: bool, c: nat, x: Id)
    requires Inv(s) && c in OpenOne(s, cb, timer).sets && x in OpenOne(s, cb, timer).sets[c]
    ensures MemberOk(OpenOne(s, cb, timer), c, x)
  {
    hide Inv;
    Unused(s, s.nextId);
    assert s.nextId !in SetOf(s, c);
    if x != s.nextId { MemberIs(s, c, x); }
  }

  lemma OpenOneMulti(s: State, cb: nat, timer: bool, n: Id)
    requires Inv(s) && n in OpenOne(s, cb, timer).multis
    ensures MultiOk(OpenOne(s, cb, timer), n)
  {
    hide Inv;
    Unused(s, s.nextId);
    MultiIs(s, n);
  }

  lemma OpenOneFate(s: State, cb: nat, timer: bool, f: Id)
    requires Inv(s)
    ensures Waiting(OpenOne(s, cb, timer), f) ==> f in OpenOne(s, cb, timer).fates
    ensures f in OpenOne(s, cb, timer).fates ==> FateOk(OpenOne(s, cb, timer), f)
  {
    hide Inv;
    Unused(s, s.nextId);
    FateIs(s, f);
  }

  lemma OpenOneCounts(s: State, cb: nat, timer: bool)
    requires Inv(s)
    ensures Counted(OpenOne(s, cb, timer)) && SentOk(OpenOne(s, cb, timer))
    ensures forall y :: y in OpenOne(s, cb, timer).heard ==> y < OpenOne(s, cb, timer).nextId
  {
    hide Inv;
    InvCounts(s);
    Unused(s, s.nextId);
    ActiveAdd(s.queries, s.nextId, Query(Some(User(cb)), 0, timer));
  }

  lemma OpenOneInv(s: State, cb: nat, timer: bool)
    requires Inv(s)
    ensures Inv(OpenOne(s, cb, timer))
  {
    hide Inv, QueryOk, MemberOk, MultiOk, FateOk, Waiting, Counted, SentOk, OpenOne;
    var s' := OpenOne(s, cb, timer);
    OpenOneCounts(s, cb, timer);
    forall p | p in s'.queries ensures QueryOk(s', p) { OpenOneQuery(s, cb, timer, p); }
    forall c, x | c in s'.sets && x in s'.sets[c] ensures MemberOk(s', c, x) { OpenOneMember(s, cb, timer, c, x); }
    forall n | n in s'.multis ensures MultiOk(s', n) { OpenOneMulti(s, cb, timer, n); }
    forall f ensures Waiting(s', f) ==> f in s'.fates { OpenOneFate(s, cb, timer, f); }
    forall f | f in s'.fates ensures FateOk(s', f) { OpenOneFate(s, cb, timer, f); }
    InvBy(s');
  }

  lemma OpenBothQuery(s: State, cb: nat, timer: bool, p: Id)
    requires Inv(s) && p in OpenBoth(s, cb, timer).queries
    ensures QueryOk(OpenBoth(s, cb, timer), p)
  {
    hide Inv;
    Unused(s, s.nextId);
    Unused(s, s.nextId + 1);
    Unused(s, s.nextId + 2);
    if p < s.nextId { QueryIs(s, p); } else { Unused(s, p); }
  }

  lemma OpenBothMember(s: State, cb: nat, timer: bool, c: nat, x: Id)
    requires Inv(s) && c in OpenBoth(s, cb, timer).sets && x in OpenBoth(s, cb, timer).sets[c]
    ensures MemberOk(OpenBoth(s, cb, timer), c, x)
  {
    hide Inv;
    Unused(s, s.nextId);
    Unused(s, s.nextId + 1);
    Unused(s, s.nextId + 2);
    assert s.nextId !in SetOf(s, c);
    if x != s.nextId { MemberIs(s, c, x); }
  }

  lemma OpenBothMulti(s: State, cb: nat, timer: bool, n: Id)
    requires Inv(s) && n in OpenBoth(s, cb, timer).multis
    ensures MultiOk(OpenBoth(s, cb, timer), n)
  {
    hide Inv, MultiOk;
    if n == s.nextId { OpenBothNew(s, cb, timer); } else { OpenBothOld(s, cb, timer, n); }
  }

  lemma OpenBothNew(s: State, cb: nat, timer: bool)
    requires Inv(s)
    ensures MultiOk(OpenBoth(s, cb, timer), s.nextId)
  {
    hide Inv;
    Unused(s, s.nextId);
  }

  lemma OpenBothOld(s: State, cb: nat, timer: bool, n: Id)
    requires Inv(s) && n in s.multis && n != s.nextId
    ensures MultiOk(OpenBoth(s, cb, timer), n)
  {
    hide Inv;
    Unused(s, s.nextId + 1);
    Unused(s, s.nextId + 2);
    MultiIs(s, n);
  }

  lemma OpenBothFate(s: State, cb: nat, timer: bool, f: Id)
    requires Inv(s)
    ensures Waiting(OpenBoth(s, cb, timer), f) ==> f in OpenBoth(s, cb, timer).fates
    ensures f in OpenBoth(s, cb, timer).fates ==> FateOk(OpenBoth(s, cb, timer), f)
  {
    hide Inv;
    Unused(s, s.nextId);
    Unused(s, s.nextId + 1);
    Unused(s, s.nextId + 2);
    FateIs(s, f);
  }

  lemma OpenBothCounts(s: State, cb: nat, timer: bool)
    requires Inv(s)
    ensures Counted(OpenBoth(s, cb, timer)) && SentOk(OpenBoth(s, cb, timer))
    ensures forall y :: y in OpenBoth(s, cb, timer).heard ==> y < OpenBoth(s, cb, timer).nextId
  {
    hide Inv;
    InvCounts(s);
    Unused(s, s.nextId);
    Unused(s, s.nextId + 1);
    Unused(s, s.nextId + 2);
    var x := Query(Some(Parent(s.nextId)), 0, timer);
    ActiveAdd(s.queries, s.nextId + 1, x);
    ActiveAdd(s.queries[s.nextId + 1 := x], s.nextId + 2, x);
  }

  lemma OpenBothInv(s: State, cb: nat, timer: bool)
    requires Inv(s)
    ensures Inv(OpenBoth(s, cb, timer))
  {
    hide Inv, QueryOk, MemberOk, MultiOk, FateOk, Waiting, Counted, SentOk, OpenBoth;
    var s' := OpenBoth(s, cb, timer);
    OpenBothCounts(s, cb, timer);
    forall p | p in s'.queries ensures QueryOk(s', p) { OpenBothQuery(s, cb, timer, p); }
    forall c, x | c in s'.sets && x in s'.sets[c] ensures MemberOk(s', c, x) { OpenBothMember(s, cb, timer, c, x); }
    forall n | n in s'.multis ensures MultiOk(s', n) { OpenBothMulti(s, cb, timer, n); }
    forall f ensures Waiting(s', f) ==> f in s'.fates { OpenBothFate(s, cb, timer, f); }
    forall f | f in s'.fates ensures FateOk(s', f) { OpenBothFate(s, cb, timer, f); }
    InvBy(s');
  }

  lemma RequeryQuery(s: State, q: Id, p: Id)
    requires Inv(s) && q in s.queries && s.queries[q].cnames < MAX_CNAMES && q in s.sent && p in Requery(s, q).queries
    ensures QueryOk(Requery(s, q), p)
  {
    hide Inv;
    QueryIs(s, p);
  }

  lemma RequeryMember(s: State, q: Id, c: nat, x: Id)
    requires Inv(s) && q in s.queries && s.queries[q].cnames < MAX_CNAMES && q in s.sent
    requires c in Requery(s, q).sets && x in Requery(s, q).sets[c]
    ensures MemberOk(Requery(s, q), c, x)
  {
    hide Inv;
    MemberIs(s, c, x);
  }

  lemma RequeryMulti(s: State, q: Id, n: Id)
    requires Inv(s) && q in s.queries && s.queries[q].cnames < MAX_CNAMES && q in s.sent && n in Requery(s, q).multis
    ensures MultiOk(Requery(s, q), n)
  {
    hide Inv;
    MultiIs(s, n);
  }

  lemma RequeryFate(s: State, q: Id, f: Id)
    requires Inv(s) && q in s.queries && s.queries[q].cnames < MAX_CNAMES && q in s.sent
    ensures Waiting(Requery(s, q), f) ==> f in Requery(s, q).fates
    ensures f in Requery(s, q).fates ==> FateOk(Requery(s, q), f)
  {
    hide Inv;
    FateIs(s, f);
  }

  lemma RequeryCounts(s: State, q: Id)
    requires Inv(s) && q in s.queries && s.queries[q].cnames < MAX_CNAMES && q in s.sent
    ensures Counted(Requery(s, q)) && SentOk(Requery(s, q))
    ensures forall y :: y in Requery(s, q).heard ==> y < Requery(s, q).nextId
  {
    hide Inv;
    InvCounts(s);
    QueryIs(s, q);
    assert Active(Requery(s, q).queries) == Active(s.queries);
  }

  lemma RequeryInv(s: State, q: Id)
    requires Inv(s) && q in s.queries && s.queries[q].cnames < MAX_CNAMES && q in s.sent
    ensures Inv(Requery(s, q))
  {
    hide Inv, QueryOk, MemberOk, MultiOk, FateOk, Waiting, Counted, SentOk, Requery;
    var s' := Requery(s, q);
    RequeryCounts(s, q);
    forall p | p in s'.queries ensures QueryOk(s', p) { RequeryQuery(s, q, p); }
    forall c, x | c in s'.sets && x in s'.sets[c] ensures MemberOk(s', c, x) { RequeryMember(s, q, c, x); }
    forall n | n in s'.multis ensures MultiOk(s', n) { RequeryMulti(s, q, n); }
    forall f ensures Waiting(s', f) ==> f in s'.fates { RequeryFate(s, q, f); }
    forall f | f in s'.fates ensures FateOk(s', f) { RequeryFate(s, q, f); }
    InvBy(s');
  }

  lemma DropQuery(s: State, q: Id, p: Id)
    requires Inv(s) && q in s.queries && s.queries[q].callback.None? && p in Drop(s, q).queries
    ensures QueryOk(Drop(s, q), p)
  {
    hide Inv;
    QueryIs(s, p);
  }

  lemma DropMember(s: State, q: Id, c: nat, x: Id)
    requires Inv(s) && q in s.queries && s.queries[q].callback.None? && c in Drop(s, q).sets && x in Drop(s, q).sets[c]
    ensures MemberOk(Drop(s, q), c, x)
  {
    hide Inv;
    MemberIs(s, c, x);
  }

  lemma DropMulti(s: State, q: Id, n: Id)
    requires Inv(s) && q in s.queries && s.queries[q].callback.None? && n in Drop(s, q).multis
    ensures MultiOk(Drop(s, q), n)
  {
    hide Inv;
    MultiIs(s, n);
  }

  lemma DropFate(s: State, q: Id, f: Id)
    requires Inv(s) && q in s.queries && s.queries[q].callback.None?
    ensures Waiting(Drop(s, q), f) ==> f in Drop(s, q).fates
    ensures f in Drop(s, q).fates ==> FateOk(Drop(s, q), f)
  {
    hide Inv;
    FateIs(s, f);
  }

  lemma DropCounts(s: State, q: Id)
    requires Inv(s) && q in s.queries && s.queries[q].callback.None?
    ensures Counted(Drop(s, q)) && SentOk(Drop(s, q))
    ensures forall y :: y in Drop(s, q).heard ==> y < Drop(s, q).nextId
  {
    hide Inv;
    InvCounts(s);
    assert Active(Drop(s, q).queries) == Active(s.queries);
  }

  lemma DropInv(s: State, q: Id)
    requires Inv(s) && q in s.queries && s.queries[q].callback.None?
    ensures Inv(Drop(s, q))
  {
    hide Inv, QueryOk, MemberOk, MultiOk, FateOk, Waiting, Counted, SentOk, Drop;
    var s' := Drop(s, q);
    DropCounts(s, q);
    forall p | p in s'.queries ensures QueryOk(s', p) { DropQuery(s, q, p); }
    forall c, x | c in s'.sets && x in s'.sets[c] ensures MemberOk(s', c, x) { DropMember(s, q, c, x); }
    forall n | n in s'.multis ensures MultiOk(s', n) { DropMulti(s, q, n); }
    forall f ensures Waiting(s', f) ==> f in s'.fates { DropFate(s, q, f); }
    forall f | f in s'.fates ensures FateOk(s', f) { DropFate(s, q, f); }
    InvBy(s');
  }

  ghost predicate CanHear(s: State, m: Id, q: Id) {
    && Inv(s) && q in s.queries && s.queries[q].callback == Some(Parent(m))
    && m in s.multis && s.multis[m].pending > 1
  }

  lemma HearMoreQuery(s: State, m: Id, q: Id, o: Outcome, p: Id)
    requires CanHear(s, m, q) && p in HearMore(s, m, q, o).queries
    ensures QueryOk(HearMore(s, m, q, o), p)
  {
    hide Inv;
    QueryIs(s, p);
    QueryIs(s, q);
    MultiIs(s, m);
  }

  lemma HearMoreMember(s: State, m: Id, q: Id, o: Outcome, c: nat, x: Id)
    requires CanHear(s, m, q) && c in HearMore(s, m, q, o).sets && x in HearMore(s, m, q, o).sets[c]
    ensures MemberOk(HearMore(s, m, q, o), c, x)
  {
    hide Inv;
    MemberIs(s, c, x);
    QueryIs(s, q);
    MultiIs(s, m);
  }

  lemma HearMoreMulti(s: State, m: Id, q: Id, o: Outcome, n: Id)
    requires CanHear(s, m, q) && n in HearMore(s, m, q, o).multis
    ensures MultiOk(HearMore(s, m, q, o), n)
  {
    hide Inv;
    MultiIs(s, n);
    MultiIs(s, m);
    QueryIs(s, q);
    HeardSnoc(s.heard[m], o);
  }

  lemma HearMoreFate(s: State, m: Id, q: Id, o: Outcome, f: Id)
    requires CanHear(s, m, q)
    ensures Waiting(HearMore(s, m, q, o), f) ==> f in HearMore(s, m, q, o).fates
    ensures f in HearMore(s, m, q, o).fates ==> FateOk(HearMore(s, m, q, o), f)
  {
    hide Inv;
    FateIs(s, f);
    QueryIs(s, q);
    MultiIs(s, m);
  }

  lemma HearMoreCounts(s: State, m: Id, q: Id, o: Outcome)
    requires CanHear(s, m, q)
    ensures Counted(HearMore(s, m, q, o)) && SentOk(HearMore(s, m, q, o))
    ensures forall y :: y in HearMore(s, m, q, o).heard ==> y < HearMore(s, m, q, o).nextId
  {
    hide Inv;
    InvCounts(s);
    ActiveCounted(s, q);
    MultiIs(s, m);
  }

  lemma HearMoreInv(s: State, m: Id, q: Id, o: Outcome)
    requires CanHear(s, m, q)
    ensures Inv(HearMore(s, m, q, o))
  {
    hide Inv, QueryOk, MemberOk, MultiOk, FateOk, Waiting, Counted, SentOk, HearMore;
    var s' := HearMore(s, m, q, o);
    HearMoreCounts(s, m, q, o);
    forall p | p in s'.queries ensures QueryOk(s', p) { HearMoreQuery(s, m, q, o, p); }
    forall c, x | c in s'.sets && x in s'.sets[c] ensures MemberOk(s', c, x) { HearMoreMember(s, m, q, o, c, x); }
    forall n | n in s'.multis ensures MultiOk(s', n) { HearMoreMulti(s, m, q, o, n); }
    forall f ensures Waiting(s', f) ==> f in s'.fates { HearMoreFate(s, m, q, o, f); }
    forall f | f in s'.fates ensures FateOk(s', f) { HearMoreFate(s, m, q, o, f); }
    InvBy(s');
  }

  lemma HeardSnoc(os: seq<Outcome>, o: Outcome)
    ensures AllAnswers(os + [o]) == AllAnswers(os) + if o.Success? then o.answers else []
    ensures LastError(os + [o]) == if o.Failure? then Some(o.status) else LastError(os)
  {
    assert (os + [o])[..|os|] == os;
  }

  /** `r` waits for the callback, and `qs` are the queries it waits with. */
  predicate Settles(s: State, r: Id, cb: nat, qs: set<Id>) {
    && r in SetOf(s, cb)
    && qs == if r in s.multis then s.multis[r].subs else {r}
  }

  /** The last entry of a history: cancelled, or the one result. */
  predicate LastEntry(s: State, r: Id, fate: Fate, heard: map<Id, seq<Outcome>>) {
    && heard.Keys == s.heard.Keys && (forall x :: x in heard && x != r ==> heard[x] == s.heard[x])
    && if fate.cancelled then fate.results == [] && (r in heard ==> heard[r] == s.heard[r])
       else |fate.results| == 1 && (r in heard ==> |heard[r]| == 2 && fate.results == [Combine(heard[r])])
  }

  lemma SettleNeeds(s: State, r: Id, cb: nat, qs: set<Id>)
    requires Inv(s) && Settles(s, r, cb, qs)
    ensures r in s.fates && qs <= Active(s.queries) && |qs| <= s.refcnt
    ensures forall q :: q in qs ==>
              q in s.queries && s.queries[q].callback == Some(if r in s.multis then Parent(r) else User(cb))
    ensures r in s.queries ==> qs == {r}
    ensures r in s.multis ==> s.multis[r].callback == cb
  {
    hide Inv;
    MemberIs(s, cb, r);
    FateIs(s, r);
    InvCounts(s);
    if r in s.multis { MultiIs(s, r); }
    assert qs <= Active(s.queries);
    Smaller(qs, Active(s.queries));
  }

  lemma Smaller(a: set<Id>, b: set<Id>)
    requires a <= b
    ensures |a| <= |b| && |b - a| == |b| - |a|
  {
    assert b == a + (b - a);
  }

  ghost predicate CanSettle(s: State, r: Id, cb: nat, qs: set<Id>, fate: Fate, heard: map<Id, seq<Outcome>>) {
    Inv(s) && Settles(s, r, cb, qs) && LastEntry(s, r, fate, heard) && |qs| <= s.refcnt
  }

  lemma SettleQuery(s: State, r: Id, cb: nat, qs: set<Id>, fate: Fate, heard: map<Id, seq<Outcome>>, p: Id)
    requires CanSettle(s, r, cb, qs, fate, heard) && p in Settle(s, r, cb, qs, fate, heard).queries
    ensures QueryOk(Settle(s, r, cb, qs, fate, heard), p)
  {
    hide Inv;
    SettleNeeds(s, r, cb, qs);
    QueryIs(s, p);
  }

  lemma SettleMember(s: State, r: Id, cb: nat, qs: set<Id>, fate: Fate, heard: map<Id, seq<Outcome>>, c: nat, x: Id)
    requires CanSettle(s, r, cb, qs, fate, heard)
    requires c in Settle(s, r, cb, qs, fate, heard).sets && x in Settle(s, r, cb, qs, fate, heard).sets[c]
    ensures MemberOk(Settle(s, r, cb, qs, fate, heard), c, x)
  {
    hide Inv;
    SettleNeeds(s, r, cb, qs);
    MemberIs(s, c, x);
    if x in s.multis { MultiIs(s, x); }
  }

  lemma SettleMulti(s: State, r: Id, cb: nat, qs: set<Id>, fate: Fate, heard: map<Id, seq<Outcome>>, n: Id)
    requires CanSettle(s, r, cb, qs, fate, heard) && n in Settle(s, r, cb, qs, fate, heard).multis
    ensures MultiOk(Settle(s, r, cb, qs, fate, heard), n)
  {
    hide Inv;
    SettleNeeds(s, r, cb, qs);
    MultiIs(s, n);
    if n in qs { QueryIs(s, n); }
  }

  lemma SettleFate(s: State, r: Id, cb: nat, qs: set<Id>, fate: Fate, heard: map<Id, seq<Outcome>>, f: Id)
    requires CanSettle(s, r, cb, qs, fate, heard)
    ensures Waiting(Settle(s, r, cb, qs, fate, heard), f) ==> f in Settle(s, r, cb, qs, fate, heard).fates
    ensures f in Settle(s, r, cb, qs, fate, heard).fates ==> FateOk(Settle(s, r, cb, qs, fate, heard), f)
  {
    hide Inv;
    SettleNeeds(s, r, cb, qs);
    FateIs(s, f);
    SettleWaits(s, r, cb, qs, fate, heard, f);
  }

  lemma SettleCounts(s: State, r: Id, cb: nat, qs: set<Id>, fate: Fate, heard: map<Id, seq<Outcome>>)
    requires CanSettle(s, r, cb, qs, fate, heard)
    ensures Counted(Settle(s, r, cb, qs, fate, heard)) && SentOk(Settle(s, r, cb, qs, fate, heard))
    ensures forall y :: y in Settle(s, r, cb, qs, fate, heard).heard ==> y < Settle(s, r, cb, qs, fate, heard).nextId
  {
    hide Inv;
    InvCounts(s);
    SettleNeeds(s, r, cb, qs);
    Smaller(qs, Active(s.queries));
    assert Active(DetachAll(s.queries, qs)) == Active(s.queries) - qs;
  }

  lemma SettleInv(s: State, r: Id, cb: nat, qs: set<Id>, fate: Fate, heard: map<Id, seq<Outcome>>)
    requires CanSettle(s, r, cb, qs, fate, heard)
    ensures Inv(Settle(s, r, cb, qs, fate, heard))
  {
    hide Inv, QueryOk, MemberOk, MultiOk, FateOk, Waiting, Counted, SentOk, Settle;
    var s' := Settle(s, r, cb, qs, fate, heard);
    SettleCounts(s, r, cb, qs, fate, heard);
    forall p | p in s'.queries ensures QueryOk(s', p) { SettleQuery(s, r, cb, qs, fate, heard, p); }
    forall c, x | c in s'.sets && x in s'.sets[c] ensures MemberOk(s', c, x) {
      SettleMember(s, r, cb, qs, fate, heard, c, x);
    }
    forall n | n in s'.multis ensures MultiOk(s', n) { SettleMulti(s, r, cb, qs, fate, heard, n); }
    forall f ensures Waiting(s', f) ==> f in s'.fates { SettleFate(s, r, cb, qs, fate, heard, f); }
    forall f | f in s'.fates ensures FateOk(s', f) { SettleFate(s, r, cb, qs, fate, heard, f); }
    InvBy(s');
  }

  /** Only the settled request stops waiting. */
  lemma SettleWaits(s: State, r: Id, cb: nat, qs: set<Id>, fate: Fate, heard: map<Id, seq<Outcome>>, f: Id)
    requires Inv(s) && Settles(s, r, cb, qs) && |qs| <= s.refcnt
    ensures Waiting(Settle(s, r, cb, qs, fate, heard), f) <==> Waiting(s, f) && f != r
  {
    hide Inv;
    SettleNeeds(s, r, cb, qs);
    if r in s.multis { MultiIs(s, r); }
    if r in s.queries { QueryIs(s, r); }
  }
}
