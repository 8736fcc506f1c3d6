/** The resolver object: replies, aliases, timeouts and cancellations in any order. */
module DnsResolver {
  import opened DnsState

  // ----- The steps of the handlers -----

  /** A result for a query that still has a callback. */
  lemma CompleteInv(s: State, q: Id, o: Outcome)
    requires Inv(s) && q in s.queries && s.queries[q].callback.Some?
    ensures Inv(Complete(s, q, o))
    ensures q in Complete(s, q, o).queries && Complete(s, q, o).queries[q] == Detached(s.queries[q])
    ensures Grows(s, Complete(s, q, o))
  {
    hide Inv, Settle;
    QueryIs(s, q);
    match s.queries[q].callback.value
    case User(cb) => CompleteUser(s, q, cb, o);
    case Parent(m) =>
      MultiIs(s, m);
      if s.multis[m].pending > 1 {
        CompleteMore(s, q, m, o);
      } else {
        CompleteLast(s, q, m, o);
      }
  }

  /** Histories only get longer. */
  ghost predicate Grows(s: State, s': State) {
    forall r :: r in s.fates ==> r in s'.fates && FateGrows(s.fates[r], s'.fates[r])
  }

  predicate FateGrows(f: Fate, f': Fate) { f.results <= f'.results && (f.cancelled ==> f'.cancelled) }

  lemma GrowsOn(s: State, t: State, u: State)
    requires Grows(s, t) && Grows(t, u)
    ensures Grows(s, u)
  {
  }

  lemma CompleteUser(s: State, q: Id, cb: nat, o: Outcome)
    requires Inv(s) && q in s.queries && s.queries[q].callback == Some(User(cb))
    ensures Inv(Complete(s, q, o)) && Grows(s, Complete(s, q, o))
    ensures Complete(s, q, o).queries == s.queries[q := Detached(s.queries[q])]
  {
    hide Inv;
    QueryIs(s, q);
    FateIs(s, q);
    var fate := Fate(false, [o]);
    assert Settles(s, q, cb, {q}) && LastEntry(s, q, fate, s.heard);
    SettleNeeds(s, q, cb, {q});
    SettleInv(s, q, cb, {q}, fate, s.heard);
    assert DetachAll(s.queries, {q}) == s.queries[q := Detached(s.queries[q])];
    assert s.multis - {q} == s.multis;
    assert s.fates[q].results + [o] == [o];
    assert Complete(s, q, o) == Settle(s, q, cb, {q}, fate, s.heard);
  }

  lemma CompleteMore(s: State, q: Id, m: Id, o: Outcome)
    requires Inv(s) && q in s.queries && s.queries[q].callback == Some(Parent(m)) && m in s.multis &&
        s.multis[m].pending > 1
    ensures Inv(Complete(s, q, o)) && Grows(s, Complete(s, q, o))
    ensures Complete(s, q, o).queries == s.queries[q := Detached(s.queries[q])]
  {
    hide Inv, Combine, AllAnswers, LastError;
    HearMoreInv(s, m, q, o);
    QueryIs(s, q);
    MultiIs(s, m);
    assert Complete(s, q, o) == HearMore(s, m, q, o);
  }

  lemma CompleteLast(s: State, q: Id, m: Id, o: Outcome)
    requires Inv(s) && q in s.queries && s.queries[q].callback == Some(Parent(m)) && m in s.multis &&
        s.multis[m].pending == 1
    ensures Inv(Complete(s, q, o)) && Grows(s, Complete(s, q, o))
    ensures Complete(s, q, o).queries == s.queries[q := Detached(s.queries[q])]
  {
    hide Inv;
    QueryIs(s, q);
    MultiIs(s, m);
    FateIs(s, m);
    var x := s.multis[m];
    OnlyMember(x.subs, q);
    var heard := s.heard[m := s.heard[m] + [o]];
    HeardSnoc(s.heard[m], o);
    var fate := Fate(false, [Combine(heard[m])]);
    assert Verdict(Collect(x, q, o)) == Combine(heard[m]);
    assert Settles(s, m, x.callback, {q}) && LastEntry(s, m, fate, heard);
    SettleNeeds(s, m, x.callback, {q});
    SettleInv(s, m, x.callback, {q}, fate, heard);
    assert DetachAll(s.queries, {q}) == s.queries[q := Detached(s.queries[q])];
    assert s.fates[m].results + [Combine(heard[m])] == [Combine(heard[m])];
    assert Complete(s, q, o) == Settle(s, m, x.callback, {q}, fate, heard);
  }

  lemma OnlyMember(xs: set<Id>, x: Id)
    requires |xs| == 1 && x in xs
    ensures xs == {x}
  {
    assert |xs - {x}| == 0;
  }

  // ----- The specification of the handlers -----

  /** The end of a query: its result goes to the callback if there is one, and the query is deleted. */
  ghost function Finished(s: State, q: Id, o: Outcome): State
    requires Inv(s) && q in s.queries
  {
    Drop(if s.queries[q].callback.Some? then Complete(s, q, o) else s, q)
  }

  /** What a reply without addresses but with an alias does. */
  ghost function Aliased(s: State, q: Id): State
    requires Inv(s) && q in s.queries
  {
    QueryIs(s, q);
    if s.queries[q].cnames >= MAX_CNAMES then Finished(s, q, Failure(TooManyRedirects))
    else if s.queries[q].callback.None? then Finished(s, q, Failure(TimedOut))
    else Requery(s, q)
  }

  lemma FinishedInv(s: State, q: Id, o: Outcome)
    requires Inv(s) && q in s.queries
    ensures Inv(Finished(s, q, o)) && Grows(s, Finished(s, q, o))
  {
    hide Inv, Complete;
    if s.queries[q].callback.Some? {
      CompleteInv(s, q, o);
      DropInv(Complete(s, q, o), q);
    } else {
      DropInv(s, q);
    }
  }

  lemma AliasedInv(s: State, q: Id)
    requires Inv(s) && q in s.queries
    ensures Inv(Aliased(s, q)) && Grows(s, Aliased(s, q))
  {
    hide Inv, Finished;
    QueryIs(s, q);
    FinishedInv(s, q, Failure(TooManyRedirects));
    FinishedInv(s, q, Failure(TimedOut));
    if s.queries[q].cnames < MAX_CNAMES { RequeryInv(s, q); }
  }

  /** The request that a query works for. */
  function RequestOf(x: Query, q: Id): Id
    requires x.callback.Some?
  {
    match x.callback.value
    case User(_) => q
    case Parent(m) => m
  }

  function QueriesOf(s: State, rs: set<Id>): set<Id> {
    set q | q in s.queries && s.queries[q].callback.Some? && RequestOf(s.queries[q], q) in rs
  }

  /** The requests `rs`, all of one callback, are cancelled. */
  ghost function CancelSome(s: State, cb: nat, rs: set<Id>): State {
    var left := DetachAll(s.queries, QueriesOf(s, rs));
    s.(refcnt := |Active(left)|,
       queries := left,
       multis := s.multis - rs,
       sets := s.sets[cb := SetOf(s, cb) - rs],
       fates := map r | r in s.fates :: if r in rs then Fate(true, []) else s.fates[r])
  }

  /** Every request that waits for a callback is cancelled. */
  ghost function Cancelled(s: State, cb: nat): State {
    if cb in s.sets then CancelSome(s, cb, s.sets[cb]) else s
  }

  lemma CancelNone(s: State, cb: nat)
    requires Inv(s) && cb in s.sets
    ensures CancelSome(s, cb, {}) == s
  {
    hide Inv;
    InvCounts(s);
    assert QueriesOf(s, {}) == {};
    assert DetachAll(s.queries, {}) == s.queries && s.multis - {} == s.multis;
    assert SetOf(s, cb) - {} == s.sets[cb];
    assert CancelSome(s, cb, {}).sets == s.sets && CancelSome(s, cb, {}).fates == s.fates;
  }

  lemma QueriesOfOne(s: State, cb: nat, r: Id)
    requires Inv(s) && r in SetOf(s, cb)
    ensures QueriesOf(s, {r}) == if r in s.multis then s.multis[r].subs else {r}
  {
    hide Inv;
    var qs := if r in s.multis then s.multis[r].subs else {r};
    SettleNeeds(s, r, cb, qs);
    if r in s.multis { MultiIs(s, r); }
    forall q | q in QueriesOf(s, {r}) ensures q in qs { QueryIs(s, q); }
  }

  lemma CancelNext(s: State, cb: nat, rs: set<Id>, r: Id)
    requires Inv(s) && Inv(CancelSome(s, cb, rs)) && rs <= SetOf(s, cb) && r in SetOf(s, cb) - rs
    ensures var t := CancelSome(s, cb, rs);
            && r in SetOf(t, cb)
            && QueriesOf(s, {r}) == (if r in t.multis then t.multis[r].subs else {r})
            && |QueriesOf(s, {r})| <= t.refcnt
            && Settle(t, r, cb, QueriesOf(s, {r}), Fate(true, []), t.heard) == CancelSome(s, cb, rs + {r})
            && Inv(CancelSome(s, cb, rs + {r}))
  {
    hide Inv, Active, DetachAll, QueriesOf;
    var t, qs := CancelSome(s, cb, rs), QueriesOf(s, {r});
    QueriesOfOne(s, cb, r);
    CancelInv(t, cb, r);
    MemberIs(s, cb, r);
    InvCounts(Settle(t, r, cb, qs, Fate(true, []), t.heard));
    CancelSettles(s, cb, rs, r);
  }

  lemma CancelSettles(s: State, cb: nat, rs: set<Id>, r: Id)
    requires r in s.fates && |QueriesOf(s, {r})| <= CancelSome(s, cb, rs).refcnt
    requires var t := CancelSome(s, cb, rs); Counted(Settle(t, r, cb, QueriesOf(s, {r}), Fate(true, []), t.heard))
    ensures var t := CancelSome(s, cb, rs);
            Settle(t, r, cb, QueriesOf(s, {r}), Fate(true, []), t.heard) == CancelSome(s, cb, rs + {r})
  {
    hide Active, DetachAll, QueriesOf;
    var t, v := CancelSome(s, cb, rs), CancelSome(s, cb, rs + {r});
    var u := Settle(t, r, cb, QueriesOf(s, {r}), Fate(true, []), t.heard);
    DetachUnion(s, rs, r);
    assert SetOf(s, cb) - (rs + {r}) == SetOf(s, cb) - rs - {r};
    assert u.multis == v.multis && u.sets == v.sets && u.fates == v.fates;
  }

  lemma DetachUnion(s: State, rs: set<Id>, r: Id)
    ensures DetachAll(DetachAll(s.queries, QueriesOf(s, rs)), QueriesOf(s, {r}))
         == DetachAll(s.queries, QueriesOf(s, rs + {r}))
  {
    assert QueriesOf(s, rs + {r}) == QueriesOf(s, rs) + QueriesOf(s, {r});
  }

  lemma {:induction false} CancelSomeInv(s: State, cb: nat, rs: set<Id>)
    requires Inv(s) && cb in s.sets && rs <= s.sets[cb]
    ensures Inv(CancelSome(s, cb, rs))
    decreases rs
  {
    hide Inv, CancelSome;
    if rs == {} {
      CancelNone(s, cb);
    } else {
      var r :| r in rs;
      CancelSomeInv(s, cb, rs - {r});
      CancelNext(s, cb, rs - {r}, r);
      assert rs - {r} + {r} == rs;
    }
  }

  lemma CancelledInv(s: State, cb: nat)
    requires Inv(s)
    ensures Inv(Cancelled(s, cb))
  {
    hide Inv, CancelSome;
    if cb in s.sets { CancelSomeInv(s, cb, s.sets[cb]); }
  }

  datatype Reply = Answered(answers: seq<string>) | Failed(status: Status) | Alias

  class Resolver {
    var channelRefcnt: nat
    var queries: map<Id, Query>
    var multis: map<Id, Multi>
    var sets: map<nat, set<Id>>
    var nextId: Id
    ghost var fates: map<Id, Fate>
    ghost var heard: map<Id, seq<Outcome>>
    ghost var sent: map<Id, nat>

    ghost function View(): State
      reads this
    {
      State(channelRefcnt, queries, multis, sets, nextId, fates, heard, sent)
    }

    ghost predicate Valid()
      reads this
    {
      Inv(View())
    }

    constructor ()
      ensures View() == IDLE && Valid()
    {
      channelRefcnt, queries, multis, sets, nextId := 0, map[], map[], map[], 0;
      fates, heard, sent := map[], map[], map[];
      IdleInv();
    }

    /** Counts a query and hands it to the channel. */
    method Send(q: Id)
      modifies this`channelRefcnt, this`sent
      ensures channelRefcnt == old(channelRefcnt) + 1
      ensures sent == old(sent)[q := if q in old(sent) then old(sent)[q] + 1 else 1]
    {
      channelRefcnt := channelRefcnt + 1;
      sent := sent[q := if q in sent then sent[q] + 1 else 1];
    }

    method QueryFinished()
      modifies this`channelRefcnt
      ensures channelRefcnt == if old(channelRefcnt) == 0 then 0 else old(channelRefcnt) - 1
    {
      if channelRefcnt == 0 { return; }
      channelRefcnt := channelRefcnt - 1;
    }

    method InsertQuery(cb: nat, x: Id)
      modifies this`sets
      ensures sets == old(sets)[cb := (if cb in old(sets) then old(sets)[cb] else {}) + {x}]
    {
      sets := sets[cb := (if cb in sets then sets[cb] else {}) + {x}];
    }

    method EraseQuery(cb: nat, x: Id)
      modifies this`sets
      ensures sets == old(sets)[cb := (if cb in old(sets) then old(sets)[cb] else {}) - {x}]
    {
      sets := sets[cb := (if cb in sets then sets[cb] else {}) - {x}];
    }

    /** A query for one record type. */
    method ResolveOne(cb: nat, timer: bool) returns (q: Id)
      requires Valid()
      modifies this
      ensures Valid() && View() == OpenOne(old(View()), cb, timer) && q == old(nextId)
    {
      hide Inv;
      OpenOneInv(View(), cb, timer);
      NotSent(View(), nextId);
      q := nextId;
      nextId := q + 1;
      queries := queries[q := Query(Some(User(cb)), 0, timer)];
      InsertQuery(cb, q);
      fates := fates[q := Fate(false, [])];
      Send(q);
    }

    /** Both address families at once. */
    method ResolveBoth(cb: nat, timer: bool) returns (m: Id)
      requires Valid()
      modifies this
      ensures Valid() && View() == OpenBoth(old(View()), cb, timer) && m == old(nextId)
    {
      hide Inv;
      OpenBothInv(View(), cb, timer);
      NotSent(View(), nextId + 1);
      NotSent(View(), nextId + 2);
      m := StartMulti(cb);
      StartSubs(m, timer);
    }

    method StartSubs(m: Id, timer: bool)
      requires m + 1 !in sent && m + 2 !in sent
      modifies this`queries, this`channelRefcnt, this`sent
      ensures var x := Query(Some(Parent(m)), 0, timer); queries == old(queries)[m + 1 := x][m + 2 := x]
      ensures channelRefcnt == old(channelRefcnt) + 2 && sent == old(sent)[m + 1 := 1][m + 2 := 1]
    {
      StartSub(m, m + 1, timer);
      StartSub(m, m + 2, timer);
    }

    method StartMulti(cb: nat) returns (m: Id)
      modifies this`nextId, this`sets, this`fates, this`heard, this`multis
      ensures m == old(nextId) && nextId == m + 3
      ensures sets == old(sets)[cb := (if cb in old(sets) then old(sets)[cb] else {}) + {m}]
      ensures fates == old(fates)[m := Fate(false, [])] && heard == old(heard)[m := []]
      ensures multis == old(multis)[m := Multi(cb, 2, [], None, {m + 1, m + 2})]
    {
      m := nextId;
      nextId := m + 3;
      InsertQuery(cb, m);
      fates, heard := fates[m := Fate(false, [])], heard[m := []];
      multis := multis[m := Multi(cb, 2, [], None, {m + 1, m + 2})];
    }

    method StartSub(m: Id, q: Id, timer: bool)
      requires q !in sent
      modifies this`queries, this`channelRefcnt, this`sent
      ensures queries == old(queries)[q := Query(Some(Parent(m)), 0, timer)]
      ensures channelRefcnt == old(channelRefcnt) + 1 && sent == old(sent)[q := 1]
    {
      queries := queries[q := Query(Some(Parent(m)), 0, timer)];
      Send(q);
    }

    /** The callback of a user is called. */
    method CallUser(cb: nat, r: Id, o: Outcome)
      modifies this`sets, this`fates
      ensures View() == Deliver(old(View()), r, cb, o)
    {
      EraseQuery(cb, r);
      fates := if r in fates then fates[r := fates[r].(results := fates[r].results + [o])] else fates;
    }

    /** The callback of a fan-out is called; with the last result the fan-out ends. */
    method CallParent(m: Id, q: Id, o: Outcome)
      requires m in multis && multis[m].pending > 0 && m in heard
      modifies this`sets, this`fates, this`multis, this`heard
      ensures View() == Hear(old(View()), m, q, o)
    {
      var x := multis[m];
      x := x.(subs := x.subs - {q}, pending := x.pending - 1);
      match o {
        case Success(answers) => x := x.(answers := x.answers + answers);
        case Failure(status) => x := x.(answers := x.answers + [], error := Some(status));
      }
      heard := heard[m := heard[m] + [o]];
      if x.pending > 0 {
        multis := multis[m := x];
        return;
      }
      if x.answers == [] && x.error.None? { x := x.(error := Some(NoData)); }
      multis := multis - {m};
      if x.answers != [] {
        CallUser(x.callback, m, Success(x.answers));
      } else {
        CallUser(x.callback, m, Failure(if x.error.Some? then x.error.value else Unknown));
      }
    }

    /** A query that still has a callback reports its result. */
    method Report(q: Id, o: Outcome)
      requires Valid() && q in queries && queries[q].callback.Some?
      modifies this
      ensures Valid() && View() == Complete(old(View()), q, o)
    {
      hide Inv;
      CompleteInv(View(), q, o);
      QueryIs(View(), q);
      InvCounts(View());
      ActiveCounted(View(), q);
      var owner := queries[q].callback.value;
      queries := queries[q := Detached(queries[q])];
      QueryFinished();
      match owner {
        case User(cb) => CallUser(cb, q, o);
        case Parent(m) =>
          MultiIs(old(View()), m);
          CallParent(m, q, o);
      }
    }

    /** fail() and succeed(). */
    method Finish(q: Id, o: Outcome)
      requires Valid() && q in queries
      modifies this
      ensures Valid() && View() == Finished(old(View()), q, o)
    {
      hide Inv, Complete;
      FinishedInv(View(), q, o);
      if queries[q].callback.Some? { Report(q, o); }
      queries := queries - {q};
    }

    method CheckForCName(q: Id)
      requires Valid() && q in queries
      modifies this
      ensures Valid() && View() == Aliased(old(View()), q)
    {
      hide Inv, Finished;
      AliasedInv(View(), q);
      QueryIs(View(), q);
      if queries[q].cnames >= MAX_CNAMES {
        Finish(q, Failure(TooManyRedirects));
        return;
      }
      if queries[q].callback.None? {
        Finish(q, Failure(TimedOut));
        return;
      }
      queries := queries[q := queries[q].(cnames := queries[q].cnames + 1)];
      Send(q);
      QueryFinished();
    }

    /** The channel calls back exactly once for every query it was given. */
    method QueryCallback(q: Id, reply: Reply)
      requires Valid() && q in queries
      modifies this
      ensures Valid()
      ensures View() == match reply
                        case Answered(a) => Finished(old(View()), q, Success(a))
                        case Failed(e) => Finished(old(View()), q, Failure(e))
                        case Alias => Aliased(old(View()), q)
    {
      hide Inv, Finished, Aliased;
      match reply
      case Answered(a) => Finish(q, Success(a));
      case Failed(e) => Finish(q, Failure(e));
      case Alias => CheckForCName(q);
    }

    /** The query stays behind to take the reply. */
    method TimeoutExpired(q: Id)
      requires Valid() && q in queries && queries[q].timer
      modifies this
      ensures Valid() && old(queries[q].callback.Some?) && View() == Complete(old(View()), q, Failure(TimedOut))
    {
      hide Inv, Complete;
      QueryIs(View(), q);
      Report(q, Failure(TimedOut));
    }

    /** cancelResolutionImpl() of a query: it stays behind to take the reply. */
    method CancelQuery(q: Id)
      requires q in queries
      modifies this`queries, this`channelRefcnt
      ensures queries == old(queries)[q := Detached(old(queries)[q])]
      ensures channelRefcnt == if old(channelRefcnt) == 0 then 0 else old(channelRefcnt) - 1
    {
      queries := queries[q := queries[q].(callback := None, timer := false)];
      QueryFinished();
    }

    /** Cancels the queries of a fan-out. */
    method CancelSubs(m: Id)
      requires m in multis && multis[m].subs <= queries.Keys && |multis[m].subs| <= channelRefcnt
      modifies this`queries, this`channelRefcnt
      ensures queries == DetachAll(old(queries), multis[m].subs)
      ensures channelRefcnt == old(channelRefcnt) - |multis[m].subs|
    {
      hide DetachAll;
      var todo := multis[m].subs;
      ghost var done: set<Id> := {};
      DetachNone(queries);
      while todo != {}
        invariant Split(multis[m].subs, todo, done)
        invariant queries == DetachAll(old(queries), done) && queries.Keys == old(queries).Keys
        invariant channelRefcnt == old(channelRefcnt) - |done|
        decreases todo
      {
        var q :| q in todo;
        DetachMore(old(queries), done, q);
        SplitNext(multis[m].subs, todo, done, q);
        CancelQuery(q);
        todo, done := todo - {q}, done + {q};
      }
      assert done == multis[m].subs;
    }

    /** cancelResolutionImpl() of one member of a callback's set. */
    method CancelOne(cb: nat, r: Id)
      requires Valid() && cb in sets && r in sets[cb]
      modifies this
      ensures Valid()
      ensures var qs := if r in old(multis) then old(multis)[r].subs else {r};
              |qs| <= old(channelRefcnt) && View() == Settle(old(View()), r, cb, qs, Fate(true, []), old(heard))
    {
      hide Inv;
      CancelInv(View(), cb, r);
      if r in multis {
        CancelSubs(r);
        multis := multis - {r};
      } else {
        CancelQuery(r);
        AloneDetached(old(queries), r);
        assert multis - {r} == multis;
      }
      EraseQuery(cb, r);
      fates := fates[r := Fate(true, fates[r].results)];
    }

    /** Cancels every request that waits for a callback. */
    method CancelResolution(cb: nat)
      requires Valid()
      modifies this
      ensures Valid() && View() == Cancelled(old(View()), cb)
    {
      hide Inv, CancelSome, Settle;
      if cb !in sets { return; }
      ghost var s, done: set<Id> := View(), {};
      CancelNone(s, cb);
      while sets[cb] != {}
        invariant Valid() && View() == CancelSome(s, cb, done) && cb in sets
        invariant done <= s.sets[cb] && sets[cb] == s.sets[cb] - done
        decreases sets[cb]
      {
        var r :| r in sets[cb];
        CancelNext(s, cb, done, r);
        CancelOne(cb, r);
        CancelledSet(s, cb, done + {r});
        done := done + {r};
      }
      assert done == s.sets[cb];
    }
  }

  lemma CancelledSet(s: State, cb: nat, rs: set<Id>)
    requires cb in s.sets
    ensures cb in CancelSome(s, cb, rs).sets && CancelSome(s, cb, rs).sets[cb] == s.sets[cb] - rs
  {
  }

  lemma DetachNone(queries: map<Id, Query>)
    ensures DetachAll(queries, {}) == queries
  {
  }

  /** What a loop over a set still has to do, and what it has done. */
  predicate Split(all: set<Id>, todo: set<Id>, done: set<Id>) {
    todo !! done && todo + done == all && |todo| + |done| == |all|
  }

  lemma SplitNext(all: set<Id>, todo: set<Id>, done: set<Id>, q: Id)
    requires Split(all, todo, done) && q in todo
    ensures Split(all, todo - {q}, done + {q}) && q in all && q !in done && |done| < |all| && |done + {q}| == |done| + 1
  {
    assert todo - {q} + (done + {q}) == all;
  }

  lemma DetachMore(queries: map<Id, Query>, done: set<Id>, q: Id)
    requires q in queries && q !in done
    ensures q in DetachAll(queries, done)
    ensures var now := DetachAll(queries, done); now[q := Detached(now[q])] == DetachAll(queries, done + {q})
  {
  }

  lemma AloneDetached(queries: map<Id, Query>, q: Id)
    requires q in queries
    ensures queries[q := Detached(queries[q])] == DetachAll(queries, {q})
  {
  }

  /** Cancelling one request. */
  lemma CancelInv(s: State, cb: nat, r: Id)
    requires Inv(s) && r in SetOf(s, cb)
    ensures r in s.fates && s.fates[r].results == [] && (r !in s.multis ==> r in s.queries)
    ensures r in s.multis ==> s.multis[r].subs <= s.queries.Keys
    ensures var qs := if r in s.multis then s.multis[r].subs else {r};
            |qs| <= s.refcnt && Inv(Settle(s, r, cb, qs, Fate(true, []), s.heard)) &&
            Grows(s, Settle(s, r, cb, qs, Fate(true, []), s.heard))
  {
    hide Inv;
    var qs := if r in s.multis then s.multis[r].subs else {r};
    MemberIs(s, cb, r);
    FateIs(s, r);
    SettleNeeds(s, r, cb, qs);
    SettleInv(s, r, cb, qs, Fate(true, []), s.heard);
  }
}
