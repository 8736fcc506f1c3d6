/** Runs of the resolver: what every interleaving of events makes of every request, told from the events. */
module DnsRuns {
  import opened DnsState
  import opened DnsResolver

  datatype Event =
    | DoResolveOne(cb: nat, timer: bool)
    | DoResolveBoth(cb: nat, timer: bool)
    | DoReply(q: Id, reply: Reply)
    | DoTimeout(q: Id)
    | DoCancel(cb: nat)

  // ----- The run -----

  /** What an event does if it can happen: replies need an outstanding query, timeouts a timer. */
  ghost function Step(s: State, e: Event): (s': State)
    requires Inv(s)
    ensures Inv(s') && Grows(s, s')
  {
    StepInv(s, e);
    Effect(s, e)
  }

  ghost function Effect(s: State, e: Event): State
    requires Inv(s)
  {
    match e
    case DoResolveOne(cb, timer) => OpenOne(s, cb, timer)
    case DoResolveBoth(cb, timer) => OpenBoth(s, cb, timer)
    case DoReply(q, reply) => if q in s.queries then Replied(s, q, reply) else s
    case DoTimeout(q) =>
      if q in s.queries && s.queries[q].timer then
        QueryIs(s, q);
        Complete(s, q, Failure(TimedOut))
      else s
    case DoCancel(cb) => Cancelled(s, cb)
  }

  ghost function Replied(s: State, q: Id, reply: Reply): State
    requires Inv(s) && q in s.queries
  {
    match reply
    case Answered(a) => Finished(s, q, Success(a))
    case Failed(e) => Finished(s, q, Failure(e))
    case Alias => Aliased(s, q)
  }

  lemma StepInv(s: State, e: Event)
    requires Inv(s)
    ensures Inv(Effect(s, e)) && Grows(s, Effect(s, e))
  {
    hide Inv, Complete, Finished, Aliased, Cancelled;
    match e
    case DoResolveOne(cb, timer) =>
      Unused(s, s.nextId);
      OpenOneInv(s, cb, timer);
    case DoResolveBoth(cb, timer) =>
      Unused(s, s.nextId);
      OpenBothInv(s, cb, timer);
    case DoReply(q, reply) => if q in s.queries { RepliedInv(s, q, reply); }
    case DoTimeout(q) =>
      if q in s.queries && s.queries[q].timer {
        QueryIs(s, q);
        CompleteInv(s, q, Failure(TimedOut));
      }
    case DoCancel(cb) =>
      CancelledInv(s, cb);
      CancelledGrows(s, cb);
  }

  lemma RepliedInv(s: State, q: Id, reply: Reply)
    requires Inv(s) && q in s.queries
    ensures Inv(Replied(s, q, reply)) && Grows(s, Replied(s, q, reply))
  {
    hide Inv, Finished, Aliased;
    match reply
    case Answered(a) => FinishedInv(s, q, Success(a));
    case Failed(e) => FinishedInv(s, q, Failure(e));
    case Alias => AliasedInv(s, q);
  }

  lemma CancelledGrows(s: State, cb: nat)
    requires Inv(s)
    ensures Grows(s, Cancelled(s, cb))
  {
    hide Inv;
    forall r | r in SetOf(s, cb) ensures r in s.fates ==> s.fates[r].results == [] {
      MemberIs(s, cb, r);
      FateIs(s, r);
    }
  }

  /** The state after a run. */
  ghost function After(s: State, events: seq<Event>): (s': State)
    requires Inv(s)
    ensures Inv(s')
  {
    if events == [] then s else Step(After(s, events[..|events| - 1]), events[|events| - 1])
  }

  method Handle(d: Resolver, e: Event)
    requires d.Valid()
    modifies d
    ensures d.Valid() && d.View() == Step(old(d.View()), e)
  {
    hide Inv, Complete, Finished, Aliased, Cancelled;
    StepInv(d.View(), e);
    match e
    case DoResolveOne(cb, timer) => var _ := d.ResolveOne(cb, timer);
    case DoResolveBoth(cb, timer) => var _ := d.ResolveBoth(cb, timer);
    case DoReply(q, reply) => if q in d.queries { d.QueryCallback(q, reply); }
    case DoTimeout(q) => if q in d.queries && d.queries[q].timer { d.TimeoutExpired(q); }
    case DoCancel(cb) => d.CancelResolution(cb);
  }

  /** In every interleaving each request waits, was cancelled without a result, or got exactly one result. */
  method HandleAll(d: Resolver, events: seq<Event>)
    requires d.Valid()
    modifies d
    ensures d.Valid() && d.View() == After(old(d.View()), events) && Grows(old(d.View()), d.View())
    ensures d.channelRefcnt == |Active(d.queries)|
    ensures forall r :: r in d.fates ==> OneFate(d.View(), r)
    ensures forall q :: q in d.sent ==> d.sent[q] <= MAX_CNAMES + 1
    ensures d.queries == map[] ==> forall r :: r in d.fates ==> !Waiting(d.View(), r)
  {
    hide Inv, Effect;
    var i := 0;
    while i < |events|
      invariant 0 <= i <= |events| && d.Valid() && Grows(old(d.View()), d.View())
      invariant d.View() == After(old(d.View()), events[..i])
    {
      ghost var before := d.View();
      Handle(d, events[i]);
      GrowsOn(old(d.View()), before, d.View());
      assert events[..i + 1][..i] == events[..i];
      i := i + 1;
    }
    assert events[..i] == events;
    InvCounts(d.View());
    forall r | r in d.fates ensures OneFate(d.View(), r) { FateOnce(d.View(), r); }
    if d.queries == map[] { AllSettled(d.View()); }
  }

  /** The promise to the user. */
  predicate OneFate(s: State, r: Id)
    requires r in s.fates
  {
    var f := s.fates[r];
    if Waiting(s, r) then !f.cancelled && f.results == []
    else if f.cancelled then f.results == []
    else |f.results| == 1 && (r in s.heard ==> f.results == [Combine(s.heard[r])])
  }

  lemma FateOnce(s: State, r: Id)
    requires Inv(s) && r in s.fates
    ensures OneFate(s, r)
  {
    FateIs(s, r);
  }

  /** When no reply is outstanding, nobody waits. */
  lemma AllSettled(s: State)
    requires Inv(s) && s.queries == map[]
    ensures s.refcnt == 0 && forall r :: r in s.fates ==> !Waiting(s, r)
  {
    hide Inv;
    InvCounts(s);
    assert Active(s.queries) == {};
    forall r | r in s.fates ensures !Waiting(s, r) {
      if r in s.multis {
        MultiIs(s, r);
        NoSubs(s.multis[r].subs, s.queries);
      }
    }
  }

  lemma NoSubs(subs: set<Id>, queries: map<Id, Query>)
    requires queries == map[] && forall q :: q in subs ==> q in queries
    ensures |subs| == 0
  {
    assert subs == {};
  }

  /** A fan-out fails exactly when none of its queries had an answer. */
  lemma {:induction false} CombineFails(os: seq<Outcome>)
    ensures Combine(os).Failure? <==> forall i :: 0 <= i < |os| ==> os[i].Failure? || os[i].answers == []
    decreases |os|
  {
    if os != [] {
      var a, o := os[..|os| - 1], os[|os| - 1];
      CombineFails(a);
      assert forall i :: 0 <= i < |a| ==> a[i] == os[i];
      assert os[|os| - 1] == o;
    }
  }

  // ----- What one event does to one request -----

  predicate Requests(e: Event, cb: nat) { (e.DoResolveOne? || e.DoResolveBoth?) && e.cb == cb }

  predicate IsRequest(e: Event) { e.DoResolveOne? || e.DoResolveBoth? }

  /** Who gets what from an event. */
  datatype Delivery = Nothing | To(r: Id, o: Outcome)

  /** Where the outcome of a query goes: to its request, with the outcomes heard before if it was the last of two. */
  function Passed(s: State, q: Id, o: Outcome): Delivery {
    if q !in s.queries then Nothing
    else match s.queries[q].callback
      case None => Nothing
      case Some(User(_)) => To(q, o)
      case Some(Parent(m)) =>
        if m in s.multis && m in s.heard && s.multis[m].pending == 1 then To(m, Combine(s.heard[m] + [o])) else Nothing
  }

  function Delivers(s: State, e: Event): Delivery {
    match e
    case DoReply(q, Answered(a)) => Passed(s, q, Success(a))
    case DoReply(q, Failed(status)) => Passed(s, q, Failure(status))
    case DoReply(q, Alias) =>
      if q in s.queries && s.queries[q].cnames >= MAX_CNAMES then Passed(s, q, Failure(TooManyRedirects)) else Nothing
    case DoTimeout(q) => if q in s.queries && s.queries[q].timer then Passed(s, q, Failure(TimedOut)) else Nothing
    case _ => Nothing
  }

  /** A cancellation of the callback that the request waits for. */
  predicate Cancels(s: State, e: Event, r: Id) { e.DoCancel? && MemberOk(s, e.cb, r) }

  predicate FateAfter(s: State, e: Event, r: Id, s': State) {
    && (r in s'.fates <==> r in s.fates || (IsRequest(e) && r == s.nextId))
    && (r in s'.fates ==>
          s'.fates[r] == if r !in s.fates then Fate(false, [])
                         else if Cancels(s, e, r) then Fate(true, [])
                         else match Delivers(s, e)
                           case Nothing => s.fates[r]
                           case To(x, o) => if x == r then Fate(false, [o]) else s.fates[r])
  }

  /** Requests are given out one after the other, and a request that waits has been waiting for the same callback. */
  ghost predicate WaitsAfter(s: State, e: Event, r: Id, s': State) {
    && s.nextId <= s'.nextId && (IsRequest(e) ==> s.nextId < s'.nextId)
    && forall cb :: MemberOk(s', cb, r) ==> MemberOk(s, cb, r) || (Requests(e, cb) && r == s.nextId)
  }

  lemma StepIs(s: State, e: Event, r: Id)
    requires Inv(s)
    ensures FateAfter(s, e, r, Step(s, e)) && WaitsAfter(s, e, r, Step(s, e))
  {
    hide Inv, FateAfter, WaitsAfter, Complete, Finished, Aliased, Cancelled;
    match e
    case DoResolveOne(cb, timer) => OpenIs(s, e, r);
    case DoResolveBoth(cb, timer) => OpenIs(s, e, r);
    case DoReply(q, reply) => if q in s.queries { ReplyIs(s, q, reply, r); } else { IdleIs(s, e, r); }
    case DoTimeout(q) =>
      if q in s.queries && s.queries[q].timer { TimeoutIs(s, q, r); } else { IdleIs(s, e, r); }
    case DoCancel(cb) => CancelIs(s, cb, r);
  }

  lemma IdleIs(s: State, e: Event, r: Id)
    requires (e.DoReply? && e.q !in s.queries) || (e.DoTimeout? && !(e.q in s.queries && s.queries[e.q].timer))
    ensures FateAfter(s, e, r, s) && WaitsAfter(s, e, r, s)
  {
  }

  lemma OpenIs(s: State, e: Event, r: Id)
    requires Inv(s) && IsRequest(e)
    ensures FateAfter(s, e, r, Effect(s, e)) && WaitsAfter(s, e, r, Effect(s, e))
  {
    hide Inv;
    Unused(s, s.nextId);
  }

  lemma CancelIs(s: State, cb: nat, r: Id)
    requires Inv(s)
    ensures FateAfter(s, DoCancel(cb), r, Cancelled(s, cb)) && WaitsAfter(s, DoCancel(cb), r, Cancelled(s, cb))
  {
    hide Inv;
    MembersAre(s, cb, r);
    if r in SetOf(s, cb) { FateIs(s, r); }
  }

  /** The sets of the callbacks hold exactly the requests that wait. */
  lemma MembersAre(s: State, cb: nat, r: Id)
    requires Inv(s)
    ensures r in SetOf(s, cb) <==> MemberOk(s, cb, r)
  {
    hide Inv;
    if r in SetOf(s, cb) { MemberIs(s, cb, r); }
    if r in s.queries { QueryIs(s, r); }
    if r in s.multis { MultiIs(s, r); }
  }

  /** What the outcome of a query does to one request. */
  ghost predicate PassedOn(s: State, q: Id, o: Outcome, r: Id, s': State) {
    && s'.fates.Keys == s.fates.Keys && s'.nextId == s.nextId
    && (r in s.fates ==>
          s'.fates[r] == match Passed(s, q, o)
                         case Nothing => s.fates[r]
                         case To(x, v) => if x == r then Fate(false, [v]) else s.fates[r])
    && forall cb :: MemberOk(s', cb, r) ==> MemberOk(s, cb, r)
  }

  lemma CompleteIs(s: State, q: Id, o: Outcome, r: Id)
    requires Inv(s) && q in s.queries && s.queries[q].callback.Some?
    ensures PassedOn(s, q, o, r, Complete(s, q, o))
  {
    hide Inv, Combine, AllAnswers, LastError;
    QueryIs(s, q);
    match s.queries[q].callback.value
    case User(cb) => FateIs(s, q);
    case Parent(m) =>
      MultiIs(s, m);
      FateIs(s, m);
      VerdictIs(s, m, q, o);
  }

  lemma VerdictIs(s: State, m: Id, q: Id, o: Outcome)
    requires m in s.multis && MultiOk(s, m)
    ensures Verdict(Collect(s.multis[m], q, o)) == Combine(s.heard[m] + [o])
  {
    HeardSnoc(s.heard[m], o);
  }

  lemma FinishedIs(s: State, q: Id, o: Outcome, r: Id)
    requires Inv(s) && q in s.queries
    ensures PassedOn(s, q, o, r, Finished(s, q, o))
  {
    hide Inv, Complete;
    if s.queries[q].callback.Some? { CompleteIs(s, q, o, r); }
  }

  lemma ReplyIs(s: State, q: Id, reply: Reply, r: Id)
    requires Inv(s) && q in s.queries
    ensures FateAfter(s, DoReply(q, reply), r, Replied(s, q, reply))
    ensures WaitsAfter(s, DoReply(q, reply), r, Replied(s, q, reply))
  {
    hide Inv, Finished;
    QueryIs(s, q);
    match reply
    case Answered(a) => FinishedIs(s, q, Success(a), r);
    case Failed(e) => FinishedIs(s, q, Failure(e), r);
    case Alias =>
      FinishedIs(s, q, Failure(TooManyRedirects), r);
      FinishedIs(s, q, Failure(TimedOut), r);
  }

  lemma TimeoutIs(s: State, q: Id, r: Id)
    requires Inv(s) && q in s.queries && s.queries[q].timer
    ensures FateAfter(s, DoTimeout(q), r, Effect(s, DoTimeout(q)))
    ensures WaitsAfter(s, DoTimeout(q), r, Effect(s, DoTimeout(q)))
  {
    hide Inv, Complete;
    QueryIs(s, q);
    CompleteIs(s, q, Failure(TimedOut), r);
  }

  // ----- What a run does to one request -----

  /** The state in which event `i` of a run from the start happens. */
  ghost function At(events: seq<Event>, i: nat): (s: State)
    requires i <= |events|
    ensures Inv(s)
  {
    IdleInv();
    After(IDLE, events[..i])
  }

  lemma AtNext(events: seq<Event>, i: nat)
    requires i < |events|
    ensures At(events, i + 1) == Step(At(events, i), events[i])
  {
    hide Inv, Effect;
    IdleInv();
    assert events[..i + 1][..i] == events[..i];
  }

  /** Event `j` makes request `r` for callback `cb`. */
  ghost predicate Asked(events: seq<Event>, j: nat, r: Id, cb: nat) {
    j < |events| && Requests(events[j], cb) && r == At(events, j).nextId
  }

  /** There is exactly one request for every request event. */
  lemma {:induction false} AskedExactly(events: seq<Event>, i: nat, r: Id)
    requires i <= |events|
    ensures r in At(events, i).fates <==> exists j: nat, cb: nat :: j < i && Asked(events, j, r, cb)
    ensures forall j: nat, cb: nat :: j < i && Asked(events, j, r, cb) ==> r < At(events, i).nextId
    decreases i
  {
    hide Inv, At, Effect;
    if i == 0 {
      AtStart(events);
    } else {
      AskedExactly(events, i - 1, r);
      AtNext(events, i - 1);
      StepIs(At(events, i - 1), events[i - 1], r);
      var e := events[i - 1];
      if IsRequest(e) && r == At(events, i - 1).nextId { assert Asked(events, i - 1, r, e.cb); }
    }
  }

  lemma AtStart(events: seq<Event>)
    ensures At(events, 0) == IDLE
  {
    hide Inv;
    IdleInv();
    assert events[..0] == [];
  }

  /** A request waits only for the callback that it was made for. */
  lemma {:induction false} WaitsFor(events: seq<Event>, i: nat, r: Id, cb: nat)
    requires i <= |events| && MemberOk(At(events, i), cb, r)
    ensures exists j: nat :: j < i && Asked(events, j, r, cb)
    decreases i
  {
    hide Inv, At, Effect, MemberOk;
    if i == 0 {
      AtStart(events);
      NobodyWaits(cb, r);
      assert false;
    } else {
      AtNext(events, i - 1);
      StepIs(At(events, i - 1), events[i - 1], r);
      if MemberOk(At(events, i - 1), cb, r) {
        WaitsFor(events, i - 1, r, cb);
      } else {
        assert Asked(events, i - 1, r, cb);
      }
    }
  }

  lemma NobodyWaits(cb: nat, r: Id)
    ensures !MemberOk(IDLE, cb, r)
  {
  }

  /** A request is made once. */
  lemma AskedOnce(events: seq<Event>, i: nat, a: nat, j: nat, b: nat, r: Id)
    requires Asked(events, i, r, a) && Asked(events, j, r, b)
    ensures i == j && a == b
  {
    hide Inv, At, Effect;
    if i < j {
      AskedExactly(events, j, r);
    } else if j < i {
      AskedExactly(events, i, r);
    }
  }

  /** At event `i`, a cancellation of its callback, the request waits. */
  ghost predicate CancelledAt(events: seq<Event>, r: Id, j: nat, i: nat, cb: nat) {
    j < i < |events| && Asked(events, j, r, cb) && events[i] == DoCancel(cb) && Waiting(At(events, i), r)
  }

  lemma CancelsIs(events: seq<Event>, r: Id, i: nat)
    requires i < |events|
    ensures Cancels(At(events, i), events[i], r) <==> exists j: nat, cb: nat :: CancelledAt(events, r, j, i, cb)
  {
    hide Inv, At, Effect;
    var s := At(events, i);
    if Cancels(s, events[i], r) {
      WaitsFor(events, i, r, events[i].cb);
      var j: nat :| j < i && Asked(events, j, r, events[i].cb);
      assert CancelledAt(events, r, j, i, events[i].cb);
    }
    if j: nat, cb: nat :| CancelledAt(events, r, j, i, cb) {
      var c := if r in s.multis then s.multis[r].callback else s.queries[r].callback.value.cb;
      assert MemberOk(s, c, r);
      WaitsFor(events, i, r, c);
      var k: nat :| k < i && Asked(events, k, r, c);
      AskedOnce(events, j, cb, k, c, r);
    }
  }

  /** A request is cancelled exactly if a cancellation of its callback comes while it waits. */
  lemma {:induction false} CancelledExactly(events: seq<Event>, n: nat, r: Id)
    requires n <= |events|
    ensures (r in At(events, n).fates && At(events, n).fates[r].cancelled) <==>
            exists i: nat, j: nat, cb: nat :: i < n && CancelledAt(events, r, j, i, cb)
    decreases n
  {
    hide Inv, At, Effect, CancelledAt;
    if n == 0 {
      AtStart(events);
    } else {
      var i := n - 1;
      CancelledExactly(events, i, r);
      AtNext(events, i);
      StepIs(At(events, i), events[i], r);
      CancelsIs(events, r, i);
      Settled(At(events, i), events[i], r);
      if Cancels(At(events, i), events[i], r) {
        var j: nat, cb: nat :| CancelledAt(events, r, j, i, cb);
        assert i < n && CancelledAt(events, r, j, i, cb);
      }
    }
  }

  /** What is cancelled or delivered to was waiting, and a request that waits has no history yet. */
  lemma Settled(s: State, e: Event, r: Id)
    requires Inv(s)
    ensures Cancels(s, e, r) ==> r in s.fates && s.fates[r] == Fate(false, []) && Delivers(s, e) == Nothing
    ensures Delivers(s, e).To? && Delivers(s, e).r == r ==> r in s.fates && s.fates[r] == Fate(false, [])
  {
    hide Inv, Combine;
    FateIs(s, r);
  }

  /** A request has a result exactly if an event of the run delivered it, and then it is that one. */
  lemma {:induction false} ResultExactly(events: seq<Event>, n: nat, r: Id, o: Outcome)
    requires n <= |events|
    ensures (r in At(events, n).fates && At(events, n).fates[r].results == [o]) <==>
            exists i :: 0 <= i < n && Delivers(At(events, i), events[i]) == To(r, o)
    decreases n
  {
    hide Inv, At, Effect, Delivers;
    if n == 0 {
      AtStart(events);
    } else {
      var i := n - 1;
      ResultExactly(events, i, r, o);
      AtNext(events, i);
      StepIs(At(events, i), events[i], r);
      Settled(At(events, i), events[i], r);
      if r in At(events, i).fates { OnlyOne(At(events, i), r); }
    }
  }

  lemma OnlyOne(s: State, r: Id)
    requires Inv(s) && r in s.fates
    ensures |s.fates[r].results| <= 1 && (s.fates[r].cancelled ==> s.fates[r].results == [])
  {
    FateIs(s, r);
  }
}
