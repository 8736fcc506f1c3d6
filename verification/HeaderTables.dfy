/** Runs of operations on any number of header tables that copy, move and hand over headers among each other. */
module HeaderTables {
  import opened Text
  import opened HeaderSlots
  import opened HttpHeaders
  import opened HeaderRuns

  /** What a table stands for: its headers, the slots it has used and how far its count of removed slots is off. */
  datatype Plain = Plain(list: seq<Header>, slots: nat, drift: int)

  const NO_HEADERS := Plain([], 0, 0)

  datatype Step =
    | One(i: nat, op: Op)
    | Hand(i: nat, j: nat, name: string)
    | CopyInto(i: nat, j: nat)
    | Assign(i: nat, j: nat)
    | MoveAssign(i: nat, j: nat)
    | NewCopy(i: nat)
    | NewMoved(i: nat)
    | NewTable

  /** A step names tables that exist; headers go from one table to another one. */
  predicate Allowed(t: Table, s: Step, n: nat) {
    match s
    case One(i, op) => i < n && Legal(t, op)
    case Hand(i, j, _) => i < n && j < n && i != j
    case CopyInto(i, j) => i < n && j < n && i != j
    case Assign(i, j) => i < n && j < n
    case MoveAssign(i, j) => i < n && j < n
    case NewCopy(i) => i < n
    case NewMoved(i) => i < n
    case NewTable => true
  }

  function SlotsAfter(op: Op, n: nat): nat {
    match op
    case DoAdd(_, _) => n + 1
    case DoSet(_, _) => n + 1
    case DoAddCode(_, _) => n + 1
    case DoSetCode(_, _) => n + 1
    case DoSetOneVersion(_, _, _) => n + 1
    case DoRemoveAll => 0
    case _ => n
  }

  function PlainOp(t: Table, op: Op, p: Plain): Plain
    requires Known(t, op)
  {
    Plain(Apply(t, op, p.list), SlotsAfter(op, p.slots), if op.DoRemoveAll? then 0 else p.drift)
  }

  /** The steps on plain lists. Copy assignment alone makes a count wrong: it does not count tombstones it copies. */
  function PlainStep(t: Table, s: Step, ps: seq<Plain>): (qs: seq<Plain>)
    requires Allowed(t, s, |ps|)
    ensures |ps| <= |qs|
  {
    match s
    case One(i, op) => ps[i := PlainOp(t, op, ps[i])]
    case Hand(i, j, name) =>
      var taken := Take(Named(t, name), ps[i].list);
      ps[i := ps[i].(list := Keep(Named(t, name), ps[i].list))]
        [j := ps[j].(list := ps[j].list + taken, slots := ps[j].slots + |taken|)]
    case CopyInto(i, j) => ps[j := ps[j].(list := ps[j].list + ps[i].list, slots := ps[j].slots + |ps[i].list|)]
    case Assign(i, j) => if i == j then ps else ps[i := ps[j].(drift := |ps[j].list| - ps[j].slots)]
    case MoveAssign(i, j) => if i == j then ps else ps[i := ps[j]][j := NO_HEADERS]
    case NewCopy(i) => ps + [ps[i]]
    case NewMoved(i) => ps[i := NO_HEADERS] + [ps[i]]
    case NewTable => ps + [NO_HEADERS]
  }

  predicate AllAllowed(t: Table, steps: seq<Step>, ps: seq<Plain>)
    decreases |steps|
  {
    steps != [] ==> Allowed(t, steps[0], |ps|) && AllAllowed(t, steps[1..], PlainStep(t, steps[0], ps))
  }

  function PlainSteps(t: Table, steps: seq<Step>, ps: seq<Plain>): seq<Plain>
    requires AllAllowed(t, steps, ps)
    decreases |steps|
  {
    if steps == [] then ps else PlainSteps(t, steps[1..], PlainStep(t, steps[0], ps))
  }

  // ----- The tables -----

  ghost predicate Is(h: Headers, p: Plain)
    reads h, h.codes, h.names, h.values
  {
    h.Valid() && h.List() == p.list && h.length == p.slots && h.Drift() == p.drift
  }

  /** Each table stands for its plain one, and no two share memory or names. */
  ghost predicate Are(t: Table, hs: seq<Headers>, ps: seq<Plain>)
    reads hs, set h | h in hs :: h.codes, set h | h in hs :: h.names, set h | h in hs :: h.values
  {
    && |hs| == |ps|
    && (forall i :: 0 <= i < |hs| ==> hs[i].table == t && Is(hs[i], ps[i]))
    && (forall i, j :: 0 <= i < j < |hs| ==> hs[i].Apart(hs[j]))
  }

  ghost function Memory(hs: seq<Headers>): set<object>
    reads hs
  {
    set h, o | h in hs && o in h.Repr() :: o
  }

  lemma InMemory(hs: seq<Headers>)
    ensures forall k :: 0 <= k < |hs| ==> hs[k].Repr() <= Memory(hs)
  {
  }

  lemma NoMoreMemory(hs: seq<Headers>, m: set<object>)
    requires forall k :: 0 <= k < |hs| ==> hs[k].Repr() <= m
    ensures Memory(hs) <= m
  {
  }

  /** One operation on one table. */
  method Perform(h: Headers, op: Op, ghost p: Plain)
    requires Is(h, p) && Legal(h.table, op)
    modifies h.Repr()
    ensures Is(h, PlainOp(h.table, op, p))
    ensures fresh(h.Repr() - old(h.Repr())) && fresh(h.owned - old(h.owned))
  {
    hide Sound, Live, Tombs, Keep, Named, Trim, HeaderOf, Headers.Slots;
    match op
    case DoAdd(n, v) => h.Add(n, v);
    case DoSet(n, v) => h.Set(n, v);
    case DoAddCode(c, v) => h.AddCode(c, v);
    case DoSetCode(c, v) => h.SetCode(c, v);
    case DoRemoveCode(c) => var _ := h.RemoveCode(c);
    case DoSetOneVersion(n, c, v) => h.SetOneVersion(n, c, v);
    case DoRemove(n) => var _ := h.Remove(n);
    case DoRemoveAllVersions(c, n) => var _ := h.RemoveAllVersions(c, n);
    case DoRemoveIf(f) => var _ := h.RemoveByPredicate(f);
    case DoReserve(c) => h.Ensure(c);
    case DoRemoveAll => h.RemoveAll(); NothingLive();
  }

  method StepOne(t: Table, hs: seq<Headers>, i: nat, op: Op, ghost ps: seq<Plain>)
    requires Are(t, hs, ps) && Allowed(t, One(i, op), |ps|)
    modifies Memory(hs)
    ensures Are(t, hs, PlainStep(t, One(i, op), ps)) && fresh(Memory(hs) - old(Memory(hs)))
  {
    hide Is, PlainOp, Legal;
    Perform(hs[i], op, ps[i]);
  }

  method HandOver(h: Headers, d: Headers, name: string, ghost p: Plain, ghost q: Plain)
    requires Is(h, p) && Is(d, q) && h.Apart(d)
    modifies h.Repr(), d.Repr()
    ensures var taken := Take(Named(h.table, name), p.list);
            && Is(h, p.(list := Keep(Named(h.table, name), p.list)))
            && Is(d, q.(list := q.list + taken, slots := q.slots + |taken|))
    ensures h.Apart(d) && h.owned + d.owned == old(h.owned + d.owned)
    ensures h.Repr() == old(h.Repr()) && fresh(d.Repr() - old(d.Repr()))
  {
    hide Sound, Live, Tombs, Keep, Take, Named, Headers.Slots;
    var _ := h.Transfer(name, d);
  }

  method StepHand(t: Table, hs: seq<Headers>, i: nat, j: nat, name: string, ghost ps: seq<Plain>)
    requires Are(t, hs, ps) && Allowed(t, Hand(i, j, name), |ps|)
    modifies Memory(hs)
    ensures Are(t, hs, PlainStep(t, Hand(i, j, name), ps)) && fresh(Memory(hs) - old(Memory(hs)))
  {
    hide Is, Take, Keep, Named, Memory;
    TwoApart(t, hs, ps, i, j);
    InMemory(hs);
    ghost var m := Memory(hs);
    HandOver(hs[i], hs[j], name, ps[i], ps[j]);
    ghost var more := hs[j].Repr() - old(hs[j].Repr());
    forall k | 0 <= k < |hs| && k != i && k != j
      ensures Is(hs[k], ps[k]) && hs[k].Apart(hs[i]) && hs[k].Apart(hs[j]) && hs[k].Repr() <= m
    {
      assert old(hs[k].Apart(hs[i]) && hs[k].Apart(hs[j]));
    }
    NoMoreMemory(hs, m + more);
  }

  lemma TwoApart(t: Table, hs: seq<Headers>, ps: seq<Plain>, i: nat, j: nat)
    requires Are(t, hs, ps) && i < |hs| && j < |hs| && i != j
    ensures hs[i].Apart(hs[j])
  {
  }

  method CopyOver(h: Headers, d: Headers, ghost p: Plain, ghost q: Plain)
    requires Is(h, p) && Is(d, q) && h.Apart(d)
    modifies d.Repr()
    ensures Is(h, p) && Is(d, q.(list := q.list + p.list, slots := q.slots + |p.list|))
    ensures fresh(d.Repr() - old(d.Repr())) && fresh(d.owned - old(d.owned))
  {
    hide Sound, Live, Tombs, Headers.Slots;
    h.CopyTo(d);
  }

  method StepCopyInto(t: Table, hs: seq<Headers>, i: nat, j: nat, ghost ps: seq<Plain>)
    requires Are(t, hs, ps) && Allowed(t, CopyInto(i, j), |ps|)
    modifies Memory(hs)
    ensures Are(t, hs, PlainStep(t, CopyInto(i, j), ps)) && fresh(Memory(hs) - old(Memory(hs)))
  {
    hide Is, Memory;
    TwoApart(t, hs, ps, i, j);
    InMemory(hs);
    ghost var m := Memory(hs);
    CopyOver(hs[i], hs[j], ps[i], ps[j]);
    ghost var more := hs[j].Repr() - old(hs[j].Repr());
    forall k | 0 <= k < |hs| && k != j ensures Is(hs[k], ps[k]) && hs[k].Apart(hs[j]) && hs[k].Repr() <= m {
      assert old(hs[k].Apart(hs[j]));
    }
    NoMoreMemory(hs, m + more);
  }

  method AssignFrom(h: Headers, o: Headers, ghost p: Plain, ghost q: Plain)
    requires Is(h, p) && Is(o, q) && h.Apart(o)
    modifies h.Repr()
    ensures Is(h, q.(drift := |q.list| - q.slots)) && Is(o, q)
    ensures fresh(h.Repr() - old(h.Repr())) && fresh(h.owned)
  {
    hide Sound, Live, Tombs, Headers.Slots;
    LiveSize(o.Slots());
    h.Assign(o);
  }

  method StepAssign(t: Table, hs: seq<Headers>, i: nat, j: nat, ghost ps: seq<Plain>)
    requires Are(t, hs, ps) && Allowed(t, Assign(i, j), |ps|)
    modifies Memory(hs)
    ensures Are(t, hs, PlainStep(t, Assign(i, j), ps)) && fresh(Memory(hs) - old(Memory(hs)))
  {
    hide Is, Memory;
    if i != j {
      TwoApart(t, hs, ps, i, j);
      InMemory(hs);
      ghost var m := Memory(hs);
      AssignFrom(hs[i], hs[j], ps[i], ps[j]);
      ghost var more := hs[i].Repr() - old(hs[i].Repr());
      forall k | 0 <= k < |hs| && k != i ensures Is(hs[k], ps[k]) && hs[k].Apart(hs[i]) && hs[k].Repr() <= m {
        assert old(hs[k].Apart(hs[i]));
      }
      NoMoreMemory(hs, m + more);
    }
  }

  method MoveFrom(h: Headers, o: Headers, ghost p: Plain, ghost q: Plain)
    requires Is(h, p) && Is(o, q) && h.Apart(o)
    modifies h.Repr(), o.Repr()
    ensures Is(h, q) && Is(o, NO_HEADERS) && h.Apart(o)
    ensures h.owned == old(o.owned) && o.owned == {}
    ensures h.Repr() <= old(h.Repr()) + old(o.Repr()) && o.Repr() <= old(h.Repr()) + old(o.Repr())
  {
    hide Sound, Live, Tombs, Headers.Slots;
    h.MoveAssign(o);
    NothingLive();
  }

  method StepMoveAssign(t: Table, hs: seq<Headers>, i: nat, j: nat, ghost ps: seq<Plain>)
    requires Are(t, hs, ps) && Allowed(t, MoveAssign(i, j), |ps|)
    modifies Memory(hs)
    ensures Are(t, hs, PlainStep(t, MoveAssign(i, j), ps)) && Memory(hs) <= old(Memory(hs))
  {
    hide Is, Memory;
    if i != j {
      TwoApart(t, hs, ps, i, j);
      InMemory(hs);
      ghost var m := Memory(hs);
      MoveFrom(hs[i], hs[j], ps[i], ps[j]);
      forall k | 0 <= k < |hs| && k != i && k != j
        ensures Is(hs[k], ps[k]) && hs[k].Apart(hs[i]) && hs[k].Apart(hs[j]) && hs[k].Repr() <= m
      {
        assert old(hs[k].Apart(hs[i]) && hs[k].Apart(hs[j]));
      }
      NoMoreMemory(hs, m);
    }
  }

  method MakeCopy(o: Headers, ghost p: Plain) returns (h: Headers)
    requires Is(o, p)
    ensures Is(h, p) && h.table == o.table && fresh(h.Repr()) && fresh(h.owned)
  {
    hide Sound, Live, Tombs, Headers.Slots;
    h := new Headers.Copy(o);
  }

  method MakeMoved(o: Headers, ghost p: Plain) returns (h: Headers)
    requires Is(o, p)
    modifies o
    ensures Is(h, p) && Is(o, NO_HEADERS) && h.Apart(o) && fresh(h)
    ensures h.owned == old(o.owned) && o.owned == {}
    ensures h.Repr() - {h} <= old(o.Repr()) && fresh(o.Repr() - {o})
  {
    hide Sound, Live, Tombs, Headers.Slots;
    h := new Headers.Move(o);
    NothingLive();
  }

  method MakeTable(t: Table) returns (h: Headers)
    requires TableOk(t)
    ensures Is(h, NO_HEADERS) && h.table == t && fresh(h.Repr()) && h.owned == {}
  {
    hide Sound, Live, Tombs, Headers.Slots;
    h := new Headers(t);
    NothingLive();
  }

  lemma OneMore(t: Table, hs: seq<Headers>, ps: seq<Plain>, h: Headers, p: Plain)
    requires Are(t, hs, ps) && Is(h, p) && h.table == t && forall k :: 0 <= k < |hs| ==> hs[k].Apart(h)
    ensures Are(t, hs + [h], ps + [p])
  {
    hide Is;
  }

  method StepNew(t: Table, hs: seq<Headers>, s: Step, ghost ps: seq<Plain>) returns (out: seq<Headers>)
    requires TableOk(t) && Are(t, hs, ps) && Allowed(t, s, |ps|) && (s.NewCopy? || s.NewTable?)
    ensures Are(t, out, PlainStep(t, s, ps)) && hs <= out && fresh(Memory(out) - old(Memory(hs)))
  {
    hide Is, TableOk;
    var h;
    if s.NewCopy? {
      h := MakeCopy(hs[s.i], ps[s.i]);
    } else {
      h := MakeTable(t);
    }
    out := hs + [h];
    OneMore(t, hs, ps, h, if s.NewCopy? then ps[s.i] else NO_HEADERS);
  }

  method StepNewMoved(t: Table, hs: seq<Headers>, i: nat, ghost ps: seq<Plain>) returns (out: seq<Headers>)
    requires Are(t, hs, ps) && Allowed(t, NewMoved(i), |ps|)
    modifies Memory(hs)
    ensures Are(t, out, PlainStep(t, NewMoved(i), ps)) && hs <= out && fresh(Memory(out) - old(Memory(hs)))
  {
    hide Is;
    assert hs[i] in hs[i].Repr();
    var h := MakeMoved(hs[i], ps[i]);
    out := hs + [h];
    forall k | 0 <= k < |hs| && k != i
      ensures Is(hs[k], ps[k]) && hs[k].Apart(hs[i]) && hs[k].Apart(h)
    {
      assert old(hs[k].Apart(hs[i]));
    }
    OneMore(t, hs, ps[i := NO_HEADERS], h, ps[i]);
    forall k | 0 <= k < |hs| && k != i ensures hs[k].Repr() <= old(Memory(hs)) { }
    assert h.Repr() - {h} <= old(Memory(hs));
  }

  /** One step. */
  method Take1(t: Table, hs: seq<Headers>, s: Step, ghost ps: seq<Plain>) returns (out: seq<Headers>)
    requires TableOk(t) && Are(t, hs, ps) && Allowed(t, s, |ps|)
    modifies Memory(hs)
    ensures Are(t, out, PlainStep(t, s, ps)) && hs <= out && fresh(Memory(out) - old(Memory(hs)))
  {
    hide Are, PlainStep, Memory, TableOk;
    out := hs;
    match s
    case One(i, op) => StepOne(t, hs, i, op, ps);
    case Hand(i, j, name) => StepHand(t, hs, i, j, name, ps);
    case CopyInto(i, j) => StepCopyInto(t, hs, i, j, ps);
    case Assign(i, j) => StepAssign(t, hs, i, j, ps);
    case MoveAssign(i, j) => StepMoveAssign(t, hs, i, j, ps);
    case NewMoved(i) => out := StepNewMoved(t, hs, i, ps);
    case _ => out := StepNew(t, hs, s, ps);
  }

  /** Any run leaves every table with the headers, slots and count that the plain steps give. */
  method Run(t: Table, hs: seq<Headers>, steps: seq<Step>, ghost ps: seq<Plain>) returns (out: seq<Headers>)
    requires TableOk(t) && Are(t, hs, ps) && AllAllowed(t, steps, ps)
    modifies Memory(hs)
    ensures Are(t, out, PlainSteps(t, steps, ps)) && hs <= out && fresh(Memory(out) - old(Memory(hs)))
  {
    hide Are, PlainStep, Memory, TableOk, Allowed;
    out := hs;
    var n := 0;
    ghost var now := ps;
    while n < |steps|
      invariant 0 <= n <= |steps| && Are(t, out, now) && hs <= out && fresh(Memory(out) - old(Memory(hs)))
      invariant AllAllowed(t, steps[n..], now) && PlainSteps(t, steps[n..], now) == PlainSteps(t, steps, ps)
    {
      assert steps[n..][1..] == steps[n + 1..];
      out := Take1(t, out, steps[n], now);
      now := PlainStep(t, steps[n], now);
      n := n + 1;
    }
  }

  /** Each size is the number of headers less the error of the count. */
  method Sizes(t: Table, hs: seq<Headers>, ghost ps: seq<Plain>) returns (ns: seq<nat>)
    requires Are(t, hs, ps)
    ensures |ns| == |hs|
    ensures forall i :: 0 <= i < |ns| ==> ns[i] == (|ps[i].list| - ps[i].drift) % SIZE_LIMIT
    ensures forall i :: 0 <= i < |ns| && ps[i].slots < SIZE_LIMIT && ps[i].drift == 0 ==> ns[i] == |ps[i].list|
    ensures forall i :: 0 <= i < |ns| ==> |ps[i].list| <= ps[i].slots
  {
    hide Sound, Live, Tombs, Headers.Slots;
    ns := [];
    while |ns| < |hs|
      invariant |ns| <= |hs|
      invariant forall i :: 0 <= i < |ns| ==> ns[i] == (|ps[i].list| - ps[i].drift) % SIZE_LIMIT
      invariant forall i :: 0 <= i < |ns| && ps[i].slots < SIZE_LIMIT && ps[i].drift == 0 ==> ns[i] == |ps[i].list|
      invariant forall i :: 0 <= i < |ns| ==> |ps[i].list| <= ps[i].slots
    {
      assert Is(hs[|ns|], ps[|ns|]);
      LiveSize(hs[|ns|].Slots());
      var n := hs[|ns|].Size();
      ns := ns + [n];
    }
  }

  // ----- Reading -----

  /** After any run, setting or removing a name in one table shows under that name there, and nowhere else. */
  lemma ReadsBack(t: Table, hs: seq<Headers>, ps: seq<Plain>, i: nat, name: string, value: string, other: string)
    requires TableOk(t) && Are(t, hs, ps) && i < |hs|
    ensures name != "" ==>
            var now := PlainStep(t, One(i, DoSet(name, value)), ps);
            && Take(Named(t, name), now[i].list) == [HeaderOf(t, name, Trim(value, BLANK))]
            && (!SameText(name, other) ==> Take(Named(t, other), now[i].list) == Take(Named(t, other), ps[i].list))
            && forall j :: 0 <= j < |ps| && j != i ==> now[j] == ps[j]
    ensures var now := PlainStep(t, One(i, DoRemove(name)), ps);
            && Take(Named(t, name), now[i].list) == []
            && (!SameText(name, other) ==> Take(Named(t, other), now[i].list) == Take(Named(t, other), ps[i].list))
            && forall j :: 0 <= j < |ps| && j != i ==> now[j] == ps[j]
  {
    hide Keep, Take, Named, HeaderOf, Trim, SameText, TableOk, Headers.Slots, Live, Tombs, AllOk, Cells;
    assert Is(hs[i], ps[i]);
    LiveOk(t, hs[i].Slots());
    SetThenGet(t, name, value, other, ps[i].list);
    RemoveThenGet(t, name, other, ps[i].list);
  }

  // ----- Names on the heap -----

  predicate Holds(s: Slot, c: NameCell) { s.code.OtherCode? && s.name == OwnName(c) }

  lemma {:induction false} HeldIsCounted(ss: seq<Slot>, c: NameCell)
    ensures c in Cells(ss) <==> exists a :: 0 <= a < |ss| && Holds(ss[a], c)
  {
    if ss != [] {
      var g := ss[..|ss| - 1];
      HeldIsCounted(g, c);
      assert forall a :: 0 <= a < |g| ==> g[a] == ss[a];
    }
  }

  lemma HeldTwice(ss: seq<Slot>, c: NameCell, a: nat, b: nat)
    requires a < |ss| && b < |ss| && a != b && Holds(ss[a], c) && Holds(ss[b], c)
    ensures Cells(ss)[c] >= 2
  {
    hide Cells;
    BuryOne(ss, a);
    BuryOne(ss[a := TOMB], b);
    assert c in OwnCells(ss[a := TOMB][b]);
  }

  /** Over all tables, each owned name is held by exactly one live slot, which is in the table that owns it. */
  lemma OneHolder(t: Table, hs: seq<Headers>, ps: seq<Plain>, i: nat, c: NameCell) returns (a: nat)
    requires Are(t, hs, ps) && i < |hs| && c in hs[i].owned
    ensures a < hs[i].length && Holds(hs[i].Slots()[a], c)
    ensures forall j, b :: 0 <= j < |hs| && 0 <= b < hs[j].length && Holds(hs[j].Slots()[b], c) ==> j == i && b == a
  {
    hide Cells, Holds, Headers.Slots, Live, Tombs;
    assert Is(hs[i], ps[i]);
    var ss := hs[i].Slots();
    HeldIsCounted(ss, c);
    a :| 0 <= a < |ss| && Holds(ss[a], c);
    forall j, b | 0 <= j < |hs| && 0 <= b < hs[j].length && Holds(hs[j].Slots()[b], c) ensures j == i && b == a {
      assert Is(hs[j], ps[j]);
      HeldIsCounted(hs[j].Slots(), c);
      assert c in hs[j].owned;
      if j == i && b != a { HeldTwice(ss, c, a, b); }
    }
  }

  // ----- What the plain steps keep -----

  predicate Counted(ps: seq<Plain>) { forall i :: 0 <= i < |ps| ==> ps[i].drift == 0 }

  /** Copy assignments are made from tables without removed slots only. */
  predicate Careful(t: Table, steps: seq<Step>, ps: seq<Plain>)
    requires AllAllowed(t, steps, ps)
    decreases |steps|
  {
    steps != [] ==>
      && (steps[0].Assign? && steps[0].i != steps[0].j ==> |ps[steps[0].j].list| == ps[steps[0].j].slots)
      && Careful(t, steps[1..], PlainStep(t, steps[0], ps))
  }

  /** A step keeps every count right exactly if it is not a copy assignment from a table with removed slots. */
  lemma CountedStep(t: Table, s: Step, ps: seq<Plain>)
    requires Allowed(t, s, |ps|) && Counted(ps)
    ensures Counted(PlainStep(t, s, ps)) <==> (s.Assign? && s.i != s.j ==> |ps[s.j].list| == ps[s.j].slots)
  {
    hide Keep, Take, Named, HeaderOf, Apply;
    if s.Assign? && s.i != s.j {
      assert PlainStep(t, s, ps)[s.i].drift == |ps[s.j].list| - ps[s.j].slots;
    }
  }

  /** Over a whole careful run every count stays right. */
  lemma {:induction false} CountedRun(t: Table, steps: seq<Step>, ps: seq<Plain>)
    requires AllAllowed(t, steps, ps) && Counted(ps) && Careful(t, steps, ps)
    ensures Counted(PlainSteps(t, steps, ps))
    decreases |steps|
  {
    hide PlainStep, Counted;
    if steps != [] {
      CountedStep(t, steps[0], ps);
      CountedRun(t, steps[1..], PlainStep(t, steps[0], ps));
    }
  }

  /** How often a header is in the tables. */
  function Tally(ps: seq<Plain>, x: Header): nat {
    if ps == [] then 0 else Tally(ps[..|ps| - 1], x) + multiset(ps[|ps| - 1].list)[x]
  }

  lemma {:induction false} TallyUpdate(ps: seq<Plain>, i: nat, p: Plain, x: Header)
    requires i < |ps|
    ensures Tally(ps[i := p], x) + multiset(ps[i].list)[x] == Tally(ps, x) + multiset(p.list)[x]
    decreases |ps|
  {
    var n := |ps| - 1;
    if i < n {
      TallyUpdate(ps[..n], i, p, x);
      assert ps[i := p][..n] == ps[..n][i := p];
    } else {
      assert ps[i := p][..n] == ps[..n];
    }
  }

  lemma TallySnoc(ps: seq<Plain>, p: Plain, x: Header)
    ensures Tally(ps + [p], x) == Tally(ps, x) + multiset(p.list)[x]
  {
    assert (ps + [p])[..|ps|] == ps;
  }

  /** Handing headers over, or moving a table, neither loses a header nor makes one. */
  lemma NothingLost(t: Table, s: Step, ps: seq<Plain>, x: Header)
    requires Allowed(t, s, |ps|) && (s.Hand? || s.NewMoved?)
    ensures Tally(PlainStep(t, s, ps), x) == Tally(ps, x)
  {
    hide Keep, Take, Named, Tally;
    var i := s.i;
    if s.Hand? {
      var sel := Named(t, s.name);
      var p := ps[i].(list := Keep(sel, ps[i].list));
      var taken := Take(sel, ps[i].list);
      KeepAndTake(sel, ps[i].list);
      TallyUpdate(ps, i, p, x);
      TallyUpdate(ps[i := p], s.j, ps[s.j].(list := ps[s.j].list + taken, slots := ps[s.j].slots + |taken|), x);
    } else {
      TallyUpdate(ps, i, NO_HEADERS, x);
      TallySnoc(ps[i := NO_HEADERS], ps[i], x);
    }
  }
}
