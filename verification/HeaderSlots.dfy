/** Slots of a header table: what they hold, and the list of headers they stand for. */
module HeaderSlots {
  import opened Text

  // ----- Names and codes -----

  /** `Common(k)` stands for the one-byte code of the well-known name whose folded spelling is `k`. */
  datatype Code = NoCode | OtherCode | Common(name: string)

  /** A heap-allocated name. */
  class NameCell {
    const text: string

    constructor (t: string)
      ensures text == t
    {
      text := t;
    }
  }

  /** A pointer to a well-known name, or to a name on the heap. */
  datatype Name = StaticName(text: string) | OwnName(cell: NameCell) | NullName

  function NameText(n: Name): string {
    match n
    case StaticName(t) => t
    case OwnName(c) => c.text
    case NullName => ""
  }

  /** The well-known names, from folded to usual spelling. */
  type Table = map<string, string>

  predicate TableOk(t: Table) { forall k :: k in t ==> FoldAll(t[k]) == k }

  /** The perfect hash of well-known names. */
  function Hash(t: Table, name: string): Code {
    if FoldAll(name) in t then Common(FoldAll(name)) else OtherCode
  }

  const BLANK: set<char> := {' ', '\n', '\t', '\r'}

  // ----- Slots and headers -----

  datatype Slot = Slot(code: Code, name: Name, value: string)

  datatype Header = Header(code: Code, name: string, value: string)

  function ViewOf(s: Slot): Header { Header(s.code, NameText(s.name), s.value) }

  /** A removed slot; what its arrays still hold does not matter. */
  const TOMB := Slot(NoCode, NullName, "")

  /** The name agrees with the code, and the value has been trimmed. */
  predicate SlotOk(t: Table, s: Slot) {
    match s.code
    case NoCode => true
    case Common(k) => k in t && s.name == StaticName(t[k]) && Trimmed(s.value, BLANK)
    case OtherCode => s.name.OwnName? && FoldAll(s.name.cell.text) !in t && Trimmed(s.value, BLANK)
  }

  predicate SlotsOk(t: Table, ss: seq<Slot>) { forall i :: 0 <= i < |ss| ==> SlotOk(t, ss[i]) }

  predicate HeaderOk(t: Table, h: Header) {
    match h.code
    case NoCode => false
    case Common(k) => k in t && h.name == t[k]
    case OtherCode => FoldAll(h.name) !in t
  }

  /** The headers in the slots that have not been removed. */
  function Live(ss: seq<Slot>): seq<Header> {
    if ss == [] then []
    else
      var s := ss[|ss| - 1];
      Live(ss[..|ss| - 1]) + LiveOf(s)
  }

  function LiveOf(s: Slot): seq<Header> { if s.code.NoCode? then [] else [ViewOf(s)] }

  /** The number of removed slots. */
  function Tombs(ss: seq<Slot>): nat {
    if ss == [] then 0 else Tombs(ss[..|ss| - 1]) + if ss[|ss| - 1].code.NoCode? then 1 else 0
  }

  ghost function OwnCells(s: Slot): multiset<NameCell> {
    if s.code.OtherCode? && s.name.OwnName? then multiset{s.name.cell} else multiset{}
  }

  /** The heap names that live slots hold, each as often as it is held. */
  ghost function Cells(ss: seq<Slot>): multiset<NameCell> {
    if ss == [] then multiset{} else Cells(ss[..|ss| - 1]) + OwnCells(ss[|ss| - 1])
  }

  lemma LiveSnoc(ss: seq<Slot>, s: Slot)
    ensures Live(ss + [s]) == Live(ss) + LiveOf(s)
    ensures Tombs(ss + [s]) == Tombs(ss) + if s.code.NoCode? then 1 else 0
    ensures Cells(ss + [s]) == Cells(ss) + OwnCells(s)
  {
    assert (ss + [s])[..|ss|] == ss;
  }

  lemma NothingLive()
    ensures Live([]) == [] && Tombs([]) == 0 && Cells([]) == multiset{}
  {
  }

  lemma {:induction false} LiveAppend(ss: seq<Slot>, ts: seq<Slot>)
    ensures Live(ss + ts) == Live(ss) + Live(ts)
    ensures Tombs(ss + ts) == Tombs(ss) + Tombs(ts)
    ensures Cells(ss + ts) == Cells(ss) + Cells(ts)
    decreases |ts|
  {
    hide Live, LiveOf, Tombs, Cells, OwnCells;
    if ts == [] {
      NothingLive();
      assert ss + ts == ss;
    } else {
      var a, s := ts[..|ts| - 1], ts[|ts| - 1];
      LiveAppend(ss, a);
      assert ss + ts == (ss + a) + [s] && ts == a + [s];
      LiveSnoc(ss + a, s);
      LiveSnoc(a, s);
    }
  }

  lemma {:induction false} LiveSize(ss: seq<Slot>)
    ensures |Live(ss)| + Tombs(ss) == |ss|
    decreases |ss|
  {
    if ss != [] { LiveSize(ss[..|ss| - 1]); }
  }

  /** Removing one slot adds one tombstone and gives up the name the slot owned. */
  lemma BuryOne(ss: seq<Slot>, i: nat)
    requires i < |ss| && !ss[i].code.NoCode?
    ensures Tombs(ss[i := TOMB]) == Tombs(ss) + 1
    ensures OwnCells(ss[i]) <= Cells(ss)
    ensures Cells(ss[i := TOMB]) == Cells(ss) - OwnCells(ss[i])
  {
    var a, b := ss[..i], ss[i + 1..];
    assert ss == a + [ss[i]] + b && ss[i := TOMB] == a + [TOMB] + b;
    LiveSnoc(a, ss[i]);
    LiveSnoc(a, TOMB);
    LiveAppend(a + [ss[i]], b);
    LiveAppend(a + [TOMB], b);
  }

  // ----- Selections -----

  /** The ways in which an operation picks headers. */
  datatype Selector =
    | ByCode(code: Code)
    | ByText(text: string)
    | AllVersions(text: string)
    | ByTest(test: (Code, string, string) -> bool)
    | PerHop(priority: bool, custom: seq<Header>)
    | Hop(table: Table, names: seq<string>, priority: bool, custom: seq<Header>)

  predicate Picks(sel: Selector, h: Header) {
    match sel
    case ByCode(c) => h.code == c
    case ByText(n) => h.code.OtherCode? && SameText(n, h.name)
    case AllVersions(n) => h.code.OtherCode? && SameVersion(n, h.name)
    case ByTest(f) => f(h.code, h.name, h.value)
    case PerHop(p, hs) => HopCode(h.code, p) || Listed(hs, h)
    case Hop(t, ns, p, hs) => NamedBy(t, ns, h) || HopCode(h.code, p) || Listed(hs, h)
  }

  predicate HopCode(c: Code, priority: bool) {
    c.Common? && (IsHopName(c.name) || (priority && c.name == "priority"))
  }

  predicate IsHopName(n: string) {
    n == "connection" || n == "keep-alive" || n == "proxy-authenticate" || n == "proxy-authorization" ||
    n == "proxy-connection" || n == "te" || n == "trailer" || n == "transfer-encoding" || n == "upgrade"
  }

  /** Some header of the list has the same code and, without a code of its own, the same name. */
  predicate Listed(hs: seq<Header>, h: Header) {
    exists i :: 0 <= i < |hs| && hs[i].code == h.code && (h.code.OtherCode? ==> SameText(h.name, hs[i].name))
  }

  /** Some name of the list picks the header. */
  predicate NamedBy(t: Table, names: seq<string>, h: Header) {
    exists i :: 0 <= i < |names| && PicksName(t, names[i], h)
  }

  predicate PicksName(t: Table, name: string, h: Header) {
    if Hash(t, name).OtherCode? then h.code.OtherCode? && SameText(name, h.name) else h.code == Hash(t, name)
  }

  /** How a name is looked up: by its code if it has one. */
  function Named(t: Table, name: string): Selector {
    if Hash(t, name).OtherCode? then ByText(name) else ByCode(Hash(t, name))
  }

  /** Looking a name up picks exactly the headers with that name, in any spelling. */
  lemma NamedIsSameText(t: Table, name: string, h: Header)
    requires TableOk(t) && HeaderOk(t, h)
    ensures Picks(Named(t, name), h) <==> SameText(name, h.name)
  {
  }

  lemma ListedIsSameText(t: Table, hs: seq<Header>, h: Header)
    requires TableOk(t) && HeaderOk(t, h) && forall i :: 0 <= i < |hs| ==> HeaderOk(t, hs[i])
    ensures Listed(hs, h) <==> exists i :: 0 <= i < |hs| && SameText(h.name, hs[i].name)
  {
    if i :| 0 <= i < |hs| && SameText(h.name, hs[i].name) {
      assert hs[i].code == h.code;
    }
  }

  function Keep(sel: Selector, hs: seq<Header>): seq<Header> {
    if hs == [] then []
    else Keep(sel, hs[..|hs| - 1]) + if Picks(sel, hs[|hs| - 1]) then [] else hs[|hs| - 1..]
  }

  function Take(sel: Selector, hs: seq<Header>): seq<Header> {
    if hs == [] then []
    else Take(sel, hs[..|hs| - 1]) + if Picks(sel, hs[|hs| - 1]) then hs[|hs| - 1..] else []
  }

  lemma KeepSnoc(sel: Selector, hs: seq<Header>, h: Header)
    ensures Keep(sel, hs + [h]) == if Picks(sel, h) then Keep(sel, hs) else Keep(sel, hs) + [h]
    ensures Take(sel, hs + [h]) == if Picks(sel, h) then Take(sel, hs) + [h] else Take(sel, hs)
  {
    hide Picks;
    assert (hs + [h])[..|hs|] == hs;
  }

  /** The slots after the first `n` of them have been visited and the picked ones removed. */
  function Buried(sel: Selector, ss: seq<Slot>, n: nat): (rs: seq<Slot>)
    ensures |rs| == |ss|
  {
    seq(|ss|, i requires 0 <= i < |ss| => if i < n && IsPicked(sel, ss[i]) then TOMB else ss[i])
  }

  predicate IsPicked(sel: Selector, s: Slot) { !s.code.NoCode? && Picks(sel, ViewOf(s)) }

  lemma BuriedStep(sel: Selector, ss: seq<Slot>, n: nat)
    requires n < |ss|
    ensures Buried(sel, ss, n)[n] == ss[n]
    ensures Buried(sel, ss, n + 1) ==
            if IsPicked(sel, ss[n]) then Buried(sel, ss, n)[n := TOMB] else Buried(sel, ss, n)
  {
  }

  /** A stretch without picked slots changes nothing. */
  lemma BuriedSkip(sel: Selector, ss: seq<Slot>, n: nat, m: nat)
    requires n <= m <= |ss| && forall i :: n <= i < m ==> !IsPicked(sel, ss[i])
    ensures Buried(sel, ss, m) == Buried(sel, ss, n)
  {
  }

  lemma BuriedSnoc(sel: Selector, ss: seq<Slot>, s: Slot)
    ensures Buried(sel, ss + [s], |ss| + 1) == Buried(sel, ss, |ss|) + [if IsPicked(sel, s) then TOMB else s]
  {
    hide IsPicked;
  }

  lemma NothingKept(sel: Selector)
    ensures Keep(sel, []) == [] && Take(sel, []) == []
  {
  }

  /** Removing slots is filtering the list they stand for. */
  lemma {:induction false} LiveBuried(sel: Selector, ss: seq<Slot>)
    ensures Live(Buried(sel, ss, |ss|)) == Keep(sel, Live(ss))
    decreases |ss|
  {
    hide Picks, SameText, Live, Tombs, Cells, Keep, Take;
    if ss == [] {
      assert Buried(sel, ss, |ss|) == ss;
      NothingLive();
      NothingKept(sel);
    } else {
      var a, s := ss[..|ss| - 1], ss[|ss| - 1];
      LiveBuried(sel, a);
      var s' := if IsPicked(sel, s) then TOMB else s;
      assert ss == a + [s];
      BuriedSnoc(sel, a, s);
      LiveSnoc(a, s);
      LiveSnoc(Buried(sel, a, |a|), s');
      KeepSnoc(sel, Live(a), ViewOf(s));
      assert forall hs: seq<Header> :: hs + [] == hs;
    }
  }

  /** The picked slots among the first `n`. */
  function Moved(sel: Selector, ss: seq<Slot>, n: nat): seq<Slot>
    requires n <= |ss|
  {
    if n == 0 then [] else Moved(sel, ss, n - 1) + if IsPicked(sel, ss[n - 1]) then [ss[n - 1]] else []
  }

  lemma {:induction false} LiveMoved(sel: Selector, ss: seq<Slot>, n: nat)
    requires n <= |ss|
    ensures Live(Moved(sel, ss, n)) == Take(sel, Live(ss[..n])) && Tombs(Moved(sel, ss, n)) == 0
  {
    hide Picks, SameText, Live, Tombs, Cells, Keep, Take;
    if n == 0 {
      assert ss[..n] == [];
      NothingLive();
      NothingKept(sel);
    } else {
      var s := ss[n - 1];
      LiveMoved(sel, ss, n - 1);
      assert ss[..n] == ss[..n - 1] + [s];
      LiveSnoc(ss[..n - 1], s);
      LiveSnoc(Moved(sel, ss, n - 1), s);
      KeepSnoc(sel, Live(ss[..n - 1]), ViewOf(s));
      assert Live(ss[..n - 1]) + [] == Live(ss[..n - 1]);
      assert Moved(sel, ss, n - 1) + [] == Moved(sel, ss, n - 1);
    }
  }

  lemma MovedSkip(sel: Selector, ss: seq<Slot>, n: nat, m: nat)
    requires n <= m <= |ss| && forall i :: n <= i < m ==> !IsPicked(sel, ss[i])
    ensures Moved(sel, ss, m) == Moved(sel, ss, n)
    decreases m - n
  {
    if n < m { MovedSkip(sel, ss, n, m - 1); }
  }

  /** What is kept and what is taken make up the whole list. */
  lemma {:induction false} KeepAndTake(sel: Selector, hs: seq<Header>)
    ensures multiset(hs) == multiset(Keep(sel, hs)) + multiset(Take(sel, hs))
    ensures forall h :: h in Keep(sel, hs) <==> h in hs && !Picks(sel, h)
    ensures forall h :: h in Take(sel, hs) <==> h in hs && Picks(sel, h)
    decreases |hs|
  {
    hide Picks;
    if hs != [] {
      var a, h := hs[..|hs| - 1], hs[|hs| - 1];
      KeepAndTake(sel, a);
      assert hs == a + [h];
    }
  }

  /** Keeping changes the list exactly when something is taken. */
  lemma KeptOrTaken(sel: Selector, hs: seq<Header>)
    ensures |Keep(sel, hs)| + |Take(sel, hs)| == |hs|
    ensures Keep(sel, hs) == hs <==> Take(sel, hs) == []
    decreases |hs|
  {
    hide Picks;
    if hs != [] { KeptOrTaken(sel, hs[..|hs| - 1]); }
  }
}
