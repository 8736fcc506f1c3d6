/** The header table: three parallel arrays with tombstones, standing for an ordered list of headers. */
module HttpHeaders {
  import opened Text
  import opened HeaderSlots

  const INITIAL_RESERVE := 16

  function SlotOf(c: Code, n: Name, v: string): Slot { if c.NoCode? then TOMB else Slot(c, n, v) }

  function Zip(cs: seq<Code>, ns: seq<Name>, vs: seq<string>): (ss: seq<Slot>)
    requires |cs| == |ns| == |vs|
    ensures |ss| == |cs|
  {
    seq(|cs|, i requires 0 <= i < |cs| => SlotOf(cs[i], ns[i], vs[i]))
  }

  lemma OwnedSnoc(ss: seq<Slot>, s: Slot, owned: set<NameCell>)
    requires Cells(ss) == multiset(owned) && OwnSet(s) !! owned
    ensures Cells(ss + [s]) == multiset(owned + OwnSet(s))
  {
    LiveSnoc(ss, s);
  }

  /** Live slots are well formed, and hold each owned heap name exactly once. */
  ghost predicate Sound(t: Table, ss: seq<Slot>, owned: set<NameCell>) {
    SlotsOk(t, ss) && Cells(ss) == multiset(owned)
  }

  lemma SoundSnoc(t: Table, ss: seq<Slot>, s: Slot, owned: set<NameCell>)
    requires Sound(t, ss, owned) && SlotOk(t, s) && OwnSet(s) !! owned
    ensures Sound(t, ss + [s], owned + OwnSet(s))
  {
    hide SlotOk;
    OwnedSnoc(ss, s, owned);
  }

  lemma OwnedBury(ss: seq<Slot>, i: nat, owned: set<NameCell>)
    requires i < |ss| && !ss[i].code.NoCode? && Cells(ss) == multiset(owned)
    ensures OwnSet(ss[i]) <= owned
    ensures Cells(ss[i := TOMB]) == multiset(owned - OwnSet(ss[i]))
  {
    BuryOne(ss, i);
    hide Cells;
    if c :| c in OwnSet(ss[i]) { assert c in Cells(ss); }
  }

  lemma SoundBury(t: Table, ss: seq<Slot>, i: nat, owned: set<NameCell>)
    requires Sound(t, ss, owned) && i < |ss| && !ss[i].code.NoCode?
    ensures Sound(t, ss[i := TOMB], owned - OwnSet(ss[i])) && OwnSet(ss[i]) <= owned
    ensures Tombs(ss[i := TOMB]) == Tombs(ss) + 1
  {
    hide Cells, Tombs;
    OwnedBury(ss, i, owned);
    BuryOne(ss, i);
  }

  /** The selections that walk over the slots of one code. */
  predicate Walks(sel: Selector) { (sel.ByCode? && !sel.code.NoCode?) || sel.ByText? || sel.AllVersions? }

  function CodeOf(sel: Selector): Code { if sel.ByCode? then sel.code else OtherCode }

  ghost predicate PickedBefore(sel: Selector, ss: seq<Slot>, n: nat) {
    exists i :: 0 <= i < n <= |ss| && IsPicked(sel, ss[i])
  }

  lemma BuriedNone(sel: Selector, ss: seq<Slot>)
    ensures Buried(sel, ss, 0) == ss
  {
  }

  /** No slot from `n` on and before `m` is picked, and `m` is picked unless it is the end. */
  ghost predicate NextIs(sel: Selector, ss: seq<Slot>, n: nat, m: nat) {
    && n <= m <= |ss| && (forall i :: n <= i < m ==> !IsPicked(sel, ss[i]))
    && (m < |ss| ==> IsPicked(sel, ss[m]))
  }

  lemma Arrives(sel: Selector, ss: seq<Slot>, m: nat)
    requires NextIs(sel, ss, 0, m)
    ensures Buried(sel, ss, m) == ss && Moved(sel, ss, m) == []
    ensures m < |ss| ==> IsPicked(sel, ss[m]) && !ss[m].code.NoCode?
  {
    hide Picks;
    BuriedNone(sel, ss);
    BuriedSkip(sel, ss, 0, m);
    MovedSkip(sel, ss, 0, m);
  }

  lemma Passes(sel: Selector, ss: seq<Slot>, n: nat, m: nat)
    requires n < |ss| && IsPicked(sel, ss[n]) && NextIs(sel, ss, n + 1, m)
    ensures Moved(sel, ss, m) == Moved(sel, ss, n) + [ss[n]]
    ensures m < |ss| ==> IsPicked(sel, ss[m]) && !ss[m].code.NoCode?
  {
    hide Picks;
    MovedSkip(sel, ss, n + 1, m);
  }

  lemma NonePicked(sel: Selector, ss: seq<Slot>, m: nat)
    requires NextIs(sel, ss, 0, m)
    ensures m < |ss| <==> Take(sel, Live(ss)) != []
  {
    hide Picks, Live, Take, IsPicked;
    PickedIsTaken(sel, ss);
  }

  lemma BuriedAt(sel: Selector, ss: seq<Slot>, n: nat)
    requires n < |ss|
    ensures Buried(sel, ss, n)[n] == ss[n]
  {
  }

  /** From one picked slot to the next. */
  lemma Advances(sel: Selector, ss: seq<Slot>, n: nat, m: nat, now: seq<Slot>)
    requires n < |ss| && IsPicked(sel, ss[n]) && now == Buried(sel, ss, n)[n := TOMB] && NextIs(sel, now, n + 1, m)
    ensures now == Buried(sel, ss, m) && Moved(sel, ss, m) == Moved(sel, ss, n) + [ss[n]]
    ensures m < |ss| ==> IsPicked(sel, ss[m]) && !now[m].code.NoCode?
  {
    hide Picks, Moved;
    BuriedStep(sel, ss, n);
    forall i | n < i < |ss| ensures now[i] == ss[i] { }
    BuriedSkip(sel, ss, n + 1, m);
    MovedSkip(sel, ss, n + 1, m);
    MovedOne(sel, ss, n);
  }

  lemma MovedOne(sel: Selector, ss: seq<Slot>, n: nat)
    requires n < |ss| && IsPicked(sel, ss[n])
    ensures Moved(sel, ss, n + 1) == Moved(sel, ss, n) + [ss[n]]
  {
    hide IsPicked;
  }

  lemma PickedNext(sel: Selector, ss: seq<Slot>, n: nat)
    requires n < |ss|
    ensures PickedBefore(sel, ss, n + 1) <==> PickedBefore(sel, ss, n) || IsPicked(sel, ss[n])
  {
    hide IsPicked;
    assert IsPicked(sel, ss[n]) ==> PickedBefore(sel, ss, n + 1);
  }

  lemma {:induction false} PickedIsMoved(sel: Selector, ss: seq<Slot>, n: nat)
    requires n <= |ss|
    ensures PickedBefore(sel, ss, n) <==> Moved(sel, ss, n) != []
  {
    hide IsPicked;
    if n > 0 {
      PickedIsMoved(sel, ss, n - 1);
      assert IsPicked(sel, ss[n - 1]) ==> PickedBefore(sel, ss, n);
    }
  }

  lemma PickedIsTaken(sel: Selector, ss: seq<Slot>)
    ensures PickedBefore(sel, ss, |ss|) <==> Take(sel, Live(ss)) != []
  {
    hide Picks, Live, Take, Tombs, PickedBefore;
    PickedIsMoved(sel, ss, |ss|);
    MovedIsTaken(sel, ss);
  }

  /** size_t arithmetic is modulo this. */
  const SIZE_LIMIT := 0x1_0000_0000_0000_0000

  lemma WrappedSize(n: nat, d: int)
    requires n < SIZE_LIMIT
    ensures (n - d) % SIZE_LIMIT == n <==> d % SIZE_LIMIT == 0
  {
    if (n - d) % SIZE_LIMIT == n {
      assert d == -((n - d) / SIZE_LIMIT) * SIZE_LIMIT;
    }
  }

  lemma MovedIsTaken(sel: Selector, ss: seq<Slot>)
    ensures var ms, ts := Moved(sel, ss, |ss|), Take(sel, Live(ss));
            |ms| == |ts| && (ms != [] ==> ms[0].value == ts[0].value)
  {
    hide Picks, Live, Take, Tombs;
    LiveMoved(sel, ss, |ss|);
    assert ss[..|ss|] == ss;
    LiveSize(Moved(sel, ss, |ss|));
    if Moved(sel, ss, |ss|) != [] { FirstLive(Moved(sel, ss, |ss|)); }
  }

  lemma {:induction false} FirstLive(ss: seq<Slot>)
    requires Tombs(ss) == 0 && ss != []
    ensures Live(ss) != [] && Live(ss)[0] == ViewOf(ss[0])
    decreases |ss|
  {
    if |ss| > 1 { FirstLive(ss[..|ss| - 1]); }
  }

  /** The header that adding a name makes: well-known names take their usual spelling. */
  function HeaderOf(t: Table, name: string, value: string): Header {
    if FoldAll(name) in t then Header(Common(FoldAll(name)), t[FoldAll(name)], value)
    else Header(OtherCode, name, value)
  }

  /** The name of a slot is not owned by a table that shares no names. */
  lemma GivesUp(t: Table, ss: seq<Slot>, i: nat, owned: set<NameCell>)
    requires Sound(t, ss, owned) && i < |ss| && !ss[i].code.NoCode?
    ensures OwnSet(ss[i]) <= owned
  {
    SoundBury(t, ss, i, owned);
  }

  lemma NamedWalks(t: Table, name: string)
    ensures Walks(Named(t, name))
  {
  }

  lemma TransferLists(sel: Selector, ss: seq<Slot>, ds: seq<Slot>)
    ensures Live(Buried(sel, ss, |ss|)) == Keep(sel, Live(ss))
    ensures Live(ds + Moved(sel, ss, |ss|)) == Live(ds) + Take(sel, Live(ss))
    ensures |Moved(sel, ss, |ss|)| == |Take(sel, Live(ss))|
  {
    hide *;
    LiveBuried(sel, ss);
    LiveMoved(sel, ss, |ss|);
    LiveSize(Moved(sel, ss, |ss|));
    assert ss[..|ss|] == ss;
    LiveAppend(ds, Moved(sel, ss, |ss|));
  }

  lemma CellsSplit(ss: seq<Slot>, n: nat)
    requires n <= |ss|
    ensures Cells(ss) == Cells(ss[..n]) + Cells(ss[n..])
    ensures n == 0 ==> Cells(ss[..n]) == multiset{}
    ensures n == |ss| ==> Cells(ss[..n]) == Cells(ss)
  {
    hide Cells, Live, Tombs;
    NothingLive();
    assert ss == ss[..n] + ss[n..];
    LiveAppend(ss[..n], ss[n..]);
    if n == 0 { assert ss[..n] == []; }
    if n == |ss| { assert ss[..n] == ss; }
  }

  lemma CellsNext(ss: seq<Slot>, n: nat)
    requires n < |ss|
    ensures Cells(ss[..n + 1]) == Cells(ss[..n]) + OwnCells(ss[n])
    ensures Cells(ss[..n]) + OwnCells(ss[n]) <= Cells(ss)
  {
    hide Cells, Live, Tombs;
    assert ss[..n + 1] == ss[..n] + [ss[n]];
    LiveSnoc(ss[..n], ss[n]);
    CellsSplit(ss, n + 1);
  }

  /** A name that is still to be visited has not been deleted yet. */
  lemma DeleteStep(ss: seq<Slot>, n: nat, owned: set<NameCell>)
    requires n < |ss| && multiset(owned) + Cells(ss[..n]) == Cells(ss)
    ensures OwnSet(ss[n]) <= owned && multiset(owned - OwnSet(ss[n])) + Cells(ss[..n + 1]) == Cells(ss)
  {
    hide Cells;
    CellsNext(ss, n);
    if OwnSet(ss[n]) != {} {
      var c := ss[n].name.cell;
      assert OwnCells(ss[n])[c] == 1;
      assert Cells(ss[..n])[c] + 1 <= Cells(ss)[c];
      assert multiset(owned)[c] >= 1;
      assert multiset(owned - {c}) + multiset{c} == multiset(owned);
    } else {
      assert owned - {} == owned;
    }
  }

  lemma NothingSound(t: Table)
    ensures Sound(t, [], {}) && Live([]) == [] && Tombs([]) == 0
  {
  }

  lemma SlotIsOk(t: Table, ss: seq<Slot>, i: nat, owned: set<NameCell>)
    requires Sound(t, ss, owned) && i < |ss|
    ensures SlotOk(t, ss[i])
  {
  }

  /** The same header, or no header in both. */
  predicate CopyOf(a: Slot, b: Slot) { a.code == b.code && (a.code.NoCode? || ViewOf(a) == ViewOf(b)) }

  predicate Copies(ss: seq<Slot>, rs: seq<Slot>) {
    |ss| == |rs| && forall i :: 0 <= i < |ss| ==> CopyOf(ss[i], rs[i])
  }

  lemma {:induction false} CopiesAgree(ss: seq<Slot>, rs: seq<Slot>)
    requires Copies(ss, rs)
    ensures Live(ss) == Live(rs) && Tombs(ss) == Tombs(rs)
    decreases |ss|
  {
    if ss != [] { CopiesAgree(ss[..|ss| - 1], rs[..|rs| - 1]); }
  }

  ghost function OwnSet(s: Slot): set<NameCell> {
    if s.code.OtherCode? && s.name.OwnName? then {s.name.cell} else {}
  }

  lemma NextFits(sel: Selector, ss: seq<Slot>, m: nat)
    requires NextIs(sel, ss, 0, m)
    ensures m <= |ss|
  {
  }

  /** What a transfer keeps of two tables. */
  datatype Both = Both(drift: int, destDrift: int, owned: set<NameCell>)

  class Headers {
    const table: Table
    var codes: array<Code>
    var names: array<Name>
    var values: array<string>
    var length: nat
    var capacity: nat
    var deletedCount: nat
    ghost var owned: set<NameCell>

    ghost predicate Shape()
      reads this`codes, this`names, this`values, this`length, this`capacity
    {
      && codes.Length == names.Length == values.Length == capacity
      && length <= capacity && TableOk(table)
    }

    ghost function Repr(): set<object>
      reads this
    {
      {this, codes, names, values}
    }

    ghost function Slots(): (ss: seq<Slot>)
      requires Shape()
      reads this`codes, this`names, this`values, this`length, this`capacity, codes, names, values
      ensures |ss| == length
    {
      Zip(codes[..length], names[..length], values[..length])
    }

    lemma SlotAt(i: nat)
      requires Shape() && i < length
      ensures Slots()[i] == SlotOf(codes[i], names[i], values[i])
    {
    }

    /** Every heap name this table owns is held by exactly one live slot, and live slots hold no other heap name. */
    ghost predicate Valid()
      reads this, codes, names, values
    {
      Shape() && Sound(table, Slots(), owned)
    }

    /** The headers in order. */
    ghost function List(): seq<Header>
      requires Shape()
      reads this`codes, this`names, this`values, this`length, this`capacity, codes, names, values
    {
      Live(Slots())
    }

    /** How far the count of removed slots is off. */
    ghost function Drift(): int
      requires Shape()
      reads this, codes, names, values
    {
      deletedCount - Tombs(Slots())
    }

    // ----- Memory -----

    constructor (t: Table)
      requires TableOk(t)
      ensures Valid() && table == t && Slots() == [] && capacity == INITIAL_RESERVE
      ensures deletedCount == 0 && owned == {} && fresh(Repr())
    {
      table := t;
      codes, names, values := new Code[0], new Name[0], new string[0];
      length, capacity, deletedCount, owned := 0, 0, 0, {};
      new;
      Resize(INITIAL_RESERVE);
      NothingLive();
    }

    method Resize(c: nat)
      requires Shape()
      modifies this`codes, this`names, this`values, this`capacity
      ensures Shape() && Slots() == old(Slots())
      ensures capacity == if c <= old(capacity) then old(capacity) else c
      ensures fresh(Repr() - old(Repr()))
    {
      if c <= capacity { return; }
      var newCodes := Grown(codes, length, c);
      var newNames := Grown(names, length, c);
      var newValues := Grown(values, length, c);
      codes, names, values, capacity := newCodes, newNames, newValues, c;
    }

    /** A larger array with the same first elements. */
    static method Grown<T(0)>(a: array<T>, n: nat, c: nat) returns (b: array<T>)
      requires n <= a.Length < c
      ensures fresh(b) && b.Length == c && b[..n] == a[..n]
    {
      b := new T[c];
      var i := 0;
      while i < n
        invariant 0 <= i <= n && b[..i] == a[..i]
      {
        b[i] := a[i];
        i := i + 1;
      }
    }

    /** Capacity grows by halves from at least the initial reserve. */
    method Ensure(minCapacity: nat)
      requires Shape()
      modifies this`codes, this`names, this`values, this`capacity
      ensures Shape() && Slots() == old(Slots()) && capacity >= minCapacity
      ensures old(capacity) >= minCapacity ==> capacity == old(capacity)
      ensures fresh(Repr() - old(Repr()))
    {
      if capacity >= minCapacity { return; }
      var target := if capacity < INITIAL_RESERVE then INITIAL_RESERVE else capacity;
      while target < minCapacity
        invariant target >= INITIAL_RESERVE && target >= capacity
      {
        target := target + target / 2;
      }
      Resize(target);
    }

    /** Writes the slot behind the last one. */
    method Append(code: Code, name: Name, value: string)
      requires Shape() && length < capacity
      modifies this`length, codes, names, values
      ensures Shape() && Slots() == old(Slots()) + [SlotOf(code, name, value)]
    {
      codes[length] := code;
      names[length] := name;
      values[length] := value;
      length := length + 1;
      assert codes[..length] == old(codes[..length]) + [code];
      assert names[..length] == old(names[..length]) + [name];
      assert values[..length] == old(values[..length]) + [value];
    }

    /** The value is trimmed; a heap name changes hands. */
    method EmplaceBack(code: Code, name: Name, value: string)
      requires Valid() && SlotOk(table, SlotOf(code, name, Trim(value, BLANK)))
      requires OwnSet(SlotOf(code, name, "")) !! owned
      modifies Repr()
      ensures Valid() && Slots() == old(Slots()) + [SlotOf(code, name, Trim(value, BLANK))]
      ensures List() == old(List()) + LiveOf(SlotOf(code, name, Trim(value, BLANK)))
      ensures Drift() == old(Drift()) - if code.NoCode? then 1 else 0
      ensures owned == old(owned) + OwnSet(SlotOf(code, name, ""))
      ensures fresh(Repr() - old(Repr()))
    {
      hide Trim, SlotOk, Slots, Sound, Live, LiveOf, Tombs, Cells, TableOk;
      ghost var ss := Slots();
      ghost var s := SlotOf(code, name, Trim(value, BLANK));
      Ensure(length + 1);
      Append(code, name, Trim(value, BLANK));
      LiveSnoc(ss, s);
      SoundSnoc(table, ss, s, owned);
      owned := owned + OwnSet(s);
    }

    // ----- Removal -----

    /** memchr over the codes. */
    method Find(code: Code, from: nat) returns (pos: nat)
      requires Shape() && from <= length
      ensures from <= pos <= length && (pos < length ==> codes[pos] == code)
      ensures forall i :: from <= i < pos ==> codes[i] != code
    {
      pos := from;
      while pos < length && codes[pos] != code
        invariant from <= pos <= length && forall i :: from <= i < pos ==> codes[i] != code
      {
        pos := pos + 1;
      }
    }

    /** Turns a live slot into a tombstone; the name it owned is given up, to be deleted or moved. */
    method Bury(pos: nat)
      requires Valid() && pos < length && !Slots()[pos].code.NoCode?
      modifies this`deletedCount, this`owned, codes
      ensures Valid() && Slots() == old(Slots())[pos := TOMB] && Drift() == old(Drift())
      ensures owned == old(owned) - OwnSet(old(Slots())[pos]) && OwnSet(old(Slots())[pos]) <= old(owned)
    {
      hide Sound, Cells, Tombs;
      ghost var ss := Slots();
      SoundBury(table, ss, pos, owned);
      codes[pos] := NoCode;
      assert codes[..length] == old(codes[..length])[pos := NoCode];
      assert Slots() == ss[pos := TOMB];
      deletedCount := deletedCount + 1;
      owned := owned - OwnSet(ss[pos]);
    }

    function At(pos: nat): Header
      requires pos < codes.Length == names.Length == values.Length
      reads this`codes, this`names, this`values, codes, names, values
    {
      Header(codes[pos], NameText(names[pos]), values[pos])
    }

    lemma NoneBetween(sel: Selector, n: nat, m: nat)
      requires Shape() && Walks(sel) && n <= m <= length && forall i :: n <= i < m ==> codes[i] != CodeOf(sel)
      ensures forall i :: n <= i < m ==> !IsPicked(sel, Slots()[i])
    {
      forall i | n <= i < m ensures !IsPicked(sel, Slots()[i]) { SlotAt(i); }
    }

    /** The next picked slot; only slots with the code that the selection looks for are examined. */
    method NextPicked(sel: Selector, from: nat) returns (pos: nat)
      requires Shape() && Walks(sel) && from <= length
      ensures from <= pos <= length && NextIs(sel, Slots(), from, pos)
    {
      hide Slots, SameText, SameVersion;
      pos := Find(CodeOf(sel), from);
      NoneBetween(sel, from, pos);
      while pos < length && !Picks(sel, At(pos))
        invariant from <= pos <= length && (pos < length ==> codes[pos] == CodeOf(sel))
        invariant forall i :: from <= i < pos ==> !IsPicked(sel, Slots()[i])
        decreases length - pos
      {
        SlotAt(pos);
        var next := Find(CodeOf(sel), pos + 1);
        NoneBetween(sel, pos + 1, next);
        pos := next;
      }
      if pos < length { SlotAt(pos); }
    }

    method RemoveWhere(sel: Selector) returns (removed: bool)
      requires Valid() && Walks(sel)
      modifies this`deletedCount, this`owned, codes
      ensures Valid() && Drift() == old(Drift()) && owned <= old(owned)
      ensures Slots() == Buried(sel, old(Slots()), length)
      ensures List() == Keep(sel, old(List()))
      ensures removed <==> Take(sel, old(List())) != []
    {
      hide Sound, Cells, Tombs, Live, Picks, IsPicked, Keep, Take, Buried, Moved, NextIs, Slots;
      ghost var ss := Slots();
      var pos := NextPicked(sel, 0);
      Arrives(sel, ss, pos);
      removed := false;
      while pos < length
        invariant pos <= length && Valid() && Drift() == old(Drift()) && owned <= old(owned)
        invariant Slots() == Buried(sel, ss, pos) &&
            (pos < length ==> IsPicked(sel, ss[pos]) && !Slots()[pos].code.NoCode?)
        invariant removed <==> Moved(sel, ss, pos) != []
      {
        Bury(pos);
        removed := true;
        var next := NextPicked(sel, pos + 1);
        Advances(sel, ss, pos, next, Slots());
        pos := next;
      }
      LiveBuried(sel, ss);
      MovedIsTaken(sel, ss);
    }

    method RemoveCode(code: Code) returns (removed: bool)
      requires Valid() && code.Common?
      modifies this`deletedCount, this`owned, codes
      ensures Valid() && Drift() == old(Drift()) && owned <= old(owned)
      ensures List() == Keep(ByCode(code), old(List()))
      ensures removed <==> Take(ByCode(code), old(List())) != []
    {
      removed := RemoveWhere(ByCode(code));
    }

    method Remove(name: string) returns (removed: bool)
      requires Valid()
      modifies this`deletedCount, this`owned, codes
      ensures Valid() && Drift() == old(Drift()) && owned <= old(owned)
      ensures List() == Keep(Named(table, name), old(List()))
      ensures removed <==> Take(Named(table, name), old(List())) != []
    {
      hide Sound, Live, Keep, Take, Tombs, Slots, FoldAll;
      var code := Hash(table, name);
      if !code.OtherCode? {
        removed := RemoveCode(code);
      } else {
        removed := RemoveWhere(ByText(name));
      }
    }

    method RemoveAllVersions(code: Code, name: string) returns (removed: bool)
      requires Valid() && !code.NoCode?
      modifies this`deletedCount, this`owned, codes
      ensures Valid() && Drift() == old(Drift()) && owned <= old(owned)
      ensures var coded := if code.OtherCode? then old(List()) else Keep(ByCode(code), old(List()));
              && List() == Keep(AllVersions(name), coded)
              && (removed <==> List() != old(List()))
    {
      hide Sound, Live, Keep, Take, Tombs, Slots, FoldAll;
      removed := false;
      ghost var before := List();
      if !code.OtherCode? {
        removed := RemoveCode(code);
        KeptOrTaken(ByCode(code), before);
      }
      ghost var between := List();
      var more := RemoveWhere(AllVersions(name));
      KeptOrTaken(AllVersions(name), between);
      removed := removed || more;
    }

    /** Owned names of removed slots are set to null after they are deleted. */
    method RemoveByPredicate(test: (Code, string, string) -> bool) returns (removed: bool)
      requires Valid()
      modifies this`deletedCount, this`owned, codes, names
      ensures Valid() && Drift() == old(Drift()) && owned <= old(owned)
      ensures List() == Keep(ByTest(test), old(List()))
      ensures removed <==> Take(ByTest(test), old(List())) != []
    {
      hide Sound, Cells, Tombs, Live, Keep, Take, Buried, Slots;
      ghost var ss, sel := Slots(), ByTest(test);
      removed := false;
      BuriedNone(sel, ss);
      var i := 0;
      while i < length
        invariant i <= length && Valid() && Drift() == old(Drift()) && owned <= old(owned)
        invariant Slots() == Buried(sel, ss, i)
        invariant removed <==> PickedBefore(sel, ss, i)
      {
        BuriedStep(sel, ss, i);
        PickedNext(sel, ss, i);
        SlotAt(i);
        if !codes[i].NoCode? && test(codes[i], NameText(names[i]), values[i]) {
          var isOther := codes[i].OtherCode?;
          Bury(i);
          SlotAt(i);
          if isOther { ForgetName(i); }
          removed := true;
        }
        i := i + 1;
      }
      LiveBuried(sel, ss);
      PickedIsTaken(sel, ss);
    }

    method ForgetName(pos: nat)
      requires Valid() && pos < length && codes[pos].NoCode?
      modifies names
      ensures Valid() && Slots() == old(Slots())
    {
      names[pos] := NullName;
      assert Slots() == old(Slots());
    }

    // ----- Additions -----

    method Add(name: string, value: string)
      requires Valid() && name != ""
      modifies Repr()
      ensures Valid() && Drift() == old(Drift()) && fresh(Repr() - old(Repr())) && fresh(owned - old(owned))
      ensures List() == old(List()) + [HeaderOf(table, name, Trim(value, BLANK))] && length == old(length) + 1
    {
      hide Sound, Live, Tombs, Slots, FoldAll, Trim, Trimmed;
      var code := Hash(table, name);
      if code.OtherCode? {
        var cell := new NameCell(name);
        TrimTrims(value, BLANK);
        EmplaceBack(code, OwnName(cell), value);
      } else {
        AddCode(code, value);
      }
    }

    method AddCode(code: Code, value: string)
      requires Valid() && code.Common? && code.name in table
      modifies Repr()
      ensures Valid() && Drift() == old(Drift()) && fresh(Repr() - old(Repr())) && owned == old(owned)
      ensures List() == old(List()) + [Header(code, table[code.name], Trim(value, BLANK))] && length == old(length) + 1
    {
      hide Sound, Live, Tombs, Slots, FoldAll, Trim, Trimmed;
      TrimTrims(value, BLANK);
      EmplaceBack(code, StaticName(table[code.name]), value);
    }

    method Set(name: string, value: string)
      requires Valid() && name != ""
      modifies Repr()
      ensures Valid() && Drift() == old(Drift()) && fresh(Repr() - old(Repr())) && fresh(owned - old(owned))
      ensures List() == Keep(Named(table, name), old(List())) + [HeaderOf(table, name, Trim(value, BLANK))]
      ensures length == old(length) + 1
    {
      hide Sound, Live, Tombs, Slots, FoldAll, Trim, Keep;
      var _ := Remove(name);
      Add(name, value);
    }

    method SetCode(code: Code, value: string)
      requires Valid() && code.Common? && code.name in table
      modifies Repr()
      ensures Valid() && Drift() == old(Drift()) && fresh(Repr() - old(Repr())) && owned <= old(owned)
      ensures List() == Keep(ByCode(code), old(List())) + [Header(code, table[code.name], Trim(value, BLANK))]
      ensures length == old(length) + 1
    {
      hide Sound, Live, Tombs, Slots, FoldAll, Trim, Keep;
      var _ := RemoveCode(code);
      AddCode(code, value);
    }

    method SetOneVersion(name: string, code: Code, value: string)
      requires Valid() && name != "" && !code.NoCode?
      modifies Repr()
      ensures Valid() && Drift() == old(Drift()) && fresh(Repr() - old(Repr())) && fresh(owned - old(owned))
      ensures var coded := if code.OtherCode? then old(List()) else Keep(ByCode(code), old(List()));
              List() == Keep(AllVersions(name), coded) + [HeaderOf(table, name, Trim(value, BLANK))]
      ensures length == old(length) + 1
    {
      hide Sound, Live, Tombs, Slots, FoldAll, Trim, Keep;
      var _ := RemoveAllVersions(code, name);
      Add(name, value);
    }

    // ----- Reading -----

    method ExistsCode(code: Code) returns (found: bool)
      requires Valid()
      ensures found <==> exists i :: 0 <= i < length && Slots()[i].code == code
    {
      var p := Find(code, 0);
      found := p < length;
      assert found ==> Slots()[p].code == code;
    }

    method Exists(name: string) returns (found: bool)
      requires Valid()
      ensures found <==> Take(Named(table, name), List()) != []
    {
      hide Sound, Live, Take, Slots, FoldAll;
      var n, _ := Count(Named(table, name));
      found := n > 0;
    }

    /** The number of values of a header, and the only one if there is just one. */
    method Count(sel: Selector) returns (n: nat, first: string)
      requires Valid() && Walks(sel)
      ensures n == |Take(sel, List())|
      ensures n > 0 ==> first == Take(sel, List())[0].value
    {
      hide Sound, Cells, Tombs, Live, Picks, IsPicked, Keep, Take, Moved, NextIs, Slots;
      ghost var ss := Slots();
      var pos := NextPicked(sel, 0);
      Arrives(sel, ss, pos);
      n, first := 0, "";
      while pos < length
        invariant pos <= length && (pos < length ==> IsPicked(sel, ss[pos]) && !Slots()[pos].code.NoCode?)
        invariant n == |Moved(sel, ss, pos)| && (n > 0 ==> first == Moved(sel, ss, pos)[0].value)
      {
        SlotAt(pos);
        if n == 0 { first := values[pos]; }
        n := n + 1;
        var next := NextPicked(sel, pos + 1);
        Passes(sel, ss, pos, next);
        pos := next;
      }
      MovedIsTaken(sel, ss);
    }

    method GetSingleOrEmpty(sel: Selector) returns (value: string)
      requires Valid() && Walks(sel)
      ensures var vs := Take(sel, List()); value == if |vs| == 1 then vs[0].value else ""
    {
      hide Sound, Live, Picks, Take, Slots;
      var n, first := Count(sel);
      value := if n == 1 then first else "";
    }

    /** size(): right exactly when the count of removed slots is. */
    method Size() returns (n: nat)
      requires Valid()
      ensures n == (|List()| - Drift()) % SIZE_LIMIT
      ensures length < SIZE_LIMIT ==> (n == |List()| <==> Drift() % SIZE_LIMIT == 0)
    {
      hide Sound, Live, Tombs, Slots;
      LiveSize(Slots());
      n := (length - deletedCount) % SIZE_LIMIT;
      if length < SIZE_LIMIT { WrappedSize(|List()|, Drift()); }
    }

    // ----- Two tables -----

    /** The tables share neither memory nor names. */
    ghost predicate Apart(other: Headers)
      reads this, other
    {
      Repr() !! other.Repr() && owned !! other.owned && table == other.table
    }

    /** A live slot goes to the end of another table, together with its name. */
    method MoveSlot(pos: nat, dest: Headers)
      requires Valid() && dest.Valid() && Apart(dest) && pos < length && !Slots()[pos].code.NoCode?
      modifies this`deletedCount, this`owned, codes, dest.Repr()
      ensures Valid() && dest.Valid() && Apart(dest) && fresh(dest.Repr() - old(dest.Repr()))
      ensures Slots() == old(Slots())[pos := TOMB] && Drift() == old(Drift())
      ensures dest.Slots() == old(dest.Slots()) + [old(Slots())[pos]] && dest.Drift() == old(dest.Drift())
      ensures owned <= old(owned) && owned + dest.owned == old(owned + dest.owned)
    {
      hide Slots, Live, Tombs, Cells, Trim;
      SlotAt(pos);
      assert SlotOk(table, Slots()[pos]);
      TrimFixes(values[pos], BLANK);
      hide Sound, SlotOk;
      GivesUp(table, Slots(), pos, owned);
      dest.EmplaceBack(codes[pos], names[pos], values[pos]);
      Bury(pos);
    }

    /** What holds when the slots before `pos` have been walked over. */
    ghost predicate Transferring(sel: Selector, dest: Headers, ss: seq<Slot>, ds: seq<Slot>, pos: nat, from: Both)
      reads this, codes, names, values, dest, dest.codes, dest.names, dest.values
    {
      && Valid() && dest.Valid() && Apart(dest) && pos <= length == |ss| && Walks(sel)
      && Drift() == from.drift && dest.Drift() == from.destDrift && owned + dest.owned == from.owned
      && Slots() == Buried(sel, ss, pos) && dest.Slots() == ds + Moved(sel, ss, pos)
      && (pos < length ==> IsPicked(sel, ss[pos]) && !Slots()[pos].code.NoCode?)
    }

    method TransferTurn(sel: Selector, dest: Headers, ghost ss: seq<Slot>, ghost ds: seq<Slot>, pos: nat,
                        ghost from: Both) returns (next: nat)
      requires Transferring(sel, dest, ss, ds, pos, from) && pos < length
      modifies this`deletedCount, this`owned, codes, dest.Repr()
      ensures Transferring(sel, dest, ss, ds, next, from) && pos < next && fresh(dest.Repr() - old(dest.Repr()))
    {
      hide Sound, Tombs, IsPicked, Buried, Moved, NextIs, Slots, TableOk;
      BuriedAt(sel, ss, pos);
      MoveSlot(pos, dest);
      next := NextPicked(sel, pos + 1);
      Advances(sel, ss, pos, next, Slots());
      assert ds + Moved(sel, ss, pos) + [ss[pos]] == ds + (Moved(sel, ss, pos) + [ss[pos]]);
    }

    method TransferWhere(sel: Selector, dest: Headers)
      requires Valid() && dest.Valid() && Apart(dest) && Walks(sel)
      modifies this`deletedCount, this`owned, codes, dest.Repr()
      ensures Valid() && dest.Valid() && Apart(dest) && fresh(dest.Repr() - old(dest.Repr()))
      ensures Drift() == old(Drift()) && dest.Drift() == old(dest.Drift())
      ensures Slots() == Buried(sel, old(Slots()), length)
      ensures dest.Slots() == old(dest.Slots()) + Moved(sel, old(Slots()), length)
      ensures owned + dest.owned == old(owned + dest.owned)
    {
      hide Transferring, Sound, Tombs, Buried, Moved, NextIs, Slots, TableOk, IsPicked;
      ghost var ss, ds := Slots(), dest.Slots();
      ghost var from := Both(Drift(), dest.Drift(), owned + dest.owned);
      var pos := NextPicked(sel, 0);
      TransferStarts(sel, dest, ss, ds, pos, from);
      while pos < length
        invariant pos <= length && Transferring(sel, dest, ss, ds, pos, from)
        invariant fresh(dest.Repr() - old(dest.Repr()))
      {
        pos := TransferTurn(sel, dest, ss, ds, pos, from);
        TransferPlace(sel, dest, ss, ds, pos, from);
      }
      TransferEnds(sel, dest, ss, ds, pos, from);
    }

    lemma TransferStarts(sel: Selector, dest: Headers, ss: seq<Slot>, ds: seq<Slot>, pos: nat, from: Both)
      requires Valid() && dest.Valid() && Apart(dest) && Walks(sel) && ss == Slots() && ds == dest.Slots()
      requires NextIs(sel, ss, 0, pos) && from == Both(Drift(), dest.Drift(), owned + dest.owned)
      ensures Transferring(sel, dest, ss, ds, pos, from)
    {
      hide Sound, Tombs, IsPicked, Buried, Moved, NextIs, Slots, TableOk;
      Arrives(sel, ss, pos);
      NextFits(sel, ss, pos);
    }

    lemma TransferPlace(sel: Selector, dest: Headers, ss: seq<Slot>, ds: seq<Slot>, pos: nat, from: Both)
      requires Transferring(sel, dest, ss, ds, pos, from)
      ensures pos <= length
    {
    }

    lemma TransferEnds(sel: Selector, dest: Headers, ss: seq<Slot>, ds: seq<Slot>, pos: nat, from: Both)
      requires Transferring(sel, dest, ss, ds, pos, from) && pos >= length
      ensures Valid() && dest.Valid() && Apart(dest) && length == |ss|
      ensures Drift() == from.drift && dest.Drift() == from.destDrift && owned + dest.owned == from.owned
      ensures Slots() == Buried(sel, ss, length) && dest.Slots() == ds + Moved(sel, ss, length)
    {
      hide Sound, Tombs, IsPicked, Buried, Moved, Slots, TableOk;
    }

    method Transfer(name: string, dest: Headers) returns (moved: bool)
      requires Valid() && dest.Valid() && Apart(dest)
      modifies this`deletedCount, this`owned, codes, dest.Repr()
      ensures Valid() && dest.Valid() && Apart(dest) && fresh(dest.Repr() - old(dest.Repr()))
      ensures Drift() == old(Drift()) && dest.Drift() == old(dest.Drift())
      ensures Slots() == Buried(Named(table, name), old(Slots()), length)
      ensures List() == Keep(Named(table, name), old(List()))
      ensures dest.List() == old(dest.List()) + Take(Named(table, name), old(List()))
      ensures dest.length == old(dest.length) + |Take(Named(table, name), old(List()))|
      ensures owned + dest.owned == old(owned + dest.owned)
      ensures moved <==> Take(Named(table, name), old(List())) != []
    {
      hide Sound, Tombs, Live, Picks, Keep, Take, Buried, Moved, Named, Slots;
      var sel := Named(table, name);
      NamedWalks(table, name);
      ghost var ss, ds := Slots(), dest.Slots();
      var first := NextPicked(sel, 0);
      NonePicked(sel, ss, first);
      moved := first < length;
      TransferWhere(sel, dest);
      TransferLists(sel, ss, ds);
    }

    // ----- Copies and moves -----

    /** Deletes every owned name once. */
    method Destroy()
      requires Valid()
      modifies this`owned
      ensures owned == {}
    {
      hide Slots, Cells;
      ghost var ss := Slots();
      var i := 0;
      CellsSplit(ss, 0);
      while i < length
        invariant i <= length && Slots() == ss && multiset(owned) + Cells(ss[..i]) == Cells(ss)
      {
        SlotAt(i);
        DeleteStep(ss, i, owned);
        if codes[i].OtherCode? {
          assert OwnSet(ss[i]) <= owned;
          owned := owned - OwnSet(ss[i]);
        }
        i := i + 1;
      }
      CellsSplit(ss, length);
    }

    method RemoveAll()
      requires Valid()
      modifies this`owned, this`length, this`deletedCount
      ensures Valid() && Slots() == [] && List() == [] && deletedCount == 0 && owned == {}
    {
      Destroy();
      length := 0;
      deletedCount := 0;
      NothingLive();
    }

    /** Names on the heap are copied, the others shared; the count of removed slots is left to the caller. */
    method CopyFrom(other: Headers)
      requires Valid() && other.Valid() && Apart(other) && length == 0 && owned == {}
      modifies this`codes, this`names, this`values, this`length, this`capacity, this`owned, codes, names, values
      ensures Valid() && fresh(Repr() - old(Repr())) && fresh(owned)
      ensures Copies(Slots(), other.Slots())
    {
      hide Sound, Slots, Cells;
      ghost var ss := other.Slots();
      Ensure(other.capacity);
      var i := 0;
      while i < other.length
        invariant i <= other.length
        invariant Valid() && fresh(Repr() - old(Repr())) && fresh(owned) && length == i
        invariant other.Valid() && other.Slots() == ss && capacity >= other.length && Repr() !! other.Repr()
        invariant Copies(Slots(), ss[..i])
      {
        CopySlot(other, i);
        i := i + 1;
      }
      assert ss[..i] == ss;
    }

    method CopySlot(other: Headers, i: nat)
      requires Valid() && other.Valid() && Repr() !! other.Repr() && table == other.table
      requires i == length < other.length <= capacity
      modifies this`length, this`owned, codes, names, values
      ensures Valid() && length == i + 1 && fresh(owned - old(owned)) && other.Valid() &&
          other.Slots() == old(other.Slots())
      ensures Slots()[..i] == old(Slots()) && CopyOf(Slots()[i], other.Slots()[i])
    {
      hide Sound, Slots, Cells;
      other.SlotAt(i);
      var name := other.names[i];
      if other.codes[i].OtherCode? {
        assert SlotOk(table, other.Slots()[i]) by { SlotIsOk(table, other.Slots(), i, other.owned); }
        var cell := new NameCell(NameText(name));
        name := OwnName(cell);
      }
      ghost var s, ss := SlotOf(other.codes[i], name, other.values[i]), Slots();
      assert SlotOk(table, s) by { SlotIsOk(table, other.Slots(), i, other.owned); }
      Append(other.codes[i], name, other.values[i]);
      SoundSnoc(table, ss, s, owned);
      owned := owned + OwnSet(s);
    }

    /** The copy constructor. */
    constructor Copy(other: Headers)
      requires other.Valid()
      ensures Valid() && fresh(Repr()) && fresh(owned) && table == other.table
      ensures List() == other.List() && Drift() == other.Drift() && length == other.length
    {
      hide Sound, Live, Tombs, Cells, Zip, SlotOf, TableOk;
      table := other.table;
      codes, names, values := new Code[0], new Name[0], new string[0];
      length, capacity, deletedCount, owned := 0, 0, other.deletedCount, {};
      new;
      NothingSound(table);
      CopyFrom(other);
      CopiesAgree(Slots(), other.Slots());
    }

    /** Copy assignment forgets the tombstones it copies. */
    method Assign(other: Headers)
      requires Valid() && other.Valid() && (this == other || Apart(other))
      modifies Repr()
      ensures Valid() && fresh(Repr() - old(Repr())) && List() == old(other.List()) && length == old(other.length)
      ensures this == other ==> Slots() == old(Slots()) && Drift() == old(Drift())
      ensures this != other ==>
                && other.Valid() && other.Slots() == old(other.Slots()) && fresh(owned)
                && Drift() == 0 - Tombs(other.Slots())
    {
      hide Sound, Live, Tombs, Cells, Slots;
      if this != other {
        RemoveAll();
        CopyFrom(other);
        CopiesAgree(Slots(), other.Slots());
      }
    }

    /** Takes over memory, slots and names. */
    method Hold(cs: array<Code>, ns: array<Name>, vs: array<string>, len: nat, deleted: nat, ghost own: set<NameCell>)
      requires len <= cs.Length == ns.Length == vs.Length && TableOk(table)
      requires Sound(table, Zip(cs[..len], ns[..len], vs[..len]), own)
      modifies this
      ensures Valid() && Slots() == Zip(cs[..len], ns[..len], vs[..len]) && deletedCount == deleted && owned == own
      ensures codes == cs && names == ns && values == vs && length == len && capacity == cs.Length
    {
      hide Sound, Zip, TableOk;
      codes, names, values := cs, ns, vs;
      length, capacity, deletedCount, owned := len, cs.Length, deleted, own;
    }

    /** The move constructor leaves an empty table without memory. */
    constructor Move(other: Headers)
      requires other.Valid()
      modifies other
      ensures Valid() && table == other.table && Slots() == old(other.Slots()) && owned == old(other.owned)
      ensures Drift() == old(other.Drift()) && Repr() - {this} <= old(other.Repr())
      ensures other.Valid() && other.Slots() == [] && other.owned == {} && other.Drift() == 0 && other.capacity == 0
      ensures fresh(other.Repr() - {other}) && Repr() !! other.Repr()
    {
      hide Sound, Live, Tombs, Cells, Zip, SlotOf, TableOk;
      table := other.table;
      codes, names, values := other.codes, other.names, other.values;
      length, capacity, deletedCount := other.length, other.capacity, other.deletedCount;
      owned := other.owned;
      new;
      NothingSound(table);
      var cs, ns, vs := new Code[0], new Name[0], new string[0];
      other.Hold(cs, ns, vs, 0, 0, {});
    }

    /** Move assignment swaps the memory. */
    method MoveAssign(other: Headers)
      requires Valid() && other.Valid() && (this == other || Apart(other))
      modifies this, other
      ensures Valid() && other.Valid() && Slots() == old(other.Slots()) && Drift() == old(other.Drift())
      ensures owned == old(other.owned)
      ensures this != other ==>
                && other.Slots() == [] && other.owned == {} && other.Drift() == 0 && Apart(other)
                && Repr() <= old(Repr() + other.Repr()) && other.Repr() <= old(Repr() + other.Repr())
    {
      hide Sound, Live, Tombs, Cells, Zip, SlotOf, TableOk;
      if this != other {
        RemoveAll();
        NothingSound(table);
        var cs, ns, vs := codes, names, values;
        Hold(other.codes, other.names, other.values, other.length, other.deletedCount, other.owned);
        other.Hold(cs, ns, vs, 0, 0, {});
      }
    }

    /** Appends a copy of one slot to another table. */
    method CopySlotTo(i: nat, dest: Headers)
      requires Valid() && dest.Valid() && Apart(dest) && i < length
      modifies dest.Repr()
      ensures Valid() && dest.Valid() && fresh(dest.Repr() - old(dest.Repr())) && Apart(dest)
      ensures Slots() == old(Slots()) && fresh(dest.owned - old(dest.owned))
      ensures dest.List() == old(dest.List()) + LiveOf(Slots()[i]) && dest.Drift() == old(dest.Drift())
      ensures dest.length == old(dest.length) + |LiveOf(Slots()[i])|
    {
      hide Sound, Live, Tombs, Cells, Slots, Trim, TableOk;
      SlotAt(i);
      SlotIsOk(table, Slots(), i, owned);
      TrimFixes(values[i], BLANK);
      if codes[i].OtherCode? {
        var cell := new NameCell(NameText(names[i]));
        dest.EmplaceBack(codes[i], OwnName(cell), values[i]);
      } else if !codes[i].NoCode? {
        dest.EmplaceBack(codes[i], names[i], values[i]);
      }
    }

    method ReserveIn(dest: Headers)
      requires Valid() && dest.Valid() && Apart(dest)
      modifies dest`codes, dest`names, dest`values, dest`capacity
      ensures Valid() && dest.Valid() && fresh(dest.Repr() - old(dest.Repr())) && Apart(dest)
      ensures Slots() == old(Slots()) && dest.Slots() == old(dest.Slots())
    {
      hide Sound, Live, Tombs, Slots, TableOk;
      var n := Size();
      var m := dest.Size();
      dest.Ensure(m + n);
    }

    /** What holds when the first `i` slots have been copied behind the headers `hs` of the other table. */
    ghost predicate CopyingTo(dest: Headers, ss: seq<Slot>, i: nat, hs: seq<Header>, size: nat, drift: int)
      reads this, codes, names, values, dest, dest.codes, dest.names, dest.values
    {
      && Valid() && Slots() == ss && i <= |ss| && dest.Valid() && Apart(dest)
      && dest.List() == hs + Live(ss[..i]) && dest.length == size + |Live(ss[..i])| && dest.Drift() == drift
    }

    method CopyTurn(dest: Headers, ghost ss: seq<Slot>, i: nat, ghost hs: seq<Header>, ghost size: nat,
                    ghost drift: int)
      requires CopyingTo(dest, ss, i, hs, size, drift) && i < length
      modifies dest.Repr()
      ensures CopyingTo(dest, ss, i + 1, hs, size, drift)
      ensures fresh(dest.Repr() - old(dest.Repr())) && fresh(dest.owned - old(dest.owned))
    {
      hide Sound, Live, LiveOf, Tombs, Cells, Slots, TableOk;
      assert ss[..i + 1] == ss[..i] + [ss[i]];
      LiveSnoc(ss[..i], ss[i]);
      CopySlotTo(i, dest);
    }

    method CopyTo(dest: Headers)
      requires Valid() && dest.Valid() && Apart(dest)
      modifies dest.Repr()
      ensures Valid() && dest.Valid() && fresh(dest.Repr() - old(dest.Repr())) && Apart(dest)
      ensures dest.List() == old(dest.List()) + List() && dest.Drift() == old(dest.Drift())
      ensures dest.length == old(dest.length) + |List()| && fresh(dest.owned - old(dest.owned))
    {
      hide Sound, Live, LiveOf, Tombs, Cells, Slots, TableOk, CopyingTo;
      ReserveIn(dest);
      var i := 0;
      ghost var ss, hs, size, drift := Slots(), dest.List(), dest.length, dest.Drift();
      CopyStarts(dest, ss, hs, size, drift);
      while i < length
        invariant i <= length == |ss| && CopyingTo(dest, ss, i, hs, size, drift)
        invariant fresh(dest.Repr() - old(dest.Repr())) && fresh(dest.owned - old(dest.owned))
      {
        CopyTurn(dest, ss, i, hs, size, drift);
        i := i + 1;
      }
      CopyEnds(dest, ss, hs, size, drift);
    }

    lemma CopyStarts(dest: Headers, ss: seq<Slot>, hs: seq<Header>, size: nat, drift: int)
      requires Valid() && dest.Valid() && Apart(dest) && ss == Slots()
      requires hs == dest.List() && size == dest.length && drift == dest.Drift()
      ensures CopyingTo(dest, ss, 0, hs, size, drift)
    {
      hide Sound, Live, Tombs, Slots, TableOk;
      assert ss[..0] == [];
      NothingLive();
    }

    lemma CopyEnds(dest: Headers, ss: seq<Slot>, hs: seq<Header>, size: nat, drift: int)
      requires CopyingTo(dest, ss, |ss|, hs, size, drift)
      ensures Valid() && dest.Valid() && Apart(dest)
      ensures dest.List() == hs + List() && dest.length == size + |List()| && dest.Drift() == drift
    {
      hide Sound, Live, Tombs, Slots, TableOk;
      assert ss[..|ss|] == ss;
    }
  }
}
