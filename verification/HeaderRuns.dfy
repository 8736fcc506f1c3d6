/** The operations of one header table on a plain ordered list, and what reading finds after them. */
module HeaderRuns {
  import opened Text
  import opened HeaderSlots
  import opened HttpHeaders

  datatype Op =
    | DoAdd(name: string, value: string)
    | DoSet(name: string, value: string)
    | DoAddCode(code: Code, value: string)
    | DoSetCode(code: Code, value: string)
    | DoRemoveCode(code: Code)
    | DoSetOneVersion(name: string, code: Code, value: string)
    | DoRemove(name: string)
    | DoRemoveAllVersions(code: Code, name: string)
    | DoRemoveIf(test: (Code, string, string) -> bool)
    | DoReserve(capacity: nat)
    | DoRemoveAll

  /** Headers are added by the code of a well-known name. */
  predicate Known(t: Table, op: Op) { op.DoAddCode? || op.DoSetCode? ==> op.code.Common? && op.code.name in t }

  predicate Legal(t: Table, op: Op) {
    match op
    case DoAdd(n, _) => n != ""
    case DoSet(n, _) => n != ""
    case DoRemoveCode(c) => c.Common?
    case DoSetOneVersion(n, c, _) => n != "" && !c.NoCode?
    case DoRemoveAllVersions(c, _) => !c.NoCode?
    case _ => Known(t, op)
  }

  function WithoutVersions(c: Code, name: string, hs: seq<Header>): seq<Header> {
    Keep(AllVersions(name), if c.OtherCode? then hs else Keep(ByCode(c), hs))
  }

  /** The operations on a plain ordered list. */
  function Apply(t: Table, op: Op, hs: seq<Header>): seq<Header>
    requires Known(t, op)
  {
    match op
    case DoAdd(n, v) => hs + [HeaderOf(t, n, Trim(v, BLANK))]
    case DoSet(n, v) => Keep(Named(t, n), hs) + [HeaderOf(t, n, Trim(v, BLANK))]
    case DoAddCode(c, v) => hs + [Header(c, t[c.name], Trim(v, BLANK))]
    case DoSetCode(c, v) => Keep(ByCode(c), hs) + [Header(c, t[c.name], Trim(v, BLANK))]
    case DoRemoveCode(c) => Keep(ByCode(c), hs)
    case DoSetOneVersion(n, c, v) => WithoutVersions(c, n, hs) + [HeaderOf(t, n, Trim(v, BLANK))]
    case DoRemove(n) => Keep(Named(t, n), hs)
    case DoRemoveAllVersions(c, n) => WithoutVersions(c, n, hs)
    case DoRemoveIf(f) => Keep(ByTest(f), hs)
    case DoReserve(_) => hs
    case DoRemoveAll => []
  }

  // ----- Reading after writing -----

  predicate AllOk(t: Table, hs: seq<Header>) { forall i :: 0 <= i < |hs| ==> HeaderOk(t, hs[i]) }

  lemma {:induction false} TakeNoneKept(sel: Selector, hs: seq<Header>)
    ensures Take(sel, Keep(sel, hs)) == []
    decreases |hs|
  {
    hide Picks;
    if hs != [] {
      var g, h := hs[..|hs| - 1], hs[|hs| - 1];
      TakeNoneKept(sel, g);
      assert hs == g + [h];
      KeepSnoc(sel, g, h);
      KeepSnoc(sel, Keep(sel, g), h);
    }
  }

  lemma {:induction false} TakeOtherKept(a: Selector, b: Selector, hs: seq<Header>)
    requires forall i :: 0 <= i < |hs| ==> !(Picks(a, hs[i]) && Picks(b, hs[i]))
    ensures Take(a, Keep(b, hs)) == Take(a, hs)
    decreases |hs|
  {
    hide Picks;
    if hs != [] {
      var g, h := hs[..|hs| - 1], hs[|hs| - 1];
      assert forall i :: 0 <= i < |g| ==> g[i] == hs[i];
      TakeOtherKept(a, b, g);
      assert hs == g + [h];
      KeepSnoc(a, g, h);
      KeepSnoc(b, g, h);
      KeepSnoc(a, Keep(b, g), h);
    }
  }

  lemma HeaderOfOk(t: Table, name: string, value: string)
    requires TableOk(t)
    ensures HeaderOk(t, HeaderOf(t, name, value)) && SameText(name, HeaderOf(t, name, value).name)
  {
  }

  /** After set, the name has exactly the new value, trimmed; every other name has what it had. */
  lemma SetThenGet(t: Table, name: string, value: string, other: string, hs: seq<Header>)
    requires TableOk(t) && AllOk(t, hs)
    ensures var now := Apply(t, DoSet(name, value), hs);
            && Take(Named(t, name), now) == [HeaderOf(t, name, Trim(value, BLANK))]
            && (!SameText(name, other) ==> Take(Named(t, other), now) == Take(Named(t, other), hs))
  {
    hide Picks, Named, HeaderOf, Trim, SameText;
    var h, sel := HeaderOf(t, name, Trim(value, BLANK)), Named(t, name);
    HeaderOfOk(t, name, Trim(value, BLANK));
    NamedIsSameText(t, name, h);
    TakeNoneKept(sel, hs);
    KeepSnoc(sel, Keep(sel, hs), h);
    assert [] + [h] == [h];
    if !SameText(name, other) {
      NamesApart(t, name, other, h);
      forall i | 0 <= i < |hs| ensures !(Picks(Named(t, other), hs[i]) && Picks(sel, hs[i])) {
        NamesApart(t, name, other, hs[i]);
      }
      TakeOtherKept(Named(t, other), sel, hs);
      KeepSnoc(Named(t, other), Keep(sel, hs), h);
    }
  }

  /** One header does not have two names. */
  lemma NamesApart(t: Table, name: string, other: string, h: Header)
    requires TableOk(t) && HeaderOk(t, h) && !SameText(name, other)
    ensures !(Picks(Named(t, name), h) && Picks(Named(t, other), h))
  {
    NamedIsSameText(t, name, h);
    NamedIsSameText(t, other, h);
  }

  /** After remove, the name is gone; every other name has what it had. */
  lemma RemoveThenGet(t: Table, name: string, other: string, hs: seq<Header>)
    requires TableOk(t) && AllOk(t, hs)
    ensures var now := Apply(t, DoRemove(name), hs);
            && Take(Named(t, name), now) == []
            && (!SameText(name, other) ==> Take(Named(t, other), now) == Take(Named(t, other), hs))
  {
    hide Picks, Named, SameText;
    TakeNoneKept(Named(t, name), hs);
    if !SameText(name, other) {
      forall i | 0 <= i < |hs| ensures !(Picks(Named(t, other), hs[i]) && Picks(Named(t, name), hs[i])) {
        NamesApart(t, name, other, hs[i]);
      }
      TakeOtherKept(Named(t, other), Named(t, name), hs);
    }
  }

  /** The headers of a table are well formed, so the laws above apply to every table. */
  lemma {:induction false} LiveOk(t: Table, ss: seq<Slot>)
    requires TableOk(t) && SlotsOk(t, ss)
    ensures AllOk(t, Live(ss))
    decreases |ss|
  {
    if ss != [] { LiveOk(t, ss[..|ss| - 1]); }
  }

  /** With every version of the name removed, none is left, whatever its spelling. */
  lemma NoVersionLeft(t: Table, c: Code, name: string, hs: seq<Header>)
    requires TableOk(t) && AllOk(t, hs)
    requires c == Hash(t, name)
    ensures Take(Named(t, name), WithoutVersions(c, name, hs)) == []
    ensures forall h :: h in WithoutVersions(c, name, hs) && h.code.OtherCode? ==> !SameVersion(name, h.name)
  {
    hide Keep, Take, FoldAll, FoldVersion;
    var coded := if c.OtherCode? then hs else Keep(ByCode(c), hs);
    KeepAndTake(ByCode(c), hs);
    KeepAndTake(AllVersions(name), coded);
    KeepAndTake(Named(t, name), WithoutVersions(c, name, hs));
    var left := Take(Named(t, name), WithoutVersions(c, name, hs));
    if left != [] {
      var h := left[0];
      assert h in left;
      if c.OtherCode? { SameTextIsSameVersion(name, h.name); }
      assert false;
    }
  }
}
