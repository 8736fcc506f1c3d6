/** Stripping the per-hop headers of a message into another table. */
module HeaderStrip {
  import opened Text
  import opened HeaderSlots
  import opened HeaderHops
  import opened HttpHeaders

  // ----- Reading a Connection value -----

  method SkipBlanks(s: string) returns (rest: string)
    ensures rest == TrimLeft(s, BLANK)
  {
    rest := s;
    while rest != [] && rest[0] in BLANK
      invariant TrimLeft(rest, BLANK) == TrimLeft(s, BLANK)
    {
      rest := rest[1..];
    }
  }

  method FindComma(s: string) returns (p: nat)
    ensures p == CommaAt(s) <= |s|
  {
    p := 0;
    CommaIsFirst(s);
    assert s[0..] == s;
    while p < |s| && s[p] != ','
      invariant p <= |s| && CommaAt(s) == p + CommaAt(s[p..])
    {
      assert s[p..][1..] == s[p + 1..];
      p := p + 1;
    }
  }

  method DropBlanks(s: string) returns (token: string)
    ensures token == TrimRight(s, BLANK)
  {
    token := s;
    while token != [] && token[|token| - 1] in BLANK
      invariant TrimRight(token, BLANK) == TrimRight(s, BLANK)
    {
      token := token[..|token| - 1];
    }
  }

  method FirstWord(s: string) returns (word: string)
    ensures word == Word(s)
  {
    var len := 0;
    assert s[0..] == s;
    while len < |s| && s[len] !in BLANK
      invariant len <= |s| && Word(s) == s[..len] + Word(s[len..])
    {
      assert s[len..][1..] == s[len + 1..];
      assert s[..len + 1] == s[..len] + [s[len]];
      len := len + 1;
    }
    word := s[..len];
    assert Word(s) == s[..len] + [];
  }

  lemma TokensOnce(s: string)
    requires s != [] && CommaAt(s) <= |s|
    ensures Tokens([]) == []
    ensures Tokens(s) == if CommaAt(s) == |s| then NonEmpty(Word(s)) + Tokens([])
                         else NonEmpty(TrimRight(s[..CommaAt(s)], BLANK)) + Tokens(TrimLeft(s[CommaAt(s) + 1..], BLANK))
  {
    hide TrimLeft, TrimRight, Word, CommaAt;
    assert Tokens([]) == [];
    assert NonEmpty(Word(s)) + [] == NonEmpty(Word(s));
  }

  /** One turn of the loop over the value: a token, which may be empty, and what is left. */
  method NextToken(s: string) returns (token: string, rest: string)
    requires s != []
    ensures |rest| < |s| && Tokens(s) == NonEmpty(token) + Tokens(rest)
  {
    hide Tokens, TrimLeft, TrimRight, Word, CommaAt;
    var p := FindComma(s);
    TokensOnce(s);
    if p == |s| {
      token := FirstWord(s);
      rest := [];
    } else {
      token := DropBlanks(s[..p]);
      rest := SkipBlanks(s[p + 1..]);
      TrimLeftStops(s[p + 1..], BLANK);
    }
  }

  method StripToken(h: Headers, dest: Headers, token: string)
    requires h.Valid() && dest.Valid() && h.Apart(dest)
    modifies h`deletedCount, h`owned, h.codes, dest.Repr()
    ensures h.Valid() && dest.Valid() && h.Apart(dest) && fresh(dest.Repr() - old(dest.Repr()))
    ensures h.Drift() == old(h.Drift()) && dest.Drift() == old(dest.Drift())
    ensures h.Slots() == BuryNames(h.table, NonEmpty(token), old(h.Slots()))
    ensures dest.List() == old(dest.List()) + TakeNames(h.table, NonEmpty(token), old(h.List()))
  {
    hide Sound, Live, Tombs, BuryNames, KeepNames, TakeNames, Named, Keep, Take, Buried, TableOk, Headers.Slots;
    NothingNamedYet(h.table, h.Slots(), h.List());
    if token != [] {
      NamesSnoc(h.table, [], token, h.Slots(), h.List());
      assert [] + [token] == NonEmpty(token);
      var _ := h.Transfer(token, dest);
    }
  }

  /** Moves the headers that one Connection value names. */
  /** What holds when the names `done` of a value have been stripped and `str` is left to read. */
  ghost predicate ValueState(h: Headers, dest: Headers, ss: seq<Slot>, done: seq<string>, str: string,
                             all: seq<string>, from: Counts)
    reads h, h.codes, h.names, h.values, dest, dest.codes, dest.names, dest.values
  {
    && h.Valid() && dest.Valid() && h.Apart(dest)
    && h.Drift() == from.drift && dest.Drift() == from.destDrift
    && h.Slots() == BuryNames(h.table, done, ss) && dest.List() == from.list + TakeNames(h.table, done, Live(ss))
    && done + Tokens(str) == all
  }

  method ValueTurn(h: Headers, dest: Headers, ghost ss: seq<Slot>, ghost done: seq<string>, str: string,
                   ghost all: seq<string>, ghost from: Counts) returns (rest: string, ghost done': seq<string>)
    requires ValueState(h, dest, ss, done, str, all, from) && str != []
    modifies h`deletedCount, h`owned, h.codes, dest.Repr()
    ensures ValueState(h, dest, ss, done', rest, all, from) && |rest| < |str|
    ensures fresh(dest.Repr() - old(dest.Repr()))
  {
    hide Sound, Live, Tombs, Tokens, BuryNames, KeepNames, TakeNames, Named, Keep, Take, Buried, TableOk, Headers.Slots;
    var token;
    token, rest := NextToken(str);
    BuryNamesLive(h.table, done, ss);
    NamesAppend(h.table, done, NonEmpty(token), ss, Live(ss));
    assert done + NonEmpty(token) + Tokens(rest) == done + (NonEmpty(token) + Tokens(rest));
    StripToken(h, dest, token);
    done' := done + NonEmpty(token);
  }

  method StripNamed(h: Headers, dest: Headers, value: string)
    requires h.Valid() && dest.Valid() && h.Apart(dest)
    modifies h`deletedCount, h`owned, h.codes, dest.Repr()
    ensures h.Valid() && dest.Valid() && h.Apart(dest) && fresh(dest.Repr() - old(dest.Repr()))
    ensures h.Drift() == old(h.Drift()) && dest.Drift() == old(dest.Drift())
    ensures h.Slots() == BuryNames(h.table, NamesIn(value), old(h.Slots()))
    ensures dest.List() == old(dest.List()) + TakeNames(h.table, NamesIn(value), old(h.List()))
  {
    hide ValueState, Sound, Live, Tombs, Tokens, BuryNames, TakeNames, CText, TableOk, Headers.Slots;
    ghost var ss, done: seq<string>, all := h.Slots(), [], NamesIn(value);
    ghost var from := Counts(dest.List(), h.Drift(), dest.Drift());
    var str := SkipBlanks(CText(value));
    ValueStart(h, dest, ss, str, all, from);
    while str != []
      invariant ValueState(h, dest, ss, done, str, all, from) && fresh(dest.Repr() - old(dest.Repr()))
      decreases |str|
    {
      str, done := ValueTurn(h, dest, ss, done, str, all, from);
    }
    ValueEnd(h, dest, ss, done, all, from);
  }

  lemma ValueStart(h: Headers, dest: Headers, ss: seq<Slot>, str: string, all: seq<string>, from: Counts)
    requires h.Valid() && dest.Valid() && h.Apart(dest) && ss == h.Slots()
    requires from == Counts(dest.List(), h.Drift(), dest.Drift()) && Tokens(str) == all
    ensures ValueState(h, dest, ss, [], str, all, from)
  {
    hide Sound, Live, Tombs, Tokens, BuryNames, KeepNames, TakeNames, TableOk, Headers.Slots;
    NothingNamedYet(h.table, ss, Live(ss));
  }

  lemma ValueEnd(h: Headers, dest: Headers, ss: seq<Slot>, done: seq<string>, all: seq<string>, from: Counts)
    requires ValueState(h, dest, ss, done, [], all, from)
    ensures h.Valid() && dest.Valid() && h.Apart(dest) && h.Drift() == from.drift && dest.Drift() == from.destDrift
    ensures h.Slots() == BuryNames(h.table, all, ss) && dest.List() == from.list + TakeNames(h.table, all, Live(ss))
  {
    hide Sound, Live, Tombs, BuryNames, TakeNames, TableOk, Headers.Slots;
    NoTokens();
    assert done + [] == done;
  }

  lemma NoTokens()
    ensures Tokens([]) == []
  {
  }

  lemma NothingNamedYet(t: Table, ss: seq<Slot>, hs: seq<Header>)
    ensures BuryNames(t, [], ss) == ss && KeepNames(t, [], hs) == hs && TakeNames(t, [], hs) == []
  {
  }

  datatype Counts = Counts(list: seq<Header>, drift: int, destDrift: int)

  /** What holds when the names `done` have been stripped and the walk is at `pos`. */
  ghost predicate NamedState(h: Headers, dest: Headers, ss: seq<Slot>, done: seq<string>, pos: nat, all: seq<string>,
                             from: Counts)
    reads h, h.codes, h.names, h.values, dest, dest.codes, dest.names, dest.values
  {
    && h.Valid() && dest.Valid() && h.Apart(dest) && pos <= h.length
    && h.Drift() == from.drift && dest.Drift() == from.destDrift
    && h.Slots() == BuryNames(h.table, done, ss)
    && dest.List() == from.list + TakeNames(h.table, done, Live(ss))
    && done + Heard(h.table, ConnectionSlots(h.Slots()[pos..])) == all
  }

  method ConnectionTurn(h: Headers, dest: Headers, ghost ss: seq<Slot>, ghost done: seq<string>, pos: nat,
                        ghost all: seq<string>, ghost from: Counts) returns (next: nat, ghost done': seq<string>)
    requires NamedState(h, dest, ss, done, pos, all, from)
    modifies h`deletedCount, h`owned, h.codes, dest.Repr()
    ensures pos <= next && fresh(dest.Repr() - old(dest.Repr()))
    ensures if next > h.length then
              && done' == done == all && NamedState(h, dest, ss, done', pos, all, from)
            else
              && pos < next <= h.length && NamedState(h, dest, ss, done', next, all, from)
  {
    hide Sound, Live, Tombs, BuryNames, KeepNames, TakeNames, TableOk, Heard, ConnectionSlots, CONNECTION, NamesIn,
      Headers.Slots;
    var p := FindConnection(h, pos);
    if p == h.length {
      HearsNone(h.table, done);
      return p + 1, done;
    }
    HearsNext(h.table, done, h.Slots(), p);
    ghost var names := NamesIn(h.values[p]);
    BuryNamesLive(h.table, done, ss);
    NamesAppend(h.table, done, names, ss, Live(ss));
    StripNamed(h, dest, h.values[p]);
    return p + 1, done + names;
  }

  /** Walks over the Connection headers; what they name is moved on the way. */
  method StripConnections(h: Headers, dest: Headers)
    requires h.Valid() && dest.Valid() && h.Apart(dest)
    modifies h`deletedCount, h`owned, h.codes, dest.Repr()
    ensures h.Valid() && dest.Valid() && h.Apart(dest) && fresh(dest.Repr() - old(dest.Repr()))
    ensures h.Drift() == old(h.Drift()) && dest.Drift() == old(dest.Drift())
    ensures var names := Heard(h.table, ConnectionValues(old(h.List())));
            && h.List() == KeepNames(h.table, names, old(h.List()))
            && dest.List() == old(dest.List()) + TakeNames(h.table, names, old(h.List()))
  {
    hide Sound, Live, Tombs, BuryNames, KeepNames, TakeNames, TableOk, Heard, ConnectionSlots, ConnectionValues,
         NamedState, Headers.Slots;
    ghost var ss, done := h.Slots(), [];
    ghost var all, from := Heard(h.table, ConnectionSlots(ss)), Counts(dest.List(), h.Drift(), dest.Drift());
    NamedStart(h, dest, from);
    var pos := 0;
    while pos <= h.length
      invariant fresh(dest.Repr() - old(dest.Repr())) && h.length == |ss|
      invariant pos <= h.length ==> NamedState(h, dest, ss, done, pos, all, from)
      invariant pos > h.length ==> exists p :: NamedState(h, dest, ss, all, p, all, from)
      decreases h.length + 1 - pos
    {
      pos, done := ConnectionTurn(h, dest, ss, done, pos, all, from);
    }
    ghost var p :| NamedState(h, dest, ss, all, p, all, from);
    NamedEnd(h, dest, ss, p, all, from);
    ConnectionAgree(ss);
  }

  lemma NamedStart(h: Headers, dest: Headers, from: Counts)
    requires h.Valid() && dest.Valid() && h.Apart(dest) && from == Counts(dest.List(), h.Drift(), dest.Drift())
    ensures NamedState(h, dest, h.Slots(), [], 0, Heard(h.table, ConnectionSlots(h.Slots())), from)
  {
    hide Sound, Live, Tombs, Heard, ConnectionSlots, Headers.Slots;
    NothingNamedYet(h.table, h.Slots(), Live(h.Slots()));
    assert h.Slots()[0..] == h.Slots();
  }

  lemma NamedEnd(h: Headers, dest: Headers, ss: seq<Slot>, p: nat, all: seq<string>, from: Counts)
    requires NamedState(h, dest, ss, all, p, all, from)
    ensures h.Valid() && dest.Valid() && h.Apart(dest) && h.Drift() == from.drift && dest.Drift() == from.destDrift
    ensures h.List() == KeepNames(h.table, all, Live(ss))
    ensures dest.List() == from.list + TakeNames(h.table, all, Live(ss))
  {
    hide Sound, Live, Tombs, Heard, ConnectionSlots, Headers.Slots, BuryNames;
    BuryNamesLive(h.table, all, ss);
  }

  method FindConnection(h: Headers, pos: nat) returns (p: nat)
    requires h.Valid() && pos <= h.length
    ensures pos <= p <= h.length && ConnectionSlots(h.Slots()[pos..]) == ConnectionSlots(h.Slots()[p..])
    ensures p < h.length ==> h.Slots()[p].code == CONNECTION && h.Slots()[p].value == h.values[p]
    ensures p == h.length ==> h.Slots()[p..] == []
  {
    hide CONNECTION, Sound, Live, ConnectionSlots, Headers.Slots;
    ConnectionIsCommon();
    p := h.Find(CONNECTION, pos);
    forall i | pos <= i < p ensures h.Slots()[i].code != CONNECTION { h.SlotAt(i); }
    ConnectionSkip(h.Slots(), pos, p);
    if p < h.length { h.SlotAt(p); }
  }

  /** What remains to be heard after the value at `p`. */
  lemma HearsNext(t: Table, done: seq<string>, now: seq<Slot>, p: nat)
    requires p < |now| && now[p].code == CONNECTION
    ensures var names := NamesIn(now[p].value);
            done + names + Heard(t, ConnectionSlots(BuryNames(t, names, now)[p + 1..])) ==
            done + Heard(t, ConnectionSlots(now[p..]))
  {
    hide CONNECTION, NamesIn, BuryNames, AnyConnection;
    var names := NamesIn(now[p].value);
    BuryNamesConnection(t, names, now, p + 1);
    assert now[p..][1..] == now[p + 1..];
    assert ConnectionSlots(now[p..]) == [now[p].value] + ConnectionSlots(now[p + 1..]);
    assert ConnectionSlots(now[p..])[1..] == ConnectionSlots(now[p + 1..]);
  }

  lemma HearsNone(t: Table, done: seq<string>)
    ensures done + Heard(t, ConnectionSlots([])) == done
  {
  }

  /** The codes of one table, looked up for each slot of another. */
  method IsPerHop(h: Headers, i: nat, priority: bool, custom: Headers?) returns (perHop: bool)
    requires h.Valid() && i < h.length && (custom != null ==> custom.Valid() && custom.table == h.table)
    ensures !h.Slots()[i].code.NoCode? ==>
              (perHop <==> Picks(PerHop(priority, CustomList(custom)), ViewOf(h.Slots()[i])))
    ensures h.Slots()[i].code.NoCode? ==> (perHop <==> HasTombs(custom))
  {
    hide Headers.Slots, Sound, IsHopName, SameText, Live, Listed;
    h.SlotAt(i);
    NothingListed(ViewOf(h.Slots()[i]));
    perHop := false;
    if !h.codes[i].OtherCode? {
      perHop := HopCode(h.codes[i], priority);
      if !perHop && custom != null {
        perHop := custom.ExistsCode(h.codes[i]);
        if h.codes[i].Common? { CodeListed(custom.Slots(), ViewOf(h.Slots()[i])); }
      }
    } else if custom != null {
      SlotIsOk(h.table, h.Slots(), i, h.owned);
      perHop := custom.Exists(NameText(h.names[i]));
      NameListed(h.table, custom.List(), ViewOf(h.Slots()[i]));
    }
  }

  ghost function CustomList(custom: Headers?): seq<Header>
    requires custom != null ==> custom.Shape()
    reads custom, if custom == null then {} else custom.Repr()
  {
    if custom == null then [] else custom.List()
  }

  ghost predicate HasTombs(custom: Headers?)
    requires custom != null ==> custom.Shape()
    reads custom, if custom == null then {} else custom.Repr()
  {
    custom != null && exists i :: 0 <= i < custom.length && custom.Slots()[i].code == NoCode
  }

  /** Some slot has the code of a header exactly when the list has. */
  lemma {:induction false} CodeListed(ss: seq<Slot>, h: Header)
    requires h.code.Common?
    ensures Listed(Live(ss), h) <==> exists i :: 0 <= i < |ss| && ss[i].code == h.code
    decreases |ss|
  {
    if ss != [] {
      var a, s := ss[..|ss| - 1], ss[|ss| - 1];
      CodeListed(a, h);
      ListedSnoc(Live(a), ViewOf(s), h);
      assert forall i :: 0 <= i < |a| ==> a[i] == ss[i];
      if Listed(Live(a), h) {
        var i :| 0 <= i < |a| && a[i].code == h.code;
        assert ss[i].code == h.code;
      }
      if s.code != h.code && exists i :: 0 <= i < |ss| && ss[i].code == h.code {
        var i :| 0 <= i < |ss| && ss[i].code == h.code;
        assert a[i].code == h.code;
      }
      assert Live(a) + [] == Live(a);
    }
  }

  lemma ListedSnoc(hs: seq<Header>, g: Header, h: Header)
    ensures Listed(hs + [g], h) <==>
              Listed(hs, h) || (g.code == h.code && (h.code.OtherCode? ==> SameText(h.name, g.name)))
  {
    hide SameText;
    var gs := hs + [g];
    if Listed(hs, h) {
      var i :| 0 <= i < |hs| && hs[i].code == h.code && (h.code.OtherCode? ==> SameText(h.name, hs[i].name));
      assert gs[i] == hs[i];
    }
    assert gs[|hs|] == g;
  }

  lemma {:induction false} NameListed(t: Table, hs: seq<Header>, h: Header)
    requires h.code.OtherCode? && FoldAll(h.name) !in t
    ensures Listed(hs, h) <==> Take(Named(t, h.name), hs) != []
    decreases |hs|
  {
    if hs != [] {
      var a, g := hs[..|hs| - 1], hs[|hs| - 1];
      assert hs == a + [g];
      NameListed(t, a, h);
      ListedSnoc(a, g, h);
      KeepSnoc(Named(t, h.name), a, g);
    }
  }

  lemma NothingListed(h: Header)
    ensures !Listed([], h)
  {
  }

  /** A tombstone that is taken for a header: both counts of removed slots go wrong. */
  method StripTomb(h: Headers, dest: Headers, i: nat)
    requires h.Valid() && dest.Valid() && h.Apart(dest) && i < h.length && h.Slots()[i].code.NoCode?
    modifies h`deletedCount, h.codes, dest.Repr()
    ensures h.Valid() && dest.Valid() && h.Apart(dest) && fresh(dest.Repr() - old(dest.Repr()))
    ensures h.Slots() == old(h.Slots()) && h.Drift() == old(h.Drift()) + 1
    ensures dest.List() == old(dest.List()) && dest.Drift() == old(dest.Drift()) - 1
  {
    hide Sound, Live, Tombs, Trim, Headers.Slots;
    h.SlotAt(i);
    dest.EmplaceBack(h.codes[i], h.names[i], h.values[i]);
    assert dest.List() == old(dest.List());
    Rebury(h, i);
    h.deletedCount := h.deletedCount + 1;
  }

  method Rebury(h: Headers, i: nat)
    requires h.Valid() && i < h.length && h.codes[i].NoCode?
    modifies h.codes
    ensures h.Valid() && h.Slots() == old(h.Slots())
  {
    h.codes[i] := NoCode;
    assert h.codes[..h.length] == old(h.codes[..h.length]);
  }

  /** One turn of the walk over all slots. */
  method StripSlot(h: Headers, dest: Headers, i: nat, perHop: bool)
    requires h.Valid() && dest.Valid() && h.Apart(dest) && i < h.length
    modifies h`deletedCount, h`owned, h.codes, dest.Repr()
    ensures h.Valid() && dest.Valid() && h.Apart(dest) && fresh(dest.Repr() - old(dest.Repr()))
    ensures h.Slots() == if perHop then old(h.Slots())[i := TOMB] else old(h.Slots())
    ensures dest.List() == old(dest.List()) + if perHop then LiveOf(old(h.Slots())[i]) else []
    ensures var extra := if perHop && old(h.Slots())[i].code.NoCode? then 1 else 0;
            h.Drift() == old(h.Drift()) + extra && dest.Drift() == old(dest.Drift()) - extra
  {
    hide Sound, Live, Tombs, Headers.Slots;
    h.SlotAt(i);
    if perHop {
      if h.codes[i].NoCode? {
        assert h.Slots()[i := TOMB] == h.Slots();
        StripTomb(h, dest, i);
      } else {
        LiveSnoc(dest.Slots(), h.Slots()[i]);
        h.MoveSlot(i, dest);
      }
    }
  }

  /** What holds of the two tables when the first `i` slots have been walked over. */
  ghost predicate HopTables(h: Headers, dest: Headers, sel: Selector, ss: seq<Slot>, tombs: bool, i: nat, from: Counts)
    reads h, h.codes, h.names, h.values, dest, dest.codes, dest.names, dest.values
  {
    && h.Valid() && dest.Valid() && h.Apart(dest) && i <= |ss|
    && h.Slots() == Buried(sel, ss, i)
    && dest.List() == from.list + Take(sel, Live(ss[..i]))
    && var extra := if tombs then Tombs(ss[..i]) else 0;
      h.Drift() == from.drift + extra && dest.Drift() == from.destDrift - extra
  }

  /** The custom table shares no memory with the others, and is what the selection says. */
  ghost predicate CustomOk(h: Headers, dest: Headers, custom: Headers?, sel: Selector, tombs: bool)
    reads h, dest, custom, if custom == null then {} else custom.Repr()
  {
    && (custom != null ==>
          && custom.Valid() && custom.table == h.table
          && custom.Repr() !! h.Repr() && custom.Repr() !! dest.Repr())
    && sel.PerHop? && CustomList(custom) == sel.custom && HasTombs(custom) == tombs
  }

  ghost predicate HopState(h: Headers, dest: Headers, custom: Headers?, sel: Selector, ss: seq<Slot>, tombs: bool,
                           i: nat, from: Counts)
    reads h, h.codes, h.names, h.values, dest, dest.codes, dest.names, dest.values
    reads custom, if custom == null then {} else custom.Repr()
  {
    HopTables(h, dest, sel, ss, tombs, i, from) && CustomOk(h, dest, custom, sel, tombs)
  }

  method HopMove(h: Headers, dest: Headers, ghost sel: Selector, ghost ss: seq<Slot>, ghost tombs: bool, i: nat,
                 ghost from: Counts, perHop: bool)
    requires HopTables(h, dest, sel, ss, tombs, i, from) && i < |ss|
    requires perHop == if ss[i].code.NoCode? then tombs else IsPicked(sel, ss[i])
    modifies h`deletedCount, h`owned, h.codes, dest.Repr()
    ensures HopTables(h, dest, sel, ss, tombs, i + 1, from)
    ensures h.Repr() == old(h.Repr()) && fresh(dest.Repr() - old(dest.Repr()))
  {
    hide Sound, Live, Tombs, Picks, Buried, Take, TableOk, Headers.Slots;
    HopNext(sel, ss, i);
    h.SlotAt(i);
    assert ss[i].code.NoCode? ==> ss[i] == TOMB;
    ghost var more := if perHop then LiveOf(ss[i]) else [];
    assert from.list + Take(sel, Live(ss[..i])) + more == from.list + (Take(sel, Live(ss[..i])) + more);
    StripSlot(h, dest, i, perHop);
  }

  method HopTurn(h: Headers, dest: Headers, priority: bool, custom: Headers?, ghost sel: Selector, ghost ss: seq<Slot>,
                 ghost tombs: bool, i: nat, ghost from: Counts)
    requires HopState(h, dest, custom, sel, ss, tombs, i, from) && i < |ss| && sel.priority == priority
    modifies h`deletedCount, h`owned, h.codes, dest.Repr()
    ensures HopState(h, dest, custom, sel, ss, tombs, i + 1, from)
    ensures fresh(dest.Repr() - old(dest.Repr()))
  {
    hide Sound, Live, Tombs, Picks, Buried, Take, TableOk, Headers.Slots, HopTables;
    HopSlot(h, dest, sel, ss, tombs, i, from);
    var perHop := IsPerHop(h, i, priority, custom);
    HopMove(h, dest, sel, ss, tombs, i, from, perHop);
  }

  lemma HopSlot(h: Headers, dest: Headers, sel: Selector, ss: seq<Slot>, tombs: bool, i: nat, from: Counts)
    requires HopTables(h, dest, sel, ss, tombs, i, from) && i < |ss|
    ensures h.Valid() && i < h.length && h.Slots()[i] == ss[i]
  {
    hide Sound, Live, Tombs, Picks, Buried, Take, TableOk, Headers.Slots;
    HopNext(sel, ss, i);
  }

  /** The walk that strips per-hop, priority and custom headers. */
  method StripHops(h: Headers, dest: Headers, priority: bool, custom: Headers?)
    requires h.Valid() && dest.Valid() && h.Apart(dest)
    requires custom != null ==>
               && custom.Valid() && custom.table == h.table
               && custom.Repr() !! h.Repr() && custom.Repr() !! dest.Repr()
    modifies h`deletedCount, h`owned, h.codes, dest.Repr()
    ensures h.Valid() && dest.Valid() && h.Apart(dest) && fresh(dest.Repr() - old(dest.Repr()))
    ensures var sel := PerHop(priority, old(CustomList(custom)));
            && h.List() == Keep(sel, old(h.List()))
            && dest.List() == old(dest.List()) + Take(sel, old(h.List()))
    ensures var extra := if old(HasTombs(custom)) then Tombs(old(h.Slots())) else 0;
            h.Drift() == old(h.Drift()) + extra && dest.Drift() == old(dest.Drift()) - extra
  {
    hide HopState, Buried, Live, Tombs, Headers.Slots, Sound, TableOk, Take;
    ghost var ss, sel, tombs := h.Slots(), PerHop(priority, CustomList(custom)), HasTombs(custom);
    ghost var from := Counts(dest.List(), h.Drift(), dest.Drift());
    assert HopState(h, dest, custom, sel, ss, tombs, 0, from) by { HopStart(h, dest, custom, sel, ss, tombs, from); }
    var i := 0;
    while i < h.length
      invariant i <= h.length == |ss| && fresh(dest.Repr() - old(dest.Repr()))
      invariant HopState(h, dest, custom, sel, ss, tombs, i, from)
    {
      HopTurn(h, dest, priority, custom, sel, ss, tombs, i, from);
      i := i + 1;
    }
    HopEnd(h, dest, custom, sel, ss, tombs, from);
  }

  lemma HopStart(h: Headers, dest: Headers, custom: Headers?, sel: Selector, ss: seq<Slot>, tombs: bool, from: Counts)
    requires h.Valid() && dest.Valid() && h.Apart(dest) && ss == h.Slots()
    requires custom != null ==>
               && custom.Valid() && custom.table == h.table
               && custom.Repr() !! h.Repr() && custom.Repr() !! dest.Repr()
    requires sel.PerHop? && CustomList(custom) == sel.custom && HasTombs(custom) == tombs
    requires from == Counts(dest.List(), h.Drift(), dest.Drift())
    ensures HopState(h, dest, custom, sel, ss, tombs, 0, from)
  {
    hide Sound, Live, Tombs, Picks, Buried, Take, Headers.Slots;
    BuriedNone(sel, ss);
    HopNothing(sel, ss);
  }

  lemma HopEnd(h: Headers, dest: Headers, custom: Headers?, sel: Selector, ss: seq<Slot>, tombs: bool, from: Counts)
    requires HopState(h, dest, custom, sel, ss, tombs, |ss|, from)
    ensures h.Valid() && dest.Valid() && h.Apart(dest)
    ensures h.List() == Keep(sel, Live(ss)) && dest.List() == from.list + Take(sel, Live(ss))
    ensures var extra := if tombs then Tombs(ss) else 0;
            h.Drift() == from.drift + extra && dest.Drift() == from.destDrift - extra
  {
    hide Sound, Live, Tombs, Picks, Buried, Take, Headers.Slots;
    LiveBuried(sel, ss);
    assert ss[..|ss|] == ss;
  }

  lemma HopNothing(sel: Selector, ss: seq<Slot>)
    ensures Take(sel, Live(ss[..0])) == [] && Tombs(ss[..0]) == 0
  {
  }

  lemma HopNext(sel: Selector, ss: seq<Slot>, i: nat)
    requires i < |ss|
    ensures Buried(sel, ss, i)[i] == ss[i]
    ensures Buried(sel, ss, i + 1) == if IsPicked(sel, ss[i]) then Buried(sel, ss, i)[i := TOMB] else Buried(sel, ss, i)
    ensures Take(sel, Live(ss[..i + 1]))
         == Take(sel, Live(ss[..i])) + if IsPicked(sel, ss[i]) then LiveOf(ss[i]) else []
    ensures Tombs(ss[..i + 1]) == Tombs(ss[..i]) + if ss[i].code.NoCode? then 1 else 0
  {
    hide Picks;
    BuriedStep(sel, ss, i);
    assert ss[..i + 1] == ss[..i] + [ss[i]];
    LiveSnoc(ss[..i], ss[i]);
    KeepSnoc(sel, Live(ss[..i]), ViewOf(ss[i]));
    assert Live(ss[..i]) + [] == Live(ss[..i]);
  }

  /** The names that decide what is stripped. */
  ghost function Hops(t: Table, hs: seq<Header>, priority: bool, custom: seq<Header>): Selector {
    Hop(t, Heard(t, ConnectionValues(hs)), priority, custom)
  }

  /** How many tombstones the second walk meets. */
  ghost function TombsMet(t: Table, hs: seq<Header>, slots: nat): int {
    slots - |KeepNames(t, Heard(t, ConnectionValues(hs)), hs)|
  }

  /** The kept headers stay in order; the others are moved behind the headers of the destination. */
  method StripPerHopHeaders(h: Headers, dest: Headers, priority: bool, custom: Headers?)
    requires h.Valid() && dest.Valid() && h.Apart(dest)
    requires custom != null ==>
               && custom.Valid() && custom.table == h.table
               && custom.Repr() !! h.Repr() && custom.Repr() !! dest.Repr()
    modifies h`deletedCount, h`owned, h.codes, dest.Repr()
    ensures h.Valid() && dest.Valid() && h.Apart(dest) && fresh(dest.Repr() - old(dest.Repr()))
    ensures var hops := Hops(h.table, old(h.List()), priority, old(CustomList(custom)));
            && h.List() == Keep(hops, old(h.List()))
            && old(dest.List()) <= dest.List()
            && multiset(dest.List()[|old(dest.List())|..]) == multiset(Take(hops, old(h.List())))
    ensures var extra := if old(HasTombs(custom)) then TombsMet(h.table, old(h.List()), h.length) else 0;
            h.Drift() == old(h.Drift()) + extra && dest.Drift() == old(dest.Drift()) - extra
  {
    hide Sound, Live, Tombs, TableOk, Keep, Take, KeepNames, TakeNames, Heard, ConnectionValues, Headers.Slots;
    ghost var hs, ds := h.List(), dest.List();
    ghost var names, list := Heard(h.table, ConnectionValues(hs)), CustomList(custom);
    StripConnections(h, dest);
    LiveSize(h.Slots());
    StripHops(h, dest, priority, custom);
    NamesSplit(h.table, names, priority, list, hs);
    Behind(ds, TakeNames(h.table, names, hs), Take(PerHop(priority, list), KeepNames(h.table, names, hs)));
  }

  lemma Behind(a: seq<Header>, b: seq<Header>, c: seq<Header>)
    ensures a <= a + b + c && multiset((a + b + c)[|a|..]) == multiset(b) + multiset(c)
  {
    assert (a + b + c)[|a|..] == b + c;
  }

  /** The list has this name, in any spelling. */
  predicate Mentions(names: seq<string>, name: string) { exists i :: 0 <= i < |names| && SameText(names[i], name) }

  predicate HasName(hs: seq<Header>, name: string) { exists i :: 0 <= i < |hs| && SameText(name, hs[i].name) }

  /** Old headers are kept or moved, and moved exactly when they are named, per-hop or custom. */
  lemma StripsExactly(t: Table, names: seq<string>, priority: bool, custom: seq<Header>, hs: seq<Header>, h: Header)
    requires TableOk(t) && HeaderOk(t, h) && forall i :: 0 <= i < |custom| ==> HeaderOk(t, custom[i])
    ensures var hops := Hop(t, names, priority, custom);
            && multiset(hs) == multiset(Keep(hops, hs)) + multiset(Take(hops, hs))
            && (h in Take(hops, hs) <==> h in hs && Picks(hops, h))
            && (h in Keep(hops, hs) <==> h in hs && !Picks(hops, h))
    ensures Picks(Hop(t, names, priority, custom), h) <==>
            Mentions(names, h.name) || HopCode(h.code, priority) || HasName(custom, h.name)
  {
    hide SameText, IsHopName, NamedBy, Listed, Mentions, HasName, Keep, Take;
    KeepAndTake(Hop(t, names, priority, custom), hs);
    assert Listed(custom, h) <==> HasName(custom, h.name) by { ListedIsHasName(t, custom, h); }
    assert NamedBy(t, names, h) <==> Mentions(names, h.name) by { NamedByIsMentions(t, names, h); }
  }

  lemma ListedIsHasName(t: Table, hs: seq<Header>, h: Header)
    requires TableOk(t) && HeaderOk(t, h) && forall i :: 0 <= i < |hs| ==> HeaderOk(t, hs[i])
    ensures Listed(hs, h) <==> HasName(hs, h.name)
  {
    ListedIsSameText(t, hs, h);
  }

  lemma NamedByIsMentions(t: Table, names: seq<string>, h: Header)
    requires TableOk(t) && HeaderOk(t, h)
    ensures NamedBy(t, names, h) <==> Mentions(names, h.name)
  {
    hide SameText, PicksName;
    forall i | 0 <= i < |names| ensures PicksName(t, names[i], h) <==> SameText(names[i], h.name) {
      PicksNameIsSameText(t, names[i], h);
    }
  }

  lemma PicksNameIsSameText(t: Table, name: string, h: Header)
    requires TableOk(t) && HeaderOk(t, h)
    ensures PicksName(t, name, h) <==> SameText(name, h.name)
  {
  }

  /** A Connection value that names "connection" silences the ones behind it. */
  lemma DeafExample(t: Table)
    requires "connection" in t && "x-a" !in t
    ensures var hs := [Header(CONNECTION, t["connection"], "connection"), Header(CONNECTION, t["connection"], "x-a"),
                       Header(OtherCode, "x-a", "1")];
            && Heard(t, ConnectionValues(hs)) == ["connection"]
            && AllNames(ConnectionValues(hs)) == ["connection", "x-a"]
            && !Picks(Hops(t, hs, false, []), hs[2])
            && Picks(Hop(t, AllNames(ConnectionValues(hs)), false, []), hs[2])
  {
    hide NamesIn, FoldAll, IsHopName;
    var g, h, x := Header(CONNECTION, t["connection"], "connection"), Header(CONNECTION, t["connection"], "x-a"),
      Header(OtherCode, "x-a", "1");
    TwoValues(g, h, x);
    OneName("connection");
    OneName("x-a");
    Folded();
    assert NamesConnection(t, ["connection"][0]);
    assert ["connection", "x-a"][1..] == ["x-a"] && ["x-a"][1..] == [];
    assert PicksName(t, ["connection", "x-a"][1], x);
  }

  lemma Folded()
    ensures FoldAll("connection") == "connection" && FoldAll("x-a") == "x-a"
  {
  }

  lemma TwoValues(g: Header, h: Header, x: Header)
    requires g.code == CONNECTION == h.code && x.code.OtherCode?
    ensures ConnectionValues([g, h, x]) == [g.value, h.value]
  {
    hide CONNECTION;
    ConnectionIsCommon();
    assert [g, h, x][1..] == [h, x] && [h, x][1..] == [x] && [x][1..] == [];
    assert ConnectionValues([x]) == [];
    assert ConnectionValues([h, x]) == [h.value];
  }

  lemma OneName(s: string)
    requires Plain(s) && s != []
    ensures NamesIn(s) == [s]
  {
    var item := Item("", s, "");
    NamesRead([item]);
    assert PrintItems([item]) == s;
  }
}
