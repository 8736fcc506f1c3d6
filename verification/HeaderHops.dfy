/** Which headers a Connection header names, and how stripping them splits a list of headers. */
module HeaderHops {
  import opened Text
  import opened HeaderSlots

  // ----- The names in a Connection value -----

  /** A string up to its first NUL. */
  function CText(s: string): string {
    if s == [] || s[0] == '\0' then [] else [s[0]] + CText(s[1..])
  }

  function CommaAt(s: string): nat {
    if s == [] || s[0] == ',' then 0 else 1 + CommaAt(s[1..])
  }

  lemma {:induction false} CommaIsFirst(s: string)
    ensures CommaAt(s) <= |s| && ',' !in s[..CommaAt(s)] && (CommaAt(s) < |s| ==> s[CommaAt(s)] == ',')
  {
    if s != [] && s[0] != ',' {
      CommaIsFirst(s[1..]);
      assert s[..CommaAt(s)] == [s[0]] + s[1..][..CommaAt(s) - 1];
    }
  }

  /** The bytes before the first blank. */
  function Word(s: string): string {
    if s == [] || s[0] in BLANK then [] else [s[0]] + Word(s[1..])
  }

  function NonEmpty(s: string): seq<string> { if s == [] then [] else [s] }

  /** Before a comma a name is trimmed; the last one ends at its first blank. */
  function Tokens(s: string): seq<string>
    decreases |s|
  {
    CommaIsFirst(s);
    TrimLeftStops(s[if CommaAt(s) < |s| then CommaAt(s) + 1 else |s|..], BLANK);
    if s == [] then []
    else if CommaAt(s) == |s| then NonEmpty(Word(s))
    else NonEmpty(TrimRight(s[..CommaAt(s)], BLANK)) + Tokens(TrimLeft(s[CommaAt(s) + 1..], BLANK))
  }

  function NamesIn(value: string): seq<string> { Tokens(TrimLeft(CText(value), BLANK)) }

  // ----- Lists of names -----

  datatype Item = Item(before: string, token: string, after: string)

  predicate AllBlank(s: string) { forall i :: 0 <= i < |s| ==> s[i] in BLANK }

  predicate Plain(s: string) { forall i :: 0 <= i < |s| ==> s[i] != '\0' && s[i] != ',' && s[i] !in BLANK }

  predicate ItemOk(item: Item) { AllBlank(item.before) && Plain(item.token) && AllBlank(item.after) }

  function PrintItem(item: Item): string { item.before + item.token + item.after }

  /** A comma-separated list, as section 7 of RFC 7230 allows it, with empty elements. */
  function PrintItems(items: seq<Item>): string
    requires items != []
  {
    PrintItem(items[0]) + if |items| == 1 then [] else "," + PrintItems(items[1..])
  }

  function TokensOf(items: seq<Item>): seq<string> {
    if items == [] then [] else NonEmpty(items[0].token) + TokensOf(items[1..])
  }

  lemma {:induction false} CTextAll(s: string)
    requires '\0' !in s
    ensures CText(s) == s
  {
    if s != [] { CTextAll(s[1..]); }
  }

  lemma {:induction false} NoNul(items: seq<Item>)
    requires items != [] && forall i :: 0 <= i < |items| ==> ItemOk(items[i])
    ensures '\0' !in PrintItems(items)
  {
    if |items| > 1 { NoNul(items[1..]); }
  }

  lemma {:induction false} TrimLeftBlank(pad: string, s: string)
    requires AllBlank(pad)
    ensures TrimLeft(pad + s, BLANK) == TrimLeft(s, BLANK)
  {
    if pad == [] {
      assert pad + s == s;
    } else {
      assert (pad + s)[1..] == pad[1..] + s;
      TrimLeftBlank(pad[1..], s);
    }
  }

  lemma {:induction false} TrimRightBlank(s: string, pad: string)
    requires AllBlank(pad)
    ensures TrimRight(s + pad, BLANK) == TrimRight(s, BLANK)
    decreases |pad|
  {
    if pad == [] {
      assert s + pad == s;
    } else {
      assert (s + pad)[..|s + pad| - 1] == s + pad[..|pad| - 1];
      TrimRightBlank(s, pad[..|pad| - 1]);
    }
  }

  lemma {:induction false} CommaAfter(s: string, rest: string)
    requires ',' !in s
    ensures CommaAt(s + "," + rest) == |s| && CommaAt(s) == |s|
  {
    if s != [] {
      assert (s + "," + rest)[1..] == s[1..] + "," + rest;
      CommaAfter(s[1..], rest);
    }
  }

  lemma {:induction false} WordAfter(s: string, pad: string)
    requires Plain(s) && AllBlank(pad)
    ensures Word(s + pad) == s
  {
    if s == [] {
      assert s + pad == pad;
    } else {
      assert (s + pad)[1..] == s[1..] + pad;
      WordAfter(s[1..], pad);
    }
  }

  /** Leading blanks of one element, dropped before the rest is read. */
  lemma LeadGone(item: Item, rest: string)
    requires ItemOk(item) && (item.token != [] || rest == [] || rest[0] !in BLANK)
    ensures TrimLeft(PrintItem(item) + rest, BLANK) ==
            if item.token == [] then rest else item.token + item.after + rest
  {
    var i := item;
    if i.token == [] {
      assert PrintItem(i) + rest == i.before + (i.after + rest);
      TrimLeftBlank(i.before, i.after + rest);
      TrimLeftBlank(i.after, rest);
    } else {
      assert PrintItem(i) + rest == i.before + (i.token + i.after + rest);
      TrimLeftBlank(i.before, i.token + i.after + rest);
    }
  }

  /** Reading a list gives back its elements, whatever blanks surround them. */
  lemma {:induction false} TokensRead(items: seq<Item>)
    requires items != [] && forall i :: 0 <= i < |items| ==> ItemOk(items[i])
    ensures Tokens(TrimLeft(PrintItems(items), BLANK)) == TokensOf(items)
  {
    var i := items[0];
    var body := if i.token == [] then [] else i.token + i.after;
    if |items| == 1 {
      assert PrintItems(items) == PrintItem(i) + [];
      LeadGone(i, []);
      if i.token != [] {
        assert body == body + [];
        CommaAfter(body, []);
        WordAfter(i.token, i.after);
      }
      assert items[1..] == [];
    } else {
      var rest := PrintItems(items[1..]);
      assert PrintItems(items) == PrintItem(i) + ("," + rest);
      LeadGone(i, "," + rest);
      TokensRead(items[1..]);
      TokensStep(body, rest);
      BodyTrims(i);
    }
  }

  lemma TokensStep(body: string, rest: string)
    requires ',' !in body
    ensures Tokens(body + ("," + rest)) == NonEmpty(TrimRight(body, BLANK)) + Tokens(TrimLeft(rest, BLANK))
  {
    var s := body + ("," + rest);
    assert s == body + "," + rest;
    CommaAfter(body, rest);
    assert s[..|body|] == body && s[|body| + 1..] == rest;
  }

  lemma BodyTrims(i: Item)
    requires ItemOk(i)
    ensures TrimRight(if i.token == [] then [] else i.token + i.after, BLANK) == i.token
  {
    TrimRightBlank(i.token, i.after);
  }

  /** Round trip for the names of a Connection header. */
  lemma NamesRead(items: seq<Item>)
    requires items != [] && forall i :: 0 <= i < |items| ==> ItemOk(items[i])
    ensures NamesIn(PrintItems(items)) == TokensOf(items)
  {
    NoNul(items);
    CTextAll(PrintItems(items));
    TokensRead(items);
  }

  // ----- Stripping names one after the other -----

  function KeepNames(t: Table, names: seq<string>, hs: seq<Header>): seq<Header> {
    if names == [] then hs else KeepNames(t, names[1..], Keep(Named(t, names[0]), hs))
  }

  function TakeNames(t: Table, names: seq<string>, hs: seq<Header>): seq<Header> {
    if names == [] then []
    else Take(Named(t, names[0]), hs) + TakeNames(t, names[1..], Keep(Named(t, names[0]), hs))
  }

  function BuryNames(t: Table, names: seq<string>, ss: seq<Slot>): (rs: seq<Slot>)
    ensures |rs| == |ss|
    decreases |names|
  {
    if names == [] then ss else BuryNames(t, names[1..], Buried(Named(t, names[0]), ss, |ss|))
  }

  lemma {:induction false} BuryNamesLive(t: Table, names: seq<string>, ss: seq<Slot>)
    ensures Live(BuryNames(t, names, ss)) == KeepNames(t, names, Live(ss))
    decreases |names|
  {
    hide Live, Keep, Buried, Named;
    if names != [] {
      LiveBuried(Named(t, names[0]), ss);
      BuryNamesLive(t, names[1..], Buried(Named(t, names[0]), ss, |ss|));
    }
  }

  lemma {:induction false} NamesSnoc(t: Table, names: seq<string>, name: string, ss: seq<Slot>, hs: seq<Header>)
    ensures BuryNames(t, names + [name], ss) == Buried(Named(t, name), BuryNames(t, names, ss), |ss|)
    ensures KeepNames(t, names + [name], hs) == Keep(Named(t, name), KeepNames(t, names, hs))
    ensures TakeNames(t, names + [name], hs) == TakeNames(t, names, hs) + Take(Named(t, name), KeepNames(t, names, hs))
    decreases |names|
  {
    hide Keep, Take, Buried, Named;
    if names == [] {
      assert (names + [name])[1..] == [];
    } else {
      var rest, sel := names[1..], Named(t, names[0]);
      assert (names + [name])[1..] == rest + [name];
      NamesSnoc(t, rest, name, Buried(sel, ss, |ss|), Keep(sel, hs));
    }
  }

  lemma {:induction false} NamesAppend(t: Table, a: seq<string>, b: seq<string>, ss: seq<Slot>, hs: seq<Header>)
    ensures BuryNames(t, a + b, ss) == BuryNames(t, b, BuryNames(t, a, ss))
    ensures KeepNames(t, a + b, hs) == KeepNames(t, b, KeepNames(t, a, hs))
    ensures TakeNames(t, a + b, hs) == TakeNames(t, a, hs) + TakeNames(t, b, KeepNames(t, a, hs))
    decreases |a|
  {
    hide Keep, Take, Buried, Named;
    if a == [] {
      assert a + b == b;
    } else {
      var sel := Named(t, a[0]);
      assert (a + b)[1..] == a[1..] + b;
      NamesAppend(t, a[1..], b, Buried(sel, ss, |ss|), Keep(sel, hs));
    }
  }

  // ----- The values of Connection headers -----

  const CONNECTION := Common("connection")

  function ConnectionValues(hs: seq<Header>): seq<string> {
    if hs == [] then []
    else (if hs[0].code == CONNECTION then [hs[0].value] else []) + ConnectionValues(hs[1..])
  }

  /** The same for slots. */
  function ConnectionSlots(ss: seq<Slot>): seq<string> {
    if ss == [] then []
    else (if ss[0].code == CONNECTION then [ss[0].value] else []) + ConnectionSlots(ss[1..])
  }

  lemma {:induction false} ConnectionAgree(ss: seq<Slot>)
    ensures ConnectionSlots(ss) == ConnectionValues(Live(ss))
  {
    hide CONNECTION;
    if ss != [] {
      ConnectionAgree(ss[1..]);
      assert ss == [ss[0]] + ss[1..];
      LiveAppend([ss[0]], ss[1..]);
      assert [] + [ss[0]] == [ss[0]];
      LiveSnoc([], ss[0]);
      ConnectionIsCommon();
      if !ss[0].code.NoCode? {
        assert Live(ss)[1..] == Live(ss[1..]);
      } else {
        assert Live(ss) == Live(ss[1..]);
      }
    }
  }

  predicate NamesConnection(t: Table, name: string) { Named(t, name) == ByCode(CONNECTION) }

  predicate AnyConnection(t: Table, names: seq<string>) {
    exists i :: 0 <= i < |names| && NamesConnection(t, names[i])
  }

  /** The names that count: after a value that names "connection" itself the walk finds no more values. */
  function Heard(t: Table, values: seq<string>): seq<string> {
    if values == [] then []
    else
      var names := NamesIn(values[0]);
      names + if AnyConnection(t, names) then [] else Heard(t, values[1..])
  }

  function AllNames(values: seq<string>): seq<string> {
    if values == [] then [] else NamesIn(values[0]) + AllNames(values[1..])
  }

  /** A value names "connection" and a later one names anything. */
  ghost predicate Deafened(t: Table, values: seq<string>) {
    exists i, j :: 0 <= i < j < |values| && AnyConnection(t, NamesIn(values[i])) && NamesIn(values[j]) != []
  }

  /** All names of all Connection values are stripped exactly when no value after one naming "connection" has names. */
  lemma {:induction false} HeardIsAll(t: Table, values: seq<string>)
    ensures Heard(t, values) == AllNames(values) <==> !Deafened(t, values)
  {
    hide AnyConnection, NamesIn;
    if values != [] {
      var rest := values[1..];
      HeardIsAll(t, rest);
      var first := AnyConnection(t, NamesIn(values[0]));
      if first {
        NothingNamed(rest);
        if AllNames(rest) != [] {
          var j :| 0 <= j < |rest| && NamesIn(rest[j]) != [];
          assert AnyConnection(t, NamesIn(values[0])) && NamesIn(values[j + 1]) != [];
        }
        if Deafened(t, values) {
          var i, j :| 0 <= i < j < |values| && AnyConnection(t, NamesIn(values[i])) && NamesIn(values[j]) != [];
          assert NamesIn(rest[j - 1]) != [];
        }
      } else {
        var names := NamesIn(values[0]);
        assert (names + Heard(t, rest))[|names|..] == Heard(t, rest);
        assert (names + AllNames(rest))[|names|..] == AllNames(rest);
        if Deafened(t, rest) {
          var i, j :| 0 <= i < j < |rest| && AnyConnection(t, NamesIn(rest[i])) && NamesIn(rest[j]) != [];
          assert AnyConnection(t, NamesIn(values[i + 1])) && NamesIn(values[j + 1]) != [];
        }
        if Deafened(t, values) {
          var i, j :| 0 <= i < j < |values| && AnyConnection(t, NamesIn(values[i])) && NamesIn(values[j]) != [];
          assert AnyConnection(t, NamesIn(rest[i - 1])) && NamesIn(rest[j - 1]) != [];
        }
      }
    }
  }

  lemma {:induction false} NothingNamed(values: seq<string>)
    ensures AllNames(values) == [] <==> forall j :: 0 <= j < |values| ==> NamesIn(values[j]) == []
  {
    hide NamesIn;
    if values != [] {
      NothingNamed(values[1..]);
      if AllNames(values) == [] {
        forall j | 0 <= j < |values| ensures NamesIn(values[j]) == [] {
          if j > 0 { assert values[j] == values[1..][j - 1]; }
        }
      }
    }
  }

  lemma {:induction false} ConnectionSkip(ss: seq<Slot>, n: nat, m: nat)
    requires n <= m <= |ss| && forall i :: n <= i < m ==> ss[i].code != CONNECTION
    ensures ConnectionSlots(ss[n..]) == ConnectionSlots(ss[m..])
    decreases m - n
  {
    hide CONNECTION;
    if n < m {
      assert ss[n..][1..] == ss[n + 1..];
      ConnectionSkip(ss, n + 1, m);
    }
  }

  /** Removing a name other than "connection" keeps the Connection values; removing that one leaves none. */
  lemma {:induction false} BuriedConnection(t: Table, name: string, ss: seq<Slot>, p: nat)
    requires p <= |ss|
    ensures ConnectionSlots(Buried(Named(t, name), ss, |ss|)[p..]) ==
            if NamesConnection(t, name) then [] else ConnectionSlots(ss[p..])
    decreases |ss| - p
  {
    hide CONNECTION, FoldAll, SameText;
    if p < |ss| {
      BuriedConnection(t, name, ss, p + 1);
      var rs := Buried(Named(t, name), ss, |ss|);
      assert rs[p..][1..] == rs[p + 1..] && ss[p..][1..] == ss[p + 1..];
      assert rs[p] == if IsPicked(Named(t, name), ss[p]) then TOMB else ss[p];
      assert CONNECTION.Common? by { ConnectionIsCommon(); }
    }
  }

  lemma ConnectionIsCommon()
    ensures CONNECTION.Common?
  {
  }

  lemma {:induction false} BuryNamesConnection(t: Table, names: seq<string>, ss: seq<Slot>, p: nat)
    requires p <= |ss|
    ensures ConnectionSlots(BuryNames(t, names, ss)[p..]) ==
            if AnyConnection(t, names) then [] else ConnectionSlots(ss[p..])
    decreases |names|
  {
    hide CONNECTION, Named, Buried, ConnectionSlots, NamesConnection;
    if names != [] {
      BuriedConnection(t, names[0], ss, p);
      BuryNamesConnection(t, names[1..], Buried(Named(t, names[0]), ss, |ss|), p);
      if AnyConnection(t, names[1..]) {
        var i :| 0 <= i < |names[1..]| && NamesConnection(t, names[1..][i]);
        assert NamesConnection(t, names[i + 1]);
      }
      if AnyConnection(t, names) && !NamesConnection(t, names[0]) {
        var i :| 0 <= i < |names| && NamesConnection(t, names[i]);
        assert NamesConnection(t, names[1..][i - 1]);
      }
    }
  }

  // ----- The split as a whole -----

  /** Stripping name by name is stripping by the list of names. */
  lemma {:induction false} NamesSplit(t: Table, names: seq<string>, p: bool, custom: seq<Header>, hs: seq<Header>)
    ensures var hop := PerHop(p, custom);
            var rest := KeepNames(t, names, hs);
            && Keep(hop, rest) == Keep(Hop(t, names, p, custom), hs)
            && multiset(TakeNames(t, names, hs)) + multiset(Take(hop, rest))
               == multiset(Take(Hop(t, names, p, custom), hs))
    decreases |names|
  {
    var hop := PerHop(p, custom);
    if names == [] {
      SamePicks(hop, Hop(t, names, p, custom), hs);
    } else {
      var sel := Named(t, names[0]);
      NamesSplit(t, names[1..], p, custom, Keep(sel, hs));
      hide Picks;
      FirstName(t, names, p, custom, hs);
    }
  }

  lemma {:induction false} SamePicks(a: Selector, b: Selector, hs: seq<Header>)
    requires forall h :: Picks(a, h) == Picks(b, h)
    ensures Keep(a, hs) == Keep(b, hs) && Take(a, hs) == Take(b, hs)
    decreases |hs|
  {
    hide Picks;
    if hs != [] { SamePicks(a, b, hs[..|hs| - 1]); }
  }

  lemma {:induction false} FirstName(t: Table, names: seq<string>, p: bool, custom: seq<Header>, hs: seq<Header>)
    requires names != []
    ensures var first, rest, all := Named(t, names[0]), Hop(t, names[1..], p, custom), Hop(t, names, p, custom);
            && Keep(rest, Keep(first, hs)) == Keep(all, hs)
            && multiset(Take(first, hs)) + multiset(Take(rest, Keep(first, hs))) == multiset(Take(all, hs))
    decreases |hs|
  {
    hide Picks, Keep, Take;
    var first, rest, all := Named(t, names[0]), Hop(t, names[1..], p, custom), Hop(t, names, p, custom);
    if hs == [] {
      NothingKept(first);
      NothingKept(rest);
      NothingKept(all);
    } else {
      var a, h := hs[..|hs| - 1], hs[|hs| - 1];
      assert hs == a + [h];
      FirstName(t, names, p, custom, a);
      KeepSnoc(first, a, h);
      KeepSnoc(all, a, h);
      KeepSnoc(rest, Keep(first, a), h);
      FirstOrRest(t, names, p, custom, h);
    }
  }

  lemma FirstOrRest(t: Table, names: seq<string>, p: bool, custom: seq<Header>, h: Header)
    requires names != []
    ensures Picks(Hop(t, names, p, custom), h) <==>
            Picks(Named(t, names[0]), h) || Picks(Hop(t, names[1..], p, custom), h)
  {
    hide HopCode, Listed, SameText, Hash;
    if NamedBy(t, names[1..], h) {
      var i :| 0 <= i < |names[1..]| && PicksName(t, names[1..][i], h);
      assert PicksName(t, names[i + 1], h);
    }
    if NamedBy(t, names, h) && !PicksName(t, names[0], h) {
      var i :| 0 <= i < |names| && PicksName(t, names[i], h);
      assert PicksName(t, names[1..][i - 1], h);
    }
    assert Picks(Named(t, names[0]), h) <==> PicksName(t, names[0], h);
  }
}
