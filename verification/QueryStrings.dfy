/** Query strings: splitting into parameters, and printing parameters back. */
module QueryStrings {
  import opened Text

  /** White space of the default locale. */
  const SPACE: set<char> := {' ', '\t', '\n', '\U{0B}', '\U{0C}', '\r'}

  type Params = map<string, string>

  /** The first place of a character, or the length. */
  function IndexOf(s: string, c: char): (i: nat)
    ensures i <= |s|
  {
    if s == [] || s[0] == c then 0 else 1 + IndexOf(s[1..], c)
  }

  lemma {:induction false} IndexOfIs(s: string, c: char)
    ensures c !in s[..IndexOf(s, c)] && (IndexOf(s, c) < |s| ==> s[IndexOf(s, c)] == c)
  {
    if s != [] && s[0] != c {
      IndexOfIs(s[1..], c);
      assert s[..IndexOf(s, c)] == [s[0]] + s[1..][..IndexOf(s, c) - 1];
    }
  }

  lemma {:induction false} IndexAfter(a: string, c: char, b: string)
    requires c !in a
    ensures IndexOf(a + [c] + b, c) == |a| && IndexOf(a, c) == |a|
  {
    if a == [] {
      assert a + [c] + b == [c] + b;
    } else {
      assert (a + [c] + b)[1..] == a[1..] + [c] + b;
      IndexAfter(a[1..], c, b);
    }
  }

  // ----- Parsing -----

  function Pieces(s: string): seq<string>
    decreases |s|
  {
    var i := IndexOf(s, '&');
    if i == |s| then [s] else [s[..i]] + Pieces(s[i + 1..])
  }

  function NameOf(piece: string): string { Trim(piece[..IndexOf(piece, '=')], SPACE) }

  function ValueOf(piece: string): string {
    var i := IndexOf(piece, '=');
    if i == |piece| then "" else Trim(piece[i + 1..], SPACE)
  }

  /** A later parameter replaces an earlier one of the same name; empty pieces count for nothing. */
  function Absorb(m: Params, piece: string): Params {
    if piece == "" then m else m[NameOf(piece) := ValueOf(piece)]
  }

  function AbsorbAll(pieces: seq<string>): Params {
    if pieces == [] then map[] else Absorb(AbsorbAll(pieces[..|pieces| - 1]), pieces[|pieces| - 1])
  }

  function Parse(s: string): Params { AbsorbAll(Pieces(s)) }

  method FindChar(s: string, c: char) returns (i: nat)
    ensures i == IndexOf(s, c)
  {
    i := 0;
    assert s[0..] == s;
    while i < |s| && s[i] != c
      invariant 0 <= i <= |s| && IndexOf(s, c) == i + IndexOf(s[i..], c)
    {
      assert s[i..][1..] == s[i + 1..];
      i := i + 1;
    }
  }

  method ParseQueryParams(query: string) returns (params: Params)
    ensures params == Parse(query)
  {
    hide NameOf, ValueOf, AbsorbAll, Pieces;
    NothingAbsorbed();
    params := map[];
    ghost var done: seq<string> := [];
    var sp := query;
    assert done + Pieces(sp) == Pieces(query);
    while sp != ""
      invariant params == AbsorbAll(done) && AbsorbAll(done + Pieces(sp)) == Parse(query)
      decreases |sp|
    {
      var i := FindChar(sp, '&');
      var keyValue, rest := sp[..i], if i == |sp| then "" else sp[i + 1..];
      PieceStep(done, sp);
      AbsorbSnoc(done, keyValue);
      done, sp := done + [keyValue], rest;
      if keyValue != "" {
        var j := FindChar(keyValue, '=');
        var name := Trim(keyValue[..j], SPACE);
        var value := if j == |keyValue| then "" else Trim(keyValue[j + 1..], SPACE);
        Names(keyValue, j, name, value);
        params := params[name := value];
      }
    }
    NoPiece(done);
  }

  lemma NothingAbsorbed()
    ensures AbsorbAll([]) == map[]
  {
  }

  lemma Names(piece: string, j: nat, name: string, value: string)
    requires j == IndexOf(piece, '=') && name == Trim(piece[..j], SPACE)
    requires value == if j == |piece| then "" else Trim(piece[j + 1..], SPACE)
    ensures name == NameOf(piece) && value == ValueOf(piece)
  {
    hide Trim, IndexOf;
  }

  lemma NoPiece(done: seq<string>)
    ensures AbsorbAll(done + Pieces("")) == AbsorbAll(done)
  {
    assert Pieces("") == [""];
    AbsorbSnoc(done, "");
  }

  lemma AbsorbSnoc(ps: seq<string>, p: string)
    ensures AbsorbAll(ps + [p]) == Absorb(AbsorbAll(ps), p)
  {
    assert (ps + [p])[..|ps|] == ps;
  }

  lemma PieceStep(done: seq<string>, sp: string)
    ensures var i := IndexOf(sp, '&');
            AbsorbAll(done + Pieces(sp)) ==
            AbsorbAll(done + [sp[..i]] + Pieces(if i == |sp| then "" else sp[i + 1..]))
  {
    var i := IndexOf(sp, '&');
    if i == |sp| {
      NoPiece(done + [sp]);
      assert sp[..i] == sp;
    } else {
      assert done + Pieces(sp) == done + [sp[..i]] + Pieces(sp[i + 1..]);
    }
  }

  // ----- Printing -----

  function Join(pieces: seq<string>): string {
    if pieces == [] then "" else if |pieces| == 1 then pieces[0] else pieces[0] + ['&'] + Join(pieces[1..])
  }

  function Pair(m: Params, k: string): string
    requires k in m
  {
    k + "=" + m[k]
  }

  function Pairs(m: Params, keys: seq<string>): seq<string>
    requires forall i :: 0 <= i < |keys| ==> keys[i] in m
  {
    seq(|keys|, i requires 0 <= i < |keys| => Pair(m, keys[i]))
  }

  /** The keys of a map, in whatever order it is walked. */
  predicate Walks(keys: seq<string>, m: Params) {
    (forall i :: 0 <= i < |keys| ==> keys[i] in m) && (forall k :: k in m ==> k in keys)
  }

  function Print(m: Params, keys: seq<string>): string
    requires Walks(keys, m)
  {
    Join(Pairs(m, keys))
  }

  method CreateQueryString(m: Params, keys: seq<string>) returns (query: string)
    requires Walks(keys, m)
    ensures query == Print(m, keys)
  {
    hide Join;
    query := "";
    var i := 0;
    ghost var ps := Pairs(m, keys);
    JoinNothing(ps);
    while i < |keys|
      invariant 0 <= i <= |keys| == |ps| && query == Join(ps[..i])
    {
      JoinNext(ps, i);
      if i != 0 { query := query + "&"; }
      query := query + (keys[i] + "=" + m[keys[i]]);
      i := i + 1;
    }
    assert ps[..i] == ps;
  }

  lemma JoinNothing(ps: seq<string>)
    ensures Join(ps[..0]) == ""
  {
  }

  lemma JoinNext(ps: seq<string>, i: nat)
    requires i < |ps|
    ensures Join(ps[..i + 1]) == if i == 0 then Join(ps[..i]) + ps[i] else Join(ps[..i]) + "&" + ps[i]
  {
    assert ps[..i + 1] == ps[..i] + [ps[i]];
    JoinSnoc(ps[..i], ps[i]);
  }

  lemma {:induction false} JoinSnoc(ps: seq<string>, p: string)
    ensures Join(ps + [p]) == if ps == [] then p else Join(ps) + "&" + p
  {
    if |ps| == 1 {
      assert (ps + [p])[1..] == [p];
    } else if |ps| > 1 {
      assert (ps + [p])[1..] == ps[1..] + [p];
      JoinSnoc(ps[1..], p);
    }
  }

  // ----- Laws -----

  /** The first delimiter ends the first piece. */
  lemma PiecesCons(p: string, rest: string)
    requires '&' !in p
    ensures Pieces(p + ['&'] + rest) == [p] + Pieces(rest)
  {
    var s := p + ['&'] + rest;
    IndexAfter(p, '&', rest);
    assert s[..|p|] == p && s[|p| + 1..] == rest;
  }

  lemma PiecesOne(p: string)
    requires '&' !in p
    ensures Pieces(p) == [p]
  {
    IndexAfter(p, '&', "");
  }

  lemma {:induction false} PiecesJoin(ps: seq<string>)
    requires ps != [] && forall i :: 0 <= i < |ps| ==> '&' !in ps[i]
    ensures Pieces(Join(ps)) == ps
  {
    hide Pieces;
    if |ps| == 1 {
      PiecesOne(ps[0]);
    } else {
      PiecesCons(ps[0], Join(ps[1..]));
      PiecesJoin(ps[1..]);
      assert ps == [ps[0]] + ps[1..];
    }
  }

  /** Names without delimiters, values without the outer one, and nothing to trim. */
  predicate Clean(m: Params) {
    forall k :: k in m ==>
      '&' !in k && '=' !in k && Trimmed(k, SPACE) && '&' !in m[k] && Trimmed(m[k], SPACE)
  }

  lemma PairReads(m: Params, k: string)
    requires Clean(m) && k in m
    ensures '&' !in Pair(m, k) && Pair(m, k) != "" && NameOf(Pair(m, k)) == k && ValueOf(Pair(m, k)) == m[k]
  {
    var v := m[k];
    var s := k + ['='] + v;
    assert Pair(m, k) == s;
    IndexAfter(k, '=', v);
    assert s[..|k|] == k && s[|k| + 1..] == v;
    TrimFixes(k, SPACE);
    TrimFixes(v, SPACE);
  }

  lemma {:induction false} PairsAbsorb(m: Params, keys: seq<string>)
    requires Clean(m) && forall i :: 0 <= i < |keys| ==> keys[i] in m
    ensures AbsorbAll(Pairs(m, keys)) == map k | k in m && k in keys :: m[k]
    decreases |keys|
  {
    hide NameOf, ValueOf, Clean;
    if keys != [] {
      var rest, k := keys[..|keys| - 1], keys[|keys| - 1];
      PairsAbsorb(m, rest);
      PairReads(m, k);
      assert Pairs(m, keys) == Pairs(m, rest) + [Pair(m, k)];
      AbsorbSnoc(Pairs(m, rest), Pair(m, k));
      assert keys == rest + [k];
    }
  }

  /** Printing, in whatever order, and parsing gives the parameters back exactly if they are clean. */
  lemma RoundTrip(m: Params, keys: seq<string>)
    requires Walks(keys, m)
    ensures Parse(Print(m, keys)) == m <==> Clean(m)
  {
    ParseIsClean(Print(m, keys));
    if Clean(m) { CleanComesBack(m, keys); }
  }

  lemma CleanComesBack(m: Params, keys: seq<string>)
    requires Clean(m) && Walks(keys, m)
    ensures Parse(Print(m, keys)) == m
  {
    hide Clean;
    if keys == [] {
      assert Print(m, keys) == "" && Pieces("") == [""];
      assert AbsorbAll([""]) == map[];
    } else {
      forall i | 0 <= i < |keys| ensures '&' !in Pairs(m, keys)[i] { PairReads(m, keys[i]); }
      PiecesJoin(Pairs(m, keys));
      PairsAbsorb(m, keys);
    }
  }

  lemma {:induction false} PiecesAreFree(s: string)
    ensures forall i :: 0 <= i < |Pieces(s)| ==> '&' !in Pieces(s)[i]
    decreases |s|
  {
    var i := IndexOf(s, '&');
    IndexOfIs(s, '&');
    if i == |s| { assert s[..i] == s; } else { PiecesAreFree(s[i + 1..]); }
  }

  lemma AbsorbClean(m: Params, piece: string)
    requires Clean(m) && '&' !in piece
    ensures Clean(Absorb(m, piece))
  {
    var i := IndexOf(piece, '=');
    IndexOfIs(piece, '=');
    TrimTrims(piece[..i], SPACE);
    TrimAdds(piece[..i], SPACE);
    if i < |piece| {
      TrimTrims(piece[i + 1..], SPACE);
      TrimAdds(piece[i + 1..], SPACE);
    }
    assert '&' !in NameOf(piece) && '=' !in NameOf(piece) && Trimmed(NameOf(piece), SPACE);
    assert '&' !in ValueOf(piece) && Trimmed(ValueOf(piece), SPACE);
  }

  lemma {:induction false} AbsorbAllClean(pieces: seq<string>)
    requires forall i :: 0 <= i < |pieces| ==> '&' !in pieces[i]
    ensures Clean(AbsorbAll(pieces))
    decreases |pieces|
  {
    if pieces != [] {
      AbsorbAllClean(pieces[..|pieces| - 1]);
      AbsorbClean(AbsorbAll(pieces[..|pieces| - 1]), pieces[|pieces| - 1]);
    }
  }

  lemma ParseIsClean(s: string)
    ensures Clean(Parse(s))
  {
    PiecesAreFree(s);
    AbsorbAllClean(Pieces(s));
  }

  /** What parsing finds survives printing and parsing again. */
  lemma Idempotent(s: string, keys: seq<string>)
    requires Walks(keys, Parse(s))
    ensures Parse(Print(Parse(s), keys)) == Parse(s)
  {
    ParseIsClean(s);
    RoundTrip(Parse(s), keys);
  }

  lemma {:induction false} PiecesAppend(a: string, b: string)
    ensures Pieces(a + ['&'] + b) == Pieces(a) + Pieces(b)
    decreases |a|
  {
    hide Pieces;
    var i := IndexOf(a, '&');
    IndexOfIs(a, '&');
    if i == |a| {
      assert a[..i] == a;
      PiecesCons(a, b);
      PiecesOne(a);
    } else {
      var p, rest := a[..i], a[i + 1..];
      assert a == p + ['&'] + rest;
      assert a + ['&'] + b == p + ['&'] + (rest + ['&'] + b);
      PiecesCons(p, rest + ['&'] + b);
      PiecesCons(p, rest);
      PiecesAppend(rest, b);
    }
  }

  lemma {:induction false} AbsorbAppend(ps: seq<string>, qs: seq<string>)
    ensures AbsorbAll(ps + qs) == AbsorbAll(ps) + AbsorbAll(qs)
    decreases |qs|
  {
    hide NameOf, ValueOf;
    if qs == [] {
      assert ps + qs == ps;
    } else {
      var rest, q := qs[..|qs| - 1], qs[|qs| - 1];
      AbsorbAppend(ps, rest);
      assert ps + qs == (ps + rest) + [q];
      AbsorbSnoc(ps + rest, q);
    }
  }

  /** The last of several parameters with one name wins. */
  lemma LastWins(a: string, b: string)
    ensures Parse(a + ['&'] + b) == Parse(a) + Parse(b)
  {
    PiecesAppend(a, b);
    AbsorbAppend(Pieces(a), Pieces(b));
  }
}
