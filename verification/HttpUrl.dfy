/** The URL parser: one pass of an automaton over the URL, a second one over its authority.
    Each field is the run of bytes that keep the automaton on the field's level. */
module HttpUrl {
  import opened HttpMachine

  // ----- The automata -----

  datatype UrlPlace =
    | DeadUrl | BeforeAll | InSchema | AfterSchema | AfterSlash | ServerStart | Server | ServerWithAt
    | InPath | AtQuery | InQuery | AtFragment | InFragment

  predicate IsMark(c: char) {
    c == '-' || c == '_' || c == '.' || c == '!' || c == '~' || c == '*' || c == '\'' || c == '(' || c == ')'
  }

  predicate IsUserInfoChar(c: char) {
    || IsAlphaNum(c) || IsMark(c)
    || c == '%' || c == ';' || c == ':' || c == '&' || c == '=' || c == '+' || c == '$' || c == ','
  }

  function NextPlace(s: UrlPlace, ch: char): UrlPlace {
    if ch == ' ' || ch == '\r' || ch == '\n' then DeadUrl
    else match s
      case BeforeAll => if ch == '/' || ch == '*' then InPath else if IsAlpha(ch) then InSchema else DeadUrl
      case InSchema => if IsAlpha(ch) then InSchema else if ch == ':' then AfterSchema else DeadUrl
      case AfterSchema => if ch == '/' then AfterSlash else DeadUrl
      case AfterSlash => if ch == '/' then ServerStart else DeadUrl
      case ServerWithAt => if ch == '@' then DeadUrl else NextInServer(ch)
      case ServerStart => NextInServer(ch)
      case Server => NextInServer(ch)
      case InPath =>
        if IsUrlChar(ch) then InPath else if ch == '?' then AtQuery else if ch == '#' then AtFragment else DeadUrl
      case AtQuery => if IsUrlChar(ch) || ch == '?' then InQuery else if ch == '#' then AtFragment else DeadUrl
      case InQuery => if IsUrlChar(ch) || ch == '?' then InQuery else if ch == '#' then AtFragment else DeadUrl
      case AtFragment => if IsUrlChar(ch) || ch == '?' then InFragment else if ch == '#' then AtFragment else DeadUrl
      case InFragment => if IsUrlChar(ch) || ch == '?' || ch == '#' then InFragment else DeadUrl
      case DeadUrl => DeadUrl
  }

  function NextInServer(ch: char): UrlPlace {
    if ch == '/' then InPath
    else if ch == '?' then AtQuery
    else if ch == '@' then ServerWithAt
    else if IsUserInfoChar(ch) || ch == '[' || ch == ']' then Server
    else DeadUrl
  }

  datatype HostPlace =
    | DeadHost | UserInfoStart | InUserInfo | HostStartPlace | V6Start | InHost | InV6 | V6End | PortStart | InPort

  function NextHost(s: HostPlace, ch: char): HostPlace {
    match s
    case InUserInfo => NextUserInfo(ch)
    case UserInfoStart => NextUserInfo(ch)
    case HostStartPlace => if ch == '[' then V6Start else if IsHostChar(ch) then InHost else DeadHost
    case InHost => if IsHostChar(ch) then InHost else if ch == ':' then PortStart else DeadHost
    case V6End => if ch == ':' then PortStart else DeadHost
    case InV6 => if ch == ']' then V6End else NextV6(ch)
    case V6Start => NextV6(ch)
    case InPort => if IsNum(ch) then InPort else DeadHost
    case PortStart => if IsNum(ch) then InPort else DeadHost
    case DeadHost => DeadHost
  }

  function NextUserInfo(ch: char): HostPlace {
    if ch == '@' then HostStartPlace else if IsUserInfoChar(ch) then InUserInfo else DeadHost
  }

  function NextV6(ch: char): HostPlace {
    if IsHex(ch) || ch == ':' || ch == '.' then InV6 else DeadHost
  }

  // ----- Levels and spans -----

  datatype Part = SchemaPart | HostPart | PortPart | PathPart | QueryPart | FragmentPart | UserInfoPart

  function UrlLevel(s: UrlPlace): nat {
    match s
    case BeforeAll => 0
    case InSchema => 1
    case AfterSchema => 2
    case AfterSlash => 3
    case ServerStart => 4
    case Server => 5
    case ServerWithAt => 5
    case InPath => 6
    case AtQuery => 7
    case InQuery => 8
    case AtFragment => 9
    case InFragment => 10
    case DeadUrl => 11
  }

  /** The level of the bytes of a field that the first pass finds. */
  function PartLevel(f: Part): nat {
    match f
    case SchemaPart => 1
    case HostPart => 5
    case PathPart => 6
    case QueryPart => 8
    case FragmentPart => 10
    case _ => 100
  }

  function HostLevel(s: HostPlace): nat {
    match s
    case UserInfoStart => 0
    case InUserInfo => 1
    case HostStartPlace => 2
    case V6Start => 3
    case InHost => 4
    case InV6 => 4
    case V6End => 5
    case PortStart => 6
    case InPort => 7
    case DeadHost => 8
  }

  function HostPartLevel(f: Part): nat {
    match f
    case UserInfoPart => 1
    case HostPart => 4
    case PortPart => 7
    case _ => 100
  }

  predicate Sorted(ls: seq<nat>) { forall i, j :: 0 <= i < j < |ls| ==> ls[i] <= ls[j] }

  /** The bytes on level `level` are exactly those of the span. */
  predicate IsSpan(ls: seq<nat>, level: nat, off: nat, len: nat) {
    && 0 < len && off + len <= |ls|
    && forall i :: 0 <= i < |ls| ==> (ls[i] == level <==> off <= i < off + len)
  }

  predicate Absent(ls: seq<nat>, level: nat) { forall i :: 0 <= i < |ls| ==> ls[i] != level }

  lemma SpanGrows(ls: seq<nat>, level: nat, off: nat, len: nat)
    requires Sorted(ls + [level]) && IsSpan(ls, level, off, len)
    ensures off + len == |ls| && IsSpan(ls + [level], level, off, len + 1)
  {
    var ms := ls + [level];
    assert ms[|ls|] == level && ms[off] == ls[off];
    forall i | off < i < |ls| ensures ls[i] == level {
      assert ms[off] <= ms[i] <= ms[|ls|];
    }
    assert ls[|ls| - 1] == level;
  }

  lemma SpanStarts(ls: seq<nat>, level: nat)
    requires Absent(ls, level)
    ensures IsSpan(ls + [level], level, |ls|, 1)
  {
  }

  lemma SpanStays(ls: seq<nat>, level: nat, off: nat, len: nat, other: nat)
    requires other != level && IsSpan(ls, level, off, len)
    ensures IsSpan(ls + [other], level, off, len)
  {
  }

  /** Spans of lower levels come first. */
  lemma SpansInOrder(ls: seq<nat>, a: nat, offA: nat, lenA: nat, b: nat, offB: nat, lenB: nat)
    requires Sorted(ls) && IsSpan(ls, a, offA, lenA) && IsSpan(ls, b, offB, lenB) && a < b
    ensures offA + lenA <= offB
  {
    assert ls[offB] == b && ls[offA + lenA - 1] == a;
  }

  // ----- Reference runs -----

  /** The place after reading `t`, and the levels after each of its bytes. */
  function UrlEnd(s: UrlPlace, t: string): UrlPlace {
    if t == [] then s else NextPlace(UrlEnd(s, t[..|t| - 1]), t[|t| - 1])
  }

  function UrlLevels(s: UrlPlace, t: string): (ls: seq<nat>)
    ensures |ls| == |t|
  {
    if t == [] then [] else UrlLevels(s, t[..|t| - 1]) + [UrlLevel(UrlEnd(s, t))]
  }

  function HostEnd(s: HostPlace, t: string): HostPlace {
    if t == [] then s else NextHost(HostEnd(s, t[..|t| - 1]), t[|t| - 1])
  }

  function HostLevels(s: HostPlace, t: string): (ls: seq<nat>)
    ensures |ls| == |t|
  {
    if t == [] then [] else HostLevels(s, t[..|t| - 1]) + [HostLevel(HostEnd(s, t))]
  }

  /** Sorted, and nothing above `top`. */
  predicate SortedUpTo(ls: seq<nat>, top: nat) {
    Sorted(ls) && forall i :: 0 <= i < |ls| ==> ls[i] <= top
  }

  lemma SortedSnoc(ls: seq<nat>, top: nat, x: nat)
    requires SortedUpTo(ls, top) && top <= x
    ensures SortedUpTo(ls + [x], x)
  {
  }

  lemma UrlRises(s: UrlPlace, ch: char)
    ensures UrlLevel(s) <= UrlLevel(NextPlace(s, ch))
  {
  }

  lemma HostRises(s: HostPlace, ch: char)
    ensures HostLevel(s) <= HostLevel(NextHost(s, ch))
  {
  }

  /** The automata never go back to a lower level, so each field is one run of bytes. */
  lemma {:induction false} UrlSorted(s: UrlPlace, t: string)
    ensures SortedUpTo(UrlLevels(s, t), UrlLevel(UrlEnd(s, t)))
    decreases |t|
  {
    hide NextPlace, SortedUpTo;
    if t == [] {
      assert SortedUpTo([], UrlLevel(s)) by { NothingSorted(UrlLevel(s)); }
    } else {
      var u := t[..|t| - 1];
      UrlSorted(s, u);
      UrlRises(UrlEnd(s, u), t[|t| - 1]);
      SortedSnoc(UrlLevels(s, u), UrlLevel(UrlEnd(s, u)), UrlLevel(UrlEnd(s, t)));
    }
  }

  lemma {:induction false} HostSorted(s: HostPlace, t: string)
    ensures SortedUpTo(HostLevels(s, t), HostLevel(HostEnd(s, t)))
    decreases |t|
  {
    hide NextHost, SortedUpTo;
    if t == [] {
      assert SortedUpTo([], HostLevel(s)) by { NothingSorted(HostLevel(s)); }
    } else {
      var u := t[..|t| - 1];
      HostSorted(s, u);
      HostRises(HostEnd(s, u), t[|t| - 1]);
      SortedSnoc(HostLevels(s, u), HostLevel(HostEnd(s, u)), HostLevel(HostEnd(s, t)));
    }
  }

  lemma NothingSorted(top: nat)
    ensures SortedUpTo([], top)
  {
  }

  // ----- The spans of a level -----

  datatype Extent = Extent(off: nat, len: nat)

  /** The bytes on a level, counted from the first of them. */
  function SpanOf(ls: seq<nat>, level: nat): Extent {
    if ls == [] then Extent(0, 0)
    else
      var e := SpanOf(ls[..|ls| - 1], level);
      if ls[|ls| - 1] != level then e
      else if e.len == 0 then Extent(|ls| - 1, 1)
      else e.(len := e.len + 1)
  }

  lemma {:induction false} SpanOfIsSpan(ls: seq<nat>, level: nat)
    requires Sorted(ls)
    ensures var e := SpanOf(ls, level);
            if e.len == 0 then Absent(ls, level) else IsSpan(ls, level, e.off, e.len)
    decreases |ls|
  {
    if ls != [] {
      var ms, x := ls[..|ls| - 1], ls[|ls| - 1];
      assert ls == ms + [x];
      SpanOfIsSpan(ms, level);
      var e := SpanOf(ms, level);
      if e.len == 0 {
        if x == level { SpanStarts(ms, level); }
      } else if x == level {
        SpanGrows(ms, level, e.off, e.len);
      } else {
        SpanStays(ms, level, e.off, e.len, x);
      }
    }
  }

  lemma SpanOfSnoc(ls: seq<nat>, level: nat, x: nat)
    ensures SpanOf(ls + [x], level) ==
            var e := SpanOf(ls, level);
            if x != level then e else if e.len == 0 then Extent(|ls|, 1) else e.(len := e.len + 1)
  {
    assert (ls + [x])[..|ls + [x]| - 1] == ls;
  }

  // ----- What the parser decides -----

  function UrlSpan(start: UrlPlace, buf: string, f: Part): Extent { SpanOf(UrlLevels(start, buf), PartLevel(f)) }

  function StartPlace(isConnect: bool): UrlPlace { if isConnect then ServerStart else BeforeAll }

  /** The authority holds an `@`. */
  function FoundAt(start: UrlPlace, buf: string): bool {
    if buf == [] then false
    else FoundAt(start, buf[..|buf| - 1]) || UrlEnd(start, buf) == ServerWithAt
  }

  function HostStartOf(foundAt: bool): HostPlace { if foundAt then UserInfoStart else HostStartPlace }

  predicate HostEnds(s: HostPlace) { s.InHost? || s.V6End? || s.InPort? }

  // ----- The parser -----

  /** The result structure; `data` has an entry for every field. */
  class Url {
    var fieldSet: set<Part>
    var port: nat
    var data: map<Part, Extent>

    ghost predicate Total()
      reads this
    {
      forall f: Part :: f in data
    }

    /** A zeroed structure. */
    constructor ()
      ensures Total() && fieldSet == {} && port == 0 && data[HostPart] == Extent(0, 0)
    {
      fieldSet, port := {}, 0;
      var zero := Extent(0, 0);
      data := map[SchemaPart := zero, HostPart := zero, PortPart := zero, PathPart := zero, QueryPart := zero,
                  FragmentPart := zero, UserInfoPart := zero];
      new;
      forall f: Part ensures f in data {
        match f
        case SchemaPart => case HostPart => case PortPart => case PathPart => case QueryPart => case FragmentPart =>
        case UserInfoPart =>
      }
    }
  }

  function FieldOfPlace(s: UrlPlace): (f: Part)
    requires s.InSchema? || s.Server? || s.ServerWithAt? || s.InPath? || s.InQuery? || s.InFragment?
    ensures PartLevel(f) == UrlLevel(s)
  {
    match s
    case InSchema => SchemaPart
    case Server => HostPart
    case ServerWithAt => HostPart
    case InPath => PathPart
    case InQuery => QueryPart
    case InFragment => FragmentPart
  }

  predicate IsDelimiter(s: UrlPlace) {
    s.AfterSchema? || s.AfterSlash? || s.ServerStart? || s.AtQuery? || s.AtFragment?
  }

  predicate MainPart(f: Part) { f != PortPart && f != UserInfoPart }

  /** The fields found so far by the first pass. */
  ghost predicate Found(fields: set<Part>, data: map<Part, Extent>, start: UrlPlace, t: string) {
    && (forall f: Part :: f in data)
    && fields <= {SchemaPart, HostPart, PathPart, QueryPart, FragmentPart}
    && forall f: Part :: MainPart(f) ==> FoundOne(fields, data, start, t, f)
  }

  ghost predicate FoundOne(fields: set<Part>, data: map<Part, Extent>, start: UrlPlace, t: string, f: Part) {
    && (f in fields <==> UrlSpan(start, t, f).len > 0)
    && (f in fields ==> f in data && data[f] == UrlSpan(start, t, f))
  }

  datatype LastField = NoField | SomeField(part: Part)

  /** The field of the last byte that had one. */
  ghost predicate IsLast(fields: set<Part>, last: LastField) {
    if last.NoField? then fields == {}
    else last.part in fields && forall f :: f in fields ==> PartLevel(f) <= PartLevel(last.part)
  }

  lemma UrlEndSnoc(start: UrlPlace, buf: string, p: nat)
    requires p < |buf|
    ensures UrlEnd(start, buf[..p + 1]) == NextPlace(UrlEnd(start, buf[..p]), buf[p])
    ensures UrlLevels(start, buf[..p + 1]) == UrlLevels(start, buf[..p]) + [UrlLevel(UrlEnd(start, buf[..p + 1]))]
    ensures FoundAt(start, buf[..p + 1]) == (FoundAt(start, buf[..p]) || UrlEnd(start, buf[..p + 1]) == ServerWithAt)
  {
    hide NextPlace, UrlLevel;
    assert buf[..p + 1][..p] == buf[..p];
  }

  lemma DeadStays(start: UrlPlace, buf: string, p: nat)
    requires p <= |buf| && UrlEnd(start, buf[..p]) == DeadUrl
    ensures UrlEnd(start, buf) == DeadUrl
    decreases |buf| - p
  {
    if p < |buf| {
      UrlEndSnoc(start, buf, p);
      DeadStays(start, buf, p + 1);
    } else {
      assert buf[..p] == buf;
    }
  }

  /** Reading one more byte changes only the span of its own field. */
  lemma FoundNext(start: UrlPlace, buf: string, p: nat, f: Part)
    requires p < |buf| && MainPart(f)
    ensures var e := UrlSpan(start, buf[..p], f);
            UrlSpan(start, buf[..p + 1], f) ==
              if UrlLevel(UrlEnd(start, buf[..p + 1])) != PartLevel(f) then e
              else if e.len == 0 then Extent(p, 1) else e.(len := e.len + 1)
  {
    hide NextPlace;
    UrlEndSnoc(start, buf, p);
    SpanOfSnoc(UrlLevels(start, buf[..p]), PartLevel(f), UrlLevel(UrlEnd(start, buf[..p + 1])));
  }

  /** A field that was seen before lies on a level the automaton has not left behind. */
  lemma SeenBelow(start: UrlPlace, t: string, f: Part)
    requires UrlSpan(start, t, f).len > 0
    ensures PartLevel(f) <= UrlLevel(UrlEnd(start, t))
  {
    hide NextPlace, UrlLevel;
    UrlSorted(start, t);
    SpanOfIsSpan(UrlLevels(start, t), PartLevel(f));
    var e := UrlSpan(start, t, f);
    assert UrlLevels(start, t)[e.off] == PartLevel(f);
  }

  lemma LevelPart(f: Part, g: Part)
    requires MainPart(f) && MainPart(g) && PartLevel(f) == PartLevel(g)
    ensures f == g
  {
  }

  lemma FoundDelimiter(fields: set<Part>, data: map<Part, Extent>, start: UrlPlace, buf: string, p: nat)
    requires p < |buf| && Found(fields, data, start, buf[..p]) && IsDelimiter(UrlEnd(start, buf[..p + 1]))
    ensures Found(fields, data, start, buf[..p + 1])
  {
    hide NextPlace, UrlSpan, UrlEnd;
    forall f: Part | MainPart(f) ensures FoundOne(fields, data, start, buf[..p + 1], f) {
      assert FoundOne(fields, data, start, buf[..p], f);
      FoundNext(start, buf, p, f);
    }
  }

  predicate HasField(s: UrlPlace) {
    s.InSchema? || s.Server? || s.ServerWithAt? || s.InPath? || s.InQuery? || s.InFragment?
  }

  lemma FoundField(fields: set<Part>, data: map<Part, Extent>, start: UrlPlace, buf: string, p: nat, last: LastField)
    requires p < |buf| && Found(fields, data, start, buf[..p]) && IsLast(fields, last)
    requires HasField(UrlEnd(start, buf[..p + 1]))
    ensures var uf := FieldOfPlace(UrlEnd(start, buf[..p + 1]));
            if last == SomeField(uf)
            then Found(fields, data[uf := data[uf].(len := data[uf].len + 1)], start, buf[..p + 1])
            else
              && Found(fields + {uf}, data[uf := Extent(p, 1)], start, buf[..p + 1])
              && IsLast(fields + {uf}, SomeField(uf)) && uf !in fields
  {
    hide NextPlace, UrlSpan, UrlEnd, Found;
    if last == SomeField(FieldOfPlace(UrlEnd(start, buf[..p + 1]))) {
      FoundSame(fields, data, start, buf, p, last);
    } else {
      FoundNew(fields, data, start, buf, p, last);
    }
  }

  lemma FoundSame(fields: set<Part>, data: map<Part, Extent>, start: UrlPlace, buf: string, p: nat, last: LastField)
    requires p < |buf| && Found(fields, data, start, buf[..p]) && IsLast(fields, last)
    requires HasField(UrlEnd(start, buf[..p + 1])) && last == SomeField(FieldOfPlace(UrlEnd(start, buf[..p + 1])))
    ensures var uf := FieldOfPlace(UrlEnd(start, buf[..p + 1]));
            uf in data && Found(fields, data[uf := data[uf].(len := data[uf].len + 1)], start, buf[..p + 1])
  {
    hide NextPlace, UrlSpan, UrlEnd;
    var uf := FieldOfPlace(UrlEnd(start, buf[..p + 1]));
    var data' := data[uf := data[uf].(len := data[uf].len + 1)];
    forall f: Part | MainPart(f) ensures FoundOne(fields, data', start, buf[..p + 1], f) {
      assert FoundOne(fields, data, start, buf[..p], f);
      FoundNext(start, buf, p, f);
      if PartLevel(f) == PartLevel(uf) { LevelPart(f, uf); }
    }
  }

  lemma FoundNew(fields: set<Part>, data: map<Part, Extent>, start: UrlPlace, buf: string, p: nat, last: LastField)
    requires p < |buf| && Found(fields, data, start, buf[..p]) && IsLast(fields, last)
    requires HasField(UrlEnd(start, buf[..p + 1])) && last != SomeField(FieldOfPlace(UrlEnd(start, buf[..p + 1])))
    ensures var uf := FieldOfPlace(UrlEnd(start, buf[..p + 1]));
            && Found(fields + {uf}, data[uf := Extent(p, 1)], start, buf[..p + 1])
            && IsLast(fields + {uf}, SomeField(uf)) && uf !in fields
  {
    hide NextPlace, UrlSpan, UrlEnd;
    var uf := FieldOfPlace(UrlEnd(start, buf[..p + 1]));
    FieldIsNew(fields, data, start, buf, p, last, uf);
    forall f: Part | MainPart(f)
      ensures FoundOne(fields + {uf}, data[uf := Extent(p, 1)], start, buf[..p + 1], f)
    {
      assert FoundOne(fields, data, start, buf[..p], f);
      FoundNext(start, buf, p, f);
      if PartLevel(f) == PartLevel(uf) { LevelPart(f, uf); }
    }
  }

  /** A field other than the last one seen has not been seen at all. */
  lemma FieldIsNew(fields: set<Part>, data: map<Part, Extent>, start: UrlPlace, buf: string, p: nat, last: LastField,
      uf: Part)
    requires p < |buf| && Found(fields, data, start, buf[..p]) && IsLast(fields, last) && last != SomeField(uf)
    requires MainPart(uf) && PartLevel(uf) == UrlLevel(UrlEnd(start, buf[..p + 1]))
    ensures uf !in fields
    ensures forall f :: f in fields ==> PartLevel(f) <= PartLevel(uf)
  {
    hide NextPlace, UrlSpan, UrlEnd, PartLevel;
    UrlEndSnoc(start, buf, p);
    UrlRises(UrlEnd(start, buf[..p]), buf[p]);
    forall f | f in fields ensures PartLevel(f) <= PartLevel(uf) {
      assert FoundOne(fields, data, start, buf[..p], f);
      SeenBelow(start, buf[..p], f);
    }
    if uf in fields { LevelPart(uf, last.part); }
  }

  /** The first pass: the fields are the runs of bytes on their levels. */
  method FirstPass(buf: string, isConnect: bool, u: Url) returns (dead: bool, foundAt: bool)
    requires u.Total()
    modifies u
    ensures u.Total() && u.port == 0
    ensures dead == (UrlEnd(StartPlace(isConnect), buf) == DeadUrl)
    ensures !dead ==> foundAt == FoundAt(StartPlace(isConnect), buf)
    ensures !dead ==> Found(u.fieldSet, u.data, StartPlace(isConnect), buf)
    ensures !dead && HostPart !in u.fieldSet ==> u.data[HostPart] == old(u.data[HostPart])
  {
    hide NextPlace, UrlSpan, UrlEnd, FoundAt, Found, IsLast;
    u.port, u.fieldSet := 0, {};
    ghost var start := StartPlace(isConnect);
    var s, last := StartPlace(isConnect), NoField;
    dead, foundAt := false, false;
    var p := 0;
    NothingFound(start, u.data);
    assert buf[..0] == [];
    while p < |buf|
      invariant 0 <= p <= |buf| && u.Total() && u.port == 0
      invariant s == UrlEnd(start, buf[..p]) && s != DeadUrl
      invariant foundAt == FoundAt(start, buf[..p])
      invariant Found(u.fieldSet, u.data, start, buf[..p]) && IsLast(u.fieldSet, last)
      invariant HostPart !in u.fieldSet ==> u.data[HostPart] == old(u.data[HostPart])
    {
      UrlEndSnoc(start, buf, p);
      NeverBack(start, buf, p);
      s := NextPlace(s, buf[p]);
      if s == DeadUrl {
        DeadStays(start, buf, p + 1);
        return true, foundAt;
      }
      if IsDelimiter(s) {
        FoundDelimiter(u.fieldSet, u.data, start, buf, p);
      } else {
        if s == ServerWithAt { foundAt := true; }
        FoundField(u.fieldSet, u.data, start, buf, p, last);
        var uf := FieldOfPlace(s);
        if last == SomeField(uf) {
          LastIsFound(u.fieldSet, last);
          u.data := u.data[uf := u.data[uf].(len := u.data[uf].len + 1)];
        } else {
          u.data := u.data[uf := Extent(p, 1)];
          u.fieldSet := u.fieldSet + {uf};
          last := SomeField(uf);
        }
      }
      p := p + 1;
    }
    assert buf[..p] == buf;
  }

  lemma LastIsFound(fields: set<Part>, last: LastField)
    requires IsLast(fields, last) && last.SomeField?
    ensures last.part in fields
  {
  }

  lemma NothingFound(start: UrlPlace, data: map<Part, Extent>)
    requires forall f: Part :: f in data
    ensures Found({}, data, start, []) && IsLast({}, NoField)
    ensures UrlEnd(start, []) == start && !FoundAt(start, [])
  {
  }

  lemma NeverBack(start: UrlPlace, buf: string, p: nat)
    requires p < |buf|
    ensures UrlEnd(start, buf[..p + 1]) != BeforeAll
  {
    UrlEndSnoc(start, buf, p);
  }

  // ----- The second pass -----

  function HostSpan(start: HostPlace, t: string, f: Part): Extent { SpanOf(HostLevels(start, t), HostPartLevel(f)) }

  function Shift(e: Extent, base: nat): Extent { Extent(base + e.off, e.len) }

  /** The fields found so far inside an authority that begins at `base`. */
  ghost predicate HostFound(fields: set<Part>, data: map<Part, Extent>, base: nat, start: HostPlace, t: string) {
    && (forall f: Part :: f in data)
    && data[HostPart].len == HostSpan(start, t, HostPart).len
    && (data[HostPart].len > 0 ==> data[HostPart] == Shift(HostSpan(start, t, HostPart), base))
    && SubFound(fields, data, base, start, t, PortPart) && SubFound(fields, data, base, start, t, UserInfoPart)
  }

  ghost predicate SubFound(fields: set<Part>, data: map<Part, Extent>, base: nat, start: HostPlace, t: string,
      f: Part) {
    && (f in fields <==> HostSpan(start, t, f).len > 0)
    && (f in fields ==> f in data && data[f] == Shift(HostSpan(start, t, f), base))
  }

  lemma HostEndSnoc(start: HostPlace, t: string, ch: char)
    ensures HostEnd(start, t + [ch]) == NextHost(HostEnd(start, t), ch)
    ensures HostLevels(start, t + [ch]) == HostLevels(start, t) + [HostLevel(HostEnd(start, t + [ch]))]
  {
    hide NextHost, HostLevel;
    assert (t + [ch])[..|t + [ch]| - 1] == t;
  }

  lemma HostSpanNext(start: HostPlace, t: string, ch: char, f: Part)
    ensures var e := HostSpan(start, t, f);
            HostSpan(start, t + [ch], f) ==
              if HostLevel(HostEnd(start, t + [ch])) != HostPartLevel(f) then e
              else if e.len == 0 then Extent(|t|, 1) else e.(len := e.len + 1)
  {
    hide NextHost;
    HostEndSnoc(start, t, ch);
    SpanOfSnoc(HostLevels(start, t), HostPartLevel(f), HostLevel(HostEnd(start, t + [ch])));
  }

  /** A field has begun exactly when the automaton is on its level or past it. */
  lemma HostSeen(start: HostPlace, t: string, f: Part)
    requires start == UserInfoStart || start == HostStartPlace
    ensures HostLevel(HostEnd(start, t)) < HostPartLevel(f) ==> HostSpan(start, t, f).len == 0
    ensures HostLevel(HostEnd(start, t)) == HostPartLevel(f) ==> HostSpan(start, t, f).len > 0
  {
    hide NextHost;
    HostSorted(start, t);
    SpanOfIsSpan(HostLevels(start, t), HostPartLevel(f));
    var ls, e := HostLevels(start, t), HostSpan(start, t, f);
    if e.len > 0 { assert ls[e.off] == HostPartLevel(f); }
    if t != [] { assert ls[|t| - 1] == HostLevel(HostEnd(start, t)); }
  }

  /** What a byte does to the extents of the authority's fields. */
  function HostStore(s: HostPlace, n: HostPlace, data: map<Part, Extent>, p: nat): map<Part, Extent>
    requires forall f: Part :: f in data
  {
    if n.InHost? || n.InV6? then
      data[HostPart := Extent(if s != n then p else data[HostPart].off, data[HostPart].len + 1)]
    else if n.InPort? then
      data[PortPart := if s != n then Extent(p, 1) else data[PortPart].(len := data[PortPart].len + 1)]
    else if n.InUserInfo? then
      data[UserInfoPart := if s != n then Extent(p, 1) else data[UserInfoPart].(len := data[UserInfoPart].len + 1)]
    else data
  }

  function HostFields(n: HostPlace, fields: set<Part>): set<Part> {
    if n.InPort? then fields + {PortPart} else if n.InUserInfo? then fields + {UserInfoPart} else fields
  }

  lemma HostFoundNext(fields: set<Part>, data: map<Part, Extent>, base: nat, start: HostPlace, t: string, ch: char)
    requires HostFound(fields, data, base, start, t) && (start == UserInfoStart || start == HostStartPlace)
    requires NextHost(HostEnd(start, t), ch) != DeadHost
    ensures var s := HostEnd(start, t);
            var n := NextHost(s, ch);
            HostFound(HostFields(n, fields), HostStore(s, n, data, base + |t|), base, start, t + [ch])
  {
    var s := HostEnd(start, t);
    HostEndSnoc(start, t, ch);
    EntersOnce(s, ch);
    hide NextHost, HostSpan, HostEnd;
    HostSpanNext(start, t, ch, HostPart);
    HostSpanNext(start, t, ch, PortPart);
    HostSpanNext(start, t, ch, UserInfoPart);
    HostSeen(start, t, HostPart);
    HostSeen(start, t, PortPart);
    HostSeen(start, t, UserInfoPart);
  }

  /** A byte either continues a field or enters it from below. */
  lemma EntersOnce(s: HostPlace, ch: char)
    ensures var n := NextHost(s, ch);
            n.InHost? || n.InV6? || n.InPort? || n.InUserInfo? ==> s == n || HostLevel(s) < HostLevel(n)
  {
  }

  lemma HostDeadStays(start: HostPlace, t: string, p: nat)
    requires p <= |t| && HostEnd(start, t[..p]) == DeadHost
    ensures HostEnd(start, t) == DeadHost
    decreases |t| - p
  {
    if p < |t| {
      assert t[..p + 1] == t[..p] + [t[p]];
      HostEndSnoc(start, t[..p], t[p]);
      HostDeadStays(start, t, p + 1);
    } else {
      assert t[..p] == t;
    }
  }

  /** The second pass splits the authority into user information, host and port. */
  method ParseHost(buf: string, u: Url, foundAt: bool) returns (failed: bool)
    requires u.Total() && PortPart !in u.fieldSet && UserInfoPart !in u.fieldSet
    requires u.data[HostPart].off + u.data[HostPart].len <= |buf|
    modifies u`fieldSet, u`data
    ensures u.Total()
    ensures var a := old(u.data[HostPart]);
            var t := buf[a.off..a.off + a.len];
            && failed == !HostEnds(HostEnd(HostStartOf(foundAt), t))
            && (!failed ==> HostFound(u.fieldSet, u.data, a.off, HostStartOf(foundAt), t))
    ensures !failed ==> u.fieldSet - {PortPart, UserInfoPart} == old(u.fieldSet)
    ensures forall f: Part :: f != HostPart && f != PortPart && f != UserInfoPart ==> u.data[f] == old(u.data[f])
  {
    hide NextHost, HostEnd, HostFound, HostStore;
    var a := u.data[HostPart];
    ghost var t := buf[a.off..a.off + a.len];
    ghost var start := HostStartOf(foundAt);
    var s := HostStartOf(foundAt);
    u.data := u.data[HostPart := a.(len := 0)];
    var p := a.off;
    NothingInHost(u.fieldSet, u.data, a.off, start);
    assert t[..0] == [];
    while p < a.off + a.len
      invariant a.off <= p <= a.off + a.len && u.Total()
      invariant s == HostEnd(start, t[..p - a.off]) && s != DeadHost
      invariant HostFound(u.fieldSet, u.data, a.off, start, t[..p - a.off])
      invariant u.fieldSet - {PortPart, UserInfoPart} == old(u.fieldSet)
      invariant forall f: Part :: f != HostPart && f != PortPart && f != UserInfoPart ==> u.data[f] == old(u.data[f])
    {
      ghost var done := t[..p - a.off];
      assert t[..p + 1 - a.off] == done + [buf[p]];
      HostEndSnoc(start, done, buf[p]);
      var n := NextHost(s, buf[p]);
      if n == DeadHost {
        HostDeadStays(start, t, p + 1 - a.off);
        return true;
      }
      HostFoundNext(u.fieldSet, u.data, a.off, start, done, buf[p]);
      StoreKeeps(s, n, u.data, p);
      u.data := HostStore(s, n, u.data, p);
      u.fieldSet := HostFields(n, u.fieldSet);
      s := n;
      p := p + 1;
    }
    assert t[..p - a.off] == t;
    failed := !HostEnds(s);
  }

  lemma StoreKeeps(s: HostPlace, n: HostPlace, data: map<Part, Extent>, p: nat)
    requires forall f: Part :: f in data
    ensures forall f: Part :: f in HostStore(s, n, data, p)
    ensures forall f: Part :: f != HostPart && f != PortPart && f != UserInfoPart ==>
        HostStore(s, n, data, p)[f] == data[f]
  {
  }

  lemma NothingInHost(fields: set<Part>, data: map<Part, Extent>, base: nat, start: HostPlace)
    requires (forall f: Part :: f in data) && data[HostPart].len == 0 && PortPart !in fields && UserInfoPart !in fields
    ensures HostFound(fields, data, base, start, []) && HostEnd(start, []) == start
  {
  }

  // ----- The whole parser -----

  predicate AllDigits(s: string) { forall i :: 0 <= i < |s| ==> IsNum(s[i]) }

  /** The port loop: gives up as soon as the value is too large for a port. */
  method ParsePort(digits: string) returns (failed: bool, v: nat)
    requires AllDigits(digits)
    ensures failed == (Dec(digits) > 0xffff)
    ensures !failed ==> v == Dec(digits)
  {
    v, failed := 0, false;
    var i := 0;
    while i < |digits|
      invariant 0 <= i <= |digits| && v == Dec(digits[..i]) <= 0xffff
    {
      assert digits[..i + 1][..i] == digits[..i];
      v := v * 10;
      v := v + Digit(digits[i]);
      if v > 0xffff {
        DecGrows(digits, i + 1);
        return true, v;
      }
      i := i + 1;
    }
    assert digits[..i] == digits;
  }

  predicate NeedsHost(start: UrlPlace, buf: string) {
    UrlSpan(start, buf, SchemaPart).len > 0 || UrlSpan(start, buf, HostPart).len > 0
  }

  /** The bytes between the slashes and the path, query or end. */
  function Authority(start: UrlPlace, buf: string): string {
    var a := UrlSpan(start, buf, HostPart);
    UrlSpanFits(start, buf, HostPart);
    buf[a.off..a.off + a.len]
  }

  lemma UrlSpanFits(start: UrlPlace, buf: string, f: Part)
    ensures var e := UrlSpan(start, buf, f); e.off + e.len <= |buf|
  {
    hide NextPlace;
    UrlSorted(start, buf);
    SpanOfIsSpan(UrlLevels(start, buf), PartLevel(f));
    SpanOfZero(UrlLevels(start, buf), PartLevel(f));
  }

  lemma {:induction false} SpanOfZero(ls: seq<nat>, level: nat)
    ensures SpanOf(ls, level).len == 0 ==> SpanOf(ls, level).off == 0
    decreases |ls|
  {
    if ls != [] { SpanOfZero(ls[..|ls| - 1], level); }
  }

  function HostStartIn(start: UrlPlace, buf: string): HostPlace { HostStartOf(FoundAt(start, buf)) }

  /** The span of a field of the authority, counted inside the authority. */
  function SubSpan(start: UrlPlace, buf: string, f: Part): Extent {
    HostSpan(HostStartIn(start, buf), Authority(start, buf), f)
  }

  predicate HasPort(start: UrlPlace, buf: string) {
    NeedsHost(start, buf) && SubSpan(start, buf, PortPart).len > 0
  }

  function PortText(start: UrlPlace, buf: string): string {
    var e, t := SubSpan(start, buf, PortPart), Authority(start, buf);
    HostSpanFits(HostStartIn(start, buf), t, PortPart);
    t[e.off..e.off + e.len]
  }

  lemma HostSpanFits(start: HostPlace, t: string, f: Part)
    ensures var e := HostSpan(start, t, f); e.off + e.len <= |t|
  {
    hide NextHost;
    HostSorted(start, t);
    SpanOfIsSpan(HostLevels(start, t), HostPartLevel(f));
    SpanOfZero(HostLevels(start, t), HostPartLevel(f));
  }

  lemma PortDigits(s: HostPlace, t: string)
    ensures var e := HostSpan(s, t, PortPart);
            e.off + e.len <= |t| && forall i :: e.off <= i < e.off + e.len ==> IsNum(t[i])
  {
    hide NextHost;
    HostSpanFits(s, t, PortPart);
    HostSorted(s, t);
    SpanOfIsSpan(HostLevels(s, t), 7);
    var e := HostSpan(s, t, PortPart);
    forall i | e.off <= i < e.off + e.len ensures IsNum(t[i]) { LevelSevenIsNum(s, t, i); }
  }

  lemma {:induction false} LevelSevenIsNum(s: HostPlace, t: string, i: nat)
    requires i < |t| && HostLevels(s, t)[i] == 7
    ensures IsNum(t[i])
    decreases |t|
  {
    if i < |t| - 1 { LevelSevenIsNum(s, t[..|t| - 1], i); }
  }

  /** When parsing succeeds. */
  predicate Accepts(buf: string, isConnect: bool) {
    var start := StartPlace(isConnect);
    && UrlEnd(start, buf) != DeadUrl
    && (NeedsHost(start, buf) ==> HostEnds(HostEnd(HostStartIn(start, buf), Authority(start, buf))))
    && (isConnect ==>
          && (forall f: Part :: OwnPart(f) ==> UrlSpan(start, buf, f).len == 0)
          && HasPort(start, buf) && SubSpan(start, buf, UserInfoPart).len == 0)
    && (HasPort(start, buf) ==> Dec(PortText(start, buf)) <= 0xffff)
  }

  predicate OwnPart(f: Part) { f == SchemaPart || f == PathPart || f == QueryPart || f == FragmentPart }

  /** The fields of a successful parse. */
  ghost predicate Describes(fields: set<Part>, data: map<Part, Extent>, start: UrlPlace, buf: string) {
    && (forall f: Part :: f in data)
    && (forall f: Part :: OwnPart(f) ==> FoundOne(fields, data, start, buf, f))
    && (HostPart in fields <==> NeedsHost(start, buf))
    && (if NeedsHost(start, buf)
        then HostFound(fields, data, UrlSpan(start, buf, HostPart).off, HostStartIn(start, buf), Authority(start, buf))
        else PortPart !in fields && UserInfoPart !in fields)
  }

  /** The second pass completes what the first pass found. */
  lemma Completes(fields: set<Part>, data: map<Part, Extent>, fields': set<Part>, data': map<Part, Extent>,
                  start: UrlPlace, buf: string)
    requires Found(fields, data, start, buf) && (forall f: Part :: f in data')
    requires forall f: Part :: OwnPart(f) ==> data'[f] == data[f]
    requires fields' - {PortPart, UserInfoPart} == fields
    requires if NeedsHost(start, buf)
             then HostFound(fields', data', UrlSpan(start, buf, HostPart).off, HostStartIn(start, buf),
               Authority(start, buf))
                  && HostEnds(HostEnd(HostStartIn(start, buf), Authority(start, buf)))
             else fields' == fields
    ensures Describes(fields', data', start, buf)
  {
    hide NextPlace, NextHost, UrlEnd, HostEnd, UrlSpan, HostSpan, FoundAt;
    forall f: Part | OwnPart(f) ensures FoundOne(fields', data', start, buf, f) {
      assert FoundOne(fields, data, start, buf, f);
      assert f in fields' <==> f in fields' - {PortPart, UserInfoPart};
    }
    assert FoundOne(fields, data, start, buf, HostPart) && FoundOne(fields, data, start, buf, SchemaPart);
    assert HostPart in fields' <==> HostPart in fields' - {PortPart, UserInfoPart};
    if NeedsHost(start, buf) {
      NonEmptyHost(HostStartIn(start, buf), Authority(start, buf));
      UrlSpanFits(start, buf, HostPart);
    } else {
      assert PortPart !in fields' - {PortPart, UserInfoPart} && UserInfoPart !in fields' - {PortPart, UserInfoPart};
    }
  }

  lemma SchemaHasHost(fields: set<Part>, data: map<Part, Extent>, start: UrlPlace, buf: string)
    requires Describes(fields, data, start, buf)
    ensures SchemaPart in fields ==> HostPart in fields
  {
    assert FoundOne(fields, data, start, buf, SchemaPart);
  }

  lemma OnlyHostAndPort(fields: set<Part>, data: map<Part, Extent>, start: UrlPlace, buf: string)
    requires Describes(fields, data, start, buf)
    ensures fields == {HostPart, PortPart} <==>
            && (forall f: Part :: OwnPart(f) ==> UrlSpan(start, buf, f).len == 0)
            && HasPort(start, buf) && SubSpan(start, buf, UserInfoPart).len == 0
  {
    hide NextPlace, NextHost, UrlEnd, HostEnd, UrlSpan, HostSpan, FoundAt;
    assert FoundOne(fields, data, start, buf, SchemaPart) && FoundOne(fields, data, start, buf, PathPart);
    assert FoundOne(fields, data, start, buf, QueryPart) && FoundOne(fields, data, start, buf, FragmentPart);
    forall f: Part | f in fields ensures OwnPart(f) || f in {HostPart, PortPart, UserInfoPart} { }
  }

  // ----- Where the fields lie -----

  /** The order of the fields in a URL. */
  function Rank(f: Part): nat {
    match f
    case SchemaPart => 0
    case UserInfoPart => 1
    case HostPart => 2
    case PortPart => 3
    case PathPart => 4
    case QueryPart => 5
    case FragmentPart => 6
  }

  /** Every field is a non-empty range of the URL, and the ranges follow each other in the order of the fields. */
  ghost predicate WellPlaced(fields: set<Part>, data: map<Part, Extent>, size: nat) {
    && (forall f: Part :: f in fields ==> f in data && 0 < data[f].len && data[f].off + data[f].len <= size)
    && (forall f: Part, g: Part :: f in fields && g in fields && Rank(f) < Rank(g) ==>
          data[f].off + data[f].len <= data[g].off)
  }

  /** The field of the first pass that a field lies in. */
  function Base(f: Part): Part { if f == UserInfoPart || f == PortPart then HostPart else f }

  /** A name is behind every place from the host on. */
  lemma {:induction false} HostHasName(s: HostPlace, t: string)
    requires s == UserInfoStart || s == HostStartPlace
    requires 4 <= HostLevel(HostEnd(s, t)) <= 7
    ensures HostSpan(s, t, HostPart).len > 0
    decreases |t|
  {
    var u := t[..|t| - 1];
    SpanOfSnoc(HostLevels(s, u), 4, HostLevel(HostEnd(s, t)));
    if HostLevel(HostEnd(s, t)) != 4 { HostHasName(s, u); }
  }

  lemma InBase(fields: set<Part>, data: map<Part, Extent>, start: UrlPlace, buf: string, f: Part)
    requires Describes(fields, data, start, buf) && f in fields
    requires NeedsHost(start, buf) ==> HostEnds(HostEnd(HostStartIn(start, buf), Authority(start, buf)))
    ensures f in data && 0 < data[f].len
    ensures var b := UrlSpan(start, buf, Base(f));
            0 < b.len && b.off <= data[f].off && data[f].off + data[f].len <= b.off + b.len
    ensures OwnPart(f) ==> data[f] == UrlSpan(start, buf, f)
    ensures !OwnPart(f) ==> data[f] == Shift(SubSpan(start, buf, f), UrlSpan(start, buf, HostPart).off)
  {
    hide NextPlace, NextHost, UrlEnd, HostEnd, UrlSpan, HostSpan, FoundAt;
    if OwnPart(f) {
      assert FoundOne(fields, data, start, buf, f);
    } else {
      UrlSpanFits(start, buf, HostPart);
      HostSpanFits(HostStartIn(start, buf), Authority(start, buf), f);
      HostHasName(HostStartIn(start, buf), Authority(start, buf));
    }
  }

  lemma InOrder(fields: set<Part>, data: map<Part, Extent>, start: UrlPlace, buf: string, f: Part, g: Part)
    requires Describes(fields, data, start, buf) && f in fields && g in fields && Rank(f) < Rank(g)
    requires NeedsHost(start, buf) ==> HostEnds(HostEnd(HostStartIn(start, buf), Authority(start, buf)))
    ensures f in data && g in data && data[f].off + data[f].len <= data[g].off
  {
    hide NextPlace, NextHost, UrlEnd, HostEnd, FoundAt, Describes, IsSpan, Sorted, SpanOf;
    InBase(fields, data, start, buf, f);
    InBase(fields, data, start, buf, g);
    if Base(f) != Base(g) {
      SpanBefore(start, buf, Base(f), Base(g));
    } else {
      SubSpanBefore(start, buf, f, g);
    }
  }

  lemma SpanBefore(start: UrlPlace, buf: string, f: Part, g: Part)
    requires PartLevel(f) < PartLevel(g)
    requires UrlSpan(start, buf, f).len > 0 && UrlSpan(start, buf, g).len > 0
    ensures UrlSpan(start, buf, f).off + UrlSpan(start, buf, f).len <= UrlSpan(start, buf, g).off
  {
    hide NextPlace, UrlEnd;
    UrlSorted(start, buf);
    var ls, e, h := UrlLevels(start, buf), UrlSpan(start, buf, f), UrlSpan(start, buf, g);
    SpanOfIsSpan(ls, PartLevel(f));
    SpanOfIsSpan(ls, PartLevel(g));
    SpansInOrder(ls, PartLevel(f), e.off, e.len, PartLevel(g), h.off, h.len);
  }

  lemma SubSpanBefore(start: UrlPlace, buf: string, f: Part, g: Part)
    requires HostPartLevel(f) < HostPartLevel(g)
    requires SubSpan(start, buf, f).len > 0 && SubSpan(start, buf, g).len > 0
    ensures SubSpan(start, buf, f).off + SubSpan(start, buf, f).len <= SubSpan(start, buf, g).off
  {
    hide NextHost, HostEnd, UrlEnd, UrlSpan;
    var s, t := HostStartIn(start, buf), Authority(start, buf);
    HostSorted(s, t);
    var ls, e, h := HostLevels(s, t), HostSpan(s, t, f), HostSpan(s, t, g);
    SpanOfIsSpan(ls, HostPartLevel(f));
    SpanOfIsSpan(ls, HostPartLevel(g));
    SpansInOrder(ls, HostPartLevel(f), e.off, e.len, HostPartLevel(g), h.off, h.len);
  }

  /** What a successful parse describes is well placed. */
  lemma AllInOrder(fields: set<Part>, data: map<Part, Extent>, start: UrlPlace, buf: string)
    requires Describes(fields, data, start, buf)
    requires NeedsHost(start, buf) ==> HostEnds(HostEnd(HostStartIn(start, buf), Authority(start, buf)))
    ensures WellPlaced(fields, data, |buf|)
  {
    hide NextPlace, NextHost, UrlEnd, HostEnd, UrlSpan, HostSpan, FoundAt, Describes;
    forall f: Part | f in fields
      ensures f in data && 0 < data[f].len && data[f].off + data[f].len <= |buf|
    {
      InBase(fields, data, start, buf, f);
      UrlSpanFits(start, buf, Base(f));
    }
    forall f: Part, g: Part | f in fields && g in fields && Rank(f) < Rank(g)
      ensures data[f].off + data[f].len <= data[g].off
    {
      InOrder(fields, data, start, buf, f, g);
    }
  }

  // ----- What stands between the fields -----

  lemma {:induction false} UrlLevelAt(s: UrlPlace, t: string, i: nat)
    requires i < |t|
    ensures UrlLevels(s, t)[i] == UrlLevel(UrlEnd(s, t[..i + 1]))
    ensures UrlEnd(s, t[..i + 1]) == NextPlace(UrlEnd(s, t[..i]), t[i])
    decreases |t|
  {
    hide NextPlace;
    assert t[..i + 1][..i] == t[..i];
    if i == |t| - 1 {
      assert t[..i + 1] == t;
    } else {
      var u := t[..|t| - 1];
      UrlLevelAt(s, u, i);
      assert u[..i + 1] == t[..i + 1] && u[..i] == t[..i];
    }
  }

  /** The first byte of a field, and the place before it. */
  lemma FieldBegins(start: UrlPlace, buf: string, f: Part) returns (q: UrlPlace)
    requires UrlSpan(start, buf, f).len > 0
    ensures var o := UrlSpan(start, buf, f).off;
            && o < |buf| && q == UrlEnd(start, buf[..o])
            && UrlLevel(NextPlace(q, buf[o])) == PartLevel(f)
            && (o == 0 ==> q == start)
            && (o > 0 ==> UrlLevels(start, buf)[o - 1] == UrlLevel(q) && UrlLevel(q) < PartLevel(f))
  {
    hide NextPlace, UrlEnd;
    var e := UrlSpan(start, buf, f);
    UrlSorted(start, buf);
    SpanOfIsSpan(UrlLevels(start, buf), PartLevel(f));
    UrlLevelAt(start, buf, e.off);
    q := UrlEnd(start, buf[..e.off]);
    if e.off == 0 {
      assert buf[..0] == [];
      UrlEndNothing(start);
    } else {
      UrlLevelAt(start, buf, e.off - 1);
      assert UrlLevels(start, buf)[e.off - 1] <= UrlLevels(start, buf)[e.off];
    }
  }

  lemma UrlEndNothing(start: UrlPlace)
    ensures UrlEnd(start, []) == start
  {
  }

  /** How a place is reached. */
  lemma CameBy(start: UrlPlace, buf: string, o: nat)
    requires o <= |buf| && (start == BeforeAll || start == ServerStart)
    ensures var q := UrlEnd(start, buf[..o]);
            && (q == BeforeAll ==> o == 0)
            && (q == AtQuery ==> o > 0 && buf[o - 1] == '?')
            && (q == AtFragment ==> o > 0 && buf[o - 1] == '#')
            && (q == AfterSchema ==> o > 0 && buf[o - 1] == ':' && UrlEnd(start, buf[..o - 1]) == InSchema)
            && (q == AfterSlash ==> o > 0 && buf[o - 1] == '/' && UrlEnd(start, buf[..o - 1]) == AfterSchema)
            && (q == ServerStart && o > 0 ==> buf[o - 1] == '/' && UrlEnd(start, buf[..o - 1]) == AfterSlash)
  {
    if o > 0 {
      UrlLevelAt(start, buf, o - 1);
    } else {
      assert buf[..0] == [];
    }
  }

  lemma SchemaBegins(start: UrlPlace, buf: string)
    requires (start == BeforeAll || start == ServerStart) && UrlSpan(start, buf, SchemaPart).len > 0
    ensures start == BeforeAll && UrlSpan(start, buf, SchemaPart).off == 0
  {
    hide UrlEnd;
    var q := FieldBegins(start, buf, SchemaPart);
    CameBy(start, buf, UrlSpan(start, buf, SchemaPart).off);
  }

  /** A query follows a question mark, a fragment a hash sign. */
  lemma MarkBefore(start: UrlPlace, buf: string, f: Part)
    requires (start == BeforeAll || start == ServerStart) && (f == QueryPart || f == FragmentPart)
    requires UrlSpan(start, buf, f).len > 0
    ensures var o := UrlSpan(start, buf, f).off;
            0 < o <= |buf| && buf[o - 1] == if f == QueryPart then '?' else '#'
  {
    hide UrlEnd;
    var q := FieldBegins(start, buf, f);
    CameBy(start, buf, UrlSpan(start, buf, f).off);
  }

  /** The authority is behind the schema and "://", or is where the target of a CONNECT starts. */
  lemma AuthorityBegins(start: UrlPlace, buf: string)
    requires (start == BeforeAll || start == ServerStart) && UrlSpan(start, buf, HostPart).len > 0
    ensures var o, n := UrlSpan(start, buf, HostPart).off, UrlSpan(start, buf, SchemaPart).len;
            if start == ServerStart then o == 0 && n == 0
            else 0 < n && o == n + 3 <= |buf| && buf[n..o] == "://"
  {
    hide UrlEnd;
    var q := FieldBegins(start, buf, HostPart);
    var o := UrlSpan(start, buf, HostPart).off;
    assert q == ServerStart;
    if o > 0 {
      CameBy(start, buf, o);
      CameBy(start, buf, o - 1);
      CameBy(start, buf, o - 2);
      SchemaEnds(start, buf, o - 3);
      assert buf[o - 3..o] == "://";
    } else if UrlSpan(start, buf, SchemaPart).len > 0 {
      SchemaBegins(start, buf);
    }
  }

  /** The schema is everything before the colon. */
  lemma SchemaEnds(start: UrlPlace, buf: string, n: nat)
    requires (start == BeforeAll || start == ServerStart) && n < |buf|
    requires UrlEnd(start, buf[..n]) == InSchema && UrlEnd(start, buf[..n + 1]) == AfterSchema
    ensures UrlSpan(start, buf, SchemaPart) == Extent(0, n) && n > 0 && start == BeforeAll
  {
    hide NextPlace, UrlEnd;
    var ls := UrlLevels(start, buf);
    UrlSorted(start, buf);
    SpanOfIsSpan(ls, 1);
    if n == 0 { assert buf[..n] == []; UrlEndNothing(start); }
    UrlLevelAt(start, buf, n - 1);
    UrlLevelAt(start, buf, n);
    assert ls[n - 1] == 1 && ls[n] == 2;
    SchemaBegins(start, buf);
  }

  /** A path follows the authority without a gap. */
  lemma PathBegins(start: UrlPlace, buf: string)
    requires start == BeforeAll || start == ServerStart
    requires UrlSpan(start, buf, PathPart).len > 0 && UrlSpan(start, buf, HostPart).len > 0
    ensures UrlSpan(start, buf, PathPart).off == UrlSpan(start, buf, HostPart).off + UrlSpan(start, buf, HostPart).len
  {
    hide UrlEnd;
    var ls, h, o := UrlLevels(start, buf), UrlSpan(start, buf, HostPart), UrlSpan(start, buf, PathPart).off;
    var q := FieldBegins(start, buf, PathPart);
    SpanBefore(start, buf, HostPart, PathPart);
    UrlSorted(start, buf);
    SpanOfIsSpan(ls, 5);
    assert ls[h.off] == 5;
    assert ls[h.off] <= ls[o - 1];
  }

  /** Without an authority a path starts the URL. */
  lemma PathAlone(start: UrlPlace, buf: string)
    requires (start == BeforeAll || start == ServerStart) && !NeedsHost(start, buf)
    requires UrlSpan(start, buf, PathPart).len > 0
    ensures UrlSpan(start, buf, PathPart).off == 0
  {
    hide UrlEnd;
    var ls, o := UrlLevels(start, buf), UrlSpan(start, buf, PathPart).off;
    var q := FieldBegins(start, buf, PathPart);
    UrlSorted(start, buf);
    SpanOfIsSpan(ls, 5);
    CameBy(start, buf, o);
    if o > 0 && q == ServerStart {
      CameBy(start, buf, o - 1);
      CameBy(start, buf, o - 2);
      SchemaEnds(start, buf, o - 3);
    }
  }

  lemma {:induction false} HostLevelAt(s: HostPlace, t: string, i: nat)
    requires i < |t|
    ensures HostLevels(s, t)[i] == HostLevel(HostEnd(s, t[..i + 1]))
    ensures HostEnd(s, t[..i + 1]) == NextHost(HostEnd(s, t[..i]), t[i])
    decreases |t|
  {
    hide NextHost;
    assert t[..i + 1][..i] == t[..i];
    if i == |t| - 1 {
      assert t[..i + 1] == t;
    } else {
      var u := t[..|t| - 1];
      HostLevelAt(s, u, i);
      assert u[..i + 1] == t[..i + 1] && u[..i] == t[..i];
    }
  }

  lemma HostEndNothing(s: HostPlace)
    ensures HostEnd(s, []) == s
  {
  }

  /** A port follows a colon. */
  lemma ColonBefore(s: HostPlace, t: string)
    requires (s == UserInfoStart || s == HostStartPlace) && HostSpan(s, t, PortPart).len > 0
    ensures var o := HostSpan(s, t, PortPart).off; 0 < o <= |t| && t[o - 1] == ':'
  {
    hide HostEnd;
    var ls, e := HostLevels(s, t), HostSpan(s, t, PortPart);
    HostSorted(s, t);
    SpanOfIsSpan(ls, 7);
    HostLevelAt(s, t, e.off);
    if e.off == 0 {
      assert t[..0] == [];
      HostEndNothing(s);
    } else {
      HostLevelAt(s, t, e.off - 1);
    }
  }

  /** User information starts the authority. */
  lemma UserInfoBegins(s: HostPlace, t: string)
    requires (s == UserInfoStart || s == HostStartPlace) && HostSpan(s, t, UserInfoPart).len > 0
    ensures HostSpan(s, t, UserInfoPart).off == 0
  {
    hide HostEnd, NextHost;
    var ls, e := HostLevels(s, t), HostSpan(s, t, UserInfoPart);
    HostSorted(s, t);
    SpanOfIsSpan(ls, 1);
    if e.off > 0 {
      assert ls[e.off - 1] <= ls[e.off];
      NothingBefore(s, t, e.off);
    }
  }

  /** Level zero is left with the first byte. */
  lemma NothingBefore(s: HostPlace, t: string, i: nat)
    requires (s == UserInfoStart || s == HostStartPlace) && 0 < i <= |t|
    ensures HostLevels(s, t)[i - 1] > 0
  {
    HostLevelAt(s, t, i - 1);
  }

  lemma OnlyAt(p: HostPlace, ch: char)
    requires HostLevel(p) == 1 && HostLevel(NextHost(p, ch)) != 1 && HostLevel(NextHost(p, ch)) < 8
    ensures ch == '@'
  {
  }

  /** Something else than user information follows it. */
  lemma UserInfoEnds(s: HostPlace, t: string)
    requires (s == UserInfoStart || s == HostStartPlace) && HostSpan(s, t, UserInfoPart).len > 0
    requires HostEnds(HostEnd(s, t))
    ensures var e, ls := HostSpan(s, t, UserInfoPart), HostLevels(s, t);
            e.off == 0 && e.len < |t| && ls[e.len - 1] == 1 && ls[e.len] != 1 && ls[e.len] < 8
  {
    hide HostEnd, NextHost, HostLevels, SpanOf, IsSpan, Sorted;
    var ls, e := HostLevels(s, t), HostSpan(s, t, UserInfoPart);
    UserInfoBegins(s, t);
    HostSorted(s, t);
    SpanOfIsSpan(ls, 1);
    LastLevel(s, t);
    SpanStops(ls, 1, e.len);
  }

  lemma LastLevel(s: HostPlace, t: string)
    ensures t != [] ==> HostLevels(s, t)[|t| - 1] == HostLevel(HostEnd(s, t))
    ensures t == [] ==> HostEnd(s, t) == s
  {
    hide NextHost;
  }

  /** A run that starts at the front and does not reach the end stops at a higher level. */
  lemma SpanStops(ls: seq<nat>, level: nat, len: nat)
    requires Sorted(ls) && IsSpan(ls, level, 0, len) && ls[|ls| - 1] > level
    ensures len < |ls| && ls[len - 1] == level && ls[len] != level && ls[len] <= ls[|ls| - 1]
  {
    assert ls[len - 1] == level;
  }

  /** The user information is followed by an at sign. */
  lemma AtBehind(s: HostPlace, t: string)
    requires (s == UserInfoStart || s == HostStartPlace) && HostSpan(s, t, UserInfoPart).len > 0
    requires HostEnds(HostEnd(s, t))
    ensures var e := HostSpan(s, t, UserInfoPart); e.off == 0 && e.len < |t| && t[e.len] == '@'
  {
    hide HostEnd, NextHost, HostLevels, HostSpan;
    var e := HostSpan(s, t, UserInfoPart);
    UserInfoEnds(s, t);
    HostLevelAt(s, t, e.len - 1);
    HostLevelAt(s, t, e.len);
    OnlyAt(HostEnd(s, t[..e.len]), t[e.len]);
  }

  /** The authority ends with the port, the host or the bracket around it. */
  lemma AuthorityStops(s: HostPlace, t: string)
    requires (s == UserInfoStart || s == HostStartPlace) && HostEnds(HostEnd(s, t))
    ensures var h, p := HostSpan(s, t, HostPart), HostSpan(s, t, PortPart);
            if p.len > 0 then p.off + p.len == |t|
            else h.off + h.len == |t| || (h.off + h.len == |t| - 1 && t[|t| - 1] == ']')
  {
    hide HostEnd, HostLevels, SpanOf;
    var ls, n := HostLevels(s, t), |t| - 1;
    NonEmptyHost(s, t);
    HostSorted(s, t);
    SpanOfIsSpan(ls, 4);
    SpanOfIsSpan(ls, 7);
    LastLevel(s, t);
    HostLevelAt(s, t, n);
    assert t[..n + 1] == t;
    var p := HostSpan(s, t, PortPart);
    if p.len > 0 { assert ls[p.off] == 7; }
    if HostEnd(s, t) == V6End {
      if n == 0 { assert t[..0] == []; HostEndNothing(s); } else { HostLevelAt(s, t, n - 1); }
    }
  }

  /** Where the authority ends. */
  ghost predicate AuthorityEnds(fields: set<Part>, data: map<Part, Extent>, buf: string, o: nat)
    requires WellPlaced(fields, data, |buf|) && HostPart in fields && o <= |buf|
  {
    var e := data[HostPart].off + data[HostPart].len;
    if PortPart in fields then o == data[PortPart].off + data[PortPart].len
    else o == e || (o == e + 1 && buf[e] == ']')
  }

  /** The bytes that part the fields of a URL. */
  ghost predicate Delimited(fields: set<Part>, data: map<Part, Extent>, buf: string)
    requires WellPlaced(fields, data, |buf|)
  {
    && (SchemaPart in fields ==>
          data[SchemaPart].off == 0 && data[SchemaPart].len + 3 <= |buf| &&
          buf[data[SchemaPart].len..data[SchemaPart].len + 3] == "://")
    && (UserInfoPart in fields ==>
          data[UserInfoPart].off + data[UserInfoPart].len < |buf| &&
          buf[data[UserInfoPart].off + data[UserInfoPart].len] == '@')
    && (PathPart in fields && HostPart !in fields ==> data[PathPart].off == 0)
    && (PathPart in fields && HostPart in fields ==> AuthorityEnds(fields, data, buf, data[PathPart].off))
    && (PortPart in fields ==> data[PortPart].off > 0 && buf[data[PortPart].off - 1] == ':')
    && (QueryPart in fields ==> data[QueryPart].off > 0 && buf[data[QueryPart].off - 1] == '?')
    && (FragmentPart in fields ==> data[FragmentPart].off > 0 && buf[data[FragmentPart].off - 1] == '#')
  }

  lemma DelimitedWhole(fields: set<Part>, data: map<Part, Extent>, start: UrlPlace, buf: string)
    requires Describes(fields, data, start, buf) && WellPlaced(fields, data, |buf|)
    requires start == BeforeAll || start == ServerStart
    requires NeedsHost(start, buf) ==> HostEnds(HostEnd(HostStartIn(start, buf), Authority(start, buf)))
    ensures Delimited(fields, data, buf)
  {
    hide NextPlace, NextHost, UrlEnd, HostEnd, UrlSpan, HostSpan, FoundAt, Describes, WellPlaced;
    if SchemaPart in fields {
      InBase(fields, data, start, buf, SchemaPart);
      SchemaHasHost(fields, data, start, buf);
      InBase(fields, data, start, buf, HostPart);
      SchemaBegins(start, buf);
      AuthorityBegins(start, buf);
    }
    if QueryPart in fields { InBase(fields, data, start, buf, QueryPart); MarkBefore(start, buf, QueryPart); }
    if FragmentPart in fields { InBase(fields, data, start, buf, FragmentPart); MarkBefore(start, buf, FragmentPart); }
    if PathPart in fields { PathDelimited(fields, data, start, buf); }
    if PortPart in fields { PortDelimited(fields, data, start, buf); }
    if UserInfoPart in fields { UserInfoDelimited(fields, data, start, buf); }
  }

  lemma PathDelimited(fields: set<Part>, data: map<Part, Extent>, start: UrlPlace, buf: string)
    requires Describes(fields, data, start, buf) && WellPlaced(fields, data, |buf|) && PathPart in fields
    requires start == BeforeAll || start == ServerStart
    requires NeedsHost(start, buf) ==> HostEnds(HostEnd(HostStartIn(start, buf), Authority(start, buf)))
    ensures if HostPart in fields then AuthorityEnds(fields, data, buf, data[PathPart].off) else data[PathPart].off == 0
  {
    hide NextPlace, NextHost, UrlEnd, HostEnd, UrlSpan, HostSpan, FoundAt, WellPlaced;
    InBase(fields, data, start, buf, PathPart);
    if HostPart in fields {
      var s, t := HostStartIn(start, buf), Authority(start, buf);
      InBase(fields, data, start, buf, HostPart);
      NonEmptyHost(s, t);
      PathBegins(start, buf);
      AuthorityStops(s, t);
      UrlSpanFits(start, buf, HostPart);
      if PortPart in fields { InBase(fields, data, start, buf, PortPart); }
    } else {
      PathAlone(start, buf);
    }
  }

  lemma PortDelimited(fields: set<Part>, data: map<Part, Extent>, start: UrlPlace, buf: string)
    requires Describes(fields, data, start, buf) && PortPart in fields
    requires NeedsHost(start, buf) ==> HostEnds(HostEnd(HostStartIn(start, buf), Authority(start, buf)))
    ensures PortPart in data && 0 < data[PortPart].off <= |buf| && buf[data[PortPart].off - 1] == ':'
  {
    hide NextPlace, NextHost, UrlEnd, HostEnd, UrlSpan, HostSpan, FoundAt, Describes;
    InBase(fields, data, start, buf, PortPart);
    UrlSpanFits(start, buf, HostPart);
    ColonBefore(HostStartIn(start, buf), Authority(start, buf));
  }

  lemma UserInfoDelimited(fields: set<Part>, data: map<Part, Extent>, start: UrlPlace, buf: string)
    requires Describes(fields, data, start, buf) && UserInfoPart in fields
    requires NeedsHost(start, buf) ==> HostEnds(HostEnd(HostStartIn(start, buf), Authority(start, buf)))
    ensures UserInfoPart in data && data[UserInfoPart].off + data[UserInfoPart].len < |buf|
    ensures buf[data[UserInfoPart].off + data[UserInfoPart].len] == '@'
  {
    InBase(fields, data, start, buf, UserInfoPart);
    hide NextPlace, NextHost, UrlEnd, HostEnd, UrlSpan, HostSpan, FoundAt;
    UrlSpanFits(start, buf, HostPart);
    AtBehind(HostStartIn(start, buf), Authority(start, buf));
  }

  function BytesOf(buf: string, e: Extent): string
    requires e.off + e.len <= |buf|
  {
    buf[e.off..e.off + e.len]
  }

  method ParseUrl(buf: string, isConnect: bool, u: Url) returns (failed: bool)
    requires |buf| <= 0xffff && u.Total() && u.data[HostPart] == Extent(0, 0)
    modifies u
    ensures failed == !Accepts(buf, isConnect)
    ensures !failed ==> Describes(u.fieldSet, u.data, StartPlace(isConnect), buf)
    ensures !failed ==> WellPlaced(u.fieldSet, u.data, |buf|) && Delimited(u.fieldSet, u.data, buf)
    ensures !failed && SchemaPart in u.fieldSet ==> HostPart in u.fieldSet
    ensures !failed && isConnect ==> u.fieldSet == {HostPart, PortPart}
    ensures !failed ==> u.port <= 0xffff
    ensures !failed ==> u.port == if PortPart in u.fieldSet then Dec(BytesOf(buf, u.data[PortPart])) else 0
  {
    hide NextPlace, NextHost, UrlEnd, HostEnd, UrlSpan, HostSpan, FoundAt, Describes, WellPlaced, Delimited;
    ghost var start := StartPlace(isConnect);
    var dead, foundAt := FirstPass(buf, isConnect, u);
    if dead { return true; }
    HostExtent(u.fieldSet, u.data, start, buf);
    ghost var fields, data := u.fieldSet, u.data;
    assert FoundOne(fields, data, start, buf, HostPart) && FoundOne(fields, data, start, buf, SchemaPart);
    if SchemaPart in u.fieldSet || HostPart in u.fieldSet {
      var bad := ParseHost(buf, u, foundAt);
      if bad { return true; }
    }
    Completes(fields, data, u.fieldSet, u.data, start, buf);
    AllInOrder(u.fieldSet, u.data, start, buf);
    SchemaHasHost(u.fieldSet, u.data, start, buf);
    DelimitedWhole(u.fieldSet, u.data, start, buf);
    OnlyHostAndPort(u.fieldSet, u.data, start, buf);
    if isConnect && u.fieldSet != {HostPart, PortPart} { return true; }
    failed := false;
    if PortPart in u.fieldSet { failed := TakePort(buf, u, start); }
  }

  method TakePort(buf: string, u: Url, ghost start: UrlPlace) returns (failed: bool)
    requires PortPart in u.data
    requires u.data[PortPart] == Shift(SubSpan(start, buf, PortPart), UrlSpan(start, buf, HostPart).off)
    modifies u`port
    ensures u.data[PortPart].off + u.data[PortPart].len <= |buf|
    ensures failed == (Dec(PortText(start, buf)) > 0xffff)
    ensures !failed ==> u.port == Dec(BytesOf(buf, u.data[PortPart])) <= 0xffff
    ensures failed ==> u.port == old(u.port)
  {
    hide NextPlace, NextHost, UrlEnd, HostEnd, UrlSpan, HostSpan, FoundAt;
    var e := u.data[PortPart];
    PortPlace(start, buf, e);
    var tooLarge, v := ParsePort(BytesOf(buf, e));
    if tooLarge { return true; }
    u.port := v;
    failed := false;
  }

  lemma HostExtent(fields: set<Part>, data: map<Part, Extent>, start: UrlPlace, buf: string)
    requires Found(fields, data, start, buf) && (HostPart !in fields ==> data[HostPart] == Extent(0, 0))
    ensures data[HostPart] == UrlSpan(start, buf, HostPart)
    ensures data[HostPart].off + data[HostPart].len <= |buf|
  {
    hide NextPlace, UrlEnd;
    assert FoundOne(fields, data, start, buf, HostPart);
    UrlSpanFits(start, buf, HostPart);
    SpanOfZero(UrlLevels(start, buf), PartLevel(HostPart));
  }

  lemma NonEmptyHost(s: HostPlace, t: string)
    requires HostEnds(HostEnd(s, t)) && (s == UserInfoStart || s == HostStartPlace)
    ensures t != []
  {
  }

  lemma PortPlace(start: UrlPlace, buf: string, e: Extent)
    requires e == Shift(SubSpan(start, buf, PortPart), UrlSpan(start, buf, HostPart).off)
    ensures e.off + e.len <= |buf| && buf[e.off..e.off + e.len] == PortText(start, buf)
    ensures AllDigits(PortText(start, buf))
  {
    hide NextPlace, NextHost, UrlEnd, HostEnd, UrlSpan, HostSpan, FoundAt;
    UrlSpanFits(start, buf, HostPart);
    PortDigits(HostStartIn(start, buf), Authority(start, buf));
    var a, d := UrlSpan(start, buf, HostPart), SubSpan(start, buf, PortPart);
    Slice(buf, a.off, a.off + a.len, d.off, d.off + d.len);
  }

  lemma Slice(s: string, a: nat, b: nat, i: nat, j: nat)
    requires a <= b <= |s| && i <= j <= b - a
    ensures s[a..b][i..j] == s[a + i..a + j]
  {
    var x, y := s[a..b][i..j], s[a + i..a + j];
    assert |x| == |y|;
    forall k | 0 <= k < |x| ensures x[k] == y[k] { assert x[k] == s[a..b][i + k] == s[a + (i + k)]; }
  }
}
