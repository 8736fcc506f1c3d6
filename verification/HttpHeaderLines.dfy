/** Header lines: the name recogniser, values, Content-Length and Transfer-Encoding. */
module HttpHeaderLines {
  import opened HttpMachine
  import opened HttpStream
  import opened HttpRequestLine

  /** At a place with the fields of `c`, whatever the header recogniser holds. */
  predicate Near(x: Stream, c: Core, log: seq<Event>) {
    At(x, c.(header := x.core.header, index := x.core.index), log)
  }

  // ----- Names -----

  /** `s` is the start of `name`, ignoring case. */
  predicate Matches(s: string, name: string) {
    |s| <= |name| && forall i :: 0 <= i < |s| ==> Lower(s[i]) == name[i]
  }

  predicate SameName(s: string, name: string) { Matches(s, name) && |s| == |name| }

  const CONTENT_LENGTH := "content-length"
  const TRANSFER_ENCODING := "transfer-encoding"
  const UPGRADE := "upgrade"

  /** What the recogniser should know after reading the name `s`. */
  function Classify(s: string): HeaderState {
    if Matches(s, CONTENT_LENGTH) then if |s| == 14 then ContentLength else MatchingContentLength
    else if Matches(s, TRANSFER_ENCODING) then if |s| == 17 then TransferEncoding else MatchingTransferEncoding
    else if Matches(s, UPGRADE) then if |s| == 7 then UpgradeHeader else MatchingUpgrade
    else General
  }

  predicate IsMatching(h: HeaderState) {
    h.MatchingContentLength? || h.MatchingTransferEncoding? || h.MatchingUpgrade?
  }

  /** The stream is inside a header name and has read `s` of it. */
  predicate InName(x: Stream, c: Core, log: seq<Event>, s: string) {
    && s != []
    && At(x, c.(state := InField, header := Classify(s), index := x.core.index), Push(log, Data(Field, s)))
    && (IsMatching(Classify(s)) ==> x.core.index == |s| - 1)
  }

  lemma MatchesNext(s: string, ch: char, name: string)
    ensures Matches(s + [ch], name) <==> Matches(s, name) && |s| < |name| && Lower(ch) == name[|s|]
  {
    var t := s + [ch];
    if Matches(t, name) {
      assert Lower(t[|s|]) == name[|s|];
      forall i | 0 <= i < |s| ensures Lower(s[i]) == name[i] { assert t[i] == s[i]; }
    }
  }

  lemma ClassifyNext(s: string, ch: char)
    requires s != []
    ensures Classify(s + [ch]) ==
            match Classify(s)
            case MatchingContentLength =>
              if Lower(ch) != CONTENT_LENGTH[|s|] then General
              else if |s| == 13 then ContentLength else MatchingContentLength
            case MatchingTransferEncoding =>
              if Lower(ch) != TRANSFER_ENCODING[|s|] then General
              else if |s| == 16 then TransferEncoding else MatchingTransferEncoding
            case MatchingUpgrade =>
              if Lower(ch) != UPGRADE[|s|] then General else if |s| == 6 then UpgradeHeader else MatchingUpgrade
            case _ => General
  {
    FirstLetters(s);
    FirstLetters(s + [ch]);
    MatchesNext(s, ch, CONTENT_LENGTH);
    MatchesNext(s, ch, TRANSFER_ENCODING);
    MatchesNext(s, ch, UPGRADE);
    hide Matches;
  }

  lemma FirstLetters(s: string)
    requires s != []
    ensures Matches(s, CONTENT_LENGTH) ==> Lower(s[0]) == 'c'
    ensures Matches(s, TRANSFER_ENCODING) ==> Lower(s[0]) == 't'
    ensures Matches(s, UPGRADE) ==> Lower(s[0]) == 'u'
  {
  }

  lemma NameFirst(x: Stream, c: Core, log: seq<Event>, ch: char)
    requires At(x, c, log) && c.state == InHeaders(FieldStart) && IsToken(ch)
    ensures InName(Step(x, ch), c, log, [ch])
  {
    ClassifyFirst(ch);
    hide Step, Pass, Push, Classify, PassValueStart, PassHeadersDone;
    OnHeaders(c, ch);
    TokenIsNoEnd(ch);
    Take(x, ch, c, log);
  }

  lemma TokenIsNoEnd(ch: char)
    requires IsToken(ch)
    ensures ch != CR && ch != LF && ch != ' ' && ch != '\t' && ch != ':'
  {
  }

  lemma ClassifyFirst(ch: char)
    ensures Classify([ch]) == if Lower(ch) == 'c' then MatchingContentLength
                              else if Lower(ch) == 't' then MatchingTransferEncoding
                              else if Lower(ch) == 'u' then MatchingUpgrade
                              else General
  {
    FirstLetters([ch]);
    assert CONTENT_LENGTH[0] == 'c' && TRANSFER_ENCODING[0] == 't' && UPGRADE[0] == 'u';
  }

  lemma NameNext(x: Stream, c: Core, log: seq<Event>, s: string, ch: char)
    requires InName(x, c, log, s) && IsToken(ch)
    ensures InName(Step(x, ch), c, log, s + [ch])
  {
    hide Step, Pass, PassField, Push, Classify;
    FieldCore(x.core, s, ch);
    OnField(x.core, ch);
    Take(x, ch, x.core, x.log);
    PushJoin(log, Field, s, [ch]);
  }

  lemma FieldCore(d: Core, s: string, ch: char)
    requires s != [] && IsToken(ch) && d.header == Classify(s) && (IsMatching(d.header) ==> d.index == |s| - 1)
    ensures var o := PassField(d, ch);
            && o == Do(d.(header := Classify(s + [ch]), index := o.core.index), Keep(Field))
            && (IsMatching(o.core.header) ==> o.core.index == |s|)
  {
    ClassifyNext(s, ch);
    ClassifyBounds(s);
    hide Classify;
  }

  lemma ClassifyBounds(s: string)
    ensures match Classify(s)
            case MatchingContentLength => |s| < 14
            case MatchingTransferEncoding => |s| < 17
            case MatchingUpgrade => |s| < 7
            case h => h == General || h == ContentLength || h == TransferEncoding || h == UpgradeHeader
  {
  }

  predicate IsName(s: string) { s != [] && forall i :: 0 <= i < |s| ==> IsToken(s[i]) }

  lemma {:induction false} NameRun(x: Stream, c: Core, log: seq<Event>, s: string, n: nat)
    requires At(x, c, log) && c.state == InHeaders(FieldStart) && IsName(s) && 1 <= n <= |s|
    ensures InName(Run(x, s[..n]), c, log, s[..n])
    decreases n
  {
    hide Step, InName;
    if n == 1 {
      NameFirst(x, c, log, s[0]);
      RunOne(x, s[0]);
      assert s[..1] == [s[0]];
    } else {
      NameRun(x, c, log, s, n - 1);
      RunSnoc(x, s, n - 1);
      NameNext(Run(x, s[..n - 1]), c, log, s[..n - 1], s[n - 1]);
      assert s[..n] == s[..n - 1] + [s[n - 1]];
    }
  }

  /** After a name and its colon the parser knows a Content-Length, Transfer-Encoding or Upgrade
      header exactly when the name is that one, ignoring case. */
  lemma NameColon(x: Stream, c: Core, log: seq<Event>, s: string)
    requires At(x, c, log) && c.state == InHeaders(FieldStart) && IsName(s)
    ensures var y := Run(x, s + ":");
            && At(y, c.(state := InHeaders(ValueStart), header := y.core.header, index := y.core.index),
                  Push(log, Data(Field, s)))
            && (y.core.header == ContentLength <==> SameName(s, CONTENT_LENGTH))
            && (y.core.header == TransferEncoding <==> SameName(s, TRANSFER_ENCODING))
            && (y.core.header == UpgradeHeader <==> SameName(s, UPGRADE))
  {
    hide Step, Run, Push, Classify, Pass, Matches;
    NameRun(x, c, log, s, |s|);
    assert s[..|s|] == s;
    ClassifyExact(s);
    RunAppend(x, s, ":");
    RunOne(Run(x, s), ':');
    Colon(Run(x, s), c, log, s);
  }

  lemma Colon(y: Stream, c: Core, log: seq<Event>, s: string)
    requires InName(y, c, log, s)
    ensures At(Step(y, ':'), y.core.(state := InHeaders(ValueStart)), Push(log, Data(Field, s)))
  {
    hide Step, Push, Classify, Pass, MatchName;
    OnField(y.core, ':');
    Take(y, ':', y.core, y.log);
    PushJoin(log, Field, s, []);
    assert s + [] == s;
  }

  lemma ClassifyExact(s: string)
    requires s != []
    ensures Classify(s) == ContentLength <==> SameName(s, CONTENT_LENGTH)
    ensures Classify(s) == TransferEncoding <==> SameName(s, TRANSFER_ENCODING)
    ensures Classify(s) == UpgradeHeader <==> SameName(s, UPGRADE)
  {
    FirstLetters(s);
    hide Matches;
  }

  // ----- Values -----

  predicate IsPad(s: string) { forall i :: 0 <= i < |s| ==> s[i] == ' ' || s[i] == '\t' }

  lemma {:induction false} PadRun(x: Stream, c: Core, log: seq<Event>, pad: string)
    requires At(x, c, log) && c.state == InHeaders(ValueStart) && IsPad(pad)
    ensures At(Run(x, pad), c, log)
    decreases |pad|
  {
    hide Step, Pass, Emit;
    if pad != [] {
      PadByte(x, c, log, pad[0]);
      PadRun(Step(x, pad[0]), c, log, pad[1..]);
    }
  }

  lemma PadByte(x: Stream, c: Core, log: seq<Event>, ch: char)
    requires At(x, c, log) && c.state == InHeaders(ValueStart) && (ch == ' ' || ch == '\t')
    ensures At(Step(x, ch), c, log)
  {
    hide Step, Pass, PassFieldStart, PassHeadersDone;
    OnHeaders(c, ch);
    Take(x, ch, c, log);
  }

  /** How the parser tracks quotations in an ordinary value. */
  function Quote(h: HeaderState, ch: char): HeaderState {
    match h
    case General => if ch == QT then Quoted else General
    case Quoted => if ch == QT then General else if ch == BS then QuotedEscape else Quoted
    case _ => Quoted
  }

  function QuoteWalk(h: HeaderState, s: string): HeaderState
    decreases |s|
  {
    if s == [] then h else QuoteWalk(Quote(h, s[0]), s[1..])
  }

  predicate IsQuote(h: HeaderState) { h.General? || h.Quoted? || h.QuotedEscape? }

  predicate IsText(s: string) {
    forall i :: 0 <= i < |s| ==> s[i] != CR && s[i] != LF && IsHeaderChar(s[i])
  }

  /** An ordinary header value: no leading blank, and not ending inside a quoted pair, where the
      parser would take the CR for the quoted character. */
  predicate IsValue(v: string) {
    IsText(v) && (v == [] || (v[0] != ' ' && v[0] != '\t')) && QuoteWalk(General, v) != QuotedEscape
  }

  lemma TextByte(x: Stream, c: Core, log: seq<Event>, ch: char)
    requires At(x, c, log) && c.state == InValue && IsQuote(c.header) && ch != CR && ch != LF && IsHeaderChar(ch)
    ensures At(Step(x, ch), c.(header := Quote(c.header, ch)), Push(log, Data(Value, [ch])))
  {
    hide Step, Pass, Push, MatchName, PassLength;
    OnValue(c, ch);
    Take(x, ch, c, log);
  }

  lemma {:induction false} TextRun(x: Stream, c: Core, log: seq<Event>, s: string)
    requires At(x, c, log) && c.state == InValue && IsQuote(c.header) && IsText(s)
    ensures At(Run(x, s), c.(header := QuoteWalk(c.header, s)), if s == [] then log else Push(log, Data(Value, s)))
    ensures IsQuote(QuoteWalk(c.header, s))
    decreases |s|
  {
    hide Step, Push;
    if s != [] {
      TextByte(x, c, log, s[0]);
      var d := c.(header := Quote(c.header, s[0]));
      TextRun(Step(x, s[0]), d, Push(log, Data(Value, [s[0]])), s[1..]);
      PushCons(log, Value, s);
    }
  }

  /** Delivering a string at once or its first byte first is the same. */
  lemma PushCons(log: seq<Event>, k: Span, s: string)
    requires s != []
    ensures Push(log, Data(k, s)) ==
            if s[1..] == [] then Push(log, Data(k, [s[0]])) else Push(Push(log, Data(k, [s[0]])), Data(k, s[1..]))
  {
    PushJoin(log, k, [s[0]], s[1..]);
    assert s == [s[0]] + s[1..];
    if s[1..] == [] { assert s == [s[0]]; }
  }

  lemma ValueEnd(x: Stream, c: Core, log: seq<Event>)
    requires At(x, c, log) && c.state == InValue && c.header != QuotedEscape
    ensures At(Run(x, "\r\n"),
               c.(state := InHeaders(ValueLws),
                  flags := c.flags.(chunked := c.flags.chunked || c.header == ChunkedCoding)),
               Push(log, Data(Value, [])))
  {
    hide Step, Pass, Push, MatchName, PassLength, PassFieldStart, PassValueStart, PassHeadersDone, PassValueByte;
    OnValue(c, CR);
    Take(x, CR, c, log);
    var y := Step(x, CR);
    OnHeaders(y.core, LF);
    Take(y, LF, y.core, y.log);
    RunTwo(x, CR, LF);
  }

  lemma RunTwo(x: Stream, a: char, b: char)
    ensures Run(x, [a, b]) == Step(Step(x, a), b)
  {
    hide Step;
    assert [a, b][1..] == [b];
    RunOne(Step(x, a), b);
  }

  predicate IsSpecial(h: HeaderState) { h.ContentLength? || h.TransferEncoding? || h.UpgradeHeader? }

  lemma ValueFirst(x: Stream, c: Core, log: seq<Event>, ch: char)
    requires At(x, c, log) && c.state == InHeaders(ValueStart) && !IsSpecial(c.header)
    requires ch != CR && ch != LF && ch != ' ' && ch != '\t'
    ensures At(Step(x, ch), c.(state := InValue, index := 0, header := Quote(General, ch)),
        Push(log, Data(Value, [ch])))
  {
    hide Step, Pass, Push, PassFieldStart, PassHeadersDone;
    OnHeaders(c, ch);
    Take(x, ch, c, log);
  }

  lemma EmptyValue(x: Stream, c: Core, log: seq<Event>)
    requires At(x, c, log) && c.state == InHeaders(ValueStart) && !IsSpecial(c.header)
    ensures Near(Run(x, "\r\n"), c.(state := InHeaders(ValueLws)), Push(log, Data(Value, [])))
    ensures !IsSpecial(Run(x, "\r\n").core.header)
  {
    hide Step, Pass, Push, PassFieldStart, PassHeadersDone;
    OnHeaders(c, CR);
    Take(x, CR, c, log);
    var y := Step(x, CR);
    OnHeaders(y.core, LF);
    Take(y, LF, y.core, y.log);
    RunTwo(x, CR, LF);
  }

  /** An ordinary value and the end of its line. */
  lemma ValueRun(x: Stream, c: Core, log: seq<Event>, v: string)
    requires At(x, c, log) && c.state == InHeaders(ValueStart) && !IsSpecial(c.header) && IsValue(v)
    ensures Near(Run(x, v + "\r\n"), c.(state := InHeaders(ValueLws)), Push(log, Data(Value, v)))
    ensures !IsSpecial(Run(x, v + "\r\n").core.header)
  {
    hide Step, Push, Quote, Run;
    if v == [] {
      assert v + "\r\n" == "\r\n";
      EmptyValue(x, c, log);
    } else {
      ValueFirst(x, c, log, v[0]);
      var y := Step(x, v[0]);
      assert IsText(v[1..]);
      assert IsQuote(Quote(General, v[0])) by { QuoteIsQuote(v[0]); }
      TextRun(y, y.core, y.log, v[1..]);
      PushCons(log, Value, v);
      RunCons(x, v + "\r\n");
      assert (v + "\r\n")[1..] == v[1..] + "\r\n";
      RunAppend(y, v[1..], "\r\n");
      var z := Run(y, v[1..]);
      ValueEnd(z, z.core, z.log);
      PushJoin(log, Value, v, []);
      assert v + [] == v;
    }
  }

  lemma QuoteIsQuote(ch: char)
    ensures IsQuote(Quote(General, ch))
  {
  }

  // ----- Content-Length -----

  /** The largest Content-Length the parser takes. */
  const MAX_LENGTH: int := INT64_MAX - 8

  /** A Content-Length value: a digit, then digits or spaces. */
  predicate IsLengthText(s: string) {
    s != [] && IsNum(s[0]) && forall i :: 0 <= i < |s| ==> IsNum(s[i]) || s[i] == ' '
  }

  /** Having read `s`, the parser holds its value, or has rejected it for being too large. */
  predicate LengthRead(y: Stream, c: Core, log: seq<Event>, s: string)
    requires IsLengthText(s)
  {
    if Dec(s) <= MAX_LENGTH
    then At(y, c.(state := InValue, index := 0, contentLength := Dec(s)), Push(log, Data(Value, s)))
    else y.core.errno == HugeContentLength
  }

  lemma LengthFirst(x: Stream, c: Core, log: seq<Event>, ch: char)
    requires At(x, c, log) && c.state == InHeaders(ValueStart) && c.header == ContentLength && IsNum(ch)
    ensures LengthRead(Step(x, ch), c, log, [ch])
  {
    hide Step, Pass, Push, PassFieldStart, PassHeadersDone;
    OnHeaders(c, ch);
    Take(x, ch, c, log);
    DecNone();
    DecSnoc([], ch);
    assert [] + [ch] == [ch];
  }

  lemma LengthNext(y: Stream, c: Core, log: seq<Event>, s: string, ch: char)
    requires IsLengthText(s) && LengthRead(y, c, log, s) && c.header == ContentLength && (IsNum(ch) || ch == ' ')
    ensures IsLengthText(s + [ch]) && LengthRead(Step(y, ch), c, log, s + [ch])
  {
    hide Step, Pass, Push, Dec;
    DecSnoc(s, ch);
    if Dec(s) <= MAX_LENGTH {
      LengthByte(y, c, Push(log, Data(Value, s)), Dec(s), ch);
      PushJoin(log, Value, s, [ch]);
    } else {
      StepHalted(y, ch);
    }
  }

  lemma LengthByte(y: Stream, c: Core, log: seq<Event>, n: nat, ch: char)
    requires n <= MAX_LENGTH && At(y, c.(state := InValue, index := 0, contentLength := n), log)
    requires c.header == ContentLength && (IsNum(ch) || ch == ' ')
    ensures var m := if ch == ' ' then n else n * 10 + Digit(ch);
            if m <= MAX_LENGTH
            then At(Step(y, ch), c.(state := InValue, index := 0, contentLength := m), Push(log, Data(Value, [ch])))
            else Step(y, ch).core.errno == HugeContentLength
  {
    hide Step, Pass, Push, MatchName;
    OnValue(y.core, ch);
    StepOnce(y, ch);
    var o := Pass(y.core, ch);
    if o.control == Advance { Take(y, ch, y.core, log); }
  }

  /** The decimal value on the line is stored, or rejected exactly when it exceeds INT64_MAX - 8. */
  lemma {:induction false} LengthRun(x: Stream, c: Core, log: seq<Event>, s: string, n: nat)
    requires At(x, c, log) && c.state == InHeaders(ValueStart) && c.header == ContentLength
    requires IsLengthText(s) && 1 <= n <= |s|
    ensures LengthRead(Run(x, s[..n]), c, log, s[..n])
    decreases n
  {
    hide Step, LengthRead;
    if n == 1 {
      LengthFirst(x, c, log, s[0]);
      RunOne(x, s[0]);
      assert s[..1] == [s[0]];
    } else {
      LengthRun(x, c, log, s, n - 1);
      RunSnoc(x, s, n - 1);
      LengthNext(Run(x, s[..n - 1]), c, log, s[..n - 1], s[n - 1]);
      assert s[..n] == s[..n - 1] + [s[n - 1]];
    }
  }

  /** An accepted Content-Length value and the end of its line. */
  lemma LengthLine(x: Stream, c: Core, log: seq<Event>, s: string)
    requires At(x, c, log) && c.state == InHeaders(ValueStart) && c.header == ContentLength
    requires IsLengthText(s) && Dec(s) <= MAX_LENGTH
    ensures Near(Run(x, s + "\r\n"), c.(state := InHeaders(ValueLws), contentLength := Dec(s)),
        Push(log, Data(Value, s)))
  {
    hide Step, Push, Dec, Run;
    LengthRun(x, c, log, s, |s|);
    assert s[..|s|] == s;
    RunAppend(x, s, "\r\n");
    var y := Run(x, s);
    ValueEnd(y, y.core, y.log);
    PushJoin(log, Value, s, []);
    assert s + [] == s;
  }

  // ----- Transfer-Encoding: chunked -----

  const CHUNKED := "chunked"

  /** "chunked" in any case, and spaces behind it. */
  predicate IsChunked(s: string) {
    |s| >= 7 && SameName(s[..7], CHUNKED) && forall i :: 7 <= i < |s| ==> s[i] == ' '
  }

  /** What the recogniser knows after the byte with index `n` of a value, if it knew `h` before it. */
  function NextCoding(h: HeaderState, n: nat, ch: char): HeaderState {
    match h
    case MatchingChunked =>
      if n >= 7 || Lower(ch) != CHUNKED[n] then General else if n == 6 then ChunkedCoding else MatchingChunked
    case ChunkedCoding => if ch == ' ' then ChunkedCoding else General
    case h => Quote(h, ch)
  }

  /** What the recogniser knows after reading `s` of a value. */
  function CodingState(s: string): HeaderState
    requires s != []
  {
    var n, ch := |s| - 1, s[|s| - 1];
    if n == 0 then if Lower(ch) == 'c' then MatchingChunked else General
    else NextCoding(CodingState(s[..n]), n, ch)
  }

  predicate IsCodingState(h: HeaderState) { IsQuote(h) || h.MatchingChunked? || h.ChunkedCoding? }

  /** The recogniser has found the chunked coding exactly when it is there. */
  lemma {:induction false} CodingExact(s: string)
    requires s != []
    ensures CodingState(s) == ChunkedCoding <==> IsChunked(s)
    ensures CodingState(s) == MatchingChunked <==> |s| < 7 && Matches(s, CHUNKED)
    ensures IsCodingState(CodingState(s))
    decreases |s|
  {
    hide Quote, Matches, Lower, NextCoding, IsCodingState, IsChunked;
    var n := |s| - 1;
    if n == 0 {
      OneCoded(s);
    } else {
      var t := s[..n];
      CodingExact(t);
      assert s == t + [s[n]];
      LongerCoded(t, s[n], CodingState(t));
    }
  }

  lemma OneCoded(s: string)
    requires |s| == 1
    ensures CodingState(s) == (if Matches(s, CHUNKED) then MatchingChunked else General)
    ensures IsCodingState(CodingState(s)) && !IsChunked(s)
  {
    hide Matches;
    OneMatches(s);
  }

  lemma LongerCoded(t: string, ch: char, h: HeaderState)
    requires t != [] && IsCodingState(h)
    requires h == ChunkedCoding <==> IsChunked(t)
    requires h == MatchingChunked <==> |t| < 7 && Matches(t, CHUNKED)
    ensures var g, s := NextCoding(h, |t|, ch), t + [ch];
            && (g == ChunkedCoding <==> IsChunked(s)) && IsCodingState(g)
            && (g == MatchingChunked <==> |s| < 7 && Matches(s, CHUNKED))
  {
    hide Quote, Matches, Lower;
    MatchesNext(t, ch, CHUNKED);
    QuoteStays(h, ch);
    if |t| >= 7 {
      ChunkedLonger(t, ch);
    } else if |t| == 6 {
      assert (t + [ch])[..7] == t + [ch];
    }
  }

  lemma OneMatches(s: string)
    requires |s| == 1
    ensures Matches(s, CHUNKED) <==> Lower(s[0]) == 'c'
  {
    assert CHUNKED[0] == 'c';
  }

  lemma ChunkedLonger(t: string, ch: char)
    requires |t| >= 7
    ensures IsChunked(t + [ch]) <==> IsChunked(t) && ch == ' '
  {
    hide Matches;
    var s := t + [ch];
    assert s[..7] == t[..7];
    if IsChunked(s) {
      assert s[|t|] == ch;
      forall i | 7 <= i < |t| ensures t[i] == ' ' { assert s[i] == t[i]; }
    }
  }

  lemma QuoteStays(h: HeaderState, ch: char)
    ensures IsQuote(Quote(h, ch))
  {
  }

  /** A Transfer-Encoding value; like an ordinary value it must not end inside a quoted pair. */
  predicate IsCoding(v: string) {
    v != [] && IsText(v) && v[0] != ' ' && v[0] != '\t' && CodingState(v) != QuotedEscape
  }

  predicate CodingRead(y: Stream, c: Core, log: seq<Event>, s: string) {
    && s != []
    && At(y, c.(state := InValue, index := y.core.index, header := CodingState(s)), Push(log, Data(Value, s)))
    && (CodingState(s) == MatchingChunked ==> y.core.index == |s| - 1)
  }

  lemma CodingFirst(x: Stream, c: Core, log: seq<Event>, ch: char)
    requires At(x, c, log) && c.state == InHeaders(ValueStart) && c.header == TransferEncoding
    requires ch != CR && ch != LF && ch != ' ' && ch != '\t'
    ensures CodingRead(Step(x, ch), c, log, [ch])
  {
    hide Step, Pass, Push, PassFieldStart, PassHeadersDone;
    OnHeaders(c, ch);
    Take(x, ch, c, log);
  }

  lemma CodingNext(y: Stream, c: Core, log: seq<Event>, s: string, ch: char)
    requires CodingRead(y, c, log, s) && ch != CR && ch != LF && IsHeaderChar(ch)
    ensures CodingRead(Step(y, ch), c, log, s + [ch])
  {
    hide Step, Pass, Push, PassValueByte, CodingState, IsHeaderChar;
    CodingPass(y.core, s, ch);
    OnValue(y.core, ch);
    Take(y, ch, y.core, y.log);
    PushJoin(log, Value, s, [ch]);
  }

  lemma CodingPass(d: Core, s: string, ch: char)
    requires s != [] && d.header == CodingState(s) && (d.header == MatchingChunked ==> d.index == |s| - 1)
    ensures var o := PassValueByte(d, ch);
            && o == Do(d.(header := CodingState(s + [ch]), index := o.core.index), Keep(Value))
            && (o.core.header == MatchingChunked ==> o.core.index == |s|)
  {
    hide CodingState, IsChunked, Matches, PassLength;
    CodingSnoc(s, ch);
    CodingExact(s);
  }

  lemma CodingSnoc(s: string, ch: char)
    requires s != []
    ensures CodingState(s + [ch]) == match CodingState(s)
            case MatchingChunked =>
              if |s| >= 7 || Lower(ch) != CHUNKED[|s|] then General
              else if |s| == 6 then ChunkedCoding else MatchingChunked
            case ChunkedCoding => if ch == ' ' then ChunkedCoding else General
            case h => Quote(h, ch)
  {
    assert (s + [ch])[..|s|] == s;
  }

  lemma {:induction false} CodingRun(x: Stream, c: Core, log: seq<Event>, s: string, n: nat)
    requires At(x, c, log) && c.state == InHeaders(ValueStart) && c.header == TransferEncoding
    requires IsText(s) && 1 <= n <= |s| && s[0] != ' ' && s[0] != '\t'
    ensures CodingRead(Run(x, s[..n]), c, log, s[..n])
    decreases n
  {
    hide Step, CodingRead;
    if n == 1 {
      CodingFirst(x, c, log, s[0]);
      RunOne(x, s[0]);
      assert s[..1] == [s[0]];
    } else {
      CodingRun(x, c, log, s, n - 1);
      RunSnoc(x, s, n - 1);
      CodingNext(Run(x, s[..n - 1]), c, log, s[..n - 1], s[n - 1]);
      assert s[..n] == s[..n - 1] + [s[n - 1]];
    }
  }

  /** A Transfer-Encoding line turns chunking on exactly if its value is the chunked coding. */
  lemma CodingLine(x: Stream, c: Core, log: seq<Event>, s: string)
    requires At(x, c, log) && c.state == InHeaders(ValueStart) && c.header == TransferEncoding && IsCoding(s)
    ensures Near(Run(x, s + "\r\n"),
                 c.(state := InHeaders(ValueLws), flags := c.flags.(chunked := c.flags.chunked || IsChunked(s))),
                 Push(log, Data(Value, s)))
  {
    hide Step, Push, Run, IsChunked, CodingState;
    CodingRun(x, c, log, s, |s|);
    assert s[..|s|] == s;
    CodingExact(s);
    RunAppend(x, s, "\r\n");
    var y := Run(x, s);
    ValueEnd(y, y.core, y.log);
    PushJoin(log, Value, s, []);
    assert s + [] == s;
  }

  // ----- Upgrade -----

  /** The value of an Upgrade header; its first byte is not looked at for quotations. */
  predicate IsProtocol(v: string) {
    && v != [] && IsText(v) && v[0] != ' ' && v[0] != '\t'
    && QuoteWalk(General, v[1..]) != QuotedEscape
  }

  lemma UpgradeFirst(x: Stream, c: Core, log: seq<Event>, ch: char)
    requires At(x, c, log) && c.state == InHeaders(ValueStart) && c.header == UpgradeHeader
    requires ch != CR && ch != LF && ch != ' ' && ch != '\t'
    ensures At(Step(x, ch), c.(state := InValue, index := 0, header := General, flags := c.flags.(upgrade := true)),
               Push(log, Data(Value, [ch])))
  {
    hide Step, Pass, Push, PassFieldStart, PassHeadersDone;
    OnHeaders(c, ch);
    Take(x, ch, c, log);
  }

  lemma UpgradeLine(x: Stream, c: Core, log: seq<Event>, v: string)
    requires At(x, c, log) && c.state == InHeaders(ValueStart) && c.header == UpgradeHeader && IsProtocol(v)
    ensures Near(Run(x, v + "\r\n"), c.(state := InHeaders(ValueLws), flags := c.flags.(upgrade := true)),
                 Push(log, Data(Value, v)))
  {
    hide Step, Push, Quote, Run, IsHeaderChar;
    UpgradeFirst(x, c, log, v[0]);
    var y := Step(x, v[0]);
    TextRun(y, y.core, y.log, v[1..]);
    PushCons(log, Value, v);
    RunCons(x, v + "\r\n");
    assert (v + "\r\n")[1..] == v[1..] + "\r\n";
    RunAppend(y, v[1..], "\r\n");
    var z := Run(y, v[1..]);
    ValueEnd(z, z.core, z.log);
    assert z.core.header != ChunkedCoding;
    PushJoin(log, Value, v, []);
    assert v + [] == v;
  }
}
