/** The ends of connections under any cut into buffers: another protocol takes over, or the peer closes. */
module HttpConnections {
  import opened HttpMachine
  import opened HttpStream
  import opened HttpCuts
  import opened HttpRequestLine
  import opened HttpHeaderLines
  import opened HttpBodies
  import opened HttpMessages
  import opened HttpEndings
  import opened HttpParser
  import opened HttpPipelines

  // ----- Up to a cut, and behind it -----

  lemma QuietPrefix(r: Stream, s: string, n: nat, before: seq<string>)
    requires Settled(r) && Quiet(r, s) && n < |s| && CutsInto(s[..n], before)
    ensures Begin(Feed(r, before)) == Begin(Run(r, s[..n]))
  {
    hide Run, Call;
    if n == 0 {
      assert s[..n] == [];
      NoPieces(before);
      RunNone(r);
    } else {
      QuietPart(r, s, n);
      QuietCuts(r, s[..n], before);
      QuietEnd(r, s, n);
    }
  }

  lemma NoPieces(pieces: seq<string>)
    requires CutsInto([], pieces)
    ensures pieces == []
  {
  }

  lemma QuietPart(r: Stream, s: string, n: nat)
    requires Quiet(r, s) && n <= |s|
    ensures Quiet(r, s[..n])
  {
    hide Run, QuietAt;
    forall i | 0 <= i < n ensures QuietAt(Run(r, s[..n][..i]), s[..n][i]) {
      assert s[..n][..i] == s[..i];
      assert QuietAt(Run(r, s[..i]), s[i]);
    }
  }

  lemma QuietEnd(r: Stream, s: string, n: nat)
    requires Settled(r) && Quiet(r, s) && 0 < n < |s|
    ensures Call(r, s[..n]) == Run(r, s[..n])
  {
    hide Run;
    assert QuietAt(Run(r, s[..n]), s[n]);
  }

  /** A text that is taken to its end: behind a cut it is taken as without the cut. */
  lemma BehindCut(r: Stream, s: string, n: nat, i: nat)
    requires Settled(r) && Quiet(r, s) && n <= i <= |s| && n < |s| && Run(r, s).pos == |s|
    ensures SameButPos(Run(Begin(Run(r, s[..n])), s[n..i]), Run(r, s[..i])) && !Halted(Run(r, s[..n]))
  {
    hide Run, Overflows;
    var x := Run(r, s[..n]);
    assert NoBareCr(r, s) by { forall j | 0 <= j < |s| ensures QuietAt(Run(r, s[..j]), s[j]) {} }
    StaysAudible(r, s, n);
    TakenAll(r, s, n);
    RunSameButPos(Begin(x), x, s[n..i]);
    RunAppend(r, s[..n], s[n..i]);
    assert s[..n] + s[n..i] == s[..i];
  }

  /** The call in which the parser stops takes the bytes up to the end of the message, whatever is behind them. */
  lemma LastCall(r: Stream, s: string, n: nat, rest: string)
    requires Settled(r) && Quiet(r, s) && n < |s| && Run(r, s).pos == |s| && Run(r, s).stopped
    requires Run(r, s).core.errno == OK
    ensures Call(Begin(Run(r, s[..n])), s[n..] + rest) == Run(r, s).(pos := |s| - n, muted := false)
  {
    hide Run, Quiet, Overflows, Step, StartOf;
    var x, m := Begin(Run(r, s[..n])), |s| - 1;
    BehindCut(r, s, n, |s|);
    BehindCut(r, s, n, m);
    assert s[n..|s|] == s[n..] && s[..|s|] == s;
    var z := Run(x, s[n..]);
    TakenAll(r, s, m);
    PosRun(x, s[n..m]);
    RunSnoc(x, s[n..], m - n);
    assert s[n..][..m - n] == s[n..m] && s[n..][..m - n + 1] == s[n..];
    PosStep(Run(x, s[n..m]), s[m]);
    RunAppend(x, s[n..], rest);
    RunHalted(z, rest);
    StoppedIsAudible(x, s[n..]);
  }

  lemma {:induction false} StoppedIsAudible(x: Stream, s: string)
    requires !x.stopped
    ensures Run(x, s).stopped ==> !Run(x, s).muted
    decreases |s|
  {
    hide Step;
    if s != [] {
      StopStep(x, s[0]);
      if Step(x, s[0]).stopped { RunHalted(Step(x, s[0]), s[1..]); } else { StoppedIsAudible(Step(x, s[0]), s[1..]); }
    }
  }

  lemma {:induction false} StopStep(x: Stream, ch: char)
    requires !x.stopped
    ensures Step(x, ch).stopped ==> !Step(x, ch).muted
    decreases Rank(x.core.state)
  {
    hide Pass, Step, Emit;
    if Halted(x) {
      StepHalted(x, ch);
    } else {
      StepOnce(x, ch);
      PassKeeps(x.core, ch);
      var o := Pass(x.core, ch);
      if o.control == Again { StopStep(Apply(x, o, ch), ch); }
    }
  }

  // ----- Another protocol takes over -----

  /** A pipeline, and a message after which another protocol takes over. */
  function LastText(ms: seq<Message>, m: Message): string { PipelineText(ms) + Text(m) }

  predicate LastOk(ms: seq<Message>, m: Message, k: Kind, skip: bool) {
    PipelineOk(ms, k, skip) && AllShort(ms) && MessageOk(m, k, skip) && Short(m) && HandsOver(m)
  }

  lemma LastQuiet(r: Stream, k: Kind, skip: bool, ms: seq<Message>, m: Message)
    requires Starts(r, k, skip, r.log) && r.since <= 1 && LastOk(ms, m, k, skip)
    ensures Quiet(r, LastText(ms, m))
  {
    hide Run, Quiet, PipelineText, Text, MessageOk, Short, AllShort, PipelineOk, Push, PipelineEvents, HandsOver;
    PipelineQuiet(r, k, skip, r.log, ms);
    PipelineRun(r, k, skip, r.log, ms);
    var y := Run(r, PipelineText(ms));
    MessageQuiet(y, k, skip, y.log, m);
    QuietAppend(r, PipelineText(ms), Text(m));
  }

  lemma LastRun(r: Stream, k: Kind, skip: bool, ms: seq<Message>, m: Message)
    requires Starts(r, k, skip, r.log) && LastOk(ms, m, k, skip)
    ensures var y := Run(r, LastText(ms, m));
            && y.stopped && y.core.errno == OK && y.core.upgrade && y.core.state == StartOf(k)
            && y.pos == r.pos + |LastText(ms, m)| && y.log == PushAll(r.log, PipelineEvents(ms) + Events(m))
    ensures |LastText(ms, m)| > 0
  {
    hide Run, PipelineText, MessageOk, Short, AllShort, PipelineOk, Push, PipelineEvents, HandsOver, Events, HeadText;
    hide BodyText;
    HandOver(r, k, skip, r.log, ms, m, []);
    assert PipelineText(ms) + (Text(m) + []) == LastText(ms, m);
    HeadNotEmpty(m);
  }

  lemma HeadNotEmpty(m: Message)
    ensures |HeadText(m)| > 0
  {
    hide LineText, HeadersText;
  }

  /** The number of bytes in the first pieces. */
  function Bytes(pieces: seq<string>, i: nat): nat
    requires i <= |pieces|
  {
    |Concat(pieces[..i])|
  }

  lemma {:induction false} ConcatAppend(a: seq<string>, b: seq<string>)
    ensures Concat(a + b) == Concat(a) + Concat(b)
    decreases |a|
  {
    if a == [] {
      assert a + b == b;
    } else {
      assert (a + b)[1..] == a[1..] + b;
      ConcatAppend(a[1..], b);
    }
  }

  lemma ConcatNext(pieces: seq<string>, i: nat)
    requires i < |pieces|
    ensures Concat(pieces[..i + 1]) == Concat(pieces[..i]) + pieces[i]
  {
    assert pieces[..i + 1] == pieces[..i] + [pieces[i]];
    ConcatAppend(pieces[..i], [pieces[i]]);
    assert Concat([pieces[i]]) == pieces[i] + Concat([pieces[i]][1..]);
  }

  lemma ConcatPrefix(pieces: seq<string>, i: nat)
    requires i <= |pieces|
    ensures Concat(pieces) == Concat(pieces[..i]) + Concat(pieces[i..])
  {
    hide Concat;
    ConcatAppend(pieces[..i], pieces[i..]);
    assert pieces[..i] + pieces[i..] == pieces;
  }

  /** The piece that has byte `n`. */
  lemma {:induction false} PieceOf(pieces: seq<string>, n: nat, i: nat) returns (j: nat)
    requires i <= |pieces| && Bytes(pieces, i) < n <= |Concat(pieces)|
    ensures i <= j < |pieces| && Bytes(pieces, j) < n <= Bytes(pieces, j + 1)
    decreases |pieces| - i
  {
    hide Concat;
    assert pieces[..|pieces|] == pieces;
    if n <= Bytes(pieces, i + 1) { j := i; } else { j := PieceOf(pieces, n, i + 1); }
  }

  lemma {:induction false} FeedSnoc(r: Stream, pieces: seq<string>, i: nat)
    requires i < |pieces|
    ensures Feed(r, pieces[..i + 1]) == Call(Feed(r, pieces[..i]), pieces[i])
    decreases i
  {
    hide Call;
    if i == 0 {
      assert pieces[..1][1..] == [];
    } else {
      assert pieces[..i + 1][1..] == pieces[1..][..i] && pieces[..i][1..] == pieces[1..][..i - 1];
      FeedSnoc(Call(r, pieces[0]), pieces[1..], i - 1);
    }
  }

  lemma CallFromBegin(r: Stream, data: string)
    ensures Call(r, data) == Call(Begin(r), data)
  {
    hide Run;
  }

  /** Before the piece with the last byte the parser is where the uncut run is. */
  lemma BeforeStop(r: Stream, k: Kind, skip: bool, ms: seq<Message>, m: Message, rest: string, pieces: seq<string>,
                   i: nat)
    requires Settled(r) && Starts(r, k, skip, r.log) && r.since <= 1 && LastOk(ms, m, k, skip)
    requires CutsInto(LastText(ms, m) + rest, pieces) && i <= |pieces| && Bytes(pieces, i) < |LastText(ms, m)|
    ensures Begin(Feed(r, pieces[..i])) == Begin(Run(r, LastText(ms, m)[..Bytes(pieces, i)]))
    ensures !Halted(Run(r, LastText(ms, m)[..Bytes(pieces, i)]))
  {
    hide Run, Quiet, LastText, LastOk, Feed, Push, Concat, Starts;
    var s, n := LastText(ms, m), Bytes(pieces, i);
    LastQuiet(r, k, skip, ms, m);
    LastRun(r, k, skip, ms, m);
    ConcatPrefix(pieces, i);
    assert s[..n] == (s + rest)[..n] == Concat(pieces[..i]);
    QuietPrefix(r, s, n, pieces[..i]);
    TakenAll(r, s, n);
  }

  /** Whatever the pieces: the parser stops in the one with the last byte of the message, right behind that byte. */
  lemma StopsInPiece(r: Stream, k: Kind, skip: bool, ms: seq<Message>, m: Message, rest: string, pieces: seq<string>)
    returns (i: nat)
    requires Settled(r) && Starts(r, k, skip, r.log) && r.since <= 1 && LastOk(ms, m, k, skip)
    requires CutsInto(LastText(ms, m) + rest, pieces)
    ensures i < |pieces| && Bytes(pieces, i) < |LastText(ms, m)| <= Bytes(pieces, i + 1)
    ensures var y := Feed(r, pieces[..i + 1]);
            && y.stopped && y.core.errno == OK && y.core.upgrade && y.core.state == StartOf(k)
            && y.pos == |LastText(ms, m)| - Bytes(pieces, i) && y.log == PushAll(r.log, PipelineEvents(ms) + Events(m))
  {
    hide Run, Quiet, LastText, LastOk, Feed, Push, PushAll, PipelineEvents, Events, Concat, Starts, Call;
    var s := LastText(ms, m);
    LastRun(r, k, skip, ms, m);
    NothingYet(pieces);
    i := PieceOf(pieces, |s|, 0);
    BeforeStop(r, k, skip, ms, m, rest, pieces, i);
    var n := Bytes(pieces, i);
    var more := PieceEnds(s, rest, pieces, i);
    LastQuiet(r, k, skip, ms, m);
    LastCall(r, s, n, more);
    FeedSnoc(r, pieces, i);
    CallFromBegin(Feed(r, pieces[..i]), pieces[i]);
    CallFromBegin(Run(r, s[..n]), pieces[i]);
  }

  lemma NothingYet(pieces: seq<string>)
    ensures Bytes(pieces, 0) == 0
  {
  }

  /** The piece starts with the rest of the text. */
  lemma PieceEnds(s: string, rest: string, pieces: seq<string>, i: nat) returns (more: string)
    requires Concat(pieces) == s + rest && i < |pieces| && Bytes(pieces, i) < |s| <= Bytes(pieces, i + 1)
    ensures pieces[i] == s[Bytes(pieces, i)..] + more
  {
    hide Concat;
    var n := Bytes(pieces, i);
    ConcatNext(pieces, i);
    ConcatPrefix(pieces, i);
    ConcatPrefix(pieces, i + 1);
    more := pieces[i][|s| - n..];
    assert pieces[i] == Concat(pieces)[n..n + |pieces[i]|];
    assert pieces[i] == pieces[i][..|s| - n] + more;
    assert pieces[i][..|s| - n] == (s + rest)[n..|s|] == s[n..];
  }

  // ----- The parser tells that it has stopped -----

  /** At the start of a message no other protocol has been announced. */
  predicate Calm(c: Core) { c.upgrade ==> !c.state.AtStart? }

  lemma PassCalm(c: Core, ch: char)
    ensures var o := Pass(c, ch); Calm(c) && (o.control == Advance || o.control == Again) ==> Calm(o.core)
  {
    hide PassMethod, PassBeforeUrl, PassUrl, PassVersion, PassStatusLine, PassReason, PassHeaders, PassField, PassValue;
    hide PassChunkHeader, PassBody, PassStart;
    match c.state
    case AtStart(s) => StartCalm(c, s, ch);
    case InMethod | BeforeUrl | InUrl(_) | InVersion(_) => RequestLineCalm(c, ch);
    case InStatusLine(_) | InReason => StatusLineCalm(c, ch);
    case InHeaders(s) => HeadersCalm(c, s, ch);
    case InField | InValue => HeaderCalm(c, ch);
    case InChunkHeader(_) | InBody(_) => BodyCalm(c, ch);
    case ChunkDataDone =>
    case MessageDone =>
  }

  lemma StartCalm(c: Core, s: StartState, ch: char)
    ensures PassStart(c, s, ch).core.upgrade == c.upgrade
  {
    hide FirstMethod;
  }

  lemma RequestLineCalm(c: Core, ch: char)
    ensures c.state.InMethod? ==> !PassMethod(c, ch).core.state.AtStart?
    ensures c.state.BeforeUrl? ==> !PassBeforeUrl(c, ch).core.state.AtStart?
    ensures c.state.InUrl? ==> !PassUrl(c, c.state.url, ch).core.state.AtStart?
    ensures c.state.InVersion? ==> !PassVersion(c, c.state.version, ch).core.state.AtStart?
  {
    hide MethodName, OtherMethod, MoveUrl;
  }

  lemma StatusLineCalm(c: Core, ch: char)
    ensures c.state.InStatusLine? ==> !PassStatusLine(c, c.state.line, ch).core.state.AtStart?
    ensures c.state.InReason? ==> !PassReason(c, ch).core.state.AtStart?
  {
  }

  lemma HeadersCalm(c: Core, s: HeaderPlace, ch: char)
    requires c.state == InHeaders(s)
    ensures var o := PassHeaders(c, s, ch); o.control == Advance || o.control == Again ==> Calm(o.core)
  {
    hide IsToken, IsHeaderChar;
  }

  lemma HeaderCalm(c: Core, ch: char)
    ensures c.state.InField? ==> !PassField(c, ch).core.state.AtStart?
    ensures c.state.InValue? ==> !PassValue(c, ch).core.state.AtStart?
  {
    hide IsToken, IsHeaderChar, Token, Lower;
  }

  lemma BodyCalm(c: Core, ch: char)
    ensures c.state.InChunkHeader? ==> !PassChunkHeader(c, c.state.size, ch).core.state.AtStart?
    ensures c.state.InBody? ==> !PassBody(c, c.state.body, ch).core.state.AtStart?
  {
  }

  lemma {:induction false} StepCalm(x: Stream, ch: char)
    requires Calm(x.core)
    ensures !Halted(Step(x, ch)) ==> Calm(Step(x, ch).core)
    decreases Rank(x.core.state)
  {
    hide Pass, Step, Emit, Calm;
    if Halted(x) {
      StepHalted(x, ch);
    } else {
      StepOnce(x, ch);
      PassKeeps(x.core, ch);
      PassCalm(x.core, ch);
      var o := Pass(x.core, ch);
      if o.control == Again { StepCalm(Apply(x, o, ch), ch); }
    }
  }

  lemma {:induction false} RunCalm(x: Stream, s: string)
    requires Calm(x.core)
    ensures !Halted(Run(x, s)) ==> Calm(Run(x, s).core)
    decreases |s|
  {
    hide Step, Calm;
    if s != [] {
      StepCalm(x, s[0]);
      if Halted(Step(x, s[0])) { RunHalted(Step(x, s[0]), s[1..]); } else { RunCalm(Step(x, s[0]), s[1..]); }
    }
  }

  /** The same through the parser: it is fed until it says that another protocol has been announced and that it is
      at the start of a message; it has then taken exactly the bytes before that protocol. */
  method ReceiveUntilStop(p: Parser, kind: Kind, k: Kind, pieces: seq<string>, ghost ms: seq<Message>,
                          ghost m: Message, ghost rest: string)
    returns (i: nat, n: nat)
    requires Suits(kind, k) && LastOk(ms, m, k, p.noBody) && CutsInto(LastText(ms, m) + rest, pieces)
    modifies p
    ensures i < |pieces| && 0 < n <= |pieces[i]| && Bytes(pieces, i) + n == |LastText(ms, m)|
    ensures p.errno == OK && p.upgrade && p.state == StartOf(k)
    ensures Merged(p.events) == Merged(PipelineEvents(ms) + Events(m))
  {
    hide Run, Feed, Sound, CutsInto, LastText, LastOk, PipelineEvents, Events, Push, Concat, Call;
    p.Init(kind);
    ghost var v, skip := p.View(), p.noBody;
    ghost var last := StopsInPiece(v, k, skip, ms, m, rest, pieces);
    i := 0;
    FedNothing(v, pieces);
    while true
      invariant i <= last < |pieces| && p.Valid() && p.errno == OK && p.View() == Begin(Feed(v, pieces[..i]))
      decreases last - i
    {
      FeedSnoc(v, pieces, i);
      CallFromBegin(Feed(v, pieces[..i]), pieces[i]);
      n := p.Execute(pieces[i]);
      if i < last {
        Goes(v, k, skip, ms, m, rest, pieces, i + 1, last);
      } else {
        ConcatNext(pieces, i);
      }
      if p.upgrade && p.state.AtStart? { return; }
      i := i + 1;
    }
  }

  lemma FedNothing(v: Stream, pieces: seq<string>)
    ensures Feed(v, pieces[..0]) == v
  {
    hide Call;
    assert pieces[..0] == [];
  }

  /** Before its last piece the parser goes on. */
  lemma Goes(v: Stream, k: Kind, skip: bool, ms: seq<Message>, m: Message, rest: string, pieces: seq<string>, i: nat,
             last: nat)
    requires Settled(v) && Starts(v, k, skip, v.log) && v.since <= 1 && LastOk(ms, m, k, skip) && Calm(v.core)
    requires CutsInto(LastText(ms, m) + rest, pieces) && i <= last < |pieces|
    requires Bytes(pieces, last) < |LastText(ms, m)|
    ensures Calm(Feed(v, pieces[..i]).core) && Feed(v, pieces[..i]).core.errno == OK
  {
    hide Run, Feed, CutsInto, LastText, LastOk, Concat, Calm, Starts;
    BytesRise(pieces, i, last);
    BeforeStop(v, k, skip, ms, m, rest, pieces, i);
    RunCalm(v, LastText(ms, m)[..Bytes(pieces, i)]);
  }

  lemma BytesRise(pieces: seq<string>, i: nat, j: nat)
    requires i <= j <= |pieces|
    ensures Bytes(pieces, i) <= Bytes(pieces, j)
  {
    hide Concat;
    ConcatPrefix(pieces[..j], i);
    assert pieces[..j][..i] == pieces[..i];
  }

  // ----- The peer closes -----

  lemma EofQuiet(x: Stream, c: Core, log: seq<Event>, s: string)
    requires At(x, c, log) && c.state == InBody(IdentityEof)
    ensures Quiet(x, s)
  {
    hide Run, Push;
    forall i | 0 <= i < |s| ensures QuietAt(Run(x, s[..i]), s[i]) { EofBytes(x, c, log, s[..i]); }
  }

  function ClosedText(ms: seq<Message>, m: Message, body: string): string { PipelineText(ms) + (HeadText(m) + body) }

  function ClosedEvents(ms: seq<Message>, m: Message, body: string): seq<Event> {
    PipelineEvents(ms) + (HeadEvents(m) + ((if body == [] then [] else [Data(Body, body)]) + [MessageComplete]))
  }

  /** Responses, and one whose body goes up to the end of the connection. */
  predicate ClosedOk(ms: seq<Message>, m: Message) {
    && PipelineOk(ms, Response, false) && AllShort(ms)
    && HeadOk(m, Response) && KindOf(m, Response, false) == UntilClose && |HeadText(m)| <= HTTP_MAX_HEADER_SIZE
  }

  lemma ClosedQuiet(r: Stream, ms: seq<Message>, m: Message, body: string)
    requires Starts(r, Response, false, r.log) && r.since <= 1 && ClosedOk(ms, m)
    ensures Quiet(r, ClosedText(ms, m, body))
  {
    hide Run, Quiet, PipelineText, HeadText, HeadOk, AllShort, PipelineOk, Push, PipelineEvents, KindOf, StartLineOf;
    hide HandsOver, LineEvents, HeadersEvents, Clean;
    PipelineQuiet(r, Response, false, r.log, ms);
    PipelineRun(r, Response, false, r.log, ms);
    var x := Run(r, PipelineText(ms));
    var c := HeadRun(x, Response, false, x.log, m);
    HeadClean(m, Response);
    QuietShort(x, HeadText(m));
    var y := Run(x, HeadText(m));
    EofQuiet(y, y.core, y.log, body);
    QuietAppend(x, HeadText(m), body);
    QuietAppend(r, PipelineText(ms), HeadText(m) + body);
  }

  lemma ClosedRun(r: Stream, ms: seq<Message>, m: Message, body: string)
    requires Starts(r, Response, false, r.log) && ClosedOk(ms, m)
    ensures var y := Run(r, ClosedText(ms, m, body));
            && y.core.state == InBody(IdentityEof) && y.core.errno == OK
            && Push(y.log, MessageComplete) == PushAll(r.log, ClosedEvents(ms, m, body))
    ensures ClosedText(ms, m, body) != []
  {
    hide Run, PipelineText, HeadText, HeadOk, AllShort, PipelineOk, Push, PipelineEvents, KindOf, HeadEvents;
    PipelineRun(r, Response, false, r.log, ms);
    var x := Run(r, PipelineText(ms));
    UntilEof(x, x.log, m, body);
    RunAppend(r, PipelineText(ms), HeadText(m) + body);
    HeadNotEmpty(m);
    var all, end := PushAll(x.log, HeadEvents(m)), (if body == [] then [] else [Data(Body, body)]) + [MessageComplete];
    PushAllAppend(r.log, PipelineEvents(ms), HeadEvents(m) + end);
    PushAllAppend(x.log, HeadEvents(m), end);
    if body == [] {
      assert end == [MessageComplete];
      PushOne(all, MessageComplete);
    } else {
      assert end == [Data(Body, body), MessageComplete];
      PushTwo(all, Data(Body, body), MessageComplete);
    }
  }

  /** Whatever the pieces: all bytes behind the head are the body, and the end of the connection ends the message. */
  lemma UntilCloseAnyCut(r: Stream, ms: seq<Message>, m: Message, body: string, pieces: seq<string>)
    requires Settled(r) && Starts(r, Response, false, r.log) && r.since <= 1 && ClosedOk(ms, m)
    requires CutsInto(ClosedText(ms, m, body), pieces)
    ensures Feed(r, pieces).core.errno == OK
    ensures var y := Call(Feed(r, pieces), []);
            && y.core.errno == OK && y.core.state == InBody(IdentityEof)
            && y.log == PushAll(r.log, ClosedEvents(ms, m, body))
  {
    hide Run, Quiet, Feed, CutsInto, ClosedText, ClosedEvents, ClosedOk, Push, PushAll;
    ClosedQuiet(r, ms, m, body);
    ClosedRun(r, ms, m, body);
    QuietCuts(r, ClosedText(ms, m, body), pieces);
  }

  method ReceiveUntilClose(p: Parser, kind: Kind, pieces: seq<string>, ghost ms: seq<Message>, ghost m: Message,
                           ghost body: string)
    requires Suits(kind, Response) && !p.noBody && ClosedOk(ms, m) && CutsInto(ClosedText(ms, m, body), pieces)
    modifies p
    ensures p.errno == OK && Merged(p.events) == Merged(ClosedEvents(ms, m, body))
  {
    hide Run, Feed, Sound, CutsInto, ClosedText, ClosedEvents, ClosedOk, Push;
    p.Init(kind);
    ghost var v := p.View();
    UntilCloseAnyCut(v, ms, m, body, pieces);
    p.ExecuteAll(pieces);
    CallFromBegin(Feed(v, pieces), []);
    var _ := p.Execute([]);
  }
}
