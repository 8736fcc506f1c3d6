/** The end of a message head and the three ways a body is framed. */
module HttpBodies {
  import opened HttpMachine
  import opened HttpStream
  import opened HttpRequestLine
  import opened HttpHeaderLines

  // ----- The end of the head -----

  /** The start of a line inside the header section. */
  predicate LineStart(s: State) { s == InHeaders(FieldStart) || s == InHeaders(ValueLws) }

  /** A byte that does not continue the previous header value starts a new line. */
  lemma LeaveLws(x: Stream, c: Core, log: seq<Event>, s: string) returns (y: Stream)
    requires At(x, c, log) && LineStart(c.state) && s != [] && s[0] != ' ' && s[0] != '\t'
    ensures At(y, c.(state := InHeaders(FieldStart)), log) && Run(x, s) == Run(y, s)
  {
    hide Step, Pass, PassFieldStart, PassValueStart, PassHeadersDone;
    if c.state == InHeaders(ValueLws) {
      OnHeaders(c, s[0]);
      Retake(x, s[0], c, log);
      y := Apply(x, Pass(c, s[0]), s[0]);
    } else {
      y := x;
    }
  }

  /** CR at the start of a line. */
  lemma HeadCr(x: Stream, c: Core, log: seq<Event>)
    requires At(x, c, log) && c.state == InHeaders(FieldStart)
    ensures At(Step(x, CR), c.(state := InHeaders(HeadersAlmostDone)), log)
  {
    hide Step, Pass, PassValueStart, PassHeadersDone;
    OnHeaders(c, CR);
    Take(x, CR, c, log);
  }

  /** How the body of a message is delimited. */
  datatype BodyKind = NoBody | ByChunks | ByLength | UntilClose

  /** Messages that have no body unless a header announces one. */
  predicate Bare(kind: Kind, status: nat) { kind == Request || 100 <= status <= 199 || status == 204 || status == 304 }

  /**
   * Section 3.3.3 of RFC 7230: CONNECT, and a message whose receiver says so, has no body; a chunked coding wins over
   * a length; without either the body of a response goes up to the end of the connection. A message that another
   * protocol follows has a body only if a header announces one.
   */
  function BodyKindOf(connect: bool, skip: bool, chunked: bool, length: int, upgrade: bool, bare: bool): BodyKind {
    if connect || skip then NoBody
    else if chunked then ByChunks
    else if length > 0 then ByLength
    else if length == 0 || upgrade || bare then NoBody
    else UntilClose
  }

  function UpgradeOf(c: Core): bool { c.flags.upgrade || c.verb == Connect }

  function SkipOf(c: Core): bool { c.flags.skipBody || c.noBody }

  function ChoiceOf(c: Core): BodyKind {
    BodyKindOf(c.verb == Connect, SkipOf(c), c.flags.chunked, c.contentLength, UpgradeOf(c), Bare(c.kind, c.status))
  }

  /** The head with the fields of `c` is over. */
  predicate HeadDone(y: Stream, c: Core, log: seq<Event>) {
    var d := c.(upgrade := UpgradeOf(c), flags := c.flags.(skipBody := SkipOf(c)));
    var log1 := Push(log, HeadersComplete(HeadOf(c), UpgradeOf(c)));
    match ChoiceOf(c)
    case NoBody => NearlyCompleted(y, d.(state := StartOf(c.kind)), Push(log1, MessageComplete))
    case ByChunks => Near(y, d.(state := InChunkHeader(ChunkSizeStart)), log1) && y.since == 1
    case ByLength => Near(y, d.(state := InBody(Identity)), log1)
    case UntilClose => Near(y, d.(state := InBody(IdentityEof)), log1)
  }

  /** Completed, whatever the header recogniser holds. */
  predicate NearlyCompleted(x: Stream, c: Core, log: seq<Event>) {
    Completed(x, c.(header := x.core.header, index := x.core.index), log)
  }

  /** The LF that ends the head. */
  lemma HeadLf(x: Stream, c: Core, log: seq<Event>)
    requires At(x, c, log) && c.state == InHeaders(HeadersAlmostDone) && !c.flags.trailing
    ensures HeadDone(Step(x, LF), c, log)
  {
    hide Step, Pass, PassValueStart, PassFieldStart, PassHeadersDone, Push;
    OnHeaders(c, LF);
    Retake(x, LF, c, log);
    var y := Apply(x, Pass(c, LF), LF);
    OnHeaders(y.core, LF);
    DoneIs(y.core);
    if ChoiceOf(c) == NoBody { TakeLast(y, LF, y.core, y.log); } else { Take(y, LF, y.core, y.log); }
  }

  /** The parser's choice is the standard's. */
  lemma DoneIs(d: Core)
    requires d.upgrade == UpgradeOf(d)
    ensures var o := PassHeadersDone(d);
            && o.reset
            && match BodyKindOf(d.verb == Connect, d.flags.skipBody, d.flags.chunked, d.contentLength, d.upgrade,
                                Bare(d.kind, d.status))
               case NoBody =>
                 && o.core == d.(state := StartOf(d.kind)) && o.act == Notice(MessageComplete)
                 && o.control == if d.upgrade then Stop else Advance
               case ByChunks => o == Outcome(d.(state := InChunkHeader(ChunkSizeStart)), Idle, Advance, true)
               case ByLength => o == Outcome(d.(state := InBody(Identity)), Idle, Advance, true)
               case UntilClose => o == Outcome(d.(state := InBody(IdentityEof)), Idle, Advance, true)
  {
  }

  /** The blank line after the head: the head is reported, and the body is delimited as the standard says. */
  lemma HeadEnd(x: Stream, c: Core, log: seq<Event>)
    requires Near(x, c, log) && LineStart(c.state) && !c.flags.trailing
    ensures HeadDone(Run(x, "\r\n"), c, log) && Run(x, "\r\n").pos == x.pos + 2
  {
    hide Step, Push;
    CrOnLine(x, x.core, log);
    var z := Step(x, CR);
    HeadLf(z, z.core, log);
    RunTwo(x, CR, LF);
    PosStep(x, CR);
    PosStep(z, LF);
  }

  lemma CrOnLine(x: Stream, c: Core, log: seq<Event>)
    requires At(x, c, log) && LineStart(c.state)
    ensures At(Step(x, CR), c.(state := InHeaders(HeadersAlmostDone)), log)
  {
    hide Step, Run;
    var y := LeaveLws(x, c, log, [CR]);
    RunOne(x, CR);
    RunOne(y, CR);
    HeadCr(y, y.core, log);
  }

  /** The blank line after the trailer of a chunked body ends the message. */
  lemma TrailerEnd(x: Stream, c: Core, log: seq<Event>)
    requires Near(x, c, log) && LineStart(c.state) && c.flags.trailing
    ensures NearlyCompleted(Run(x, "\r\n"), c.(state := StartOf(c.kind)),
        Push(Push(log, ChunkComplete), MessageComplete))
    ensures Run(x, "\r\n").pos == x.pos + 2
  {
    hide Step, Push;
    CrOnLine(x, x.core, log);
    var z := Step(x, CR);
    TrailerLf(z, z.core, log);
    RunTwo(x, CR, LF);
    PosStep(x, CR);
    PosStep(z, LF);
  }

  lemma TrailerLf(x: Stream, c: Core, log: seq<Event>)
    requires At(x, c, log) && c.state == InHeaders(HeadersAlmostDone) && c.flags.trailing
    ensures Completed(Step(x, LF), c.(state := StartOf(c.kind)), Push(Push(log, ChunkComplete), MessageComplete))
  {
    hide Step, Pass, PassValueStart, PassFieldStart, PassHeadersDone, Push;
    OnHeaders(c, LF);
    Retake(x, LF, c, log);
    var y := Apply(x, Pass(c, LF), LF);
    OnDone(y.core, LF);
    TakeLast(y, LF, y.core, y.log);
  }

  lemma OnDone(c: Core, ch: char)
    requires c.state == MessageDone || c.state == ChunkDataDone
    ensures Pass(c, ch) ==
            if c.state == ChunkDataDone
            then Outcome(c.(state := InChunkHeader(ChunkSizeStart)), Notice(ChunkComplete), Advance, true)
            else Outcome(c.(state := StartOf(c.kind)), Notice(MessageComplete), if c.upgrade then Stop else Advance,
              true)
  {
    hide PassStart, PassMethod, PassBeforeUrl, PassUrl, PassVersion, PassStatusLine, PassReason, PassHeaders,
         PassField, PassValue, PassChunkHeader, PassBody;
  }

  // ----- Bodies of known length -----

  lemma BodyByte(x: Stream, c: Core, log: seq<Event>, ch: char)
    requires At(x, c, log) && (c.state == InBody(Identity) || c.state == InBody(ChunkData)) && c.contentLength > 1
    ensures At(Step(x, ch), c.(contentLength := c.contentLength - 1), Push(log, Data(Body, [ch])))
  {
    hide Step, Pass, Push;
    OnBody(c, ch);
    Take(x, ch, c, log);
  }

  lemma {:induction false} BodyBytes(x: Stream, c: Core, log: seq<Event>, s: string)
    requires At(x, c, log) && (c.state == InBody(Identity) || c.state == InBody(ChunkData)) && |s| < c.contentLength
    ensures At(Run(x, s), c.(contentLength := c.contentLength - |s|), if s == [] then log else Push(log, Data(Body, s)))
    decreases |s|
  {
    hide Step, Push;
    if s != [] {
      BodyByte(x, c, log, s[0]);
      BodyBytes(Step(x, s[0]), c.(contentLength := c.contentLength - 1), Push(log, Data(Body, [s[0]])), s[1..]);
      PushCons(log, Body, s);
    }
  }

  lemma IdentityLast(x: Stream, c: Core, log: seq<Event>, ch: char)
    requires At(x, c, log) && c.state == InBody(Identity) && c.contentLength == 1
    ensures Completed(Step(x, ch), c.(contentLength := 0, state := StartOf(c.kind)),
                      Push(Push(log, Data(Body, [ch])), MessageComplete))
  {
    hide Step, Pass, Push;
    OnBody(c, ch);
    Retake(x, ch, c, log);
    var y := Apply(x, Pass(c, ch), ch);
    OnDone(y.core, ch);
    TakeLast(y, ch, y.core, y.log);
  }

  /** Exactly the next Content-Length bytes are the body, and its last byte completes the message. */
  lemma IdentityRun(x: Stream, c: Core, log: seq<Event>, body: string)
    requires At(x, c, log) && c.state == InBody(Identity) && body != [] && |body| == c.contentLength
    ensures Completed(Run(x, body), c.(contentLength := 0, state := StartOf(c.kind)),
                      Push(Push(log, Data(Body, body)), MessageComplete))
    ensures Run(x, body).pos == x.pos + |body|
  {
    hide Step, Push;
    var n := |body| - 1;
    BodyBytes(x, c, log, body[..n]);
    RunSnoc(x, body, n);
    assert body[..n + 1] == body;
    var y := Run(x, body[..n]);
    IdentityLast(y, y.core, y.log, body[n]);
    PosRun(x, body[..n]);
    PosStep(y, body[n]);
    PushJoin(log, Body, body[..n], [body[n]]);
    assert body == body[..n] + [body[n]];
    if n == 0 { assert body == [body[n]]; }
  }

  // ----- Chunked bodies -----

  predicate IsHexText(s: string) { s != [] && forall i :: 0 <= i < |s| ==> IsHex(s[i]) }

  function HexDigit(ch: char): nat
    requires IsHex(ch)
  {
    Unhex(ch)
  }

  function Hex(s: string): nat
    requires forall i :: 0 <= i < |s| ==> IsHex(s[i])
  {
    if s == [] then 0 else Hex(s[..|s| - 1]) * 16 + HexDigit(s[|s| - 1])
  }

  /** Having read `s`, the parser holds its value, or has rejected it for being too large. */
  predicate SizeRead(y: Stream, c: Core, log: seq<Event>, s: string)
    requires IsHexText(s)
  {
    if Hex(s) <= INT64_MAX then At(y, c.(state := InChunkHeader(ChunkSize), contentLength := Hex(s)), log)
    else y.core.errno == HugeChunkSize
  }

  lemma SizeFirst(x: Stream, c: Core, log: seq<Event>, ch: char)
    requires At(x, c, log) && c.state == InChunkHeader(ChunkSizeStart) && IsHex(ch)
    ensures SizeRead(Step(x, ch), c, log, [ch])
  {
    hide Step, Pass;
    OnChunkHeader(c, ch);
    Take(x, ch, c, log);
    assert Hex([ch]) == Hex([]) * 16 + HexDigit(ch) == HexDigit(ch) by { assert [ch][..0] == []; }
  }

  lemma SizeNext(y: Stream, c: Core, log: seq<Event>, s: string, ch: char)
    requires IsHexText(s) && SizeRead(y, c, log, s) && IsHex(ch)
    ensures IsHexText(s + [ch]) && SizeRead(Step(y, ch), c, log, s + [ch])
  {
    assert (s + [ch])[..|s + [ch]| - 1] == s;
    assert Hex(s + [ch]) == Hex(s) * 16 + HexDigit(ch);
    hide Step, Pass, Hex;
    if Hex(s) <= INT64_MAX {
      OnChunkHeader(y.core, ch);
      StepOnce(y, ch);
      if Pass(y.core, ch).control == Advance { Take(y, ch, y.core, log); }
    } else {
      StepHalted(y, ch);
    }
  }

  /** A chunk size is stored, or rejected exactly when it exceeds INT64_MAX. */
  lemma {:induction false} SizeRun(x: Stream, c: Core, log: seq<Event>, s: string, n: nat)
    requires At(x, c, log) && c.state == InChunkHeader(ChunkSizeStart) && IsHexText(s) && 1 <= n <= |s|
    ensures SizeRead(Run(x, s[..n]), c, log, s[..n])
    decreases n
  {
    hide Step, SizeRead;
    if n == 1 {
      SizeFirst(x, c, log, s[0]);
      RunOne(x, s[0]);
      assert s[..1] == [s[0]];
    } else {
      SizeRun(x, c, log, s, n - 1);
      RunSnoc(x, s, n - 1);
      SizeNext(Run(x, s[..n - 1]), c, log, s[..n - 1], s[n - 1]);
      assert s[..n] == s[..n - 1] + [s[n - 1]];
    }
  }

  /** What may stand between a chunk size and the end of its line. */
  predicate IsExtension(s: string) {
    s == [] || ((s[0] == ';' || s[0] == ' ') && forall i :: 0 <= i < |s| ==> s[i] != CR)
  }

  lemma ExtensionFirst(x: Stream, c: Core, log: seq<Event>, ch: char)
    requires At(x, c, log) && c.state == InChunkHeader(ChunkSize) && (ch == ';' || ch == ' ')
    ensures At(Step(x, ch), c.(state := InChunkHeader(ChunkParameters)), log)
  {
    hide Step, Pass;
    OnChunkHeader(c, ch);
    Take(x, ch, c, log);
  }

  lemma ExtensionByte(x: Stream, c: Core, log: seq<Event>, ch: char)
    requires At(x, c, log) && c.state == InChunkHeader(ChunkParameters) && ch != CR
    ensures At(Step(x, ch), c, log)
  {
    hide Step, Pass;
    OnChunkHeader(c, ch);
    Take(x, ch, c, log);
  }

  lemma {:induction false} ExtensionBytes(x: Stream, c: Core, log: seq<Event>, s: string)
    requires At(x, c, log) && c.state == InChunkHeader(ChunkParameters) && forall i :: 0 <= i < |s| ==> s[i] != CR
    ensures At(Run(x, s), c, log)
    decreases |s|
  {
    hide Step, Emit;
    if s != [] {
      ExtensionByte(x, c, log, s[0]);
      ExtensionBytes(Step(x, s[0]), c, log, s[1..]);
    }
  }

  lemma ExtensionRun(x: Stream, c: Core, log: seq<Event>, s: string)
    requires At(x, c, log) && c.state == InChunkHeader(ChunkSize) && IsExtension(s)
    ensures At(Run(x, s), c.(state := InChunkHeader(if s == [] then ChunkSize else ChunkParameters)), log)
  {
    hide Step, Emit;
    if s != [] {
      ExtensionFirst(x, c, log, s[0]);
      var y := Step(x, s[0]);
      ExtensionBytes(y, y.core, log, s[1..]);
    }
  }

  lemma SizeLineEnd(x: Stream, c: Core, log: seq<Event>)
    requires At(x, c, log) && (c.state == InChunkHeader(ChunkSize) || c.state == InChunkHeader(ChunkParameters))
    requires c.contentLength >= 0
    ensures At(Run(x, "\r\n"),
               if c.contentLength == 0 then c.(flags := c.flags.(trailing := true), state := InHeaders(FieldStart))
               else c.(state := InBody(ChunkData)),
               Push(log, ChunkHeader(c.contentLength)))
  {
    hide Step, Pass, Push;
    OnChunkHeader(c, CR);
    Take(x, CR, c, log);
    var y := Step(x, CR);
    OnChunkHeader(y.core, LF);
    Take(y, LF, y.core, log);
    RunTwo(x, CR, LF);
  }

  /** The line before the data of a chunk. */
  lemma SizeLine(x: Stream, c: Core, log: seq<Event>, size: string, ext: string)
    requires At(x, c, log) && c.state == InChunkHeader(ChunkSizeStart)
    requires IsHexText(size) && IsExtension(ext) && Hex(size) <= INT64_MAX
    ensures var d := c.(contentLength := Hex(size));
            At(Run(x, size + ext + "\r\n"),
               if Hex(size) == 0 then d.(flags := c.flags.(trailing := true), state := InHeaders(FieldStart))
               else d.(state := InBody(ChunkData)),
               Push(log, ChunkHeader(Hex(size))))
  {
    hide Step, Push, Hex, Run;
    SizeRun(x, c, log, size, |size|);
    assert size[..|size|] == size;
    var y := Run(x, size);
    ExtensionRun(y, y.core, log, ext);
    RunAppend(x, size, ext);
    RunAppend(x, size + ext, "\r\n");
    var z := Run(y, ext);
    SizeLineEnd(z, z.core, log);
  }

  lemma ChunkLast(x: Stream, c: Core, log: seq<Event>, ch: char)
    requires At(x, c, log) && c.state == InBody(ChunkData) && c.contentLength == 1
    ensures At(Step(x, ch), c.(contentLength := 0, state := InBody(ChunkDataAlmostDone)), Push(log, Data(Body, [ch])))
  {
    hide Step, Pass, Push;
    OnBody(c, ch);
    Take(x, ch, c, log);
  }

  lemma ChunkDataEnd(x: Stream, c: Core, log: seq<Event>)
    requires At(x, c, log) && c.state == InBody(ChunkDataAlmostDone)
    ensures At(Run(x, "\r\n"), c.(state := InChunkHeader(ChunkSizeStart)), Push(log, ChunkComplete))
    ensures Run(x, "\r\n").since == 1
  {
    hide Step, Pass, Push;
    OnBody(c, CR);
    Take(x, CR, c, log);
    var y := Step(x, CR);
    OnDone(y.core, LF);
    Take(y, LF, y.core, log);
    RunTwo(x, CR, LF);
  }

  /** The data of a chunk and the line end after it. */
  lemma ChunkDataRun(x: Stream, c: Core, log: seq<Event>, data: string)
    requires At(x, c, log) && c.state == InBody(ChunkData) && data != [] && |data| == c.contentLength
    ensures At(Run(x, data + "\r\n"), c.(contentLength := 0, state := InChunkHeader(ChunkSizeStart)),
               Push(Push(log, Data(Body, data)), ChunkComplete))
    ensures Run(x, data + "\r\n").since == 1
  {
    hide Step, Push, Run;
    var n := |data| - 1;
    BodyBytes(x, c, log, data[..n]);
    RunSnoc(x, data, n);
    assert data[..n + 1] == data;
    var y := Run(x, data[..n]);
    ChunkLast(y, y.core, y.log, data[n]);
    PushJoin(log, Body, data[..n], [data[n]]);
    assert data == data[..n] + [data[n]];
    if n == 0 { assert data == [data[n]]; }
    RunAppend(x, data, "\r\n");
    var z := Run(x, data);
    ChunkDataEnd(z, z.core, z.log);
  }
}
