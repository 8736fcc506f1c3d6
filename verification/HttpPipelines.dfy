/** Pipelines of well-formed messages under any cut into buffers, and through the parser itself. */
module HttpPipelines {
  import opened HttpMachine
  import opened HttpStream
  import opened HttpCuts
  import opened HttpRequestLine
  import opened HttpHeaderLines
  import opened HttpBodies
  import opened HttpMessages
  import opened HttpParser

  // ----- Inputs whose cuts do not show -----

  predicate QuietAt(x: Stream, ch: char) {
    !Overflows(x) && !x.stopped && (x.core.state == InHeaders(HeaderAlmostDone) ==> ch == LF)
  }

  predicate Quiet(r: Stream, s: string) {
    forall i :: 0 <= i < |s| ==> QuietAt(Run(r, s[..i]), s[i])
  }

  lemma QuietAppend(r: Stream, a: string, b: string)
    requires Quiet(r, a) && Quiet(Run(r, a), b)
    ensures Quiet(r, a + b)
  {
    hide Run, QuietAt;
    var s := a + b;
    forall i | 0 <= i < |s| ensures QuietAt(Run(r, s[..i]), s[i]) {
      if i < |a| {
        assert s[..i] == a[..i];
      } else {
        assert s[..i] == a + b[..i - |a|];
        RunAppend(r, a, b[..i - |a|]);
      }
    }
  }

  /** Every CR is followed by LF. */
  predicate Clean(s: string) {
    forall i :: 0 <= i < |s| && s[i] == CR ==> i + 1 < |s| && s[i + 1] == LF
  }

  lemma {:induction false} StepCounts(x: Stream, ch: char)
    ensures Step(x, ch).since <= x.since + 1
    ensures !Halted(Step(x, ch)) && Step(x, ch).core.state == InHeaders(HeaderAlmostDone) ==> ch == CR
    decreases Rank(x.core.state)
  {
    hide Pass, Step, Emit;
    if Halted(x) {
      StepHalted(x, ch);
    } else {
      StepOnce(x, ch);
      PassKeeps(x.core, ch);
      var o := Pass(x.core, ch);
      if o.control == Again { StepCounts(Apply(x, o, ch), ch); }
    }
  }

  lemma {:induction false} RunCounts(r: Stream, s: string, i: nat)
    requires i <= |s| && !Halted(Run(r, s[..i])) && r.core.state != InHeaders(HeaderAlmostDone)
    ensures var x := Run(r, s[..i]);
            && x.since <= r.since + i
            && (x.core.state == InHeaders(HeaderAlmostDone) ==> i > 0 && s[i - 1] == CR)
    decreases i
  {
    hide Step;
    if i > 0 {
      RunSnoc(r, s, i - 1);
      var y := Run(r, s[..i - 1]);
      if Halted(y) { StepHalted(y, s[i - 1]); }
      RunCounts(r, s, i - 1);
      StepCounts(y, s[i - 1]);
    }
  }

  /** All bytes of the text are taken, so the parser halts before none of them. */
  lemma TakenAll(r: Stream, s: string, i: nat)
    requires Run(r, s).pos == r.pos + |s| && i < |s|
    ensures !Halted(Run(r, s[..i]))
  {
    hide Run;
    var x := Run(r, s[..i]);
    assert s[..i] + s[i..] == s;
    RunAppend(r, s[..i], s[i..]);
    if Halted(x) {
      RunHalted(x, s[i..]);
      PosBound(r, s[..i]);
    }
  }

  lemma {:induction false} PosBound(r: Stream, s: string)
    ensures Run(r, s).pos <= r.pos + |s|
    decreases |s|
  {
    hide Step;
    if s != [] {
      StepPosBound(r, s[0]);
      PosBound(Step(r, s[0]), s[1..]);
    }
  }

  lemma {:induction false} StepPosBound(x: Stream, ch: char)
    ensures Step(x, ch).pos <= x.pos + 1
    decreases Rank(x.core.state)
  {
    hide Pass, Step, Emit;
    if Halted(x) {
      StepHalted(x, ch);
    } else {
      StepOnce(x, ch);
      PassKeeps(x.core, ch);
      var o := Pass(x.core, ch);
      if o.control == Again { StepPosBound(Apply(x, o, ch), ch); }
    }
  }

  /** A short text with proper line ends that is taken to its end. */
  lemma QuietShort(r: Stream, s: string)
    requires Run(r, s).pos == r.pos + |s| && r.core.state != InHeaders(HeaderAlmostDone)
    requires Clean(s) && r.since + |s| <= HTTP_MAX_HEADER_SIZE + 1
    ensures Quiet(r, s)
  {
    hide Run;
    forall i | 0 <= i < |s| ensures QuietAt(Run(r, s[..i]), s[i]) {
      TakenAll(r, s, i);
      RunCounts(r, s, i);
      if i > 0 && s[i - 1] == CR { assert s[i] == LF; }
    }
  }

  lemma QuietCuts(r: Stream, s: string, pieces: seq<string>)
    requires Settled(r) && s != [] && Quiet(r, s) && CutsInto(s, pieces)
    ensures Begin(Feed(r, pieces)) == Begin(Call(r, s))
  {
    hide Run, ShowsAt, Overflows, Feed, Call, CutsInto;
    assert NoBareCr(r, s) && NoOverflow(r, s) && Whole(r, s) by {
      forall i | 0 <= i < |s| ensures QuietAt(Run(r, s[..i]), s[i]) {}
    }
    QuietIsSafe(r, s);
    SafeCuts(r, s, pieces);
  }

  // ----- Clean texts -----

  lemma CleanAppend(a: string, b: string)
    requires Clean(a) && Clean(b)
    ensures Clean(a + b)
  {
  }

  lemma CleanLine(s: string)
    requires NoCr(s)
    ensures Clean(s) && Clean(s + "\r\n")
  {
  }

  lemma NoCrAppend(a: string, b: string)
    requires NoCr(a) && NoCr(b)
    ensures NoCr(a + b)
  {
  }

  lemma LineClean(l: Line, k: Kind)
    requires LineOk(l, k)
    ensures Clean(LineText(l))
  {
    hide LineText, Clean, IsNumber, TargetOk, Dec;
    if l.RequestStart? { RequestClean(l); } else { StatusClean(l); }
  }

  lemma RequestClean(l: Line)
    requires LineOk(l, Request)
    ensures Clean(LineText(l))
  {
    hide Dec, MethodName, TargetOk, Clean, NoCr, IsNumber;
    var v := "HTTP/" + (l.major + "." + l.minor);
    var name := MethodName(l.verb);
    NumbersNoCr(l.major, l.minor);
    NameNoCr(l.verb);
    assert NoCr(" ") by { BlankNoCr(); }
    NoCrAppend(name, " ");
    NoCrAppend(l.target, " ");
    NoCrAppend(l.target + " ", v);
    NoCrAppend(name + " ", l.target + " " + v);
    CleanLine(name + " " + (l.target + " " + v));
    assert LineText(l) == name + " " + (l.target + " " + v) + "\r\n";
  }

  lemma StatusClean(l: Line)
    requires LineOk(l, Response)
    ensures Clean(LineText(l))
  {
    hide Dec, Clean, NoCr, IsNumber;
    var v := "HTTP/" + (l.major + "." + l.minor);
    NumbersNoCr(l.major, l.minor);
    NumbersNoCr(l.status, l.status);
    assert NoCr(" ") by { BlankNoCr(); }
    NoCrAppend(v, " ");
    NoCrAppend(v + " ", l.status);
    var w := v + " " + l.status;
    if l.reason.Phrase? {
      NoCrAppend(w, " ");
      NoCrAppend(w + " ", l.reason.text);
      CleanLine(w + " " + l.reason.text);
      assert LineText(l) == w + " " + l.reason.text + "\r\n";
    } else {
      CleanLine(w);
      assert LineText(l) == w + "\r\n";
    }
  }

  lemma BlankNoCr()
    ensures NoCr(" ")
  {
  }

  lemma NumbersNoCr(a: string, b: string)
    requires IsNumber(a) && IsNumber(b)
    ensures NoCr(a) && NoCr(b) && NoCr("HTTP/" + (a + "." + b))
  {
    hide Dec;
    NoCrAppend(a, ".");
    NoCrAppend(a + ".", b);
    NoCrAppend("HTTP/", a + "." + b);
  }

  lemma NameNoCr(m: Method)
    ensures NoCr(MethodName(m))
  {
    hide MethodName;
    forall i | 0 <= i < |MethodName(m)| ensures MethodName(m)[i] != CR { NameChars(m, i); }
  }

  lemma HeaderClean(h: Header)
    requires HeaderOk(h)
    ensures Clean(HeaderText(h))
  {
    hide Dec, QuoteWalk, CodingState, SameName, IsHeaderChar;
    assert NoCr(h.value);
    assert NoCr(h.name) by { forall i | 0 <= i < |h.name| ensures h.name[i] != CR { TokenIsNoEnd(h.name[i]); } }
    NoCrAppend(h.name, ":");
    NoCrAppend(h.pad, h.value);
    NoCrAppend(h.name + ":", h.pad + h.value);
    CleanLine(h.name + ":" + (h.pad + h.value));
    assert HeaderText(h) == h.name + ":" + (h.pad + h.value) + "\r\n";
  }

  lemma {:induction false} HeadersClean(hs: seq<Header>)
    requires HeadersOk(hs)
    ensures Clean(HeadersText(hs))
    decreases |hs|
  {
    hide HeaderText, Clean, HeaderOk;
    if hs == [] {
      assert Clean([]) by { CleanNone(); }
    } else {
      assert HeaderOk(hs[0]);
      HeaderClean(hs[0]);
      HeadersClean(hs[1..]);
      CleanAppend(HeaderText(hs[0]), HeadersText(hs[1..]));
    }
  }

  lemma CleanNone()
    ensures Clean([]) && Clean("\r\n")
  {
  }

  lemma HeadClean(m: Message, k: Kind)
    requires HeadOk(m, k)
    ensures Clean(HeadText(m))
  {
    hide Clean, LineText, HeadersText, HeadersOk;
    LineClean(m.line, k);
    HeadersClean(m.headers);
    CleanNone();
    CleanAppend(HeadersText(m.headers), "\r\n");
    CleanAppend(LineText(m.line), HeadersText(m.headers) + "\r\n");
  }

  lemma SizeClean(k: Chunk)
    requires ChunkOk(k)
    ensures Clean(SizeText(k))
  {
    hide Hex;
    assert NoCr(k.size);
    NoCrAppend(k.size, k.ext);
    CleanLine(k.size + k.ext);
  }

  // ----- Quiet messages -----

  predicate InData(s: State) { s == InBody(Identity) || s == InBody(ChunkData) }

  lemma DataQuiet(x: Stream, c: Core, log: seq<Event>, s: string)
    requires At(x, c, log) && InData(c.state) && |s| <= c.contentLength
    ensures Quiet(x, s)
  {
    hide Run, Push;
    forall i | 0 <= i < |s| ensures QuietAt(Run(x, s[..i]), s[i]) {
      BodyBytes(x, c, log, s[..i]);
    }
  }

  lemma DataEndQuiet(x: Stream, c: Core, log: seq<Event>)
    requires At(x, c, log) && c.state == InBody(ChunkDataAlmostDone)
    ensures Quiet(x, "\r\n")
  {
    hide Step, Pass;
    var s := "\r\n";
    OnBody(c, CR);
    Take(x, CR, c, log);
    RunOne(x, CR);
    RunNone(x);
    assert s[..0] == [] && s[..1] == [CR];
    forall i | 0 <= i < |s| ensures QuietAt(Run(x, s[..i]), s[i]) {}
  }

  lemma ChunkDataQuiet(x: Stream, c: Core, log: seq<Event>, data: string)
    requires At(x, c, log) && c.state == InBody(ChunkData) && data != [] && |data| == c.contentLength
    ensures Quiet(x, data + "\r\n")
  {
    hide Step, Run, Push, Quiet;
    DataQuiet(x, c, log, data);
    var n := |data| - 1;
    BodyBytes(x, c, log, data[..n]);
    RunSnoc(x, data, n);
    assert data[..n + 1] == data;
    var y := Run(x, data[..n]);
    ChunkLast(y, y.core, y.log, data[n]);
    var z := Run(x, data);
    DataEndQuiet(z, z.core, z.log);
    QuietAppend(x, data, "\r\n");
  }

  lemma ChunkQuiet(x: Stream, c: Core, log: seq<Event>, k: Chunk)
    requires Near(x, c, log) && c.state == InChunkHeader(ChunkSizeStart) && x.since <= 1
    requires ChunkOk(k) && k.data != [] && |SizeText(k)| <= HTTP_MAX_HEADER_SIZE
    ensures Quiet(x, ChunkText(k))
  {
    hide Step, Run, Push, Hex, Quiet, Clean;
    SizeLine(x, x.core, log, k.size, k.ext);
    PosRun(x, SizeText(k));
    SizeClean(k);
    QuietShort(x, SizeText(k));
    var y := Run(x, SizeText(k));
    ChunkDataQuiet(y, y.core, y.log, k.data);
    QuietAppend(x, SizeText(k), k.data + "\r\n");
  }

  lemma {:induction false} ChunksQuiet(x: Stream, c: Core, log: seq<Event>, ks: seq<Chunk>)
    requires Near(x, c, log) && c.state == InChunkHeader(ChunkSizeStart) && x.since <= 1
    requires forall i :: 0 <= i < |ks| ==>
               ChunkOk(ks[i]) && ks[i].data != [] && |SizeText(ks[i])| <= HTTP_MAX_HEADER_SIZE
    ensures Quiet(x, ChunksText(ks)) && Run(x, ChunksText(ks)).since <= 1
    decreases |ks|
  {
    hide Step, Push, Run, ChunkText, SizeText, ChunkOk;
    if ks == [] {
      RunNone(x);
    } else {
      ChunkQuiet(x, c, log, ks[0]);
      ChunkRun(x, c, log, ks[0]);
      RunAppend(x, ChunkText(ks[0]), ChunksText(ks[1..]));
      var y := Run(x, ChunkText(ks[0]));
      ChunksQuiet(y, c.(contentLength := 0), y.log, ks[1..]);
      hide Quiet;
      QuietAppend(x, ChunkText(ks[0]), ChunksText(ks[1..]));
    }
  }

  function TrailerText(b: Content): string
    requires b.Chunked?
  {
    SizeText(b.last) + (HeadersText(b.trailers) + "\r\n")
  }

  /** No header section, chunk header or trailer is longer than the parser allows. */
  predicate Short(m: Message) {
    && |HeadText(m)| <= HTTP_MAX_HEADER_SIZE
    && (m.content.Chunked? ==>
          && |TrailerText(m.content)| <= HTTP_MAX_HEADER_SIZE
          && forall i :: 0 <= i < |m.content.chunks| ==> |SizeText(m.content.chunks[i])| <= HTTP_MAX_HEADER_SIZE)
  }

  lemma ChunkedQuiet(x: Stream, c: Core, log: seq<Event>, m: Message, k: Kind, skip: bool)
    requires Near(x, c, log) && c.state == InChunkHeader(ChunkSizeStart) && x.since <= 1
    requires m.content.Chunked? && ContentOk(m, k, skip) && Short(m)
    ensures Quiet(x, BodyText(m.content))
  {
    hide Step, Push, Run, HeadText, ChunksText, HeadersText, SizeText, ChunkOk, HeadersOk, Quiet, Clean, BodyEvents;
    hide ChunksEvents, KindOf;
    var b := m.content;
    ChunksQuiet(x, c, log, b.chunks);
    ChunksRun(x, c, log, b.chunks);
    var y := Run(x, ChunksText(b.chunks));
    ChunkedRun(x, c, log, b);
    RunAppend(x, ChunksText(b.chunks), TrailerText(b));
    SizeClean(b.last);
    HeadersClean(b.trailers);
    CleanNone();
    CleanAppend(HeadersText(b.trailers), "\r\n");
    CleanAppend(SizeText(b.last), HeadersText(b.trailers) + "\r\n");
    PosRun(x, ChunksText(b.chunks));
    QuietShort(y, TrailerText(b));
    QuietAppend(x, ChunksText(b.chunks), TrailerText(b));
  }

  lemma MessageQuiet(x: Stream, k: Kind, skip: bool, log: seq<Event>, m: Message)
    requires Starts(x, k, skip, log) && MessageOk(m, k, skip) && x.since <= 1 && Short(m)
    ensures Quiet(x, Text(m))
  {
    hide Step, Push, Run, HeadText, LineEvents, HeadersEvents, HeadersOk, LineOk, Quiet, Clean, ChunkOk, KindOf,
         HandsOver;
    hide LengthOf, StartLineOf, Short;
    var c := HeadRun(x, k, skip, log, m);
    HeadClean(m, k);
    ShortHead(m);
    QuietShort(x, HeadText(m));
    var y := Run(x, HeadText(m));
    match m.content {
      case Nothing => QuietNone(y);
      case Plain(body) => DataQuiet(y, y.core, y.log, body);
      case Chunked(_, _, _) => ChunkedQuiet(y, y.core, y.log, m, k, skip);
    }
    QuietAppend(x, HeadText(m), BodyText(m.content));
  }

  lemma ShortHead(m: Message)
    requires Short(m)
    ensures |HeadText(m)| <= HTTP_MAX_HEADER_SIZE
  {
  }

  lemma QuietNone(x: Stream)
    ensures Quiet(x, [])
  {
  }

  predicate AllShort(ms: seq<Message>) { forall i :: 0 <= i < |ms| ==> Short(ms[i]) }

  lemma {:induction false} PipelineQuiet(x: Stream, k: Kind, skip: bool, log: seq<Event>, ms: seq<Message>)
    requires Starts(x, k, skip, log) && x.since <= 1 && PipelineOk(ms, k, skip) && AllShort(ms)
    ensures Quiet(x, PipelineText(ms))
    decreases |ms|
  {
    hide Step, Push, Run, Text, Events, Quiet, MessageOk, HandsOver, Short;
    if ms == [] {
      QuietNone(x);
    } else {
      assert MessageOk(ms[0], k, skip);
      MessageQuiet(x, k, skip, log, ms[0]);
      MessageRun(x, k, skip, log, ms[0]);
      RunAppend(x, Text(ms[0]), PipelineText(ms[1..]));
      var y := Run(x, Text(ms[0]));
      PipelineQuiet(y, k, skip, y.log, ms[1..]);
      QuietAppend(x, Text(ms[0]), PipelineText(ms[1..]));
    }
  }

  /** Any pipeline of well-formed messages, cut into buffers in any way, is reported exactly. */
  lemma PipelineAnyCut(r: Stream, k: Kind, skip: bool, ms: seq<Message>, pieces: seq<string>)
    requires Settled(r) && Starts(r, k, skip, r.log) && r.since <= 1 && ms != []
    requires PipelineOk(ms, k, skip) && AllShort(ms)
    requires CutsInto(PipelineText(ms), pieces)
    ensures Ready(Begin(Feed(r, pieces)), k, skip, PushAll(r.log, PipelineEvents(ms)))
  {
    hide Step, Push, Run, Quiet, Feed, CutsInto, PipelineText, PipelineEvents, PipelineOk, AllShort;
    var s := PipelineText(ms);
    PipelineQuiet(r, k, skip, r.log, ms);
    PipelineRun(r, k, skip, r.log, ms);
    TextNotEmpty(ms);
    QuietCuts(r, s, pieces);
  }

  lemma TextNotEmpty(ms: seq<Message>)
    requires ms != []
    ensures PipelineText(ms) != []
  {
    hide LineText, HeadersText, BodyText;
    assert |HeadText(ms[0])| > 0;
  }

  /** A message of the kind that the results are about: a length and a coding, with a header before and behind. */
  const SAMPLE := Message(RequestStart(Post, "/", "1", "1"),
                          [Header("A", " ", "b"), Header("Content-Length", "", "7"),
                           Header("Transfer-Encoding", " ", "chunked"), Header("C", "", "")],
                          Chunked([Chunk("3", "", "abc")], Chunk("0", "", ""), []))

  lemma SampleOk()
    ensures MessageOk(SAMPLE, Request, false) && !HandsOver(SAMPLE) && Short(SAMPLE)
  {
    hide KindOf, HandsOver, HeadersOk, Short, LineOk;
    SampleLine();
    SampleHeaders();
    SampleKind();
    SampleContent();
    SampleShort();
  }

  lemma SampleLine()
    ensures LineOk(SAMPLE.line, Request)
  {
    assert "/"[1..] == "" && "1"[..0] == "";
    assert Dec("1") == 1;
  }

  lemma SampleHeaders()
    ensures HeadersOk(SAMPLE.headers)
  {
    hide Dec, CodingState, QuoteWalk;
    var hs := SAMPLE.headers;
    assert HeaderOk(hs[0]) && HeaderOk(hs[3]) by { PlainHeaders(); }
    assert HeaderOk(hs[1]) by { LengthHeader(); }
    assert HeaderOk(hs[2]) by { CodingHeader(); }
  }

  lemma PlainHeaders()
    ensures HeaderOk(Header("A", " ", "b")) && HeaderOk(Header("C", "", ""))
  {
    assert "b"[1..] == "";
    assert QuoteWalk(General, "b") == General && QuoteWalk(General, "") == General;
  }

  lemma LengthHeader()
    ensures HeaderOk(Header("Content-Length", "", "7")) && Dec("7") == 7
    ensures SameName("Content-Length", CONTENT_LENGTH)
  {
    assert "7"[..0] == "";
    assert Dec("7") == 7;
  }

  lemma CodingHeader()
    ensures HeaderOk(Header("Transfer-Encoding", " ", "chunked")) && IsChunked("chunked")
    ensures SameName("Transfer-Encoding", TRANSFER_ENCODING)
  {
    hide IsName, IsCoding, Matches, IsChunked;
    CodingName();
    CodingValue();
  }

  lemma CodingName()
    ensures IsName("Transfer-Encoding") && SameName("Transfer-Encoding", TRANSFER_ENCODING)
    ensures !SameName("Transfer-Encoding", CONTENT_LENGTH)
  {
  }

  lemma CodingValue()
    ensures IsCoding("chunked") && IsChunked("chunked")
  {
    hide CodingState, Quote;
    var v := "chunked";
    assert v[..7] == v;
    assert IsChunked(v);
    CodingExact(v);
  }

  lemma SampleKind()
    ensures KindOf(SAMPLE, Request, false) == ByChunks && !HandsOver(SAMPLE) && LengthOf(SAMPLE.headers) == 7
  {
    hide Dec, IsChunked, Matches;
    LengthHeader();
    CodingHeader();
    var hs := SAMPLE.headers;
    var t := [hs[1], hs[2], hs[3]];
    assert hs[1..] == t && t[1..] == [hs[2], hs[3]] && [hs[2], hs[3]][1..] == [hs[3]] && [hs[3]][1..] == [];
    assert Coded([hs[2], hs[3]]) && Coded(t) && Coded(hs);
    OneHeader(hs[3]);
    OneHeader(hs[2]);
    OneHeader(hs[1]);
    assert LengthOf([hs[2], hs[3]]) == -1;
    assert LengthOf(t) == 7 && LengthOf(hs) == 7;
    assert !Upgrades([hs[2], hs[3]]);
    assert !Upgrades(t) && !Upgrades(hs);
  }

  lemma SampleContent()
    ensures var b := SAMPLE.content;
            ChunkOk(b.chunks[0]) && ChunkOk(b.last) && HeadersOk(b.trailers)
  {
    assert "3"[..0] == "" && "0"[..0] == "";
    assert Hex("3") == 3 && Hex("0") == 0;
  }

  lemma SampleShort()
    ensures Short(SAMPLE)
  {
    hide MethodName;
    assert |MethodName(Post)| == 4 by { PostName(); }
    HeadersShort(SAMPLE.headers);
  }

  lemma {:induction false} HeadersShort(hs: seq<Header>)
    requires forall i :: 0 <= i < |hs| ==> |HeaderText(hs[i])| <= 40
    ensures |HeadersText(hs)| <= 40 * |hs|
    decreases |hs|
  {
    hide HeaderText;
    if hs != [] { HeadersShort(hs[1..]); }
  }

  lemma PostName()
    ensures MethodName(Post) == "POST"
  {
  }

  /** A parser is initialised for messages of one kind, or to find out by itself. */
  predicate Suits(kind: Kind, k: Kind) { k != Both && (kind == k || kind == Both) }

  /** The same through the parser: whatever buffers the text of a pipeline arrives in, the
      callbacks, once adjacent data callbacks of one kind are joined, are its events. */
  method Receive(p: Parser, kind: Kind, k: Kind, pieces: seq<string>, ghost ms: seq<Message>)
    requires Suits(kind, k) && ms != [] && PipelineOk(ms, k, p.noBody) && AllShort(ms)
    requires CutsInto(PipelineText(ms), pieces)
    modifies p
    ensures p.errno == OK && p.state == StartOf(k) && p.kind == k
    ensures Merged(p.events) == Merged(PipelineEvents(ms))
  {
    hide Run, Feed, Sound, CutsInto, PipelineText, PipelineEvents, Push, PipelineOk, AllShort;
    p.Init(kind);
    PipelineAnyCut(p.View(), k, p.noBody, ms, pieces);
    p.ExecuteAll(pieces);
  }

  // ----- An input whose cuts show -----

  const GET_LINE := RequestStart(Get, "/", "1", "1")

  /** The CR in the value of the only header is not followed by LF. */
  const BARE_CR: string := LineText(GET_LINE) + "A: b\rxy"

  lemma GetLine()
    ensures LineOk(GET_LINE, Request) && |LineText(GET_LINE)| == 16
  {
    assert "/"[1..] == "" && "1"[..0] == "";
    assert Dec("1") == 1;
    assert MethodName(Get) == "GET";
  }

  /** Behind the CR of a value a byte other than LF is replaced by a space, and the bytes behind it are dropped. */
  lemma AfterBareCr(x: Stream, c: Core, log: seq<Event>)
    requires At(x, c, log) && c.state == InHeaders(ValueStart) && !IsSpecial(c.header)
    ensures var y := Run(x, "b\rx");
            && !Halted(y) && y.muted && y.core.state == InValue && y.core.header == General
            && y.log == Push(log, Data(Value, "b ")) && y.since <= x.since + 3
  {
    hide Step, Pass, Push, Run, PassFieldStart, PassValueStart, PassHeadersDone, MatchName, PassLength;
    ValueFirst(x, c, log, 'b');
    var u := Step(x, 'b');
    OnValue(u.core, CR);
    Take(u, CR, u.core, u.log);
    var v := Step(u, CR);
    OnHeaders(v.core, 'x');
    StepOnce(v, 'x');
    StepCounts(x, 'b');
    StepCounts(u, CR);
    StepCounts(v, 'x');
    RunCons(x, "b\rx");
    assert "b\rx"[1..] == [CR, 'x'];
    RunTwo(u, CR, 'x');
    PushJoin(log, Value, "b", "");
    PushJoin(log, Value, "b", " ");
    assert "b" + "" == "b" && "b" + " " == "b ";
  }

  /** Inside a value whose bytes are being dropped. */
  predicate Dropping(y: Stream) {
    !Halted(y) && y.muted && y.core.state == InValue && y.core.header == General
  }

  const PLAIN := Header("A", " ", "b")

  lemma PlainIs()
    ensures IsName(PLAIN.name) && IsPad(PLAIN.pad)
    ensures !IsLengthHeader(PLAIN) && !IsCodingHeader(PLAIN) && !IsUpgradeHeader(PLAIN)
  {
  }

  lemma BareCrHeader(x: Stream, c: Core, log: seq<Event>)
    requires Near(x, c, log) && LineStart(c.state)
    ensures Dropping(Run(x, PLAIN.name + ":" + (PLAIN.pad + "b\rx")))
  {
    hide Step, Push, Run, PLAIN;
    PlainIs();
    var z := NameAndPad(x, c, log, PLAIN, "b\rx");
    AfterBareCr(z, z.core, z.log);
  }

  /** Right before its last byte the parser is dropping bytes. */
  lemma BareCrRun(r: Stream, skip: bool)
    requires Starts(r, Request, skip, r.log) && r.since <= 1
    ensures var n := |BARE_CR| - 1;
            n > 0 && Dropping(Run(r, BARE_CR[..n])) && Run(r, BARE_CR[..n]).since <= 40
  {
    hide Step, Push, Run, Dec, LineOk, LineText, Dropping, GET_LINE, LineEvents;
    var text := LineText(GET_LINE);
    var n := |BARE_CR| - 1;
    GetLine();
    RequestLineRun(r, skip, r.log, GET_LINE);
    var u := Run(r, text);
    BareCrHeader(u, u.core, u.log);
    assert BARE_CR[..n] == text + "A: b\rx" && "A" + ":" + (" " + "b\rx") == "A: b\rx";
    RunAppend(r, text, "A: b\rx");
    assert !Halted(Run(r, BARE_CR[..n])) by { DroppingRuns(Run(r, BARE_CR[..n])); }
    RunCounts(r, BARE_CR, n);
  }

  lemma DroppingRuns(y: Stream)
    requires Dropping(y)
    ensures !Halted(y)
  {
  }

  /** The parser accepts this input, but reports something else when it comes in two buffers. */
  lemma BareCrShows(r: Stream, skip: bool)
    requires Settled(r) && Starts(r, Request, skip, r.log) && r.since <= 1
    ensures var n := |BARE_CR| - 1;
            && Call(r, BARE_CR).core.errno == OK && CutsInto(BARE_CR, [BARE_CR[..n], BARE_CR[n..]])
            && Begin(Feed(r, [BARE_CR[..n], BARE_CR[n..]])) != Begin(Call(r, BARE_CR))
  {
    hide Step, Run, Pass, Push, BARE_CR;
    var s := BARE_CR;
    var n := |s| - 1;
    BareCrRun(r, skip);
    var y := Run(r, s[..n]);
    LastByteIs();
    RunSnoc(r, s, n);
    assert s[..n + 1] == s;
    StepOnce(y, 'y');
    OnValue(y.core, 'y');
    StepCounts(y, 'y');
    assert ShowsAt(r, s, n);
    UnsafeCut(r, s, n);
  }

  lemma LastByteIs()
    ensures |BARE_CR| > 0 && BARE_CR[|BARE_CR| - 1] == 'y'
  {
    hide LineText;
  }
}
