/** Whole messages: what the parser reports for a well-formed message, and for a pipeline. */
module HttpMessages {
  import opened HttpMachine
  import opened HttpStream
  import opened HttpRequestLine
  import opened HttpHeaderLines
  import opened HttpBodies

  // ----- Messages and their text -----

  datatype Phrase = NoPhrase | Phrase(text: string)

  datatype Line =
    | RequestStart(verb: Method, target: string, major: string, minor: string)
    | StatusStart(major: string, minor: string, status: string, reason: Phrase)

  datatype Header = Header(name: string, pad: string, value: string)

  datatype Chunk = Chunk(size: string, ext: string, data: string)

  datatype Content =
    | Nothing
    | Plain(body: string)
    | Chunked(chunks: seq<Chunk>, last: Chunk, trailers: seq<Header>)

  datatype Message = Message(line: Line, headers: seq<Header>, content: Content)

  function VersionText(major: string, minor: string): string { "HTTP/" + (major + "." + (minor + "\r")) }

  function PhraseText(p: Phrase): string { match p case NoPhrase => "\r\n" case Phrase(text) => " " + (text + "\r\n") }

  function LineText(l: Line): string {
    match l
    case RequestStart(m, t, a, b) => MethodName(m) + " " + (t + " " + (VersionText(a, b) + "\n"))
    case StatusStart(a, b, n, p) => "HTTP/" + (a + "." + (b + " " + (n + PhraseText(p))))
  }

  function HeaderText(h: Header): string { h.name + ":" + (h.pad + (h.value + "\r\n")) }

  function HeadersText(hs: seq<Header>): string {
    if hs == [] then [] else HeaderText(hs[0]) + HeadersText(hs[1..])
  }

  function SizeText(k: Chunk): string { k.size + k.ext + "\r\n" }

  function ChunkText(k: Chunk): string { SizeText(k) + (k.data + "\r\n") }

  function ChunksText(ks: seq<Chunk>): string {
    if ks == [] then [] else ChunkText(ks[0]) + ChunksText(ks[1..])
  }

  function HeadText(m: Message): string { LineText(m.line) + (HeadersText(m.headers) + "\r\n") }

  function BodyText(b: Content): string {
    match b
    case Nothing => []
    case Plain(body) => body
    case Chunked(chunks, last, trailers) => ChunksText(chunks) + (SizeText(last) + (HeadersText(trailers) + "\r\n"))
  }

  function Text(m: Message): string { HeadText(m) + BodyText(m.content) }

  // ----- Well-formed messages -----

  predicate NoCr(s: string) { forall i :: 0 <= i < |s| ==> s[i] != CR }

  predicate PhraseOk(p: Phrase) { p.Phrase? ==> NoCr(p.text) && forall i :: 0 <= i < |p.text| ==> p.text[i] != LF }

  /** A request line of HTTP/0.9 would end the head. */
  predicate LineOk(l: Line, k: Kind) {
    match l
    case RequestStart(m, t, a, b) =>
      k == Request && TargetOk(m, t) && NoCr(t) && IsNumber(a) && IsNumber(b) && !(Dec(a) == 0 && Dec(b) == 9)
    case StatusStart(a, b, n, p) => k == Response && IsNumber(a) && IsNumber(b) && IsNumber(n) && PhraseOk(p)
  }

  predicate IsLengthHeader(h: Header) { SameName(h.name, CONTENT_LENGTH) }

  predicate IsCodingHeader(h: Header) { SameName(h.name, TRANSFER_ENCODING) }

  predicate IsUpgradeHeader(h: Header) { SameName(h.name, UPGRADE) }

  /** A header line that the parser accepts. */
  predicate HeaderOk(h: Header) {
    && IsName(h.name) && IsPad(h.pad)
    && if IsLengthHeader(h) then IsLengthText(h.value) && Dec(h.value) <= MAX_LENGTH
       else if IsCodingHeader(h) then IsCoding(h.value)
       else if IsUpgradeHeader(h) then IsProtocol(h.value)
       else IsValue(h.value)
  }

  predicate HeadersOk(hs: seq<Header>) { forall i :: 0 <= i < |hs| ==> HeaderOk(hs[i]) }

  predicate ChunkOk(k: Chunk) {
    IsHexText(k.size) && IsExtension(k.ext) && Hex(k.size) == |k.data| && |k.data| <= INT64_MAX
  }

  /** Some header announces the chunked coding. */
  predicate Coded(hs: seq<Header>) {
    hs != [] && ((IsCodingHeader(hs[0]) && IsChunked(hs[0].value)) || Coded(hs[1..]))
  }

  /** The last Content-Length, or -1 without one. */
  function LengthOf(hs: seq<Header>): (n: int)
    ensures n >= -1
  {
    if hs == [] then -1
    else if LengthOf(hs[1..]) != -1 then LengthOf(hs[1..])
    else if IsLengthHeader(hs[0]) then Dec(hs[0].value)
    else -1
  }

  /** Some header asks for another protocol. */
  predicate Upgrades(hs: seq<Header>) { hs != [] && (IsUpgradeHeader(hs[0]) || Upgrades(hs[1..])) }

  predicate IsConnect(l: Line) { l.RequestStart? && l.verb == Connect }

  /** Another protocol takes over after the message. */
  predicate HandsOver(m: Message) { Upgrades(m.headers) || IsConnect(m.line) }

  function StatusOf(l: Line): nat { if l.StatusStart? then Dec(l.status) else 0 }

  /** How the head says that the body is delimited; `skip` is the receiver's word that there is none. */
  function KindOf(m: Message, k: Kind, skip: bool): BodyKind {
    BodyKindOf(IsConnect(m.line), skip, Coded(m.headers), LengthOf(m.headers), HandsOver(m), Bare(k, StatusOf(m.line)))
  }

  /** The body is delimited as the head says. */
  predicate ContentOk(m: Message, k: Kind, skip: bool) {
    match m.content
    case Nothing => KindOf(m, k, skip) == NoBody
    case Plain(body) => KindOf(m, k, skip) == ByLength && |body| == LengthOf(m.headers)
    case Chunked(chunks, last, trailers) =>
      && KindOf(m, k, skip) == ByChunks
      && (forall i :: 0 <= i < |chunks| ==> ChunkOk(chunks[i]) && chunks[i].data != [])
      && ChunkOk(last) && last.data == [] && HeadersOk(trailers)
  }

  predicate HeadOk(m: Message, k: Kind) { LineOk(m.line, k) && HeadersOk(m.headers) }

  predicate MessageOk(m: Message, k: Kind, skip: bool) { HeadOk(m, k) && ContentOk(m, k, skip) }

  // ----- What is reported -----

  function HeaderEvents(h: Header): seq<Event> { [Data(Field, h.name), Data(Value, h.value)] }

  function HeadersEvents(hs: seq<Header>): seq<Event> {
    if hs == [] then [] else HeaderEvents(hs[0]) + HeadersEvents(hs[1..])
  }

  function ChunksEvents(ks: seq<Chunk>): seq<Event> {
    if ks == [] then []
    else [ChunkHeader(|ks[0].data|), Data(Body, ks[0].data), ChunkComplete] + ChunksEvents(ks[1..])
  }

  function LineEvents(l: Line): seq<Event> {
    match l
    case RequestStart(_, t, _, _) => [MessageBegin, Data(Url, t)]
    case StatusStart(_, _, _, NoPhrase) => [MessageBegin]
    case StatusStart(_, _, _, Phrase(text)) => [MessageBegin, Data(Reason, text)]
  }

  function StartLineOf(l: Line): StartLine {
    match l
    case RequestStart(m, _, a, b) => RequestLine(m, Dec(a), Dec(b))
    case StatusStart(a, b, n, _) => StatusLine(Dec(n), Dec(a), Dec(b))
  }

  function BodyEvents(b: Content): seq<Event> {
    match b
    case Nothing => [MessageComplete]
    case Plain(body) => [Data(Body, body), MessageComplete]
    case Chunked(chunks, _, trailers) =>
      ChunksEvents(chunks) + ([ChunkHeader(0)] + (HeadersEvents(trailers) + [ChunkComplete, MessageComplete]))
  }

  function HeadEvents(m: Message): seq<Event> {
    LineEvents(m.line) + (HeadersEvents(m.headers) + [HeadersComplete(StartLineOf(m.line), HandsOver(m))])
  }

  function Events(m: Message): seq<Event> { HeadEvents(m) + BodyEvents(m.content) }

  // ----- Start lines -----

  /** Between two messages of a connection. */
  predicate Ready(x: Stream, k: Kind, skip: bool, log: seq<Event>) {
    && At(x, x.core, log) && x.core.state == StartOf(k) && x.core.kind == k && k != Both && x.core.noBody == skip
    && (k == Response ==> x.core.verb != Connect)
  }

  /** The core inside the head of a message with start line `l`, at the start of a line. */
  predicate HeadCore(c: Core, l: Line, k: Kind, skip: bool) {
    && LineStart(c.state) && c.kind == k && c.noBody == skip && !c.flags.trailing && !c.flags.skipBody
    && (c.verb == Connect <==> IsConnect(l)) && HeadOf(c) == StartLineOf(l)
    && (k == Response ==> c.status == StatusOf(l))
  }

  /** Before the first message of a connection whose parser is to find out what kind of messages it gets. */
  predicate Undecided(x: Stream, skip: bool, log: seq<Event>) {
    && At(x, x.core, log) && x.core.state == AtStart(PreStartReqOrRes) && x.core.kind == Both
    && x.core.noBody == skip && x.core.verb != Connect
  }

  /** Before a message of kind `k`. */
  predicate Starts(x: Stream, k: Kind, skip: bool, log: seq<Event>) {
    Ready(x, k, skip, log) || (Undecided(x, skip, log) && k != Both)
  }

  function Decided(x: Stream, k: Kind): Stream { x.(core := x.core.(kind := k, state := StartOf(k))) }

  /** A message has begun, and its first byte is looked at again. */
  function Begun(x: Stream, s: StartState): Stream {
    x.(core := x.core.(state := AtStart(s)), log := Push(x.log, MessageBegin))
  }

  lemma Opens(x: Stream, s: StartState, ch: char)
    requires At(x, x.core, x.log) && ch != CR && ch != LF
    requires (x.core.state == AtStart(PreStartReqOrRes) && s == StartReqOrRes) ||
             (x.core.state == AtStart(PreStartReq) && s == StartReq) ||
             (x.core.state == AtStart(PreStartRes) && s == StartRes)
    ensures Step(x, ch) == Step(Begun(x, s), ch)
  {
    hide Step, Pass, Push;
    OnStart(x.core, ch);
    Retake(x, ch, x.core, x.log);
  }

  /** The first byte of a message clears what is left of the one before. */
  function Cleared(x: Stream): Stream { x.(core := x.core.(flags := NO_FLAGS, contentLength := -1)) }

  lemma Clears(x: Stream, ch: char)
    requires At(x, x.core, x.log) && x.core.state == AtStart(StartReq)
    ensures Step(x, ch) == Step(Cleared(x), ch)
  {
    hide Step, Pass, FirstMethod, Emit;
    OnStart(x.core, ch);
    OnStart(Cleared(x).core, ch);
    StepOnce(x, ch);
    StepOnce(Cleared(x), ch);
  }

  /** Any first byte but H belongs to a request. */
  lemma DecidesOther(x: Stream, ch: char)
    requires Undecided(x, x.core.noBody, x.log) && ch != 'H' && ch != CR && ch != LF
    ensures Step(x, ch) == Step(Decided(x, Request), ch)
  {
    hide Step, Pass, Push, FirstMethod;
    Opens(x, StartReqOrRes, ch);
    var y := Begun(x, StartReqOrRes);
    OnStart(y.core, ch);
    Retake(y, ch, y.core, y.log);
    Opens(Decided(x, Request), StartReq, ch);
    Clears(Begun(Decided(x, Request), StartReq), ch);
  }

  /** The byte has been taken. */
  function Taken(x: Stream, c: Core): Stream { x.(core := c, pos := x.pos + 1, since := Wrap(x.since + 1)) }

  lemma TakesH(x: Stream)
    requires At(x, x.core, x.log) && (x.core.state == AtStart(StartReqOrRes) || x.core.state == AtStart(StartRes))
    ensures var s := if x.core.state == AtStart(StartRes) then InStatusLine(ResH) else AtStart(ResOrRespH);
            Step(x, 'H') == Taken(x, Cleared(x).core.(state := s))
  {
    hide Step, Pass;
    OnStart(x.core, 'H');
    StepOnce(x, 'H');
  }

  lemma TakesHead(x: Stream)
    requires At(x, x.core, x.log) && x.core.state == AtStart(StartReq)
    ensures Step(x, 'H') == Taken(x, Cleared(x).core.(verb := Head, index := 1, state := InMethod))
  {
    hide Step, Pass;
    OnStart(x.core, 'H');
    StepOnce(x, 'H');
  }

  lemma TakesSecond(x: Stream, ch: char)
    requires At(x, x.core, x.log)
    ensures x.core.state == AtStart(ResOrRespH) && ch == 'E' ==>
              Step(x, ch) == Taken(x, x.core.(kind := Request, verb := Head, index := 2, state := InMethod))
    ensures x.core.state == AtStart(ResOrRespH) && ch == 'T' ==>
              Step(x, ch) == Taken(x, x.core.(kind := Response, state := InStatusLine(ResHT)))
    ensures x.core.state == InStatusLine(ResH) ==> Step(x, ch) == Taken(x, x.core.(state := InStatusLine(ResHT)))
  {
    hide Step, Pass, MethodName;
    StepOnce(x, ch);
    if x.core.state.AtStart? { OnStart(x.core, ch); }
    if x.core.state.InStatusLine? { OnStatusLine(x.core, ch); }
  }

  lemma TakesE(x: Stream)
    requires At(x, x.core, x.log) && x.core.state == InMethod && x.core.verb == Head && x.core.index == 1
    ensures Step(x, 'E') == Taken(x, x.core.(index := 2))
  {
    hide Step, Pass;
    StepOnce(x, 'E');
    OnMethod(x.core, 'E');
    assert MethodName(Head) == "HEAD";
  }

  /** Two bytes of a message have been taken. */
  function TwoTaken(x: Stream, c: Core): Stream {
    x.(core := c, log := Push(x.log, MessageBegin), pos := x.pos + 2, since := Wrap(Wrap(x.since + 1) + 1))
  }

  lemma UndecidedTwo(x: Stream, ch: char)
    requires Undecided(x, x.core.noBody, x.log) && (ch == 'E' || ch == 'T')
    ensures var c := Cleared(x).core;
            Step(Step(x, 'H'), ch)
            == TwoTaken(x, if ch == 'E' then c.(kind := Request, verb := Head, index := 2, state := InMethod)
                           else c.(kind := Response, state := InStatusLine(ResHT)))
  {
    hide Step, Push, Wrap;
    Opens(x, StartReqOrRes, 'H');
    TakesH(Begun(x, StartReqOrRes));
    TakesSecond(Step(x, 'H'), ch);
  }

  lemma RequestTwo(x: Stream)
    requires At(x, x.core, x.log) && x.core.state == AtStart(PreStartReq)
    ensures Step(Step(x, 'H'), 'E') == TwoTaken(x, Cleared(x).core.(verb := Head, index := 2, state := InMethod))
  {
    hide Step, Push, Wrap;
    Opens(x, StartReq, 'H');
    TakesHead(Begun(x, StartReq));
    TakesE(Step(x, 'H'));
  }

  lemma ReplyTwo(x: Stream)
    requires At(x, x.core, x.log) && x.core.state == AtStart(PreStartRes)
    ensures Step(Step(x, 'H'), 'T') == TwoTaken(x, Cleared(x).core.(state := InStatusLine(ResHT)))
  {
    hide Step, Push, Wrap;
    Opens(x, StartRes, 'H');
    TakesH(Begun(x, StartRes));
    TakesSecond(Step(x, 'H'), 'T');
  }

  lemma DecidesH(x: Stream, k: Kind, ch: char)
    requires Undecided(x, x.core.noBody, x.log) && ((k == Request && ch == 'E') || (k == Response && ch == 'T'))
    ensures Step(Step(x, 'H'), ch) == Step(Step(Decided(x, k), 'H'), ch)
  {
    hide Step, Push, Wrap;
    UndecidedTwo(x, ch);
    if k == Request { RequestTwo(Decided(x, k)); } else { ReplyTwo(Decided(x, k)); }
  }

  /** From its second byte at the latest such a parser is one for messages of the kind that has come. */
  lemma Decides(x: Stream, k: Kind, skip: bool, log: seq<Event>, l: Line) returns (y: Stream)
    requires Starts(x, k, skip, log) && LineOk(l, k)
    ensures Ready(y, k, skip, log) && Run(x, LineText(l)) == Run(y, LineText(l))
  {
    hide Step, Run, LineOk;
    y := if Ready(x, k, skip, log) then x else Decided(x, k);
    if !Ready(x, k, skip, log) {
      var s := LineText(l);
      FirstBytes(l, k);
      RunCons(x, s);
      RunCons(y, s);
      if s[0] == 'H' {
        RunCons(Step(x, s[0]), s[1..]);
        RunCons(Step(y, s[0]), s[1..]);
        DecidesH(x, k, s[1]);
      } else {
        DecidesOther(x, s[0]);
      }
    }
  }

  lemma FirstBytes(l: Line, k: Kind)
    requires LineOk(l, k)
    ensures var s := LineText(l);
            && |s| >= 2 && s[0] != CR && s[0] != LF
            && (k == Request && s[0] == 'H' ==> s[1] == 'E') && (k == Response ==> s[0] == 'H' && s[1] == 'T')
  {
    hide TargetOk, IsNumber, VersionText, Dec;
    if l.RequestStart? {
      MethodBytes(l.verb);
    } else {
      assert LineText(l)[0] == 'H' && LineText(l)[1] == 'T';
    }
  }

  lemma MethodBytes(m: Method)
    ensures |MethodName(m)| >= 2 && MethodName(m)[0] != CR && MethodName(m)[0] != LF
    ensures MethodName(m)[0] == 'H' ==> MethodName(m)[1] == 'E'
  {
  }

  lemma Begins(x: Stream, k: Kind, skip: bool, log: seq<Event>, s: string) returns (y: Stream)
    requires Ready(x, k, skip, log) && s != [] && s[0] != CR && s[0] != LF
    ensures At(y, x.core.(state := AtStart(if k == Request then StartReq else StartRes)), Push(log, MessageBegin))
    ensures Run(x, s) == Run(y, s)
  {
    hide Step, Pass, Push;
    OnStart(x.core, s[0]);
    Retake(x, s[0], x.core, log);
    y := Apply(x, Pass(x.core, s[0]), s[0]);
  }

  /** The version and the end of a request line. */
  lemma VersionLine(x: Stream, c: Core, log: seq<Event>, a: string, b: string)
    requires At(x, c, log) && c.state == InVersion(HttpStart)
    requires IsNumber(a) && IsNumber(b) && !(Dec(a) == 0 && Dec(b) == 9)
    ensures At(Run(x, VersionText(a, b) + "\n"),
               c.(major := Dec(a), minor := Dec(b), state := InHeaders(FieldStart)), log)
  {
    hide Step, Run, Dec;
    VersionRun(x, c, log, a, b);
    RunAppend(x, VersionText(a, b), "\n");
    var y := Run(x, VersionText(a, b));
    RunOne(y, LF);
    VersionByte(y, y.core, log, LF);
  }

  /** From the first byte of a request line, once the message has begun. */
  lemma RequestLineFrom(y: Stream, c: Core, log: seq<Event>, l: Line)
    requires At(y, c, log) && c.state == AtStart(StartReq) && LineOk(l, Request)
    ensures At(Run(y, LineText(l)),
               c.(flags := NO_FLAGS, contentLength := -1, verb := l.verb, index := |MethodName(l.verb)| + 1,
                  major := Dec(l.major), minor := Dec(l.minor), state := InHeaders(FieldStart)),
               Push(log, Data(Url, l.target)))
  {
    hide Step, Push, MethodName, Run, TargetOk, IsNumber, VersionText, Dec;
    var name, rest := MethodName(l.verb), VersionText(l.major, l.minor) + "\n";
    MethodRun(y, c, log, l.verb);
    RunAppend(y, name + " ", l.target + " " + rest);
    var z := Run(y, name + " ");
    TargetRun(z, z.core, log, l.target);
    RunAppend(z, l.target + " ", rest);
    var u := Run(z, l.target + " ");
    VersionLine(u, u.core, u.log, l.major, l.minor);
  }

  lemma RequestLineRun(x: Stream, skip: bool, log: seq<Event>, l: Line)
    requires Starts(x, Request, skip, log) && LineOk(l, Request)
    ensures var c := Run(x, LineText(l)).core;
            && At(Run(x, LineText(l)), c, PushAll(log, LineEvents(l))) && HeadCore(c, l, Request, skip)
            && c.flags == NO_FLAGS && c.contentLength == -1
  {
    hide Step, Push, MethodName, Run, LineText, Dec, Starts;
    FirstBytes(l, Request);
    var d := Decides(x, Request, skip, log, l);
    var y := Begins(d, Request, skip, log, LineText(l));
    RequestLineFrom(y, y.core, y.log, l);
    PushTwo(log, MessageBegin, Data(Url, l.target));
  }

  lemma PushTwo(log: seq<Event>, a: Event, b: Event)
    ensures PushAll(log, [a, b]) == Push(Push(log, a), b)
  {
    assert [a, b][1..] == [b] && [b][1..] == [];
    assert PushAll(Push(Push(log, a), b), [b][1..]) == Push(Push(log, a), b);
  }

  lemma ResponseWord(x: Stream, c: Core, log: seq<Event>)
    requires At(x, c, log) && c.state == AtStart(StartRes)
    ensures At(Run(x, "HTTP/"), c.(flags := NO_FLAGS, contentLength := -1, state := InStatusLine(ResFirstMajor)), log)
  {
    hide Step, Pass;
    OnStart(c, 'H');
    Take(x, 'H', c, log);
    var y := Step(x, 'H');
    LineByte(y, y.core, log, 'T');
    var z := Step(y, 'T');
    LineByte(z, z.core, log, 'T');
    var u := Step(z, 'T');
    LineByte(u, u.core, log, 'P');
    var v := Step(u, 'P');
    LineByte(v, v.core, log, '/');
    RunFive(x, 'H', 'T', 'T', 'P', '/');
  }

  /** The version and the status of a status line. */
  lemma ResponseNumbers(x: Stream, c: Core, log: seq<Event>, a: string, b: string, n: string, end: string)
    returns (y: Stream)
    requires At(x, c, log) && c.state == InStatusLine(ResFirstMajor) && IsNumber(a) && IsNumber(b) && IsNumber(n)
    ensures At(y, c.(major := Dec(a), minor := Dec(b), status := Dec(n), state := InStatusLine(StatusCode)), log)
    ensures Run(x, a + "." + (b + " " + (n + end))) == Run(y, end)
  {
    hide Step, Run, Dec, IsNumber;
    NumberRun(x, c, log, MajorOfReply, a);
    RunAppend(x, a + ".", b + " " + (n + end));
    RunAppend(x, a, ".");
    var z := Run(x, a);
    RunOne(z, '.');
    LineByte(z, z.core, log, '.');
    var u := Step(z, '.');
    NumberRun(u, u.core, log, MinorOfReply, b);
    RunAppend(u, b + " ", n + end);
    RunAppend(u, b, " ");
    var v := Run(u, b);
    RunOne(v, ' ');
    LineByte(v, v.core, log, ' ');
    var w := Step(v, ' ');
    NumberRun(w, w.core, log, StatusOfReply, n);
    RunAppend(w, n, end);
    y := Run(w, n);
  }

  lemma ReasonByte(x: Stream, c: Core, log: seq<Event>, ch: char)
    requires At(x, c, log) && c.state == InReason && ch != CR && ch != LF
    ensures At(Step(x, ch), c, Push(log, Data(Reason, [ch])))
  {
    hide Step, Pass, Push;
    OnReason(c, ch);
    Take(x, ch, c, log);
  }

  lemma {:induction false} ReasonBytes(x: Stream, c: Core, log: seq<Event>, s: string)
    requires At(x, c, log) && c.state == InReason && forall i :: 0 <= i < |s| ==> s[i] != CR && s[i] != LF
    ensures At(Run(x, s), c, if s == [] then log else Push(log, Data(Reason, s)))
    decreases |s|
  {
    hide Step, Push;
    if s != [] {
      ReasonByte(x, c, log, s[0]);
      ReasonBytes(Step(x, s[0]), c, Push(log, Data(Reason, [s[0]])), s[1..]);
      PushCons(log, Reason, s);
    }
  }

  lemma ReasonRun(x: Stream, c: Core, log: seq<Event>, s: string)
    requires At(x, c, log) && c.state == InReason && forall i :: 0 <= i < |s| ==> s[i] != CR && s[i] != LF
    ensures At(Run(x, s + "\r\n"), c.(state := InHeaders(FieldStart)), Push(log, Data(Reason, s)))
  {
    hide Step, Pass, Push, Run;
    ReasonBytes(x, c, log, s);
    RunAppend(x, s, "\r\n");
    var y := Run(x, s);
    OnReason(y.core, CR);
    Take(y, CR, y.core, y.log);
    var z := Step(y, CR);
    LineByte(z, z.core, z.log, LF);
    RunTwo(y, CR, LF);
    PushJoin(log, Reason, s, []);
    assert s + [] == s;
  }

  lemma PhraseRun(x: Stream, c: Core, log: seq<Event>, p: Phrase)
    requires At(x, c, log) && c.state == InStatusLine(StatusCode) && PhraseOk(p)
    ensures At(Run(x, PhraseText(p)), c.(state := InHeaders(FieldStart)),
               if p.Phrase? then Push(log, Data(Reason, p.text)) else log)
  {
    hide Step, Push, Run;
    if p.Phrase? {
      LineByte(x, c, log, ' ');
      var y := Step(x, ' ');
      RunAppend(x, " ", p.text + "\r\n");
      RunOne(x, ' ');
      ReasonRun(y, y.core, log, p.text);
    } else {
      LineByte(x, c, log, CR);
      var y := Step(x, CR);
      LineByte(y, y.core, log, LF);
      RunTwo(x, CR, LF);
    }
  }

  /** From the first byte of a status line, once the message has begun. */
  lemma StatusLineFrom(y: Stream, c: Core, log: seq<Event>, l: Line)
    requires At(y, c, log) && c.state == AtStart(StartRes) && LineOk(l, Response)
    ensures At(Run(y, LineText(l)),
               c.(flags := NO_FLAGS, contentLength := -1, major := Dec(l.major), minor := Dec(l.minor),
                  status := Dec(l.status), state := InHeaders(FieldStart)),
               if l.reason.Phrase? then Push(log, Data(Reason, l.reason.text)) else log)
  {
    hide Step, Push, Run, PhraseText, Dec, IsNumber;
    var rest := l.major + "." + (l.minor + " " + (l.status + PhraseText(l.reason)));
    ResponseWord(y, c, log);
    RunAppend(y, "HTTP/", rest);
    var z := Run(y, "HTTP/");
    var u := ResponseNumbers(z, z.core, log, l.major, l.minor, l.status, PhraseText(l.reason));
    PhraseRun(u, u.core, log, l.reason);
  }

  lemma StatusLineRun(x: Stream, skip: bool, log: seq<Event>, l: Line)
    requires Starts(x, Response, skip, log) && LineOk(l, Response)
    ensures var c := Run(x, LineText(l)).core;
            && At(Run(x, LineText(l)), c, PushAll(log, LineEvents(l))) && HeadCore(c, l, Response, skip)
            && c.flags == NO_FLAGS && c.contentLength == -1
  {
    hide Step, Push, Run, LineText, Dec, Starts;
    FirstBytes(l, Response);
    var d := Decides(x, Response, skip, log, l);
    var y := Begins(d, Response, skip, log, LineText(l));
    StatusLineFrom(y, y.core, y.log, l);
    if l.reason.Phrase? {
      PushTwo(log, MessageBegin, Data(Reason, l.reason.text));
    } else {
      PushOne(log, MessageBegin);
    }
  }

  // ----- Header sections -----

  /** A name, its colon and the blanks after it, from the start of a line. */
  lemma NameAndPad(x: Stream, c: Core, log: seq<Event>, h: Header, value: string)
    returns (y: Stream)
    requires Near(x, c, log) && LineStart(c.state) && IsName(h.name) && IsPad(h.pad)
    ensures Near(y, c.(state := InHeaders(ValueStart)), Push(log, Data(Field, h.name)))
    ensures Run(x, h.name + ":" + (h.pad + value)) == Run(y, value)
    ensures y.core.header == ContentLength <==> IsLengthHeader(h)
    ensures y.core.header == TransferEncoding <==> IsCodingHeader(h)
    ensures y.core.header == UpgradeHeader <==> IsUpgradeHeader(h)
  {
    hide Step, Push, Run, SameName;
    var s := h.name + ":" + (h.pad + value);
    TokenIsNoEnd(h.name[0]);
    assert s[0] == h.name[0];
    var w := LeaveLws(x, x.core, log, s);
    NameColon(w, w.core, log, h.name);
    RunAppend(w, h.name + ":", h.pad + value);
    var u := Run(w, h.name + ":");
    PadRun(u, u.core, u.log, h.pad);
    RunAppend(u, h.pad, value);
    y := Run(u, h.pad);
  }

  /** The core after the header lines `hs`. */
  function After(c: Core, hs: seq<Header>): Core {
    c.(flags := c.flags.(chunked := c.flags.chunked || Coded(hs), upgrade := c.flags.upgrade || Upgrades(hs)),
       contentLength := if LengthOf(hs) == -1 then c.contentLength else LengthOf(hs),
       state := if hs == [] then c.state else InHeaders(ValueLws))
  }

  lemma HeaderRun(x: Stream, c: Core, log: seq<Event>, h: Header)
    requires Near(x, c, log) && LineStart(c.state) && HeaderOk(h)
    ensures Near(Run(x, HeaderText(h)), After(c, [h]), PushAll(log, HeaderEvents(h)))
  {
    OneHeader(h);
    hide Step, Push, Run, SameName, IsValue, IsCoding, IsProtocol, IsLengthText, Dec, Coded, Upgrades, LengthOf,
         IsChunked;
    var y := NameAndPad(x, c, log, h, h.value + "\r\n");
    PushTwo(log, Data(Field, h.name), Data(Value, h.value));
    if IsLengthHeader(h) {
      LengthLine(y, y.core, y.log, h.value);
    } else if IsCodingHeader(h) {
      CodingLine(y, y.core, y.log, h.value);
    } else if IsUpgradeHeader(h) {
      UpgradeLine(y, y.core, y.log, h.value);
    } else {
      ValueRun(y, y.core, y.log, h.value);
    }
  }

  lemma OneHeader(h: Header)
    ensures Coded([h]) <==> IsCodingHeader(h) && IsChunked(h.value)
    ensures Upgrades([h]) <==> IsUpgradeHeader(h)
    ensures LengthOf([h]) == if IsLengthHeader(h) then Dec(h.value) else -1
    ensures IsLengthHeader(h) ==> !IsCodingHeader(h) && !IsUpgradeHeader(h)
    ensures IsCodingHeader(h) ==> !IsUpgradeHeader(h)
  {
    hide IsChunked, Dec;
    assert [h][1..] == [];
    assert CONTENT_LENGTH[0] == 'c' && TRANSFER_ENCODING[0] == 't' && UPGRADE[0] == 'u';
  }

  /** Header lines are reported, and of what they say about the framing the parser keeps exactly what counts. */
  lemma {:induction false} HeadersRun(x: Stream, c: Core, log: seq<Event>, hs: seq<Header>)
    requires Near(x, c, log) && LineStart(c.state) && HeadersOk(hs)
    ensures Near(Run(x, HeadersText(hs)), After(c, hs), PushAll(log, HeadersEvents(hs)))
    decreases |hs|
  {
    hide Step, Push, Run, HeaderText, HeaderOk, SameName, IsChunked, Dec;
    if hs == [] {
      RunNone(x);
    } else {
      assert HeaderOk(hs[0]);
      HeaderRun(x, c, log, hs[0]);
      OneHeader(hs[0]);
      RunAppend(x, HeaderText(hs[0]), HeadersText(hs[1..]));
      var y := Run(x, HeaderText(hs[0]));
      HeadersRun(y, After(c, [hs[0]]), y.log, hs[1..]);
      PushAllAppend(log, HeaderEvents(hs[0]), HeadersEvents(hs[1..]));
      AfterCons(c, hs);
    }
  }

  lemma AfterCons(c: Core, hs: seq<Header>)
    requires hs != []
    ensures After(After(c, [hs[0]]), hs[1..]) == After(c, hs)
  {
    OneHeader(hs[0]);
    hide SameName, IsChunked, Dec;
  }

  /** From the first byte of a message to the end of its head. */
  lemma HeadRun(x: Stream, k: Kind, skip: bool, log: seq<Event>, m: Message) returns (c: Core)
    requires Starts(x, k, skip, log) && HeadOk(m, k)
    ensures HeadCore(c, m.line, k, skip) && ChoiceOf(c) == KindOf(m, k, skip) && UpgradeOf(c) == HandsOver(m)
    ensures LengthOf(m.headers) == c.contentLength
    ensures HeadDone(Run(x, HeadText(m)), c, PushAll(PushAll(log, LineEvents(m.line)), HeadersEvents(m.headers)))
    ensures Run(x, HeadText(m)).pos == x.pos + |HeadText(m)|
  {
    hide Step, Push, Run, LineText, HeadersText, HeadersEvents, LineEvents, Dec, Coded, Upgrades, LengthOf, HeaderOk;
    hide StartLineOf, LineOk, HeadDone;
    if k == Request { RequestLineRun(x, skip, log, m.line); } else { StatusLineRun(x, skip, log, m.line); }
    RunAppend(x, LineText(m.line), HeadersText(m.headers) + "\r\n");
    var y, log1 := Run(x, LineText(m.line)), PushAll(log, LineEvents(m.line));
    HeadersRun(y, y.core, log1, m.headers);
    RunAppend(y, HeadersText(m.headers), "\r\n");
    var z := Run(y, HeadersText(m.headers));
    c := After(y.core, m.headers);
    HeadEnd(z, c, z.log);
    PosRun(x, LineText(m.line));
    PosRun(y, HeadersText(m.headers));
  }

  /** The log when a head has been reported. */
  lemma HeadEventsSplit(log: seq<Event>, m: Message)
    ensures PushAll(log, HeadEvents(m))
         == Push(PushAll(PushAll(log, LineEvents(m.line)), HeadersEvents(m.headers)),
                 HeadersComplete(StartLineOf(m.line), HandsOver(m)))
  {
    hide Push, HeadersEvents, LineEvents;
    var a, b, e := LineEvents(m.line), HeadersEvents(m.headers), HeadersComplete(StartLineOf(m.line), HandsOver(m));
    PushAllAppend(log, a, b + [e]);
    PushAllAppend(PushAll(log, a), b, [e]);
    PushOne(PushAll(PushAll(log, a), b), e);
  }

  // ----- Bodies and pipelines -----

  lemma {:induction false} ChunksRun(x: Stream, c: Core, log: seq<Event>, ks: seq<Chunk>)
    requires Near(x, c, log) && c.state == InChunkHeader(ChunkSizeStart)
    requires forall i :: 0 <= i < |ks| ==> ChunkOk(ks[i]) && ks[i].data != []
    ensures Near(Run(x, ChunksText(ks)), c.(contentLength := if ks == [] then c.contentLength else 0),
                 PushAll(log, ChunksEvents(ks)))
    decreases |ks|
  {
    hide Step, Push, Run, ChunkText, ChunkOk;
    if ks == [] {
      RunNone(x);
    } else {
      ChunkRun(x, c, log, ks[0]);
      RunAppend(x, ChunkText(ks[0]), ChunksText(ks[1..]));
      var y := Run(x, ChunkText(ks[0]));
      ChunksRun(y, c.(contentLength := 0), y.log, ks[1..]);
      PushAllAppend(log, ChunksEvents(ks)[..3], ChunksEvents(ks[1..]));
      assert ChunksEvents(ks)[..3] == [ChunkHeader(|ks[0].data|), Data(Body, ks[0].data), ChunkComplete];
    }
  }

  /** A chunk: its length and exactly its bytes are reported, then its completion. */
  lemma ChunkRun(x: Stream, c: Core, log: seq<Event>, k: Chunk)
    requires Near(x, c, log) && c.state == InChunkHeader(ChunkSizeStart) && ChunkOk(k) && k.data != []
    ensures Near(Run(x, ChunkText(k)), c.(contentLength := 0),
                 PushAll(log, [ChunkHeader(|k.data|), Data(Body, k.data), ChunkComplete]))
    ensures Run(x, ChunkText(k)).since == 1
  {
    hide Step, Push, Run, Hex;
    SizeLine(x, x.core, log, k.size, k.ext);
    RunAppend(x, SizeText(k), k.data + "\r\n");
    var y := Run(x, SizeText(k));
    ChunkDataRun(y, y.core, y.log, k.data);
    PushThree(log, ChunkHeader(|k.data|), Data(Body, k.data), ChunkComplete);
  }

  lemma PushThree(log: seq<Event>, a: Event, b: Event, e: Event)
    ensures PushAll(log, [a, b, e]) == Push(Push(Push(log, a), b), e)
  {
    hide Push;
    PushAllAppend(log, [a, b], [e]);
    assert [a, b] + [e] == [a, b, e];
    PushTwo(log, a, b);
    PushOne(Push(Push(log, a), b), e);
  }

  lemma ChunkedRun(x: Stream, c: Core, log: seq<Event>, b: Content)
    requires Near(x, c, log) && c.state == InChunkHeader(ChunkSizeStart) && b.Chunked?
    requires forall i :: 0 <= i < |b.chunks| ==> ChunkOk(b.chunks[i]) && b.chunks[i].data != []
    requires ChunkOk(b.last) && b.last.data == [] && HeadersOk(b.trailers)
    ensures var y := Run(x, BodyText(b));
            && Completed(y, y.core, PushAll(log, BodyEvents(b))) && y.pos == x.pos + |BodyText(b)|
            && y.core.state == StartOf(c.kind) && y.core.kind == c.kind && y.core.verb == c.verb
            && y.core.noBody == c.noBody && y.core.upgrade == c.upgrade
  {
    hide Step, Push, Run, Hex, ChunksText, HeadersText, SizeText, ChunksEvents, HeadersEvents, HeadersOk, StartOf,
         ChunkOk;
    hide Coded, Upgrades, LengthOf;
    var tail := HeadersText(b.trailers) + "\r\n";
    ChunksRun(x, c, log, b.chunks);
    RunAppend(x, ChunksText(b.chunks), SizeText(b.last) + tail);
    var y := Run(x, ChunksText(b.chunks));
    LastChunk(y, y.core, y.log, b.last);
    RunAppend(y, SizeText(b.last), tail);
    var z := Run(y, SizeText(b.last));
    HeadersRun(z, z.core, z.log, b.trailers);
    RunAppend(z, HeadersText(b.trailers), "\r\n");
    var u := Run(z, HeadersText(b.trailers));
    TrailerEnd(u, u.core, u.log);
    ChunkedEvents(log, b);
    PosRun(x, ChunksText(b.chunks));
    PosRun(y, SizeText(b.last));
    PosRun(z, HeadersText(b.trailers));
  }

  lemma LastChunk(x: Stream, c: Core, log: seq<Event>, k: Chunk)
    requires At(x, c, log) && c.state == InChunkHeader(ChunkSizeStart) && ChunkOk(k) && k.data == []
    ensures At(Run(x, SizeText(k)),
               c.(contentLength := 0, flags := c.flags.(trailing := true), state := InHeaders(FieldStart)),
               Push(log, ChunkHeader(0)))
  {
    hide Step, Push, Run, Hex;
    SizeLine(x, c, log, k.size, k.ext);
  }

  lemma ChunkedEvents(log: seq<Event>, b: Content)
    requires b.Chunked?
    ensures PushAll(log, BodyEvents(b))
         == Push(Push(PushAll(Push(PushAll(log, ChunksEvents(b.chunks)), ChunkHeader(0)), HeadersEvents(b.trailers)),
                      ChunkComplete), MessageComplete)
  {
    hide Push, ChunksEvents, HeadersEvents;
    var a, t := ChunksEvents(b.chunks), HeadersEvents(b.trailers);
    var end := [ChunkComplete, MessageComplete];
    PushAllAppend(log, a, [ChunkHeader(0)] + (t + end));
    PushAllAppend(PushAll(log, a), [ChunkHeader(0)], t + end);
    PushOne(PushAll(log, a), ChunkHeader(0));
    PushAllAppend(Push(PushAll(log, a), ChunkHeader(0)), t, end);
    PushTwo(PushAll(Push(PushAll(log, a), ChunkHeader(0)), t), ChunkComplete, MessageComplete);
  }

  /** The parser is where a message ends: ready for the next one, or stopped because another protocol takes over. */
  predicate Ended(y: Stream, k: Kind, skip: bool, log: seq<Event>, over: bool) {
    if over then y.stopped && y.core.errno == OK && y.core.upgrade && y.core.state == StartOf(k) && y.log == log
    else Ready(y, k, skip, log) && y.since == 1
  }

  /** The events of a well-formed message are exactly what the parser reports for its text, and it takes no more. */
  lemma MessageRun(x: Stream, k: Kind, skip: bool, log: seq<Event>, m: Message)
    requires Starts(x, k, skip, log) && MessageOk(m, k, skip)
    ensures Ended(Run(x, Text(m)), k, skip, PushAll(log, Events(m)), HandsOver(m))
    ensures Run(x, Text(m)).pos == x.pos + |Text(m)|
  {
    hide Step, Push, Run, HeadText, HeadEvents, HeadOk, HandsOver, LengthOf, KindOf, StartLineOf, HeadersOk, ChunkOk;
    hide LineEvents, HeadersEvents, Bare;
    var c := HeadRun(x, k, skip, log, m);
    RunAppend(x, HeadText(m), BodyText(m.content));
    var y, log1 := Run(x, HeadText(m)), PushAll(log, HeadEvents(m));
    HeadEventsSplit(log, m);
    PushAllAppend(log, HeadEvents(m), BodyEvents(m.content));
    match m.content
    case Nothing =>
      RunNone(y);
      PushOne(log1, MessageComplete);
    case Plain(body) =>
      IdentityRun(y, y.core, log1, body);
      PushTwo(log1, Data(Body, body), MessageComplete);
    case Chunked(_, _, _) =>
      ChunkedRun(y, y.core, log1, m.content);
  }

  function PipelineText(ms: seq<Message>): string {
    if ms == [] then [] else Text(ms[0]) + PipelineText(ms[1..])
  }

  function PipelineEvents(ms: seq<Message>): seq<Event> {
    if ms == [] then [] else Events(ms[0]) + PipelineEvents(ms[1..])
  }

  /** Messages that may follow each other on a connection. */
  predicate PipelineOk(ms: seq<Message>, k: Kind, skip: bool) {
    forall i :: 0 <= i < |ms| ==> MessageOk(ms[i], k, skip) && !HandsOver(ms[i])
  }

  /** Any number of messages one after the other on a connection. */
  lemma {:induction false} PipelineRun(x: Stream, k: Kind, skip: bool, log: seq<Event>, ms: seq<Message>)
    requires Starts(x, k, skip, log) && PipelineOk(ms, k, skip)
    ensures Starts(Run(x, PipelineText(ms)), k, skip, PushAll(log, PipelineEvents(ms)))
    ensures ms != [] || Ready(x, k, skip, log) ==>
              Ready(Run(x, PipelineText(ms)), k, skip, PushAll(log, PipelineEvents(ms)))
    ensures if ms == [] then Run(x, PipelineText(ms)) == x else Run(x, PipelineText(ms)).since == 1
    ensures Run(x, PipelineText(ms)).pos == x.pos + |PipelineText(ms)|
    decreases |ms|
  {
    hide Step, Push, Run, Text, Events, MessageOk, HandsOver;
    if ms == [] {
      RunNone(x);
    } else {
      assert MessageOk(ms[0], k, skip);
      MessageRun(x, k, skip, log, ms[0]);
      RunAppend(x, Text(ms[0]), PipelineText(ms[1..]));
      var y := Run(x, Text(ms[0]));
      PipelineRun(y, k, skip, y.log, ms[1..]);
      if ms[1..] == [] { RunNone(y); }
      PushAllAppend(log, Events(ms[0]), PipelineEvents(ms[1..]));
    }
  }

  /** The parser stops right behind a message after which another protocol takes over, and leaves the rest alone. */
  lemma HandOver(x: Stream, k: Kind, skip: bool, log: seq<Event>, ms: seq<Message>, m: Message, rest: string)
    requires Starts(x, k, skip, log) && PipelineOk(ms, k, skip) && MessageOk(m, k, skip) && HandsOver(m)
    ensures var y := Run(x, PipelineText(ms) + (Text(m) + rest));
            && y.stopped && y.core.errno == OK && y.core.upgrade && y.core.state == StartOf(k)
            && y.pos == x.pos + |PipelineText(ms)| + |Text(m)|
            && y.log == PushAll(log, PipelineEvents(ms) + Events(m))
  {
    hide Step, Push, Run, Text, Events, MessageOk, PipelineText, PipelineEvents, HandsOver, PipelineOk;
    PipelineRun(x, k, skip, log, ms);
    RunAppend(x, PipelineText(ms), Text(m) + rest);
    var y := Run(x, PipelineText(ms));
    MessageRun(y, k, skip, y.log, m);
    RunAppend(y, Text(m), rest);
    RunHalted(Run(y, Text(m)), rest);
    PushAllAppend(log, PipelineEvents(ms), Events(m));
  }
}
