/** The reference meaning of the parser: a machine that takes one byte at a time, has no
    buffers, no marks, no look-ahead and no block reads, and logs merged callbacks. */
module HttpStream {
  import opened HttpMachine

  // ----- Merged logs -----

  /** Appends an event; a data event joins a preceding data event of the same span. */
  function Push(log: seq<Event>, e: Event): (r: seq<Event>)
    ensures r != []
    ensures e.Data? ==> r[|r| - 1].Data? && r[|r| - 1].span == e.span
    ensures !e.Data? ==> r == log + [e]
  {
    if e.Data? && log != [] && log[|log| - 1].Data? && log[|log| - 1].span == e.span then
      log[..|log| - 1] + [Data(e.span, log[|log| - 1].bytes + e.bytes)]
    else log + [e]
  }

  function PushAll(log: seq<Event>, es: seq<Event>): seq<Event>
    decreases |es|
  {
    if es == [] then log else PushAll(Push(log, es[0]), es[1..])
  }

  /** A log of callbacks with adjacent data callbacks of one kind joined. */
  function Merged(es: seq<Event>): seq<Event> {
    PushAll([], es)
  }

  /** Splitting a data callback in two does not show in a merged log. */
  lemma PushJoin(log: seq<Event>, k: Span, x: string, y: string)
    ensures Push(Push(log, Data(k, x)), Data(k, y)) == Push(log, Data(k, x + y))
  {
    var once := Push(log, Data(k, x));
    if log != [] && log[|log| - 1].Data? && log[|log| - 1].span == k {
      var w := log[|log| - 1].bytes;
      assert once[..|once| - 1] == log[..|log| - 1];
      assert w + x + y == w + (x + y);
    } else {
      assert once[..|once| - 1] == log;
    }
  }

  lemma PushOne(log: seq<Event>, e: Event)
    ensures PushAll(log, [e]) == Push(log, e)
  {
    assert PushAll(Push(log, e), [e][1..]) == Push(log, e);
  }

  lemma {:induction false} PushAllAppend(log: seq<Event>, es: seq<Event>, fs: seq<Event>)
    ensures PushAll(log, es + fs) == PushAll(PushAll(log, es), fs)
    decreases |es|
  {
    if es == [] {
      assert es + fs == fs;
    } else {
      assert (es + fs)[1..] == es[1..] + fs;
      PushAllAppend(Push(log, es[0]), es[1..], fs);
    }
  }

  // ----- One byte -----

  /** Upper bound on how often a byte can still be looked at again. */
  function Rank(s: State): nat {
    match s
    case AtStart(PreStartReqOrRes) => 3
    case AtStart(StartReqOrRes) => 2
    case AtStart(PreStartRes) => 1
    case AtStart(PreStartReq) => 1
    case BeforeUrl => 3
    case InUrl(u) => if u.Host? then 3 else 2
    case InVersion(_) => 2
    case InHeaders(ValueLws) => 3
    case InHeaders(FieldStart) => 2
    case InHeaders(HeadersAlmostDone) => 1
    case InValue => 1
    case InBody(_) => 1
    case _ => 0
  }

  predicate Falls(s: State, o: Outcome) {
    o.control == Again ==> Rank(o.core.state) < Rank(s)
  }

  // ----- What every pass keeps -----

  /** Enough for every assertion of the source, every table index and every fixed-width
      field: 64-bit content_length, 16-bit version and status numbers, 8-bit index. */
  predicate Sound(c: Core) {
    && (BeforeReset(c.state) || -1 <= c.contentLength <= INT64_MAX)
    && match c.state
       case InMethod => 1 <= c.index <= |MethodName(c.verb)|
       case InVersion(s) => (s.Major? ==> c.major <= 999) && (s.Minor? ==> c.minor <= 999)
       case InStatusLine(s) =>
         (s.ResMajor? ==> c.major <= 999) && (s.ResMinor? ==> c.minor <= 999) && (s.StatusCode? ==> c.status <= 999)
       case InField => SoundField(c.header, c.index)
       case InValue => SoundValue(c.header, c.index, c.contentLength)
       case InHeaders(s) => s.HeaderAlmostDone? ==> SoundValue(c.header, c.index, c.contentLength)
       case InChunkHeader(s) => c.flags.chunked && (s.ChunkSizeStart? || c.contentLength >= 0)
       case InBody(s) =>
         (s.ChunkData? || s.ChunkDataAlmostDone? ==> c.flags.chunked)
         && (s.Identity? || s.ChunkData? ==> c.contentLength > 0)
         && (s.ChunkDataAlmostDone? ==> c.contentLength == 0)
       case ChunkDataDone => c.flags.chunked
       case _ => true
  }

  /** The initialiser leaves content_length as it was; the first byte of a message resets it. */
  predicate BeforeReset(s: State) { s.AtStart? && !s.start.ResOrRespH? }

  predicate SoundField(h: HeaderState, index: nat) {
    match h
    case General | ContentLength | TransferEncoding | UpgradeHeader => true
    case MatchingContentLength => index <= 12
    case MatchingTransferEncoding => index <= 15
    case MatchingUpgrade => index <= 5
    case _ => false
  }

  predicate SoundValue(h: HeaderState, index: nat, contentLength: int) {
    match h
    case General | Quoted | QuotedEscape | ChunkedCoding => true
    case MatchingChunked => index <= 5
    case ContentLength => 0 <= contentLength <= INT64_MAX - 8
    case _ => false
  }

  datatype Ownership = Unowned | Owned(span: Span)

  /** The span whose mark may be set in a state. */
  function Owner(s: State): Ownership {
    match s
    case InField => Owned(Field)
    case InValue => Owned(Value)
    case InUrl(_) => Owned(Url)
    case InReason => Owned(Reason)
    case InBody(_) => Owned(Body)
    case _ => Unowned
  }

  /** The states whose bytes are read in blocks. */
  predicate ReadsBlock(s: State) { s.InBody? && !s.body.ChunkDataAlmostDone? }

  /** How a pass that reads no body byte moves between the states that own marks. */
  predicate Shape(s: State, o: Outcome) {
    var before, after := Owner(s), Owner(o.core.state);
    match o.act
    case Idle =>
      if o.control == Again && before == Owned(Url) then after == Owned(Url)
      else before == Unowned && (after == Unowned || after == Owned(Reason) || after == Owned(Body))
    case Open(k) => o.control == Again && before == Unowned && k == Url && after == Owned(Url)
    case Mark(k) =>
      o.control == Advance && k != Body && after == Owned(k) &&
          (before == Unowned || (k == Reason && before == Owned(k)))
    case Keep(k) => o.control == Advance && k != Reason && k != Body && before == Owned(k) && after == Owned(k)
    case Close(k) => k != Reason && before == Owned(k) && after == Unowned
    case MarkClose(k) => after == Unowned && if k == Value then before == Unowned else k == Reason && before == Owned(k)
    case Notice(e) => !e.Data? && before == Unowned && (after == Unowned || after == Owned(Body))
    case Space => o.control == Advance && before == Unowned && (after == Unowned || after == Owned(Value))
  }

  /** The header counter is restarted before any body state leads back to a header state. */
  predicate Restarts(s: State, o: Outcome) {
    && (o.reset ==> o.control == Advance || o.control == Stop)
    && (o.control == Stop ==> o.reset && Owner(o.core.state) == Unowned && ParsingHeader(o.core.state))
    && (o.control != Fail && !ParsingHeader(s) && ParsingHeader(o.core.state) ==> o.reset)
  }

  /** What a pass keeps; the part under `Sound` holds of a pass from a sound state. */
  predicate Kept(c: Core, ch: char, o: Outcome) {
    && Falls(c.state, o)
    && Restarts(c.state, o)
    && (o.control != Fail && o.core.state.InField? ==> IsToken(ch))
    && (o.control == Fail ==> o.core.errno != OK)
    && (o.act == Space ==> c.state == InHeaders(ValueLws) || (c.state == InHeaders(HeaderAlmostDone) && ch != LF))
    && (o.control != Fail && o.core.state == InHeaders(HeaderAlmostDone) ==>
          if o.control == Again then ch == LF else ch == CR)
    && (Sound(c) && c.errno == OK && o.control != Fail ==>
          o.core.errno == OK && Sound(o.core) && (ReadsBlock(c.state) || Shape(c.state, o)))
  }

  lemma PassKeeps(c: Core, ch: char)
    ensures Kept(c, ch, Pass(c, ch))
  {
    hide Kept;
    match c.state
    case AtStart(s) => StartKeeps(c, s, ch);
    case InMethod => MethodKeeps(c, ch);
    case BeforeUrl => BeforeUrlKeeps(c, ch);
    case InUrl(u) => UrlKeeps(c, u, ch);
    case InVersion(s) => VersionKeeps(c, s, ch);
    case InStatusLine(s) => StatusLineKeeps(c, s, ch);
    case InReason => ReasonKeeps(c, ch);
    case InHeaders(s) => HeadersKeep(c, s, ch);
    case InField => FieldKeeps(c, ch);
    case InValue => ValueKeeps(c, ch);
    case InChunkHeader(s) => ChunkHeaderKeeps(c, s, ch);
    case InBody(s) => BodyKeeps(c, s, ch);
    case ChunkDataDone => EndKeeps(c, ch);
    case MessageDone => EndKeeps(c, ch);
  }

  lemma StartKeeps(c: Core, s: StartState, ch: char)
    requires c.state == AtStart(s)
    ensures Kept(c, ch, PassStart(c, s, ch))
  {
    hide Kept, PassStart;
    if s.StartReq? {
      RequestStartKeeps(c, s, ch);
    } else if s.ResOrRespH? {
      EitherStartKeeps(c, s, ch);
    } else {
      PlainStartKeeps(c, s, ch);
    }
  }

  lemma RequestStartKeeps(c: Core, s: StartState, ch: char)
    requires c.state == AtStart(s) && s.StartReq?
    ensures Kept(c, ch, PassStart(c, s, ch))
  {
    MethodNameLength(c.verb);
    MethodNameLength(if FirstMethod(ch).SomeMethod? then FirstMethod(ch).verb else Head);
    MethodNameLength(Head);
    hide MethodName;
  }

  lemma EitherStartKeeps(c: Core, s: StartState, ch: char)
    requires c.state == AtStart(s) && s.ResOrRespH?
    ensures Kept(c, ch, PassStart(c, s, ch))
  {
    MethodNameLength(Head);
    hide MethodName, FirstMethod;
  }

  lemma PlainStartKeeps(c: Core, s: StartState, ch: char)
    requires c.state == AtStart(s) && !s.StartReq? && !s.ResOrRespH?
    ensures Kept(c, ch, PassStart(c, s, ch))
  {
    hide MethodName, FirstMethod;
  }

  lemma MethodKeeps(c: Core, ch: char)
    requires c.state == InMethod
    ensures Kept(c, ch, PassMethod(c, ch))
  {
    OtherMethodFits(c.verb, c.index, ch);
    hide MethodName, OtherMethod;
  }

  lemma BeforeUrlKeeps(c: Core, ch: char)
    requires c.state == BeforeUrl
    ensures Kept(c, ch, PassBeforeUrl(c, ch))
  {
    hide MethodName, IsToken, SoundField, SoundValue;
  }

  lemma UrlKeeps(c: Core, u: UrlState, ch: char)
    requires c.state == InUrl(u)
    ensures Kept(c, ch, PassUrl(c, u, ch))
  {
    hide MethodName, MoveUrl;
    UrlErrors(u, ch);
  }

  lemma VersionKeeps(c: Core, s: VersionState, ch: char)
    requires c.state == InVersion(s)
    ensures Kept(c, ch, PassVersion(c, s, ch))
  {
    hide Kept, PassVersion;
    if s.Major? || s.FirstMinor? || s.FirstMajor? { FirstVersionKeeps(c, s, ch); } else { LastVersionKeeps(c, s, ch); }
  }

  lemma FirstVersionKeeps(c: Core, s: VersionState, ch: char)
    requires c.state == InVersion(s) && (s.Major? || s.FirstMinor? || s.FirstMajor?)
    ensures Kept(c, ch, PassVersion(c, s, ch))
  {
    hide MethodName;
  }

  lemma LastVersionKeeps(c: Core, s: VersionState, ch: char)
    requires c.state == InVersion(s) && !(s.Major? || s.FirstMinor? || s.FirstMajor?)
    ensures Kept(c, ch, PassVersion(c, s, ch))
  {
    hide Kept, PassVersion;
    if s.Minor? { MinorKeeps(c, ch); } else { WordKeeps(c, s, ch); }
  }

  lemma MinorKeeps(c: Core, ch: char)
    requires c.state == InVersion(Minor)
    ensures Kept(c, ch, PassVersion(c, Minor, ch))
  {
    hide MethodName, IsToken, SoundField, SoundValue;
  }

  lemma WordKeeps(c: Core, s: VersionState, ch: char)
    requires c.state == InVersion(s) && !(s.Major? || s.FirstMinor? || s.FirstMajor? || s.Minor?)
    ensures Kept(c, ch, PassVersion(c, s, ch))
  {
    hide MethodName, IsToken, SoundField, SoundValue;
  }

  lemma StatusLineKeeps(c: Core, s: LineState, ch: char)
    requires c.state == InStatusLine(s)
    ensures Kept(c, ch, PassStatusLine(c, s, ch))
  {
    hide Kept, PassStatusLine;
    if s.ResMajor? || s.ResMinor? { NumberKeeps(c, s, ch); } else { StatusKeeps(c, s, ch); }
  }

  lemma NumberKeeps(c: Core, s: LineState, ch: char)
    requires c.state == InStatusLine(s) && (s.ResMajor? || s.ResMinor?)
    ensures Kept(c, ch, PassStatusLine(c, s, ch))
  {
    hide MethodName;
  }

  lemma StatusKeeps(c: Core, s: LineState, ch: char)
    requires c.state == InStatusLine(s) && !(s.ResMajor? || s.ResMinor?)
    ensures Kept(c, ch, PassStatusLine(c, s, ch))
  {
    hide Kept, PassStatusLine;
    if s.StatusCode? { CodeKeeps(c, ch); } else { OtherLineKeeps(c, s, ch); }
  }

  lemma CodeKeeps(c: Core, ch: char)
    requires c.state == InStatusLine(StatusCode)
    ensures Kept(c, ch, PassStatusLine(c, StatusCode, ch))
  {
    hide MethodName, IsToken, SoundField, SoundValue;
  }

  lemma OtherLineKeeps(c: Core, s: LineState, ch: char)
    requires c.state == InStatusLine(s) && !(s.ResMajor? || s.ResMinor? || s.StatusCode?)
    ensures Kept(c, ch, PassStatusLine(c, s, ch))
  {
    hide MethodName, IsToken, SoundField, SoundValue;
  }

  lemma ReasonKeeps(c: Core, ch: char)
    requires c.state == InReason
    ensures Kept(c, ch, PassReason(c, ch))
  {
    hide MethodName;
  }

  lemma HeadersKeep(c: Core, s: HeaderPlace, ch: char)
    requires c.state == InHeaders(s)
    ensures Kept(c, ch, PassHeaders(c, s, ch))
  {
    hide Kept, PassFieldStart, PassValueStart, PassHeadersDone;
    match s
    case FieldStart => FieldStartKeeps(c, ch);
    case ValueStart => ValueStartKeeps(c, ch);
    case HeadersDone => HeadersDoneKeeps(c, ch);
    case HeaderAlmostDone => HeaderEndKeeps(c, s, ch);
    case ValueLws => HeaderEndKeeps(c, s, ch);
    case HeadersAlmostDone => HeaderEndKeeps(c, s, ch);
  }

  lemma HeaderEndKeeps(c: Core, s: HeaderPlace, ch: char)
    requires c.state == InHeaders(s) && (s.HeaderAlmostDone? || s.ValueLws? || s.HeadersAlmostDone?)
    ensures Kept(c, ch, PassHeaders(c, s, ch))
  {
    hide Kept, PassHeaders;
    if s.HeaderAlmostDone? { AlmostDoneKeeps(c, ch); } else { BlankLineKeeps(c, s, ch); }
  }

  lemma AlmostDoneKeeps(c: Core, ch: char)
    requires c.state == InHeaders(HeaderAlmostDone)
    ensures Kept(c, ch, PassHeaders(c, HeaderAlmostDone, ch))
  {
    hide MethodName, PassFieldStart, PassValueStart, PassHeadersDone, IsToken;
  }

  lemma BlankLineKeeps(c: Core, s: HeaderPlace, ch: char)
    requires c.state == InHeaders(s) && (s.ValueLws? || s.HeadersAlmostDone?)
    ensures Kept(c, ch, PassHeaders(c, s, ch))
  {
    hide MethodName, PassFieldStart, PassValueStart, PassHeadersDone, IsToken, SoundField, SoundValue;
  }

  lemma FieldStartKeeps(c: Core, ch: char)
    requires c.state == InHeaders(FieldStart)
    ensures Kept(c, ch, PassFieldStart(c, ch))
  {
    hide MethodName;
  }

  lemma ValueStartKeeps(c: Core, ch: char)
    requires c.state == InHeaders(ValueStart)
    ensures Kept(c, ch, PassValueStart(c, ch))
  {
    hide Kept, PassValueStart;
    if c.header.ContentLength? || c.header.TransferEncoding? || c.header.UpgradeHeader? {
      SpecialStartKeeps(c, ch);
    } else {
      OtherStartKeeps(c, ch);
    }
  }

  lemma SpecialStartKeeps(c: Core, ch: char)
    requires c.state == InHeaders(ValueStart)
    requires c.header.ContentLength? || c.header.TransferEncoding? || c.header.UpgradeHeader?
    ensures Kept(c, ch, PassValueStart(c, ch))
  {
    hide MethodName, IsToken, SoundField;
  }

  lemma OtherStartKeeps(c: Core, ch: char)
    requires c.state == InHeaders(ValueStart)
    requires !(c.header.ContentLength? || c.header.TransferEncoding? || c.header.UpgradeHeader?)
    ensures Kept(c, ch, PassValueStart(c, ch))
  {
    hide MethodName, IsToken, SoundField;
  }

  lemma HeadersDoneKeeps(c: Core, ch: char)
    requires c.state == InHeaders(HeadersDone)
    ensures Kept(c, ch, PassHeadersDone(c))
  {
    hide MethodName;
  }

  lemma FieldKeeps(c: Core, ch: char)
    requires c.state == InField
    ensures Kept(c, ch, PassField(c, ch))
  {
    var t := Token(ch);
    MatchNameKeeps(c, t, "content-length", ContentLength);
    MatchNameKeeps(c, t, "transfer-encoding", TransferEncoding);
    MatchNameKeeps(c, t, "upgrade", UpgradeHeader);
    hide MethodName, MatchName;
  }

  lemma ValueKeeps(c: Core, ch: char)
    requires c.state == InValue
    ensures Kept(c, ch, PassValue(c, ch))
  {
    ValueByteKeeps(c, ch);
    hide MethodName, PassValueByte;
  }

  lemma ValueByteKeeps(c: Core, ch: char)
    requires c.state == InValue
    ensures Kept(c, ch, PassValueByte(c, ch))
  {
    hide Kept, PassValueByte;
    if c.header.ContentLength? || c.header.MatchingChunked? { NumberByteKeeps(c, ch); } else { OtherByteKeeps(c, ch); }
  }

  lemma NumberByteKeeps(c: Core, ch: char)
    requires c.state == InValue && (c.header.ContentLength? || c.header.MatchingChunked?)
    ensures Kept(c, ch, PassValueByte(c, ch))
  {
    MatchNameKeeps(c, Lower(ch), "chunked", ChunkedCoding);
    if c.header.ContentLength? { LengthKeeps(c, ch); }
    hide MethodName, MatchName, PassLength;
  }

  lemma OtherByteKeeps(c: Core, ch: char)
    requires c.state == InValue && !(c.header.ContentLength? || c.header.MatchingChunked?)
    ensures Kept(c, ch, PassValueByte(c, ch))
  {
    hide MethodName, MatchName, PassLength;
  }

  lemma LengthKeeps(c: Core, ch: char)
    requires c.state == InValue && c.header == ContentLength
    ensures Kept(c, ch, PassLength(c, ch))
  {
    hide MethodName;
  }

  lemma ChunkHeaderKeeps(c: Core, s: ChunkState, ch: char)
    requires c.state == InChunkHeader(s)
    ensures Kept(c, ch, PassChunkHeader(c, s, ch))
  {
    hide MethodName;
  }

  lemma BodyKeeps(c: Core, s: BodyState, ch: char)
    requires c.state == InBody(s)
    ensures Kept(c, ch, PassBody(c, s, ch))
  {
    hide MethodName;
  }

  lemma EndKeeps(c: Core, ch: char)
    requires c.state == ChunkDataDone || c.state == MessageDone
    ensures Kept(c, ch, Pass(c, ch))
  {
    hide MethodName;
  }

  lemma UrlErrors(u: UrlState, ch: char)
    ensures MoveUrl(u, ch).Leave? ==> (MoveUrl(u, ch).otherwise == OK <==> u.Host?)
  {
  }

  lemma OtherMethodFits(m: Method, index: nat, ch: char)
    ensures var o := OtherMethod(m, index, ch); o.SomeMethod? ==> index < |MethodName(o.verb)|
  {
    var o := OtherMethod(m, index, ch);
    if o.SomeMethod? { MethodNameLength(o.verb); }
    hide MethodName;
  }

  lemma MatchNameKeeps(c: Core, t: char, name: string, found: HeaderState)
    ensures var r := MatchName(c, t, name, found);
            && r == c.(index := c.index + 1, header := r.header)
            && (r.header == General || r.header == found || (r.header == c.header && r.index + 1 < |name|))
  {
  }

  lemma MethodNameLength(m: Method)
    ensures |MethodName(m)| >= if m == PropPatch then 9 else 3
  {
  }

  // Which part of the switch a pass takes; these keep the other parts out of a proof.

  lemma OnStart(c: Core, ch: char)
    requires c.state.AtStart?
    ensures Pass(c, ch) == PassStart(c, c.state.start, ch)
  {
    hide PassStart, PassMethod, PassBeforeUrl, PassUrl, PassVersion, PassStatusLine,
      PassReason, PassHeaders, PassField, PassValue, PassChunkHeader, PassBody;
  }

  lemma OnMethod(c: Core, ch: char)
    requires c.state.InMethod?
    ensures Pass(c, ch) == PassMethod(c, ch)
  {
    hide PassStart, PassMethod, PassBeforeUrl, PassUrl, PassVersion, PassStatusLine,
      PassReason, PassHeaders, PassField, PassValue, PassChunkHeader, PassBody;
  }

  lemma OnBeforeUrl(c: Core, ch: char)
    requires c.state.BeforeUrl?
    ensures Pass(c, ch) == PassBeforeUrl(c, ch)
  {
    hide PassStart, PassMethod, PassBeforeUrl, PassUrl, PassVersion, PassStatusLine,
      PassReason, PassHeaders, PassField, PassValue, PassChunkHeader, PassBody;
  }

  lemma OnUrl(c: Core, ch: char)
    requires c.state.InUrl?
    ensures Pass(c, ch) == PassUrl(c, c.state.url, ch)
  {
    hide PassStart, PassMethod, PassBeforeUrl, PassUrl, PassVersion, PassStatusLine,
      PassReason, PassHeaders, PassField, PassValue, PassChunkHeader, PassBody;
  }

  lemma OnVersion(c: Core, ch: char)
    requires c.state.InVersion?
    ensures Pass(c, ch) == PassVersion(c, c.state.version, ch)
  {
    hide PassStart, PassMethod, PassBeforeUrl, PassUrl, PassVersion, PassStatusLine,
      PassReason, PassHeaders, PassField, PassValue, PassChunkHeader, PassBody;
  }

  lemma OnStatusLine(c: Core, ch: char)
    requires c.state.InStatusLine?
    ensures Pass(c, ch) == PassStatusLine(c, c.state.line, ch)
  {
    hide PassStart, PassMethod, PassBeforeUrl, PassUrl, PassVersion, PassStatusLine,
      PassReason, PassHeaders, PassField, PassValue, PassChunkHeader, PassBody;
  }

  lemma OnReason(c: Core, ch: char)
    requires c.state.InReason?
    ensures Pass(c, ch) == PassReason(c, ch)
  {
    hide PassStart, PassMethod, PassBeforeUrl, PassUrl, PassVersion, PassStatusLine,
      PassReason, PassHeaders, PassField, PassValue, PassChunkHeader, PassBody;
  }

  lemma OnHeaders(c: Core, ch: char)
    requires c.state.InHeaders?
    ensures Pass(c, ch) == PassHeaders(c, c.state.place, ch)
  {
    hide PassStart, PassMethod, PassBeforeUrl, PassUrl, PassVersion, PassStatusLine,
      PassReason, PassHeaders, PassField, PassValue, PassChunkHeader, PassBody;
  }

  lemma OnField(c: Core, ch: char)
    requires c.state.InField?
    ensures Pass(c, ch) == PassField(c, ch)
  {
    hide PassStart, PassMethod, PassBeforeUrl, PassUrl, PassVersion, PassStatusLine,
      PassReason, PassHeaders, PassField, PassValue, PassChunkHeader, PassBody;
  }

  lemma OnValue(c: Core, ch: char)
    requires c.state.InValue?
    ensures Pass(c, ch) == PassValue(c, ch)
  {
    hide PassStart, PassMethod, PassBeforeUrl, PassUrl, PassVersion, PassStatusLine,
      PassReason, PassHeaders, PassField, PassValue, PassChunkHeader, PassBody;
  }

  lemma OnChunkHeader(c: Core, ch: char)
    requires c.state.InChunkHeader?
    ensures Pass(c, ch) == PassChunkHeader(c, c.state.size, ch)
  {
    hide PassStart, PassMethod, PassBeforeUrl, PassUrl, PassVersion, PassStatusLine,
      PassReason, PassHeaders, PassField, PassValue, PassChunkHeader, PassBody;
  }

  lemma OnBody(c: Core, ch: char)
    requires c.state.InBody?
    ensures Pass(c, ch) == PassBody(c, c.state.body, ch)
  {
    hide PassStart, PassMethod, PassBeforeUrl, PassUrl, PassVersion, PassStatusLine,
      PassReason, PassHeaders, PassField, PassValue, PassChunkHeader, PassBody;
  }

  /** Everything the reference keeps. `muted` says that the machine is inside a header value
      whose bytes are being dropped; `since` counts the bytes of the current header section modulo 2^32;
      `pos` the bytes taken; `stopped` that the rest belongs to another protocol. */
  datatype Stream = Stream(core: Core, log: seq<Event>, muted: bool, since: nat, pos: nat, stopped: bool)

  predicate Halted(r: Stream) { r.core.errno != OK || r.stopped }

  function Emit(log: seq<Event>, act: Act, muted: bool, ch: char): seq<Event> {
    match act
    case Idle => log
    case Open(_) => log
    case Mark(k) => Push(log, Data(k, [ch]))
    case Keep(k) => if k == Value && muted then log else Push(log, Data(k, [ch]))
    case Close(k) => if k == Body || (k == Value && muted) then log else Push(log, Data(k, []))
    case MarkClose(k) => Push(log, Data(k, []))
    case Notice(e) => Push(log, e)
    case Space => Push(log, Data(Value, " "))
  }

  function Mutes(s: State, act: Act, muted: bool): bool {
    s.InValue? && (act == Space || (muted && !act.Mark?))
  }

  /** Arithmetic of the 32-bit header counter. */
  function Wrap(n: nat): nat { n % 0x1_0000_0000 }

  lemma WrapAdd(a: nat, b: nat)
    ensures Wrap(Wrap(a) + b) == Wrap(a + b)
  {
    var m := 0x1_0000_0000;
    var x := a % m + b;
    assert a + b == (a / m + x / m) * m + x % m;
  }

  function Apply(r: Stream, o: Outcome, ch: char): Stream {
    var base := r.(core := o.core, log := Emit(r.log, o.act, r.muted, ch),
                   muted := Mutes(o.core.state, o.act, r.muted));
    match o.control
    case Again => base.(since := if ParsingHeader(o.core.state) then r.since else 0)
    case Fail => r.(core := o.core)
    case Stop => base.(since := 0, pos := r.pos + 1, stopped := true)
    case Advance =>
      base.(pos := r.pos + 1,
            since := if !ParsingHeader(o.core.state) then 0 else if o.reset then 1 else Wrap(r.since + 1))
  }

  function Step(r: Stream, ch: char): Stream
    decreases Rank(r.core.state)
  {
    hide Pass;
    if Halted(r) then r
    else
      var o := Pass(r.core, ch);
      PassKeeps(r.core, ch);
      if o.control == Again then Step(Apply(r, o, ch), ch) else Apply(r, o, ch)
  }

  lemma StepOnce(r: Stream, ch: char)
    requires !Halted(r)
    ensures var o := Pass(r.core, ch);
            Step(r, ch) == if o.control == Again then Step(Apply(r, o, ch), ch) else Apply(r, o, ch)
  {
    hide Pass, Apply;
  }

  lemma StepHalted(r: Stream, ch: char)
    requires Halted(r)
    ensures Step(r, ch) == r
  {
    hide Pass, Apply;
  }

  /** A byte that is not rejected is taken. */
  lemma {:induction false} PosStep(x: Stream, ch: char)
    requires !Halted(x)
    ensures Step(x, ch).core.errno == OK ==> Step(x, ch).pos == x.pos + 1
    decreases Rank(x.core.state)
  {
    hide Step, Pass, Emit;
    StepOnce(x, ch);
    PassKeeps(x.core, ch);
    var o := Pass(x.core, ch);
    if o.control == Again {
      if Halted(Apply(x, o, ch)) { StepHalted(Apply(x, o, ch), ch); } else { PosStep(Apply(x, o, ch), ch); }
    }
  }

  /** How often the switch is entered for one byte. */
  function Passes(c: Core, ch: char): nat
    decreases Rank(c.state)
  {
    hide Pass;
    var o := Pass(c, ch);
    PassKeeps(c, ch);
    if o.control == Again then 1 + Passes(o.core, ch) else 1
  }

  lemma {:induction false} PassesBound(c: Core, ch: char)
    ensures Passes(c, ch) <= 1 + Rank(c.state) <= 4
    decreases Rank(c.state)
  {
    hide Pass;
    PassKeeps(c, ch);
    if Pass(c, ch).control == Again {
      PassesBound(Pass(c, ch).core, ch);
    }
  }

  // ----- Whole inputs -----

  function Run(r: Stream, s: string): Stream
    decreases |s|
  {
    if s == [] then r else Run(Step(r, s[0]), s[1..])
  }

  lemma RunNone(r: Stream)
    ensures Run(r, []) == r
  {
  }

  lemma {:induction false} RunHalted(r: Stream, s: string)
    requires Halted(r)
    ensures Run(r, s) == r
    decreases |s|
  {
    hide Pass;
    if s != [] { RunHalted(r, s[1..]); }
  }

  lemma {:induction false} RunAppend(r: Stream, a: string, b: string)
    ensures Run(r, a + b) == Run(Run(r, a), b)
    decreases |a|
  {
    hide Pass;
    if a == [] {
      assert a + b == b;
    } else {
      assert (a + b)[1..] == a[1..] + b;
      RunAppend(Step(r, a[0]), a[1..], b);
    }
  }

  lemma RunOne(r: Stream, ch: char)
    ensures Run(r, [ch]) == Step(r, ch)
  {
    hide Pass;
    assert Run(Step(r, ch), [ch][1..]) == Step(r, ch);
  }

  lemma RunSnoc(r: Stream, s: string, i: nat)
    requires i < |s|
    ensures Run(r, s[..i + 1]) == Step(Run(r, s[..i]), s[i])
  {
    hide Pass;
    assert s[..i + 1] == s[..i] + [s[i]];
    RunAppend(r, s[..i], [s[i]]);
    RunOne(Run(r, s[..i]), s[i]);
  }

  lemma {:induction false} PosRun(x: Stream, s: string)
    ensures !Halted(Run(x, s)) ==> Run(x, s).pos == x.pos + |s|
    decreases |s|
  {
    hide Step;
    if s != [] && !Halted(Run(x, s)) {
      if Halted(x) { RunHalted(x, s); }
      PosStep(x, s[0]);
      if Halted(Step(x, s[0])) { RunHalted(Step(x, s[0]), s[1..]); }
      PosRun(Step(x, s[0]), s[1..]);
    }
  }

  // ----- Buffers -----

  /** A call of the parser starts with fresh local variables. */
  function Begin(r: Stream): Stream {
    r.(muted := false, pos := 0, stopped := false)
  }

  /** What the end of a buffer does: the header-size check. */
  function Boundary(r: Stream): Stream {
    if !Halted(r) && Overflows(r) then r.(core := r.core.(errno := HeaderOverflow)) else r
  }

  predicate Overflows(r: Stream) {
    ParsingHeader(r.core.state) && r.since > HTTP_MAX_HEADER_SIZE
  }

  /** An empty buffer means end of file. */
  function EndOfFile(r: Stream): Stream {
    match r.core.state
    case InBody(IdentityEof) => r.(log := Push(r.log, MessageComplete))
    case AtStart(PreStartReqOrRes) => r
    case AtStart(PreStartRes) => r
    case AtStart(PreStartReq) => r
    case _ => r.(core := r.core.(errno := InvalidEofState))
  }

  /** One call of the parser with one buffer. */
  function Call(r: Stream, data: string): Stream {
    if r.core.errno != OK then Begin(r)
    else if data == [] then EndOfFile(Begin(r))
    else Boundary(Run(Begin(r), data))
  }

  /** One call per piece. */
  function Feed(r: Stream, pieces: seq<string>): Stream
    decreases |pieces|
  {
    if pieces == [] then r else Feed(Call(r, pieces[0]), pieces[1..])
  }

  lemma {:induction false} FeedAfterError(r: Stream, pieces: seq<string>)
    requires r.core.errno != OK
    ensures Begin(Feed(r, pieces)) == Begin(r)
    decreases |pieces|
  {
    hide Run;
    if pieces != [] { FeedAfterError(Begin(r), pieces[1..]); }
  }

  lemma FeedFromBegin(r: Stream, pieces: seq<string>)
    ensures Begin(Feed(Begin(r), pieces)) == Begin(Feed(r, pieces))
  {
    hide Run;
    if pieces != [] { assert Call(r, pieces[0]) == Call(Begin(r), pieces[0]); }
  }

  function Concat(pieces: seq<string>): string
    decreases |pieces|
  {
    if pieces == [] then [] else pieces[0] + Concat(pieces[1..])
  }

  predicate NonEmpty(pieces: seq<string>) {
    forall i :: 0 <= i < |pieces| ==> pieces[i] != []
  }
}
