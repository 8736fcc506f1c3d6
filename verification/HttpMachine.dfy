/** The transition table of the incremental HTTP/1.x parser: what one pass through its
    big switch does with the parser's fields and one byte.

    A byte is a `char`; every table below treats all values from 0x80 up alike, as the
    C tables do. Everything here is free of buffers: `Outcome.act` names the mark or
    callback macro the pass executes, and is given a meaning by the buffered parser
    (HttpParser) and by the byte-at-a-time reference (HttpStream). */
module HttpMachine {

  const CR := '\r'
  const LF := '\n'
  const QT := '\"'
  const BS := '\\'
  const INT64_MAX: int := 9223372036854775807
  const HTTP_MAX_HEADER_SIZE: nat := 80 * 1024

  // ----- Character classes -----

  /** Lower-cases a letter. The C macro sets bit 5 of any byte; its results are only ever
      compared with lower-case letters, where the two agree. */
  function Lower(c: char): char {
    if 'A' <= c <= 'Z' then c - 'A' + 'a' else c
  }

  predicate IsAlpha(c: char) { 'a' <= c <= 'z' || 'A' <= c <= 'Z' }

  predicate IsNum(c: char) { '0' <= c <= '9' }

  predicate IsAlphaNum(c: char) { IsAlpha(c) || IsNum(c) }

  predicate IsHex(c: char) { IsNum(c) || 'a' <= c <= 'f' || 'A' <= c <= 'F' }

  predicate IsHostChar(c: char) { IsAlphaNum(c) || c == '.' || c == '-' || c == '_' }

  /** A header-name character of RFC 2616: visible ASCII that is not a separator. */
  predicate IsToken(c: char) {
    IsAlphaNum(c) || c == '!' || '#' <= c <= '\'' || c == '*' || c == '+' || c == '-' || c == '.'
    || c == '^' || c == '_' || c == '`' || c == '|' || c == '~'
  }

  /** The entry of the token table: the lower-cased character, or NUL for a non-token. */
  function Token(c: char): char {
    if IsToken(c) then Lower(c) else '\0'
  }

  /** Characters allowed in a path, query or fragment in a non-strict build. */
  predicate IsUrlChar(c: char) {
    c == '\t' || c as int == 12 || ('!' <= c <= '~' && c != '#' && c != '?') || 128 <= c as int
  }

  predicate IsHeaderChar(c: char) {
    c == CR || c == LF || c == '\t' || (32 <= c as int && c as int != 127)
  }

  /** The hex table: -1 for a non-digit. It has 128 initialisers, so bytes from 0x80 up read 0. */
  function Unhex(c: char): int {
    if IsNum(c) then c as int - '0' as int
    else if 'a' <= c <= 'f' then c as int - 'a' as int + 10
    else if 'A' <= c <= 'F' then c as int - 'A' as int + 10
    else if 128 <= c as int then 0
    else -1
  }

  function Digit(c: char): nat
    requires IsNum(c)
  {
    c as int - '0' as int
  }

  /** The decimal value of the digits of a text. */
  function Dec(s: string): nat {
    if s == [] then 0
    else
      var n, ch := Dec(s[..|s| - 1]), s[|s| - 1];
      if IsNum(ch) then n * 10 + Digit(ch) else n
  }

  lemma {:induction false} DecGrows(s: string, k: nat)
    requires k <= |s|
    ensures Dec(s[..k]) <= Dec(s)
    decreases |s|
  {
    if k == |s| {
      assert s[..k] == s;
    } else {
      DecGrows(s[..|s| - 1], k);
      assert s[..|s| - 1][..k] == s[..k];
    }
  }

  lemma DecSnoc(s: string, ch: char)
    ensures Dec(s + [ch]) == if IsNum(ch) then Dec(s) * 10 + Digit(ch) else Dec(s)
  {
    assert (s + [ch])[..|s + [ch]| - 1] == s;
  }

  // ----- The fields of the parser -----

  datatype Kind = Request | Response | Both

  datatype Method =
    | Delete | Get | Head | Post | Put | Connect | Options | Trace | Copy | Lock | MkCol | Move
    | PropFind | PropPatch | Unlock | Report | MkActivity | Checkout | Merge | MSearch | Notify
    | Subscribe | Unsubscribe | Patch

  function MethodName(m: Method): string {
    match m
    case Delete => "DELETE"
    case Get => "GET"
    case Head => "HEAD"
    case Post => "POST"
    case Put => "PUT"
    case Connect => "CONNECT"
    case Options => "OPTIONS"
    case Trace => "TRACE"
    case Copy => "COPY"
    case Lock => "LOCK"
    case MkCol => "MKCOL"
    case Move => "MOVE"
    case PropFind => "PROPFIND"
    case PropPatch => "PROPPATCH"
    case Unlock => "UNLOCK"
    case Report => "REPORT"
    case MkActivity => "MKACTIVITY"
    case Checkout => "CHECKOUT"
    case Merge => "MERGE"
    case MSearch => "M-SEARCH"
    case Notify => "NOTIFY"
    case Subscribe => "SUBSCRIBE"
    case Unsubscribe => "UNSUBSCRIBE"
    case Patch => "PATCH"
  }

  /** Where the parser is in a message, grouped by what part of the message it reads. The
      groups that collect bytes for a data callback are InUrl, InReason, InField, InValue
      and InBody. */
  datatype State =
    | AtStart(start: StartState)
    | InMethod
    | BeforeUrl
    | InUrl(url: UrlState)
    | InVersion(version: VersionState)
    | InStatusLine(line: LineState)
    | InReason
    | InHeaders(place: HeaderPlace)
    | InField
    | InValue
    | InChunkHeader(size: ChunkState)
    | InBody(body: BodyState)
    | ChunkDataDone
    | MessageDone

  datatype StartState =
    | PreStartReqOrRes | StartReqOrRes | ResOrRespH | PreStartRes | StartRes | PreStartReq | StartReq

  datatype UrlState =
    | Schema | SchemaSlash | SchemaSlashSlash | HostStart | Host | HostIpv6 | HostDone | Port
    | Path | QueryStart | Query | FragmentStart | Fragment

  datatype VersionState =
    | HttpStart | HttpH | HttpHT | HttpHTT | HttpHTTP | FirstMajor | Major | FirstMinor | Minor | LineAlmostDone

  datatype LineState =
    | ResH | ResHT | ResHTT | ResHTTP | ResFirstMajor | ResMajor | ResFirstMinor | ResMinor
    | FirstStatusCode | StatusCode | ResLineAlmostDone

  datatype HeaderPlace =
    | FieldStart | ValueStart | ValueLws | HeaderAlmostDone | HeadersAlmostDone | HeadersDone

  datatype ChunkState = ChunkSizeStart | ChunkSize | ChunkParameters | ChunkSizeAlmostDone

  datatype BodyState = Identity | IdentityEof | ChunkData | ChunkDataAlmostDone

  /** States in which the header-size limit applies. */
  predicate ParsingHeader(s: State) {
    !(s.InBody? || s.ChunkDataDone? || s.MessageDone?)
  }

  datatype HeaderState =
    | General | Quoted | QuotedEscape
    | MatchingContentLength | MatchingTransferEncoding | MatchingUpgrade
    | ContentLength | TransferEncoding | UpgradeHeader
    | MatchingChunked | ChunkedCoding

  datatype Errno =
    | OK | InvalidEofState | HeaderOverflow | InvalidVersion | InvalidStatus | InvalidMethod
    | InvalidUrl | InvalidHost | InvalidPort | InvalidPath | InvalidQueryString | InvalidFragment
    | LfExpected | InvalidHeaderToken | InvalidContentLength | HugeContentLength
    | InvalidChunkSize | HugeChunkSize | InvalidTransferEncoding | InvalidUpgrade
    | InvalidConstant | InvalidInternalState | Strict | UnknownError

  datatype Flags = Flags(chunked: bool, trailing: bool, upgrade: bool, skipBody: bool)

  const NO_FLAGS := Flags(false, false, false, false)

  /** The parser's fields except `nread`. `noBody` is not a field: it is the answer of the
      on_headers_complete callback, true for "this message has no body". */
  datatype Core = Core(
    kind: Kind,
    flags: Flags,
    state: State,
    header: HeaderState,
    index: nat,
    contentLength: int,
    major: nat,
    minor: nat,
    status: nat,
    verb: Method,
    errno: Errno,
    upgrade: bool,
    noBody: bool)

  // ----- What a pass does -----

  datatype Span = Field | Value | Url | Reason | Body

  /** What the callbacks report. HeadersComplete carries what its receiver reads from the parser. */
  datatype Event =
    | MessageBegin
    | Data(span: Span, bytes: string)
    | HeadersComplete(head: StartLine, upgrade: bool)
    | ChunkHeader(size: int)
    | ChunkComplete
    | MessageComplete

  datatype StartLine =
    | RequestLine(verb: Method, major: nat, minor: nat)
    | StatusLine(status: nat, major: nat, minor: nat)

  /** The mark and callback macros. `Keep` is no macro: it says that the byte lies in a span
      that is marked already. */
  datatype Act =
    | Idle
    | Open(span: Span)       // MARK, the byte is looked at again
    | Mark(span: Span)       // MARK, the byte is the next one of the span
    | Keep(span: Span)
    | Close(span: Span)      // CALLBACK_DATA, the byte is not part of the span
    | MarkClose(span: Span)  // MARK then CALLBACK_DATA
    | Notice(event: Event)   // CALLBACK_NOTIFY
    | Space                  // CALLBACK_SPACE

  /** Advance to the next byte, look at this byte again, stop with an error, or leave the
      rest of the buffer to another protocol. */
  datatype Control = Advance | Again | Fail | Stop

  datatype Outcome = Outcome(core: Core, act: Act, control: Control, reset: bool)

  function Next(c: Core): Outcome { Outcome(c, Idle, Advance, false) }

  function To(c: Core, s: State): Outcome { Next(c.(state := s)) }

  function Do(c: Core, a: Act): Outcome { Outcome(c, a, Advance, false) }

  function Redo(c: Core, a: Act): Outcome { Outcome(c, a, Again, false) }

  function Error(c: Core, e: Errno): Outcome { Outcome(c.(errno := e), Idle, Fail, false) }

  function StartOf(k: Kind): State { AtStart(if k == Request then PreStartReq else PreStartRes) }

  function HeadOf(c: Core): StartLine {
    if c.kind == Response then StatusLine(c.status, c.major, c.minor)
    else RequestLine(c.verb, c.major, c.minor)
  }

  // ----- The switch, one function per part of the message -----

  function PassStart(c: Core, s: StartState, ch: char): Outcome {
    var clean := c.(flags := NO_FLAGS, contentLength := -1);
    match s
    case PreStartReqOrRes =>
      if ch == CR || ch == LF then Next(c)
      else Redo(c.(state := AtStart(StartReqOrRes)), Notice(MessageBegin))
    case StartReqOrRes =>
      if ch == 'H' then To(clean, AtStart(ResOrRespH))
      else Redo(clean.(kind := Request, state := AtStart(StartReq)), Idle)
    case ResOrRespH =>
      if ch == 'T' then To(c.(kind := Response), InStatusLine(ResHT))
      else if ch != 'E' then Error(c, InvalidConstant)
      else To(c.(kind := Request, verb := Head, index := 2), InMethod)
    case PreStartRes =>
      if ch == CR || ch == LF then Next(c)
      else Redo(c.(state := AtStart(StartRes)), Notice(MessageBegin))
    case StartRes =>
      if ch == 'H' then To(clean, InStatusLine(ResH)) else Error(clean, InvalidConstant)
    case PreStartReq =>
      if ch == CR || ch == LF then Next(c)
      else Redo(c.(state := AtStart(StartReq)), Notice(MessageBegin))
    case StartReq =>
      if !IsAlpha(ch) then Error(clean, InvalidMethod)
      else
        var first := FirstMethod(ch);
        if first.NoMethod? then Error(clean.(verb := Delete, index := 1), InvalidMethod)
        else To(clean.(verb := first.verb, index := 1), InMethod)
  }

  datatype MethodChoice = NoMethod | SomeMethod(verb: Method)

  function FirstMethod(ch: char): MethodChoice {
    match ch
    case 'C' => SomeMethod(Connect)
    case 'D' => SomeMethod(Delete)
    case 'G' => SomeMethod(Get)
    case 'H' => SomeMethod(Head)
    case 'L' => SomeMethod(Lock)
    case 'M' => SomeMethod(MkCol)
    case 'N' => SomeMethod(Notify)
    case 'O' => SomeMethod(Options)
    case 'P' => SomeMethod(Post)
    case 'R' => SomeMethod(Report)
    case 'S' => SomeMethod(Subscribe)
    case 'T' => SomeMethod(Trace)
    case 'U' => SomeMethod(Unlock)
    case _ => NoMethod
  }

  /** The method to guess instead of `m` when its character at `index` is not `ch`. */
  function OtherMethod(m: Method, index: nat, ch: char): MethodChoice {
    if m == Connect && index == 1 && ch == 'H' then SomeMethod(Checkout)
    else if m == Connect && index == 2 && ch == 'P' then SomeMethod(Copy)
    else if m == MkCol && index == 1 && ch == 'O' then SomeMethod(Move)
    else if m == MkCol && index == 1 && ch == 'E' then SomeMethod(Merge)
    else if m == MkCol && index == 1 && ch == '-' then SomeMethod(MSearch)
    else if m == MkCol && index == 2 && ch == 'A' then SomeMethod(MkActivity)
    else if m == Post && index == 1 && ch == 'R' then SomeMethod(PropFind)
    else if m == Post && index == 1 && ch == 'U' then SomeMethod(Put)
    else if m == Post && index == 1 && ch == 'A' then SomeMethod(Patch)
    else if m == Unlock && index == 2 && ch == 'S' then SomeMethod(Unsubscribe)
    else if m == PropFind && index == 4 && ch == 'P' then SomeMethod(PropPatch)
    else NoMethod
  }

  function PassMethod(c: Core, ch: char): Outcome {
    var name := MethodName(c.verb);
    var expected := if c.index < |name| then name[c.index] else '\0';
    if ch == '\0' then Error(c, InvalidMethod)
    else if ch == ' ' && expected == '\0' then To(c.(index := c.index + 1), BeforeUrl)
    else if ch == expected then Next(c.(index := c.index + 1))
    else match OtherMethod(c.verb, c.index, ch)
      case SomeMethod(m) => Next(c.(verb := m, index := c.index + 1))
      case NoMethod =>
        // these branches leave errno unset, which the exit path turns into "unknown"
        if c.verb == Connect || c.verb == MkCol || (c.index == 1 && c.verb == Post)
        then Error(c, UnknownError) else Error(c, InvalidMethod)
  }

  function PassStatusLine(c: Core, s: LineState, ch: char): Outcome {
    match s
    case ResH => To(c, InStatusLine(ResHT))
    case ResHT => To(c, InStatusLine(ResHTT))
    case ResHTT => To(c, InStatusLine(ResHTTP))
    case ResHTTP => To(c, InStatusLine(ResFirstMajor))
    case ResFirstMajor =>
      if !IsNum(ch) then Error(c, InvalidVersion) else To(c.(major := Digit(ch)), InStatusLine(ResMajor))
    case ResMajor =>
      if ch == '.' then To(c, InStatusLine(ResFirstMinor))
      else if !IsNum(ch) then Error(c, InvalidVersion)
      else
        var c := c.(major := c.major * 10 + Digit(ch));
        if c.major > 999 then Error(c, InvalidVersion) else Next(c)
    case ResFirstMinor =>
      if !IsNum(ch) then Error(c, InvalidVersion) else To(c.(minor := Digit(ch)), InStatusLine(ResMinor))
    case ResMinor =>
      if ch == ' ' then To(c, InStatusLine(FirstStatusCode))
      else if !IsNum(ch) then Error(c, InvalidVersion)
      else
        var c := c.(minor := c.minor * 10 + Digit(ch));
        if c.minor > 999 then Error(c, InvalidVersion) else Next(c)
    case FirstStatusCode =>
      if IsNum(ch) then To(c.(status := Digit(ch)), InStatusLine(StatusCode))
      else if ch == ' ' then Next(c)
      else Error(c, InvalidStatus)
    case StatusCode =>
      if ch == ' ' then To(c, InReason)
      else if ch == CR then To(c, InStatusLine(ResLineAlmostDone))
      else if ch == LF then To(c, InHeaders(FieldStart))
      else if !IsNum(ch) then Error(c, InvalidStatus)
      else
        var c := c.(status := c.status * 10 + Digit(ch));
        if c.status > 999 then Error(c, InvalidStatus) else Next(c)
    case ResLineAlmostDone => To(c, InHeaders(FieldStart))
  }

  function PassReason(c: Core, ch: char): Outcome {
    if ch == CR then Do(c.(state := InStatusLine(ResLineAlmostDone)), MarkClose(Reason))
    else if ch == LF then Do(c.(state := InHeaders(FieldStart)), MarkClose(Reason))
    else Do(c, Mark(Reason))
  }

  function PassBeforeUrl(c: Core, ch: char): Outcome {
    if ch == ' ' then Next(c)
    else if c.verb == Connect then Redo(c.(state := InUrl(HostStart)), Open(Url))
    else if ch == '/' || ch == '*' then Do(c.(state := InUrl(Path)), Mark(Url))
    else if IsAlpha(ch) then Do(c.(state := InUrl(Schema)), Mark(Url))
    else Error(c, InvalidUrl)
  }

  /** The next state inside the URL, or the error for a byte that is neither part of the URL
      here nor able to end it. */
  datatype UrlMove = Stay(url: UrlState) | Leave(otherwise: Errno)

  function MoveUrl(u: UrlState, ch: char): UrlMove {
    match u
    case Schema =>
      if IsAlpha(ch) then Stay(Schema) else if ch == ':' then Stay(SchemaSlash) else Leave(InvalidUrl)
    case SchemaSlash => Stay(SchemaSlashSlash)
    case SchemaSlashSlash => Stay(HostStart)
    case HostStart =>
      if ch == '[' then Stay(HostIpv6) else if IsAlphaNum(ch) then Stay(Host) else Leave(InvalidHost)
    case Host => if IsHostChar(ch) then Stay(Host) else Leave(OK)
    case HostIpv6 =>
      if IsHex(ch) || ch == ':' then Stay(HostIpv6) else if ch == ']' then Stay(HostDone) else Leave(InvalidHost)
    case HostDone =>
      if ch == ':' then Stay(Port)
      else if ch == '/' then Stay(Path)
      else if ch == '?' then Stay(QueryStart)
      else Leave(InvalidHost)
    case Port =>
      if IsNum(ch) then Stay(Port)
      else if ch == '/' then Stay(Path)
      else if ch == '?' then Stay(QueryStart)
      else Leave(InvalidPort)
    case Path =>
      if IsUrlChar(ch) then Stay(Path)
      else if ch == '?' then Stay(QueryStart)
      else if ch == '#' then Stay(FragmentStart)
      else Leave(InvalidPath)
    case QueryStart =>
      if IsUrlChar(ch) then Stay(Query)
      else if ch == '?' then Stay(QueryStart)
      else if ch == '#' then Stay(FragmentStart)
      else Leave(InvalidQueryString)
    case Query =>
      if IsUrlChar(ch) || ch == '?' then Stay(Query)
      else if ch == '#' then Stay(FragmentStart)
      else Leave(InvalidQueryString)
    case FragmentStart =>
      if IsUrlChar(ch) || ch == '?' then Stay(Fragment)
      else if ch == '#' then Stay(FragmentStart)
      else Leave(InvalidFragment)
    case Fragment =>
      if IsUrlChar(ch) || ch == '?' || ch == '#' then Stay(Fragment) else Leave(InvalidFragment)
  }

  /** A space ends a URL that has a host or a path; an end of line ends one that has a path,
      and then means HTTP/0.9. */
  function PassUrl(c: Core, u: UrlState, ch: char): Outcome {
    var move := MoveUrl(u, ch);
    var hasPath := u.Path? || u.QueryStart? || u.Query? || u.FragmentStart? || u.Fragment?;
    if move.Stay? then Do(c.(state := InUrl(move.url)), Keep(Url))
    else if u.Host? then Redo(c.(state := InUrl(HostDone)), Idle)
    else if ch == ' ' && (hasPath || u.HostDone? || u.Port?) then Do(c.(state := InVersion(HttpStart)), Close(Url))
    else if ch == CR && hasPath then
      Do(c.(major := 0, minor := 9, state := InHeaders(HeadersAlmostDone)), Close(Url))
    else if ch == LF && hasPath then
      Redo(c.(major := 0, minor := 9, state := InHeaders(HeadersAlmostDone)), Close(Url))
    else Error(c, move.otherwise)
  }

  function PassVersion(c: Core, s: VersionState, ch: char): Outcome {
    match s
    case HttpStart =>
      if ch == 'H' then To(c, InVersion(HttpH))
      else if ch == ' ' then Next(c)
      else Error(c, InvalidConstant)
    case HttpH => To(c, InVersion(HttpHT))
    case HttpHT => To(c, InVersion(HttpHTT))
    case HttpHTT => To(c, InVersion(HttpHTTP))
    case HttpHTTP => To(c, InVersion(FirstMajor))
    case FirstMajor =>
      if !IsNum(ch) then Error(c, InvalidVersion) else To(c.(major := Digit(ch)), InVersion(Major))
    case Major =>
      if ch == '.' then To(c, InVersion(FirstMinor))
      else if !IsNum(ch) then Error(c, InvalidVersion)
      else
        var c := c.(major := c.major * 10 + Digit(ch));
        if c.major > 999 then Error(c, InvalidVersion) else Next(c)
    case FirstMinor =>
      if !IsNum(ch) then Error(c, InvalidVersion) else To(c.(minor := Digit(ch)), InVersion(Minor))
    case Minor =>
      if ch == CR then
        To(c, if c.major == 0 && c.minor == 9 then InHeaders(HeadersAlmostDone) else InVersion(LineAlmostDone))
      else if ch == LF then
        if c.major == 0 && c.minor == 9 then Redo(c.(state := InHeaders(HeadersAlmostDone)), Idle)
        else To(c, InHeaders(FieldStart))
      else if !IsNum(ch) then Error(c, InvalidVersion)
      else
        var c := c.(minor := c.minor * 10 + Digit(ch));
        if c.minor > 999 then Error(c, InvalidVersion) else Next(c)
    case LineAlmostDone =>
      if ch != LF then Error(c, LfExpected) else To(c, InHeaders(FieldStart))
  }

  function PassFieldStart(c: Core, ch: char): Outcome {
    if ch == CR then To(c, InHeaders(HeadersAlmostDone))
    else if ch == LF then Redo(c.(state := InHeaders(HeadersAlmostDone)), Idle)
    else if !IsToken(ch) then Error(c, InvalidHeaderToken)
    else
      var t := Token(ch);
      var h := if t == 'c' then MatchingContentLength
               else if t == 't' then MatchingTransferEncoding
               else if t == 'u' then MatchingUpgrade
               else General;
      Do(c.(index := 0, state := InField, header := h), Mark(Field))
  }

  /** One more character of a name that has matched `name` so far. */
  function MatchName(c: Core, t: char, name: string, found: HeaderState): Core {
    var c := c.(index := c.index + 1);
    if c.index >= |name| || t != name[c.index] then c.(header := General)
    else if c.index == |name| - 1 then c.(header := found)
    else c
  }

  function PassField(c: Core, ch: char): Outcome {
    if IsToken(ch) then
      var t := Token(ch);
      Do(match c.header
         case MatchingContentLength => MatchName(c, t, "content-length", ContentLength)
         case MatchingTransferEncoding => MatchName(c, t, "transfer-encoding", TransferEncoding)
         case MatchingUpgrade => MatchName(c, t, "upgrade", UpgradeHeader)
         case ContentLength => c.(header := General)
         case TransferEncoding => c.(header := General)
         case UpgradeHeader => c.(header := General)
         case _ => c,
         Keep(Field))
    else if ch == ':' then Do(c.(state := InHeaders(ValueStart)), Close(Field))
    else Error(c, InvalidHeaderToken)
  }

  function PassValueStart(c: Core, ch: char): Outcome {
    if ch == ' ' || ch == '\t' then Next(c)
    else
      var c := c.(state := InValue, index := 0);
      if (ch == CR || ch == LF) && c.header == ContentLength then Error(c, InvalidContentLength)
      else if (ch == CR || ch == LF) && c.header == TransferEncoding then Error(c, InvalidTransferEncoding)
      else if (ch == CR || ch == LF) && c.header == UpgradeHeader then Error(c, InvalidUpgrade)
      else if ch == CR then Do(c.(header := General, state := InHeaders(HeaderAlmostDone)), MarkClose(Value))
      else if ch == LF then Do(c.(state := InHeaders(FieldStart)), MarkClose(Value))
      else match c.header
        case UpgradeHeader => Do(c.(flags := c.flags.(upgrade := true), header := General), Mark(Value))
        case TransferEncoding =>
          Do(c.(header := if Lower(ch) == 'c' then MatchingChunked else General), Mark(Value))
        case ContentLength =>
          if !IsNum(ch) then Error(c, InvalidContentLength)
          else Do(c.(contentLength := Digit(ch)), Mark(Value))
        case _ => Do(c.(header := if ch == QT then Quoted else General), Mark(Value))
  }

  /** One more character of a Content-Length value. */
  function PassLength(c: Core, ch: char): Outcome {
    if ch == ' ' then Do(c, Keep(Value))
    else if !IsNum(ch) then Error(c, InvalidContentLength)
    else if c.contentLength > (INT64_MAX - 10) / 10 then Error(c, HugeContentLength)
    else Do(c.(contentLength := c.contentLength * 10 + Digit(ch)), Keep(Value))
  }

  function PassValue(c: Core, ch: char): Outcome {
    if ch == CR && c.header != QuotedEscape then Do(c.(state := InHeaders(HeaderAlmostDone)), Close(Value))
    else if ch == LF && c.header != QuotedEscape then Redo(c.(state := InHeaders(HeaderAlmostDone)), Close(Value))
    else if !IsHeaderChar(ch) && c.header != QuotedEscape then Error(c, InvalidHeaderToken)
    else PassValueByte(c, ch)
  }

  /** A byte that does not end the value. */
  function PassValueByte(c: Core, ch: char): Outcome {
    match c.header
    case General => Do(c.(header := if ch == QT then Quoted else General), Keep(Value))
    case Quoted =>
      Do(c.(header := if ch == QT then General else if ch == BS then QuotedEscape else Quoted), Keep(Value))
    case QuotedEscape => Do(c.(header := Quoted), Keep(Value))
    case TransferEncoding => Error(c, InvalidHeaderToken)
    case ContentLength => PassLength(c, ch)
    case MatchingChunked =>
      Do(MatchName(c, Lower(ch), "chunked", ChunkedCoding), Keep(Value))
    case ChunkedCoding => Do(c.(header := if ch == ' ' then ChunkedCoding else General), Keep(Value))
    case _ => Do(c.(header := General), Keep(Value))
  }

  function PassHeaders(c: Core, s: HeaderPlace, ch: char): Outcome {
    match s
    case FieldStart => PassFieldStart(c, ch)
    case ValueStart => PassValueStart(c, ch)
    case HeaderAlmostDone =>
      var c := if c.header == ChunkedCoding then c.(flags := c.flags.(chunked := true)) else c;
      if ch == LF then To(c, InHeaders(ValueLws)) else Do(c.(state := InValue), Space)
    case ValueLws =>
      if ch == ' ' || ch == '\t' then Do(c.(state := InHeaders(ValueStart)), Space)
      else Redo(c.(state := InHeaders(FieldStart)), Idle)
    case HeadersAlmostDone =>
      if ch != LF then Error(c, Strict)
      else if c.flags.trailing then Redo(c.(state := MessageDone), Notice(ChunkComplete))
      else
        var up := c.flags.upgrade || c.verb == Connect;
        var e := HeadersComplete(HeadOf(c), up);
        Redo(c.(state := InHeaders(HeadersDone), upgrade := up,
                flags := c.flags.(skipBody := c.flags.skipBody || c.noBody)), Notice(e))
    case HeadersDone => PassHeadersDone(c)
  }

  /** Chooses the body framing (section 3.3.3 of RFC 7230). */
  function PassHeadersDone(c: Core): Outcome {
    var hasBody := c.flags.chunked || c.contentLength > 0;
    var done := c.(state := StartOf(c.kind));
    if c.upgrade && (c.verb == Connect || c.flags.skipBody || !hasBody) then
      Outcome(done, Notice(MessageComplete), Stop, true)
    else if c.flags.skipBody then Outcome(done, Notice(MessageComplete), Advance, true)
    else if c.flags.chunked then Outcome(c.(state := InChunkHeader(ChunkSizeStart)), Idle, Advance, true)
    else if c.contentLength == 0 then Outcome(done, Notice(MessageComplete), Advance, true)
    else if c.contentLength > 0 then Outcome(c.(state := InBody(Identity)), Idle, Advance, true)
    else if c.kind == Request || 100 <= c.status <= 199 || c.status == 204 || c.status == 304 then
      Outcome(done, Notice(MessageComplete), Advance, true)
    else Outcome(c.(state := InBody(IdentityEof)), Idle, Advance, true)
  }

  function PassChunkHeader(c: Core, s: ChunkState, ch: char): Outcome {
    match s
    case ChunkSizeStart =>
      if Unhex(ch) == -1 then Error(c, InvalidChunkSize)
      else To(c.(contentLength := Unhex(ch)), InChunkHeader(ChunkSize))
    case ChunkSize =>
      if ch == CR then To(c, InChunkHeader(ChunkSizeAlmostDone))
      else if Unhex(ch) == -1 then
        if ch == ';' || ch == ' ' then To(c, InChunkHeader(ChunkParameters)) else Error(c, InvalidChunkSize)
      else if c.contentLength > (INT64_MAX - Unhex(ch)) / 16 then Error(c, HugeChunkSize)
      else Next(c.(contentLength := c.contentLength * 16 + Unhex(ch)))
    case ChunkParameters => if ch == CR then To(c, InChunkHeader(ChunkSizeAlmostDone)) else Next(c)
    case ChunkSizeAlmostDone =>
      if c.contentLength == 0 then
        Do(c.(flags := c.flags.(trailing := true), state := InHeaders(FieldStart)), Notice(ChunkHeader(0)))
      else Do(c.(state := InBody(ChunkData)), Notice(ChunkHeader(c.contentLength)))
  }

  function PassBody(c: Core, s: BodyState, ch: char): Outcome {
    match s
    case Identity =>
      var c := c.(contentLength := c.contentLength - 1);
      if c.contentLength == 0 then Redo(c.(state := MessageDone), Mark(Body)) else Do(c, Mark(Body))
    case IdentityEof => Do(c, Mark(Body))
    case ChunkData =>
      var c := c.(contentLength := c.contentLength - 1);
      Do(if c.contentLength == 0 then c.(state := InBody(ChunkDataAlmostDone)) else c, Mark(Body))
    case ChunkDataAlmostDone => Do(c.(state := ChunkDataDone), Close(Body))
  }

  /** One pass through the switch. */
  function Pass(c: Core, ch: char): Outcome {
    match c.state
    case AtStart(s) => PassStart(c, s, ch)
    case InMethod => PassMethod(c, ch)
    case BeforeUrl => PassBeforeUrl(c, ch)
    case InUrl(u) => PassUrl(c, u, ch)
    case InVersion(s) => PassVersion(c, s, ch)
    case InStatusLine(s) => PassStatusLine(c, s, ch)
    case InReason => PassReason(c, ch)
    case InHeaders(s) => PassHeaders(c, s, ch)
    case InField => PassField(c, ch)
    case InValue => PassValue(c, ch)
    case InChunkHeader(s) => PassChunkHeader(c, s, ch)
    case InBody(s) => PassBody(c, s, ch)
    case ChunkDataDone => Outcome(c.(state := InChunkHeader(ChunkSizeStart)), Notice(ChunkComplete), Advance, true)
    case MessageDone =>
      Outcome(c.(state := StartOf(c.kind)), Notice(MessageComplete), if c.upgrade then Stop else Advance, true)
  }
}
