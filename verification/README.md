# Proxygen in Dafny

A model of the parts of proxygen that carry its hardest promises, and proofs of those promises.
`dafny verify dfyconfig.toml` checks everything.

## What is modelled

**The incremental HTTP/1.x parser.** `HttpMachine` holds the transition function of the byte-driven
machine: one pass of one byte through the switch. `HttpStream` runs it byte by byte; this is the
reference, and it delivers every data byte on its own. `HttpParser` is the parser object: buffers, marks that
span them, unrolled look-ahead, body blocks, and callbacks recorded in a ghost log. It is proved against the
reference (`HttpBlocks`, `HttpParser`). From there:

- `HttpCuts`: exactly when the way an input is cut into buffers cannot be seen.
- `HttpRequestLine`, `HttpHeaderLines`, `HttpBodies`: the recognisers and numbers are exact.
- `HttpMessages`, `HttpPipelines`: the text of any list of messages, cut in any way, comes back as the
  callbacks of those messages.
- `HttpEndings`, `HttpConnections`: folded lines, and connections that another protocol takes over or that end with
  the body, cut in any way.

**The URL parser** (`HttpUrl`): two automata, and the fields they find.

**The header table** (`Text`, `HeaderSlots`, `HttpHeaders`, `HeaderRuns`, `HeaderTables`, `HeaderHops`, `HeaderStrip`):
three parallel arrays with tombstones, standing for an ordered list; who owns which heap-allocated name; runs over
any number of tables; the stripping of per-hop headers of section 6.1 of RFC 7230.

**The DNS resolver** (`DnsState`, `DnsResolver`, `DnsRuns`): queries, aliases, timeouts, cancellations and fan-outs in any
interleaving. **Its cache** (`DnsAnswers`, `DnsCache`, `DnsCacheRuns`): lifetimes relative to an entry,
against absolute expiry, and what every answer of a run is worth.

**Destination address selection** of section 6 of RFC 6724 (`Rfc6724`), **query strings** (`QueryStrings`)
and the **flow-control window** of section 6.9 of RFC 7540 (`FlowWindow`).

## Conventions

- Bytes are characters. The tables of the parser treat all bytes from 0x80 on alike, so nothing depends on
  the width of a character. `unhex` has entries for the lower half only; higher bytes count as the digit 0, as in the
  source (`http_parser.c:219-228`).
- Callbacks return zero and do not pause. Whether the callback at the end of a head asks for no body is a
  field of the parser object.
- `STRICT_CHECK` is empty in the source (`http_parser.c:447`), and so it is here.
- `http_parser_init` leaves several fields as they were; the invariant allows for that.
- The code of a well-known header is represented by its folded name, the hash by a table of names. `HTTPCommonHeaders`
  is not part of this model.
- In the header table what a tombstone's slot still holds plays no part: freed pointers are never followed.
- Where a property is not true of the code, the code stands, a lemma names an input, and another one gives
  the exact condition: `BareCrShows` with `CutIndependence`, `DeafExample` with `HeardIsAll`, `RotationExample` with
  `AppliesOrder`, `MixedCircle` with `SortableExactly`, and `Assign`, whose contract says by how much the size is off.
- The comment above `MultiQuery` says the error callback is called only if at least one request failed; the code also calls it, with
  the status for no data, when all requests succeeded without an answer, and so does the model.
- `searchCache` reports the age of the entry as the time to live of a stale answer, not the time left; the model does the same.

## Model

| member | source | states |
|---|---|---|
| `HttpStream.PassKeeps` | proxygen/proxygen/external/http_parser/http_parser.c:719-2131 | Every pass of a byte through the switch keeps the parser's invariant (indices inside the name tables, bounded version and status numbers, content length in range), moves between the states that own marks only in the allowed ways, fails exactly with an error number, and lowers the state rank whenever the byte is looked at again. |
| `HttpStream.PassesBound` | proxygen/proxygen/external/http_parser/http_parser.c:716-720 | Termination: a byte goes through the switch at most as often as the rank of its state says, and never more than four times. |
| `HttpStream.RunAppend` | proxygen/proxygen/external/http_parser/http_parser.c:716-2146 | Without buffer ends in between, running over a joined input is running over its parts. |
| `HttpStream.PushJoin` | proxygen/proxygen/external/http_parser/http_parser.c:92-141 | Two data callbacks of one kind in a row tell the user the same as one with the bytes joined. |
| `HttpStream.FeedAfterError` | proxygen/proxygen/external/http_parser/http_parser.c:654-657 | After an error further buffers change nothing. |
| `HttpBlocks.TokensRun` | proxygen/proxygen/external/http_parser/http_parser.c:1535-1559 | Any number of token bytes in a header name that is no special one, taken at once, is as many single steps. |
| `HttpBlocks.ValueRun` | proxygen/proxygen/external/http_parser/http_parser.c:1729-1771 | Bytes of a header value taken at once, with or without an opening quote in front, are as many single steps: same state, header state and callbacks. |
| `HttpBlocks.BodyRun` | proxygen/proxygen/external/http_parser/http_parser.c:1966-2005 | Body bytes before the last one, taken as a block, are as many single steps. |
| `HttpBlocks.BlockEnd` | proxygen/proxygen/external/http_parser/http_parser.c:1966-1999 | A block that holds the end of a body of known length, or of a chunk, leaves the state that single steps leave; the last byte of a body of known length is looked at again, that of a chunk is not. |
| `HttpParser.OneMark` | proxygen/proxygen/external/http_parser/http_parser.c:2166-2170 | Mark discipline: in every state at most one mark is set, and none in a state without a span, so the assertion at the end of a buffer holds. |
| `HttpParser.Flushed` | proxygen/proxygen/external/http_parser/http_parser.c:2172-2176 | The callbacks for the marks at the end of a buffer deliver exactly the bytes that are pending. |
| `HttpParser.LogRefines` | proxygen/proxygen/external/http_parser/http_parser.c:92-141 | Marks and callbacks refine byte-wise delivery: after one pass, callbacks made plus bytes pending under the mark give the reference log. |
| `HttpParser.PassRefines` | proxygen/proxygen/external/http_parser/http_parser.c:719-2131 | One pass over a buffer with marks is one pass of the reference machine, and keeps the mark discipline. |
| `HttpParser.BlockPart` | proxygen/proxygen/external/http_parser/http_parser.c:1966-2005 | Reading a block that does not finish the body refines byte-wise reading. |
| `HttpParser.BlockLast` | proxygen/proxygen/external/http_parser/http_parser.c:1966-1999 | Reading a block that finishes the body refines byte-wise reading. |
| `HttpParser.SkipTokens` | proxygen/proxygen/external/http_parser/http_parser.c:1535-1559 | The unrolled look-ahead in a header name stays inside the buffer, passes only token bytes, and stops at a byte that is none or at its last step. |
| `HttpParser.SkipPlain` | proxygen/proxygen/external/http_parser/http_parser.c:1729-1764 | The unrolled look-ahead in a header value stays inside the buffer and passes only bytes that need no attention. |
| `HttpParser.Parser.Init` | proxygen/proxygen/external/http_parser/http_parser.c:2195-2206 | Initialisation sets the fields it sets, leaves the others as they were, and gives a valid parser with an empty log. |
| `HttpParser.Parser.InNameFast` | proxygen/proxygen/external/http_parser/http_parser.c:1533-1561 | The fast path in a header name leaves the rest of the run as it is. |
| `HttpParser.Parser.InValueFast` | proxygen/proxygen/external/http_parser/http_parser.c:1729-1764 | The fast path in a header value, also at an opening quote, leaves the rest of the run as it is. |
| `HttpParser.Parser.ReadBlock` | proxygen/proxygen/external/http_parser/http_parser.c:1966-2005 | Taking as much of a body as the buffer holds leaves the rest of the run as it is, and either moves on or lowers the rank. |
| `HttpParser.Parser.OnePass` | proxygen/proxygen/external/http_parser/http_parser.c:719-2131 | One turn of the loop with marks leaves the rest of the run as it is. |
| `HttpParser.Parser.AtEndOfFile` | proxygen/proxygen/external/http_parser/http_parser.c:659-676 | An empty buffer ends a message that is read until the end, is fine between messages, and is an error everywhere else. |
| `HttpParser.Parser.EntryMarks` | proxygen/proxygen/external/http_parser/http_parser.c:679-707 | A parser that is inside a URL, reason, header name or value when a buffer starts gets the mark of that state set at the first byte. |
| `HttpParser.Parser.Finish` | proxygen/proxygen/external/http_parser/http_parser.c:2148-2176 | The end of a buffer: the header-size check, then the callback of the one mark that is set. |
| `HttpParser.Parser.Execute` | proxygen/proxygen/external/http_parser/http_parser.c:631-2186 | One call with one buffer leaves the fields, log, error number and number of bytes taken that the byte-wise reference gives. |
| `HttpParser.Parser.ExecuteAll` | proxygen/proxygen/external/http_parser/http_parser.c:631-2186 | The same for one call per piece of any list of pieces. |
| `HttpCuts.CutIndependence` | proxygen/proxygen/external/http_parser/http_parser.c:631-2186 | For every accepted input that is not handed over to another protocol: all lists of non-empty pieces give the state and merged callbacks of the uncut input if and only if no inner place of the input is one where the header-size check would fail or a dropped header value would be picked up again. |
| `HttpCuts.SafeCuts` | proxygen/proxygen/external/http_parser/http_parser.c:631-2186 | The same direction for rejected inputs too: where no place shows, every cut gives the same state, error and merged callbacks. |
| `HttpCuts.UnsafeCut` | proxygen/proxygen/external/http_parser/http_parser.c:1827-1848 | A cut at a place that shows gives a different result. |
| `HttpCuts.QuietIsSafe` | proxygen/proxygen/external/http_parser/http_parser.c:1827-1848 | If every CR that ends a header value is followed by LF and no header section exceeds the limit at an inner place, no place shows. |
| `HttpRequestLine.MethodPrefix` | proxygen/proxygen/external/http_parser/http_parser.c:951-1041 | While a method is read, the bytes so far are the first `index` bytes of the name of the method in the field, or the parser has failed. |
| `HttpRequestLine.MethodExact` | proxygen/proxygen/external/http_parser/http_parser.c:951-1041 | Bytes followed by a space are accepted if and only if they are the name of a method, and the field then holds that method. |
| `HttpRequestLine.MethodRun` | proxygen/proxygen/external/http_parser/http_parser.c:951-1041 | The name of every method followed by a space is read as that method. |
| `HttpRequestLine.TargetRun` | proxygen/proxygen/external/http_parser/http_parser.c:1043-1348 | A request target that the URL automaton accepts, for CONNECT a host and port, is delivered byte for byte as the URL. |
| `HttpRequestLine.NumberRun` | proxygen/proxygen/external/http_parser/http_parser.c:802-949 | A number of the start line, of any number of digits and up to 999, is read into its field. |
| `HttpRequestLine.VersionRun` | proxygen/proxygen/external/http_parser/http_parser.c:1350-1479 | A version is read into the two fields; behind version 0.9 the head is over, behind any other a line end follows. |
| `HttpHeaderLines.NameColon` | proxygen/proxygen/external/http_parser/http_parser.c:1495-1625 | At the colon the header state is content-length, transfer-encoding or upgrade if and only if the name is that one without regard to case, and the name has been delivered. |
| `HttpHeaderLines.ValueRun` | proxygen/proxygen/external/http_parser/http_parser.c:1628-1864 | The value of an ordinary header is delivered byte for byte, quotes and escapes included. |
| `HttpHeaderLines.LengthRun` | proxygen/proxygen/external/http_parser/http_parser.c:1689-1696 | Content-Length: at every prefix of the digits and spaces, either the field holds their decimal value, or the value exceeds INT64_MAX-8 and the parser has failed with the error for it. |
| `HttpHeaderLines.LengthLine` | proxygen/proxygen/external/http_parser/http_parser.c:1785-1801 | A whole Content-Length line leaves its decimal value in the field. |
| `HttpHeaderLines.CodingExact` | proxygen/proxygen/external/http_parser/http_parser.c:1780-1825 | The recogniser of a Transfer-Encoding value holds the chunked coding if and only if the value so far is "chunked" in any case, followed by spaces only. |
| `HttpHeaderLines.CodingLine` | proxygen/proxygen/external/http_parser/http_parser.c:1780-1845 | A Transfer-Encoding line delivers its value and sets the chunked flag if and only if the value is the chunked coding. |
| `HttpHeaderLines.UpgradeLine` | proxygen/proxygen/external/http_parser/http_parser.c:1673-1678 | An Upgrade line delivers its value and sets the upgrade flag. |
| `HttpBodies.DoneIs` | proxygen/proxygen/external/http_parser/http_parser.c:1917-1964 | The parser chooses the body as section 3.3.3 of RFC 7230 says: none for CONNECT or if the receiver wants none, else chunks, else the length, else none where the message or the next protocol allows none, else up to the end. |
| `HttpBodies.HeadEnd` | proxygen/proxygen/external/http_parser/http_parser.c:1865-1964 | The empty line that ends a head reports the start line and whether another protocol follows; then, by that choice, the message ends and the parser stops or goes on, or it waits for a chunk size, for the bytes of the length, or for everything. |
| `HttpBodies.TrailerEnd` | proxygen/proxygen/external/http_parser/http_parser.c:1865-1880 | The empty line after the trailers of a chunked body ends the message; the parser stops if another protocol follows. |
| `HttpBodies.IdentityRun` | proxygen/proxygen/external/http_parser/http_parser.c:1966-2016 | A body of known length N: exactly its N bytes are delivered, and the message ends once, on the last of them. |
| `HttpBodies.SizeRun` | proxygen/proxygen/external/http_parser/http_parser.c:2018-2062 | Chunk size: at every prefix of the digits, either the field holds their hexadecimal value, or the value exceeds INT64_MAX and the parser has failed with the error for it. |
| `HttpBodies.SizeLine` | proxygen/proxygen/external/http_parser/http_parser.c:2018-2093 | A chunk-size line, with or without an extension, delivers the length of the chunk. |
| `HttpBodies.ChunkDataRun` | proxygen/proxygen/external/http_parser/http_parser.c:2095-2131 | The data of a chunk are delivered byte for byte, followed by the end of the chunk. |
| `HttpMessages.HeadersRun` | proxygen/proxygen/external/http_parser/http_parser.c:1495-1864 | Any header lines are delivered in order; of what they say about the body the parser keeps exactly whether one announced the chunked coding, whether one asked for another protocol, and the last length. |
| `HttpMessages.Decides` | proxygen/proxygen/external/http_parser/http_parser.c:722-784 | A parser that is to find out by itself runs over every start line, of a request or of a response, as the parser for that kind does: HEAD and every other method make it one for requests, a version makes it one for responses. |
| `HttpMessages.MessageRun` | proxygen/proxygen/external/http_parser/http_parser.c:631-2186 | Round trip for one message, on a parser for its kind or one that finds the kind out by itself: a request, CONNECT included, or a response, with headers of any kind in any order, and the body that its head calls for (none, also for an answer to HEAD; a length; chunks with trailers, also when a length stands beside the coding). Running over its text adds exactly its callbacks to the log, takes exactly its bytes, and leaves the parser ready for the next message, or stopped if another protocol follows. |
| `HttpMessages.PipelineRun` | proxygen/proxygen/external/http_parser/http_parser.c:631-2186 | The same for any number of messages of one kind behind each other. |
| `HttpPipelines.PipelineAnyCut` | proxygen/proxygen/external/http_parser/http_parser.c:631-2186 | Round trip under every cut, on a parser of either kind or one that finds out by itself: whatever non-empty pieces the text of a pipeline is cut into, each message delivers its start line, headers, exact body bytes or chunks in order, and one end of message. |
| `HttpPipelines.Receive` | proxygen/proxygen/external/http_parser/http_parser.c:631-2186 | The same end to end through the parser object, initialised for the kind of the messages or for both, one call per piece; afterwards it is a parser for that kind. |
| `HttpConnections.StopsInPiece` | proxygen/proxygen/external/http_parser/http_parser.c:1917-1932 | Behind any pipeline, a message that asks for another protocol or a CONNECT, with or without a body, and any bytes behind it, under every cut: the parser stops in the piece with the last byte of that message, right behind that byte, with the events of all messages. |
| `HttpConnections.ReceiveUntilStop` | proxygen/proxygen/external/http_parser/http_parser.c:1917-1932 | The same end to end through the parser object: from which piece on the caller must hand the bytes over, and how many bytes of that piece the parser has taken; together these are exactly the bytes of the messages. |
| `HttpConnections.UntilCloseAnyCut` | proxygen/proxygen/external/http_parser/http_parser.c:1917-1964 | Behind any pipeline, a response without framing headers whose status allows a body, under every cut: all bytes behind its head are its body, and the empty buffer that stands for the end of the connection ends the message without an error. |
| `HttpConnections.ReceiveUntilClose` | proxygen/proxygen/external/http_parser/http_parser.c:659-676 | The same end to end through the parser object, with the empty buffer last. |
| `HttpPipelines.SampleOk` | proxygen/proxygen/external/http_parser/http_parser.c:2018-2131 | There are such messages: a request with a length, a chunked coding and headers on both sides meets all conditions. |
| `HttpPipelines.BareCrShows` | proxygen/proxygen/external/http_parser/http_parser.c:1827-1845 | Counterexample: a request from its first byte, with a CR inside a header value that is not followed by LF, is accepted whole and in two buffers, with different results. |
| `HttpEndings.FoldedLine` | proxygen/proxygen/external/http_parser/http_parser.c:1850-1863 | A line that continues a header value adds one space and its text to the value; by repetition so do any number of them. |
| `HttpUrl.UrlSorted` | proxygen/proxygen/external/http_parser/http_parser.c:471-621 | The URL automaton never goes back to an earlier level, so each field is one run of bytes. |
| `HttpUrl.HostSorted` | proxygen/proxygen/external/http_parser/http_parser.c:2222-2293 | The same for the automaton of the authority. |
| `HttpUrl.SpanOfIsSpan` | proxygen/proxygen/external/http_parser/http_parser.c:2438-2449 | The offset and length counted for a level are exactly those of the bytes on it. |
| `HttpUrl.SpansInOrder` | proxygen/proxygen/external/http_parser/http_parser.c:2438-2449 | Runs of bytes on different levels follow each other. |
| `HttpUrl.FirstPass` | proxygen/proxygen/external/http_parser/http_parser.c:2384-2450 | The loop over the URL finds the runs of the automaton, or fails where the automaton does. |
| `HttpUrl.ParseHost` | proxygen/proxygen/external/http_parser/http_parser.c:2295-2367 | The loop over the authority finds user information, host and port, or fails where the automaton does not end in a host or port. |
| `HttpUrl.ParsePort` | proxygen/proxygen/external/http_parser/http_parser.c:2465-2487 | The port is the decimal value of its digits, and too large exactly when that exceeds 65535. |
| `HttpUrl.LevelSevenIsNum` | proxygen/proxygen/external/http_parser/http_parser.c:2281-2288 | The bytes of a port are digits. |
| `HttpUrl.HostHasName` | proxygen/proxygen/external/http_parser/http_parser.c:2295-2367 | An authority that is accepted has a host of at least one byte. |
| `HttpUrl.AllInOrder` | proxygen/proxygen/external/http_parser/http_parser.c:2376-2491 | What a successful parse describes: every set field is non-empty and inside the URL, and the fields follow each other in the order schema, user information, host, port, path, query, fragment. |
| `HttpUrl.AuthorityBegins` | proxygen/proxygen/external/http_parser/http_parser.c:500-553 | The authority is behind the schema and "://", or is where the target of a CONNECT starts. |
| `HttpUrl.PathBegins` | proxygen/proxygen/external/http_parser/http_parser.c:535-553 | A path follows the authority without a gap. |
| `HttpUrl.AuthorityStops` | proxygen/proxygen/external/http_parser/http_parser.c:2295-2367 | An accepted authority ends with its port, or without one with its host or the bracket around it. |
| `HttpUrl.PathAlone` | proxygen/proxygen/external/http_parser/http_parser.c:471-498 | Without an authority a path starts the URL. |
| `HttpUrl.MarkBefore` | proxygen/proxygen/external/http_parser/http_parser.c:555-615 | A query follows a question mark, a fragment a hash sign. |
| `HttpUrl.ColonBefore` | proxygen/proxygen/external/http_parser/http_parser.c:2247-2288 | A port follows a colon. |
| `HttpUrl.AtBehind` | proxygen/proxygen/external/http_parser/http_parser.c:2225-2234 | User information starts the authority and is followed by an at sign. |
| `HttpUrl.DelimitedWhole` | proxygen/proxygen/external/http_parser/http_parser.c:2376-2491 | The delimiters of all fields of a successful parse, and that the path starts where the authority ends. |
| `HttpUrl.OnlyHostAndPort` | proxygen/proxygen/external/http_parser/http_parser.c:2460-2463 | The check of a CONNECT target on the set of fields, in terms of the runs. |
| `HttpUrl.ParseUrl` | proxygen/proxygen/external/http_parser/http_parser.c:2376-2491 | Fails exactly when the URL is not accepted; on success the fields are well placed and delimited, a schema comes with a host, a CONNECT target has host and port and nothing else, and the port is the decimal value of the bytes of its field and at most 65535. |
| `Text.SameTextIsSameVersion` | proxygen/proxygen/lib/utils/UtilInl.h:26-54 | Names that are equal without regard to case are equal without regard to case and underscores. |
| `Text.TrimFixes` | proxygen/proxygen/lib/http/HTTPHeaders.h:416-422 | Trimming leaves exactly the trimmed strings alone. |
| `HeaderSlots.NamedIsSameText` | proxygen/proxygen/lib/http/HTTPHeaders.cpp:76-84 | Looking a name up, by its code or among the other names, finds exactly the headers with that name in any case. |
| `HeaderSlots.BuryOne` | proxygen/proxygen/lib/http/HTTPHeaders.cpp:114-119 | Removing one slot adds one tombstone and gives up the heap name that the slot held, which was held before. |
| `HeaderSlots.LiveBuried` | proxygen/proxygen/lib/http/HTTPHeaders.cpp:108-147 | Turning the picked slots into tombstones is filtering the list that the slots stand for, order kept. |
| `HeaderSlots.LiveMoved` | proxygen/proxygen/lib/http/HTTPHeaders.cpp:231-253 | The slots moved elsewhere stand for the picked headers in order. |
| `HeaderSlots.KeepAndTake` | proxygen/proxygen/lib/http/HTTPHeaders.cpp:231-253 | What is kept and what is taken make up the list, and each is told apart by the selection. |
| `HttpHeaders.Headers.constructor` | proxygen/proxygen/lib/http/HTTPHeaders.cpp:39-41 | A new table is empty and has the initial capacity. |
| `HttpHeaders.Headers.Resize` | proxygen/proxygen/lib/http/HTTPHeaders.h:373-393 | Growing the memory keeps every slot. |
| `HttpHeaders.Headers.Ensure` | proxygen/proxygen/lib/http/HTTPHeaders.h:357-371 | The capacity grows by halves until it suffices; slots are kept. |
| `HttpHeaders.Headers.EmplaceBack` | proxygen/proxygen/lib/http/HTTPHeaders.h:416-422 | Appends a slot with the trimmed value; ownership of a heap name passes to the table. |
| `HttpHeaders.Headers.Add` | proxygen/proxygen/lib/http/HTTPHeaders.cpp:43-51 | The list grows by one header; a well-known name takes its usual spelling, another one is copied. |
| `HttpHeaders.Headers.AddCode` | proxygen/proxygen/lib/http/HTTPHeaders.h:439-442 | The same for a header given by code. |
| `HttpHeaders.Headers.Set` | proxygen/proxygen/lib/http/HTTPHeaders.h:135-139 | All headers of the name go, and one with the new value is added. |
| `HttpHeaders.Headers.SetCode` | proxygen/proxygen/lib/http/HTTPHeaders.h:140-143 | The same for a header given by the code of a well-known name. |
| `HttpHeaders.Headers.SetOneVersion` | proxygen/proxygen/lib/http/HTTPHeaders.h:153-158 | The same for all versions of the name. |
| `HttpHeaders.Headers.ExistsCode` | proxygen/proxygen/lib/http/HTTPHeaders.cpp:86-88 | True exactly when some slot, removed or not, has the code. |
| `HttpHeaders.Headers.Exists` | proxygen/proxygen/lib/http/HTTPHeaders.cpp:76-84 | True exactly when the list has a header of the name. |
| `HttpHeaders.Headers.Count` | proxygen/proxygen/lib/http/HTTPHeaders.cpp:90-106 | The number of headers picked, and the value of the first. |
| `HttpHeaders.Headers.GetSingleOrEmpty` | proxygen/proxygen/lib/http/HTTPHeaders.h:569-589 | The value if there is exactly one, else the empty string. |
| `HttpHeaders.Headers.Size` | proxygen/proxygen/lib/http/HTTPHeaders.cpp:227-229 | The difference of the two counters, modulo the word size; it is the number of headers exactly when the count of removed slots is right. |
| `HttpHeaders.Headers.NextPicked` | proxygen/proxygen/lib/http/HTTPHeaders.h:445-478 | The walk over the positions of one code finds the next picked slot and misses none. |
| `HttpHeaders.Headers.RemoveWhere` | proxygen/proxygen/lib/http/HTTPHeaders.cpp:108-147 | The list is filtered, tombstones stay counted, owned names of removed slots are given up once, and the result tells whether anything was removed. |
| `HttpHeaders.Headers.RemoveCode` | proxygen/proxygen/lib/http/HTTPHeaders.cpp:124-132 | The same for a code. |
| `HttpHeaders.Headers.Remove` | proxygen/proxygen/lib/http/HTTPHeaders.cpp:108-122 | The same for a name in any case. |
| `HttpHeaders.Headers.RemoveAllVersions` | proxygen/proxygen/lib/http/HTTPHeaders.cpp:134-147 | The same for the code and for all versions of the name. |
| `HttpHeaders.Headers.RemoveByPredicate` | proxygen/proxygen/lib/http/HTTPHeaders.h:545-567 | The same for any test of code, name and value. |
| `HttpHeaders.Headers.MoveSlot` | proxygen/proxygen/lib/http/HTTPHeaders.cpp:236-250 | A live slot goes to another table with its name: one table gives up the name, the other owns it. |
| `HttpHeaders.Headers.Transfer` | proxygen/proxygen/lib/http/HTTPHeaders.cpp:231-253 | The headers of a name leave one list in order and are appended to the other. |
| `HttpHeaders.Headers.Destroy` | proxygen/proxygen/lib/http/HTTPHeaders.cpp:153-164 | Every owned name is deleted exactly once. |
| `HttpHeaders.Headers.RemoveAll` | proxygen/proxygen/lib/http/HTTPHeaders.cpp:221-225 | The table is empty and owns nothing. |
| `HttpHeaders.Headers.CopyFrom` | proxygen/proxygen/lib/http/HTTPHeaders.cpp:185-197 | Slot for slot the same headers and tombstones, with names of its own. |
| `HttpHeaders.Headers.Copy` | proxygen/proxygen/lib/http/HTTPHeaders.cpp:170-173 | A copy has the same list and an equally right count of removed slots. |
| `HttpHeaders.Headers.Assign` | proxygen/proxygen/lib/http/HTTPHeaders.cpp:199-205 | Copy assignment gives the same list but forgets the tombstones it copies: the count is off by exactly their number. |
| `HttpHeaders.Headers.Move` | proxygen/proxygen/lib/http/HTTPHeaders.cpp:175-183 | Memory, list, names and count move over; the source is left empty. |
| `HttpHeaders.Headers.MoveAssign` | proxygen/proxygen/lib/http/HTTPHeaders.cpp:207-219 | The same, with the memory swapped; assigning a table to itself changes nothing. |
| `HttpHeaders.Headers.CopyTo` | proxygen/proxygen/lib/http/HTTPHeaders.cpp:329-340 | The list of one table is appended to the other, with names of its own. |
| `HeaderRuns.SetThenGet` | proxygen/proxygen/lib/http/HTTPHeaders.h:131-139 | After set a name has exactly the new trimmed value, and every other name has what it had. |
| `HeaderRuns.RemoveThenGet` | proxygen/proxygen/lib/http/HTTPHeaders.h:254-259 | After remove a name has no value, and every other name has what it had. |
| `HeaderRuns.NoVersionLeft` | proxygen/proxygen/lib/http/HTTPHeaders.h:264-268 | After removing all versions neither the name nor any spelling of it with underscores for hyphens is left. |
| `HeaderHops.NamesRead` | proxygen/proxygen/lib/http/HTTPHeaders.cpp:262-303 | Reading a Connection value that is a comma-separated list gives the names of the list, whatever blanks surround them and however many elements are empty. |
| `HeaderHops.HeardIsAll` | proxygen/proxygen/lib/http/HTTPHeaders.cpp:259-304 | The names of all Connection values are stripped if and only if no value that names "connection" is followed by one that names anything. |
| `HeaderHops.NamesSplit` | proxygen/proxygen/lib/http/HTTPHeaders.cpp:231-253 | Stripping names one after the other keeps and takes what stripping by the whole list does. |
| `HeaderStrip.NextToken` | proxygen/proxygen/lib/http/HTTPHeaders.cpp:269-301 | One turn of the loop over a Connection value takes the next name. |
| `HeaderStrip.StripNamed` | proxygen/proxygen/lib/http/HTTPHeaders.cpp:260-304 | One Connection value: exactly the headers it names are moved. |
| `HeaderStrip.StripConnections` | proxygen/proxygen/lib/http/HTTPHeaders.cpp:258-304 | The walk over the Connection headers, while it removes headers from the same table, moves exactly what the values it still finds name. |
| `HeaderStrip.IsPerHop` | proxygen/proxygen/lib/http/HTTPHeaders.cpp:308-319 | The decision for one slot, also for a tombstone. |
| `HeaderStrip.StripHops` | proxygen/proxygen/lib/http/HTTPHeaders.cpp:306-327 | The walk over all slots moves exactly the per-hop, priority and custom headers; if the custom table has tombstones, the tombstones met are counted twice. |
| `HeaderStrip.StripPerHopHeaders` | proxygen/proxygen/lib/http/HTTPHeaders.cpp:255-327 | The whole operation: kept headers keep their order, the moved ones are exactly the others, and both counts are off exactly by the tombstones met if the custom table has any. |
| `HeaderStrip.StripsExactly` | proxygen/proxygen/lib/http/HTTPHeaders.cpp:255-327 | Old headers are the kept ones plus the moved ones; a header is moved if and only if a heard Connection value names it, it is per-hop, it is the priority header and that was asked, or the custom table has its name. |
| `HeaderStrip.DeafExample` | proxygen/proxygen/lib/http/HTTPHeaders.cpp:258-304 | Counterexample: a value that names "connection" keeps the header that the next value names from being stripped. |
| `HeaderTables.Perform` | proxygen/proxygen/lib/http/HTTPHeaders.cpp:43-253 | Each operation on a table does to its list what the plain list operation does, keeps the error of its count of removed slots, and takes new names only. |
| `HeaderTables.Run` | proxygen/proxygen/lib/http/HTTPHeaders.cpp:43-340 | For every run of operations on any number of tables, by name and by code, also handing headers over, copying into, copy and move assignment and construction of new tables: every table has the list, the number of slots and the exact error of its count that the plain steps give, and no two tables ever share memory or names. |
| `HeaderTables.Sizes` | proxygen/proxygen/lib/http/HTTPHeaders.cpp:227-229 | The size of each table after a run is the number of its headers less the error of its count, modulo the word size, and there are never more headers than slots. |
| `HeaderTables.ReadsBack` | proxygen/proxygen/lib/http/HTTPHeaders.h:135-139 | After any run, setting a name in one table leaves exactly the new trimmed value under it there, removing it leaves none, and every other name and every other table is as it was. |
| `HeaderTables.OneHolder` | proxygen/proxygen/lib/http/HTTPHeaders.cpp:153-164 | After any run each name owned by a table is held by exactly one live slot of all tables, which is in that table. |
| `HeaderTables.CountedStep` | proxygen/proxygen/lib/http/HTTPHeaders.cpp:199-205 | A step keeps all counts right if and only if it is not a copy assignment from another table with removed slots. |
| `HeaderTables.CountedRun` | proxygen/proxygen/lib/http/HTTPHeaders.cpp:199-205 | Over a run without such an assignment all counts stay right. |
| `HeaderTables.NothingLost` | proxygen/proxygen/lib/http/HTTPHeaders.cpp:231-253 | Handing headers over and moving a table keep, over all tables, how often each header is there. |
| `DnsState.ActiveCounted` | proxygen/proxygen/lib/dns/CAresResolver.cpp:986-996 | Clearing a callback takes one query off the counted ones. |
| `DnsState.SettleInv` | proxygen/proxygen/lib/dns/CAresResolver.cpp:108-195 | Ending a request, by a result or by cancelling, keeps every invariant of the resolver. |
| `DnsState.HearMoreInv` | proxygen/proxygen/lib/dns/CAresResolver.cpp:519-551 | The first of two results of a fan-out keeps every invariant. |
| `DnsState.OpenBothInv` | proxygen/proxygen/lib/dns/CAresResolver.cpp:481-497 | Starting a fan-out keeps every invariant. |
| `DnsResolver.CompleteInv` | proxygen/proxygen/lib/dns/CAresResolver.cpp:114-195 | A result for a query with a callback reaches its request, and keeps every invariant and every earlier history. |
| `DnsResolver.Resolver.ResolveOne` | proxygen/proxygen/lib/dns/CAresResolver.cpp:91-106 | A new query waits with its callback. |
| `DnsResolver.Resolver.ResolveBoth` | proxygen/proxygen/lib/dns/CAresResolver.cpp:481-497 | A new fan-out waits with two queries of its own. |
| `DnsResolver.Resolver.CallParent` | proxygen/proxygen/lib/dns/CAresResolver.cpp:519-579 | A fan-out collects answers and the latest error, and with the last result ends with the answers if there are any and an error if not. |
| `DnsResolver.Resolver.Finish` | proxygen/proxygen/lib/dns/CAresResolver.cpp:114-195 | The end of a query: the result goes to the callback if it is still set, and the query is deleted. |
| `DnsResolver.Resolver.CheckForCName` | proxygen/proxygen/lib/dns/CAresResolver.cpp:202-225 | An alias is followed unless nine have been or the callback is gone. |
| `DnsResolver.Resolver.QueryCallback` | proxygen/proxygen/lib/dns/CAresResolver.cpp:227-433 | What a reply does to the resolver. |
| `DnsResolver.Resolver.TimeoutExpired` | proxygen/proxygen/lib/dns/CAresResolver.cpp:437-456 | A timeout delivers an error once; the query stays behind for the reply. |
| `DnsResolver.Resolver.CancelResolution` | proxygen/proxygen/lib/dns/DNSResolver.cpp:33-46 | The loop over the queries of a callback has the effect of ending, without a result, exactly the requests that wait for it, in whatever order they are taken. |
| `DnsRuns.HandleAll` | proxygen/proxygen/lib/dns/CAresResolver.cpp:91-580 | In every interleaving of requests, replies, aliases, timeouts and cancellations: the state is the fold of the events, the reference count is the number of queries with a callback, every request waits or was cancelled without a result or got exactly one result, no query is sent more than ten times, and when no reply is outstanding nobody waits. |
| `DnsRuns.AskedExactly` | proxygen/proxygen/lib/dns/CAresResolver.cpp:91-106 | After any prefix of a run there is a request exactly for each event that asked for one. |
| `DnsRuns.WaitsFor` | proxygen/proxygen/lib/dns/CAresResolver.cpp:97-98 | A query that waits for a callback belongs to a request that was made with that callback. |
| `DnsRuns.CancelledExactly` | proxygen/proxygen/lib/dns/DNSResolver.cpp:33-46 | Over any run from the start: a request ends cancelled if and only if some event cancels its callback while the request waits. |
| `DnsRuns.ResultExactly` | proxygen/proxygen/lib/dns/CAresResolver.cpp:108-195 | Over any run from the start: a request ends with a result if and only if some event delivers that result to it, a reply, a timeout or the last result of its fan-out, and it is that one. |
| `DnsRuns.AllSettled` | proxygen/proxygen/lib/dns/CAresResolver.cpp:91-580 | When no query is outstanding the reference count is zero and nobody waits. |
| `DnsRuns.CombineFails` | proxygen/proxygen/lib/dns/CAresResolver.cpp:519-579 | A fan-out fails if and only if none of its queries had an answer. |
| `DnsAnswers.LessIsStrict` | proxygen/proxygen/lib/dns/DNSResolver.h:196-218 | The order of answers is irreflexive and transitive. |
| `DnsAnswers.SameKey` | proxygen/proxygen/lib/dns/DNSResolver.h:192-218 | Answers that the order does not tell apart are those with the same kind and payload; the time to live plays no part. |
| `DnsAnswers.RebasedFaithful` | proxygen/proxygen/lib/dns/CachingDNSResolver.cpp:102-115 | Pruning and rebasing an entry keeps every expiry time. |
| `DnsAnswers.InsertedFaithful` | proxygen/proxygen/lib/dns/CachingDNSResolver.cpp:94-129 | After any insertion each answer expires when the latest of its insertions does, and answers that are gone had expired. |
| `DnsAnswers.HoldsAlive` | proxygen/proxygen/lib/dns/CachingDNSResolver.cpp:94-129 | Whatever is not past its time according to the insertions is in the entry. |
| `DnsCache.Cache.Insert` | proxygen/proxygen/lib/dns/CachingDNSResolver.cpp:94-129 | The entry is rebased, pruned and merged as specified, and every entry stays faithful to its insertions. |
| `DnsCache.Cache.Evict` | proxygen/proxygen/lib/dns/CachingDNSResolver.cpp:58-60 | An entry may go at any time; the others stay faithful. |
| `DnsCache.Cache.Search` | proxygen/proxygen/lib/dns/CachingDNSResolver.cpp:145-169 | Exactly the answers of the family that are not past their time, each once, with the age of the entry as their time to live. |
| `DnsCache.LookUp` | proxygen/proxygen/lib/dns/CachingDNSResolver.cpp:33-56 | The loop over an entry: which answers are usable, whether one of the family has expired, and whether any address is still usable. |
| `DnsCache.CachingResolver.ResolveHostname` | proxygen/proxygen/lib/dns/CachingDNSResolver.cpp:21-91 | A hit if and only if the entry has addresses of the family and none of them has expired; it returns all of them with the time each has left; the entry, and with it the record of what was inserted, goes exactly when no address in it is usable. |
| `DnsCache.CachingResolver.ResolutionSuccess` | proxygen/proxygen/lib/dns/CachingDNSResolver.h:156-167 | A result that is not empty goes into both caches, with the scaled time to live into the second one, and its insertions are added to the record of the name; an empty one changes nothing. |
| `DnsCache.CachingResolver.ResolutionError` | proxygen/proxygen/lib/dns/CachingDNSResolver.h:169-190 | After a failure the stale answers are served, if there are any. |
| `DnsCacheRuns.HandleAll` | proxygen/proxygen/lib/dns/CachingDNSResolver.cpp:21-169 | For every run of results, look-ups, failures, evictions and flushes from an empty resolver with a clock that does not go back: every output is right for the record that the events before it alone determine. A hit has exactly the addresses of the family that were inserted and are alive, each with the time left until the latest of its insertions expires, and a miss has a reason; after a failure exactly the insertions that are alive on the scaled time are served, and an error is passed on only if there are none. |
| `DnsCacheRuns.HitIsRight` | proxygen/proxygen/lib/dns/CachingDNSResolver.cpp:21-91 | A hit on a faithful entry is right for the insertions recorded for it: all wanted addresses inserted, each once, each alive, with the time its latest insertion leaves. |
| `DnsCacheRuns.StaleIsRight` | proxygen/proxygen/lib/dns/CachingDNSResolver.cpp:136-169 | What a search of a faithful stale entry finds is exactly what its recorded insertions, with scaled lifetimes, leave alive. |
| `DnsCacheRuns.AllMade` | proxygen/proxygen/lib/dns/CachingDNSResolver.cpp:94-129 | Every insertion on record after a run was made by an event of that run, with that event's time, kind, payload and lifetime, and nothing dropped the name since. |
| `DnsCacheRuns.HitFromRun` | proxygen/proxygen/lib/dns/CachingDNSResolver.cpp:21-91 | Every answer of a hit in a run comes from an earlier result of the run for that name which no eviction or flush undid, and whose time to live has not run out by then. |
| `DnsCacheRuns.StaleFromRun` | proxygen/proxygen/lib/dns/CachingDNSResolver.cpp:136-169 | Every stale answer served in a run comes from an earlier result of the run for that name, whose time to live, scaled and not below the minimum, has not run out by then. |
| `Rfc6724.CommonPrefix` | proxygen/proxygen/lib/dns/Rfc6724.cpp:319-338 | The loop over bytes and shifted bits finds the number of leading bits that agree. |
| `Rfc6724.CompareIsLex` | proxygen/proxygen/lib/dns/Rfc6724.cpp:344-438 | For a pair that is not mixed the comparison is the lexicographic order of what the rules look at. |
| `Rfc6724.TieIsMixed` | proxygen/proxygen/lib/dns/Rfc6724.cpp:410-432 | Destinations of which rule 9 covers only one tie on the rules before it only if one is IPv4 and the other a mapped IPv6 address. |
| `Rfc6724.TotalOrder` | proxygen/proxygen/lib/dns/Rfc6724.cpp:344-438 | On elements with different positions the comparison is antisymmetric and never ties, and it carries over from two pairs to the third if and only if the three are not crossed. |
| `Rfc6724.MixedCircle` | proxygen/proxygen/lib/dns/Rfc6724.cpp:410-438 | Counterexample: with mixed pairs the comparison goes round in a circle. |
| `Rfc6724.CircleExactly` | proxygen/proxygen/lib/dns/Rfc6724.cpp:344-438 | The comparison goes round in a circle on three elements if and only if rule 9 puts two of them in one order, rule 10 puts the third between them in the other, and rules 1 to 8 decide nothing. |
| `Rfc6724.CrossedIsMixed` | proxygen/proxygen/lib/dns/Rfc6724.cpp:410-432 | Such elements mix IPv4 and mapped IPv6 destinations. |
| `Rfc6724.SortsIsUnique` | proxygen/proxygen/lib/dns/Rfc6724.cpp:92-93 | There is at most one sorted order, so any sorting method gives the same. |
| `Rfc6724.SortableExactly` | proxygen/proxygen/lib/dns/Rfc6724.cpp:92-93 | There is a sorted order if and only if no three elements are crossed. |
| `Rfc6724.SwapLoop` | proxygen/proxygen/lib/dns/Rfc6724.cpp:94-98 | Where the loop puts every address. |
| `Rfc6724.FinalSource` | proxygen/proxygen/lib/dns/Rfc6724.cpp:94-98 | The address chosen for a place gets there if it stood in that place or a later one; otherwise the place keeps the address that has been carried there. |
| `Rfc6724.FallIsCarried` | proxygen/proxygen/lib/dns/Rfc6724.cpp:94-98 | A place whose choice stands before it gets that choice if and only if no other place of its cycle has a choice that stands before it. |
| `Rfc6724.PlaceExactly` | proxygen/proxygen/lib/dns/Rfc6724.cpp:94-98 | So for every place: it gets the right address if and only if its choice does not stand before it, or its cycle has no second such place. |
| `Rfc6724.AppliesOrder` | proxygen/proxygen/lib/dns/Rfc6724.cpp:94-98 | The loop puts every address in its place if and only if each cycle of the order, followed from choice to choice, leads back to an earlier place at most once. |
| `Rfc6724.SourceIsOrder` | proxygen/proxygen/lib/dns/Rfc6724.cpp:94-98 | No address is lost and none appears twice. |
| `Rfc6724.RotationExample` | proxygen/proxygen/lib/dns/Rfc6724.cpp:69-99 | Counterexample with addresses: a global IPv6, an IPv4 and the loopback address sort as loopback, global, IPv4; the loop leaves the IPv4 address before the global one. |
| `Rfc6724.OwnNeverThrows` | proxygen/proxygen/lib/dns/Rfc6724.cpp:410-432 | With sources of the destinations' own families, which is what the system gives, no comparison throws. |
| `Rfc6724.Sort` | proxygen/proxygen/lib/dns/Rfc6724.cpp:69-99 | For every list and every way the library sort can end on it: after an exception, which sources of the destinations' own families never cause, the addresses are as they were; otherwise they are permuted, and the places that get the right address are, if the addresses differ, exactly those that `PlaceExactly` names, and all of them exactly if no cycle of the order falls twice; the best address comes first on every list without crossed elements and exceptions. |
| `QueryStrings.ParseQueryParams` | proxygen/proxygen/lib/http/HTTPMessage.cpp:460-491 | The loop over the query string fills the parameters as specified. |
| `QueryStrings.CreateQueryString` | proxygen/proxygen/lib/http/HTTPMessage.cpp:607-619 | The loop over the parameters prints them in the order of the walk. |
| `QueryStrings.RoundTrip` | proxygen/proxygen/lib/http/HTTPMessage.cpp:607-619 | Parsing what is printed, in whatever order the parameters are walked, gives them back if and only if names and values are trimmed and free of the delimiters that end them. |
| `QueryStrings.Idempotent` | proxygen/proxygen/lib/http/HTTPMessage.cpp:460-491 | For every string and every order: parsing, printing and parsing again gives what the first parsing gave. |
| `QueryStrings.LastWins` | proxygen/proxygen/lib/http/HTTPMessage.cpp:477-490 | Of several parameters with one name the last one counts. |
| `FlowWindow.MixedIsExact` | proxygen/proxygen/lib/http/Window.cpp:50 | Mixed signed and unsigned arithmetic is exact when the result fits. |
| `FlowWindow.Window.constructor` | proxygen/proxygen/lib/http/Window.cpp:16-18 | A new window has its capacity as its size. |
| `FlowWindow.Window.GetSize` | proxygen/proxygen/lib/http/Window.cpp:20-22 | The size fits, and is the capacity plus all that was freed minus all that was reserved. |
| `FlowWindow.Window.GetNonNegativeSize` | proxygen/proxygen/lib/http/Window.cpp:24-27 | The same, but not below zero. |
| `FlowWindow.Window.GetOutstanding` | proxygen/proxygen/lib/http/Window.cpp:34-36 | What was reserved minus what was freed, but not below zero. |
| `FlowWindow.Window.Reserve` | proxygen/proxygen/lib/http/Window.cpp:38-58 | Fails exactly when the ideal count leaves the range, or the capacity if that is asked; no arithmetic overflows. |
| `FlowWindow.Window.Free` | proxygen/proxygen/lib/http/Window.cpp:60-79 | Fails exactly when the ideal size leaves the range; no arithmetic overflows. |
| `FlowWindow.Window.SetCapacity` | proxygen/proxygen/lib/http/Window.cpp:81-98 | Fails exactly when the new capacity or the size it gives leaves the range; no arithmetic overflows. |
| `FlowWindow.Run` | proxygen/proxygen/lib/http/Window.cpp:38-98 | On every run the 32-bit window is the window of unbounded integers in which a call takes effect exactly when its result is in range. |

## Left out

- Pausing, callbacks that fail, the strict URL and strict host-name builds, the header size passed to the callback, and the tables of error names.
- `http_parser_cpp.cpp`: the same text as `http_parser.c`.
- HttpCuts.CutIndependence: is about inputs that are accepted and not handed over to another protocol; `SafeCuts` covers rejected inputs in the direction from no showing place to equal results, because a rejected input may be rejected before or after a cut shows.
- HttpMessages.MessageRun: requests of HTTP/0.9, lines that end in LF alone, and values with a bare CR or with a quoted pair at their end are not among the messages whose text is round-tripped; the parser and the cut results cover them. Folded lines and responses read until the end of the connection have results of their own in `HttpEndings` and `HttpConnections`. The receiver's word that messages have no body is the same for all messages of a connection.
- HttpPipelines.PipelineAnyCut: the head of a message, each chunk-size line and the trailers are within the header-size limit, as the code demands.
- HttpUrl.ParseUrl: takes a zeroed result structure and at most 65535 bytes, because the offsets of the source have 16 bits and it reads the host field before setting it.
- HttpHeaders.Headers.RemoveCode: is for the code of a well-known name, in runs over tables too; the source would count a tombstone again for the code of removed headers, and leak names for the code of other names.
- HttpHeaders.Headers.Size: `size_t` is 64 bits wide; capacities are not bounded by the address space.
- HttpHeaders.Headers.EmplaceBack: a value that lies in the table's own memory is an ordinary value here, so the copy that the source makes before reallocating has no counterpart.
- HttpHeaders.Headers.CopyFrom: copies slot by slot, where the source copies all codes first and sets the length last.
- HeaderStrip.StripPerHopHeaders: the table, the destination and the custom table are three different objects.
- DnsRuns.HandleAll: a user's callback does not call the resolver from inside a result; its calls are later steps of the run.
- The channel's replies come as later steps, never from inside the call that sends a query; record parsing, sockets, traces, statistics and timers other than their firing are not modelled.
- DnsResolver.Resolver.ResolveBoth: a fan-out has the two queries that the resolver makes, not any list.
- DnsCache.Cache.Insert: one clock reading in whole seconds for each step, which does not go back, and times to live that are not negative; the product with the scale does not overflow.
- DnsCache.Cache.Evict: eviction may drop any entry at any time; the least-recently-used order is not modelled. The shuffle of a hit's answers is any order.
- Rfc6724.TotalOrder: the comparison function, here and in the other lemmas about the order, also has a value for the pairs on which the code throws; which pairs these are is `Throws`, and `Sort` leaves the addresses alone when the library sort meets one.
- Rfc6724.Sort: source addresses are given; finding them asks the operating system. The library sort is a parameter: it throws only if some comparison does, sorts if the comparison is an order, and otherwise gives some permutation, where the C standard promises nothing of `qsort` for a comparison that goes round in a circle.
- QueryStrings.CreateQueryString: the order in which the map is walked is a parameter.
- Compression, servers, acceptors, connectors, sessions and the other codecs: wiring, or behaviour that depends on code not shown.
