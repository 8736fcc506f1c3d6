/** The buffered parser: fields updated in place, marks into the current buffer, look-ahead
    inside header names and values, body bytes taken in blocks. Every call is proved to do
    what the byte-at-a-time reference does with the buffer's bytes. */
module HttpParser {
  import opened HttpMachine
  import opened HttpStream
  import opened HttpBlocks

  /** The marks: positions in the current buffer where a data callback will start. */
  type Marks = map<Span, nat>

  // ----- What a position inside a buffer stands for -----

  predicate MarksOk(s: State, marks: Marks, p: nat) {
    && (forall k :: k in marks ==> Owner(s) == Owned(k) && marks[k] <= p)
    && (s.InUrl? ==> Url in marks)
    && (s.InField? ==> Field in marks)
    && (Body in marks ==> marks[Body] < p)
  }

  /** The bytes a mark has collected so far, as the callback that would report them. */
  function Pending(s: State, marks: Marks, data: string, p: nat): seq<Event>
    requires MarksOk(s, marks, p) && p <= |data|
  {
    match Owner(s)
    case Unowned => []
    case Owned(k) => if k in marks && marks[k] < p then [Data(k, data[marks[k]..p])] else []
  }

  /** The reference state that stands for a position in a buffer. */
  function Mid(c: Core, events: seq<Event>, marks: Marks, data: string, p: nat, start: nat, nread: nat): Stream
    requires MarksOk(c.state, marks, p) && start <= p <= |data|
  {
    Stream(c, PushAll(Merged(events), Pending(c.state, marks, data, p)), c.state.InValue? && Value !in marks,
           if ParsingHeader(c.state) then Wrap(nread + (p - start)) else 0, p, false)
  }

  /** Marks are positions of bytes, and a marked name consists of token characters. */
  predicate InBuffer(marks: Marks, data: string, p: nat)
    requires p <= |data|
  {
    && (forall k :: k in marks ==> marks[k] < |data|)
    && (Field in marks ==> forall i :: marks[Field] <= i < p ==> IsToken(data[i]))
  }

  function MarksAfter(act: Act, marks: Marks, p: nat): Marks {
    match act
    case Open(k) => if k in marks then marks else marks[k := p]
    case Mark(k) => if k in marks then marks else marks[k := p]
    case Close(k) => marks - {k}
    case MarkClose(k) => marks - {k}
    case _ => marks
  }

  lemma InBufferAfter(act: Act, marks: Marks, data: string, p: nat)
    requires p < |data| && InBuffer(marks, data, p)
    requires Field in MarksAfter(act, marks, p) ==> IsToken(data[p])
    ensures InBuffer(MarksAfter(act, marks, p), data, p) && InBuffer(MarksAfter(act, marks, p), data, p + 1)
  {
  }

  function EventsAfter(act: Act, events: seq<Event>, marks: Marks, data: string, p: nat): seq<Event>
    requires p <= |data|
    requires forall k :: k in marks ==> marks[k] <= p
  {
    match act
    case Close(k) => if k in marks then events + [Data(k, data[marks[k]..p])] else events
    case MarkClose(k) => events + [Data(k, if k in marks then data[marks[k]..p] else [])]
    case Notice(e) => events + [e]
    case Space => events + [Data(Value, " ")]
    case _ => events
  }

  lemma MergedSnoc(events: seq<Event>, e: Event)
    ensures Merged(events + [e]) == Push(Merged(events), e)
  {
    PushAllAppend([], events, [e]);
  }

  /** Growing a marked span is pushing the bytes it grows by. */
  lemma PendingGrows(log: seq<Event>, k: Span, data: string, m: nat, p: nat, q: nat)
    requires m <= p <= q <= |data|
    ensures var before := if m < p then PushAll(log, [Data(k, data[m..p])]) else log;
            PushAll(log, [Data(k, data[m..q])]) == Push(before, Data(k, data[p..q]))
  {
    assert data[m..q] == data[m..p] + data[p..q];
    PushJoin(log, k, data[m..p], data[p..q]);
    PushOne(log, Data(k, data[m..p]));
    PushOne(log, Data(k, data[m..q]));
  }

  lemma PendingCloses(log: seq<Event>, k: Span, data: string, m: nat, p: nat)
    requires m <= p <= |data|
    ensures var before := if m < p then PushAll(log, [Data(k, data[m..p])]) else log;
            Push(log, Data(k, data[m..p])) == Push(before, Data(k, []))
  {
    PushJoin(log, k, data[m..p], []);
    assert data[m..p] + [] == data[m..p];
    assert PushAll(log, [Data(k, data[m..p])]) == Push(log, Data(k, data[m..p]));
    if m == p { assert data[m..p] == []; }
  }

  lemma MarksRefine(s: State, marks: Marks, o: Outcome, p: nat)
    requires MarksOk(s, marks, p) && Shape(s, o) && o.control != Fail
    ensures MarksOk(o.core.state, MarksAfter(o.act, marks, p), p)
    ensures MarksOk(o.core.state, MarksAfter(o.act, marks, p), p + 1)
  {
  }

  /** Callbacks made and bytes pending after a pass give the reference log after it. */
  ghost predicate LogAgrees(s: State, events: seq<Event>, marks: Marks, data: string, p: nat, o: Outcome)
    requires MarksOk(s, marks, p) && Shape(s, o) && o.control != Fail && p < |data|
  {
    var muted := s.InValue? && Value !in marks;
    var q := if o.control == Again then p else p + 1;
    var marks' := MarksAfter(o.act, marks, p);
    && MarksOk(o.core.state, marks', q)
    && PushAll(Merged(EventsAfter(o.act, events, marks, data, p)), Pending(o.core.state, marks', data, q))
       == Emit(PushAll(Merged(events), Pending(s, marks, data, p)), o.act, muted, data[p])
  }

  lemma LogRefines(s: State, events: seq<Event>, marks: Marks, data: string, p: nat, o: Outcome)
    requires MarksOk(s, marks, p) && Shape(s, o) && o.control != Fail && p < |data|
    ensures LogAgrees(s, events, marks, data, p, o)
  {
    hide LogAgrees, MarksOk, Shape;
    match o.act
    case Mark(k) => MarkRefines(s, events, marks, data, p, o);
    case Keep(k) => KeepRefines(s, events, marks, data, p, o);
    case Close(k) => CloseRefines(s, events, marks, data, p, o);
    case MarkClose(k) => MarkCloseRefines(s, events, marks, data, p, o);
    case _ => OtherRefines(s, events, marks, data, p, o);
  }

  lemma MarkRefines(s: State, events: seq<Event>, marks: Marks, data: string, p: nat, o: Outcome)
    requires MarksOk(s, marks, p) && Shape(s, o) && o.control != Fail && p < |data| && o.act.Mark?
    ensures LogAgrees(s, events, marks, data, p, o)
  {
    hide Push;
    MarksRefine(s, marks, o, p);
    var k := o.act.span;
    PendingGrows(Merged(events), k, data, if k in marks then marks[k] else p, p, p + 1);
    assert data[p..p + 1] == [data[p]];
  }

  lemma KeepRefines(s: State, events: seq<Event>, marks: Marks, data: string, p: nat, o: Outcome)
    requires MarksOk(s, marks, p) && Shape(s, o) && o.control != Fail && p < |data| && o.act.Keep?
    ensures LogAgrees(s, events, marks, data, p, o)
  {
    hide Push;
    MarksRefine(s, marks, o, p);
    var k := o.act.span;
    if k in marks { PendingGrows(Merged(events), k, data, marks[k], p, p + 1); }
    assert data[p..p + 1] == [data[p]];
  }

  lemma CloseRefines(s: State, events: seq<Event>, marks: Marks, data: string, p: nat, o: Outcome)
    requires MarksOk(s, marks, p) && Shape(s, o) && o.control != Fail && p < |data| && o.act.Close?
    ensures LogAgrees(s, events, marks, data, p, o)
  {
    hide Push;
    MarksRefine(s, marks, o, p);
    var k := o.act.span;
    if k in marks {
      MergedSnoc(events, Data(k, data[marks[k]..p]));
      PendingCloses(Merged(events), k, data, marks[k], p);
    }
  }

  lemma MarkCloseRefines(s: State, events: seq<Event>, marks: Marks, data: string, p: nat, o: Outcome)
    requires MarksOk(s, marks, p) && Shape(s, o) && o.control != Fail && p < |data| && o.act.MarkClose?
    ensures LogAgrees(s, events, marks, data, p, o)
  {
    hide Push;
    MarksRefine(s, marks, o, p);
    var k := o.act.span;
    MergedSnoc(events, Data(k, if k in marks then data[marks[k]..p] else []));
    if k in marks { PendingCloses(Merged(events), k, data, marks[k], p); }
  }

  lemma OtherRefines(s: State, events: seq<Event>, marks: Marks, data: string, p: nat, o: Outcome)
    requires MarksOk(s, marks, p) && Shape(s, o) && o.control != Fail && p < |data|
    requires o.act.Idle? || o.act.Open? || o.act.Notice? || o.act.Space?
    ensures LogAgrees(s, events, marks, data, p, o)
  {
    hide Push;
    MarksRefine(s, marks, o, p);
    if o.act.Notice? { MergedSnoc(events, o.act.event); }
    if o.act.Space? { MergedSnoc(events, Data(Value, " ")); }
  }

  /** One pass over a byte that is not read in a block. */
  lemma PassRefines(c: Core, events: seq<Event>, marks: Marks, data: string, p: nat, start: nat, nread: nat)
    requires MarksOk(c.state, marks, p) && start <= p < |data|
    requires Sound(c) && c.errno == OK && !ReadsBlock(c.state)
    requires Pass(c, data[p]).control != Fail
    ensures
      var o := Pass(c, data[p]);
      var q := if o.control == Again then p else p + 1;
      var marks', events' := MarksAfter(o.act, marks, p), EventsAfter(o.act, events, marks, data, p);
      var start', nread' := if o.reset then p else start, if o.reset then 0 else nread;
      var r := Apply(Mid(c, events, marks, data, p, start, nread), o, data[p]);
      && Sound(o.core) && o.core.errno == OK
      && MarksOk(o.core.state, marks', q)
      && Falls(c.state, o)
      && (o.core.state.InField? ==> IsToken(data[p]))
      && (o.control != Stop ==> Mid(o.core, events', marks', data, q, start', nread') == r)
      && (o.control == Stop ==>
            && r == Mid(o.core, events', marks', data, q, q, nread').(stopped := true)
            && o.reset && marks' == map[] && ParsingHeader(o.core.state))
  {
    hide Pass, Sound, Emit, Rank, Push, PushAll, Merged, Pending;
    PassKeeps(c, data[p]);
    LogRefines(c.state, events, marks, data, p, Pass(c, data[p]));
  }

  /** What one pass is worth to a run. */
  lemma RunOnePass(r: Stream, s: string)
    requires s != [] && !Halted(r) && Sound(r.core)
    ensures
      var o := Pass(r.core, s[0]);
      var r' := Apply(r, o, s[0]);
      match o.control
      case Again => Run(r, s) == Run(r', s)
      case Advance => Run(r, s) == Run(r', s[1..])
      case Stop => Run(r, s) == r'
      case Fail => Run(r, s) == r' && r'.core.errno != OK
  {
    hide Pass, Step, Sound, Emit;
    StepOnce(r, s[0]);
    PassKeeps(r.core, s[0]);
    var o := Pass(r.core, s[0]);
    if o.control == Stop || o.control == Fail { RunHalted(Apply(r, o, s[0]), s[1..]); }
  }

  /** One pass inside a buffer leaves the rest of the run as it is. */
  lemma PassRest(c: Core, events: seq<Event>, marks: Marks, data: string, p: nat, start: nat, nread: nat)
    requires MarksOk(c.state, marks, p) && start <= p < |data|
    requires Sound(c) && c.errno == OK && !ReadsBlock(c.state)
    ensures
      var o := Pass(c, data[p]);
      var q := if o.control == Again then p else p + 1;
      var marks', events' := MarksAfter(o.act, marks, p), EventsAfter(o.act, events, marks, data, p);
      var start', nread' := if o.reset then p else start, if o.reset then 0 else nread;
      var before := Mid(c, events, marks, data, p, start, nread);
      var rest := Run(before, data[p..]);
      if o.control == Fail then rest == before.(core := o.core) && o.core.errno != OK
      else
        && Sound(o.core) && o.core.errno == OK && MarksOk(o.core.state, marks', q) && Falls(c.state, o)
        && (o.core.state.InField? ==> IsToken(data[p]))
        && if o.control == Stop
           then rest == Mid(o.core, events', marks', data, q, q, nread').(stopped := true)
                && o.reset && marks' == map[] && ParsingHeader(o.core.state)
           else rest == Run(Mid(o.core, events', marks', data, q, start', nread'), data[q..])
  {
    hide Run, Pass, Push, PushAll, Sound, Rank, Pending, Emit;
    RunOnePass(Mid(c, events, marks, data, p, start, nread), data[p..]);
    assert data[p..][1..] == data[p + 1..];
    if Pass(c, data[p]).control != Fail { PassRefines(c, events, marks, data, p, start, nread); }
  }

  // ----- Bytes taken several at a time -----

  function BodyMarks(marks: Marks, p: nat): Marks {
    if Body in marks then marks else marks[Body := p]
  }

  lemma BodyInBuffer(s: State, marks: Marks, data: string, p: nat)
    requires MarksOk(s, marks, p) && s.InBody? && p < |data| && InBuffer(marks, data, p)
    ensures forall q :: 0 <= q <= |data| ==> InBuffer(BodyMarks(marks, p), data, q) && InBuffer(map[], data, q)
  {
  }

  lemma BlockPart(c: Core, events: seq<Event>, marks: Marks, data: string, p: nat, q: nat, start: nat, nread: nat)
    requires MarksOk(c.state, marks, p) && start <= p < q <= |data| && c.errno == OK && ReadsBlock(c.state)
    requires c.state.body.IdentityEof? || q - p < c.contentLength
    ensures
      var c' := if c.state.body.IdentityEof? then c else c.(contentLength := c.contentLength - (q - p));
      && MarksOk(c'.state, BodyMarks(marks, p), q)
      && Run(Mid(c, events, marks, data, p, start, nread), data[p..])
         == Run(Mid(c', events, BodyMarks(marks, p), data, q, start, nread), data[q..])
  {
    hide Run, Push;
    BodyRun(Mid(c, events, marks, data, p, start, nread), data[p..], q - p);
    PendingGrows(Merged(events), Body, data, BodyMarks(marks, p)[Body], p, q);
    assert data[p..][q - p..] == data[q..];
    assert data[p..][..q - p] == data[p..q];
  }

  lemma BlockLast(c: Core, events: seq<Event>, marks: Marks, data: string, p: nat, q: nat, start: nat, nread: nat)
    requires MarksOk(c.state, marks, p) && start <= p < q <= |data| && c.errno == OK && ReadsBlock(c.state)
    requires !c.state.body.IdentityEof? && q - p == c.contentLength
    ensures
      var before := Mid(c, events, marks, data, p, start, nread);
      var m := BodyMarks(marks, p);
      var c' := c.(contentLength := 0,
                   state := if c.state.body.Identity? then MessageDone else InBody(ChunkDataAlmostDone));
      && marks.Keys <= {Body}
      && MarksOk(InBody(ChunkDataAlmostDone), m, q)
      && if c.state.body.Identity?
         then Run(before, data[p..])
              == Run(Mid(c', events + [Data(Body, data[m[Body]..q])], map[], data, q - 1, start, nread), data[q - 1..])
         else Run(before, data[p..]) == Run(Mid(c', events, m, data, q, start, nread), data[q..])
  {
    hide Run, Push;
    BlockEnd(Mid(c, events, marks, data, p, start, nread), data[p..], q - p);
    var m := BodyMarks(marks, p)[Body];
    PendingGrows(Merged(events), Body, data, m, p, q);
    MergedSnoc(events, Data(Body, data[m..q]));
    PushOne(Merged(events), Data(Body, data[m..q]));
    assert data[p..][q - p..] == data[q..];
    assert data[p..][q - p - 1..] == data[q - 1..];
    assert data[p..][..q - p] == data[p..q];
  }

  // ----- Look-ahead -----

  /** The unrolled look-ahead in a header name: up to eight steps if nine bytes are left, up
      to three if four are. Never past the buffer; `hit` says it stopped at a non-token. */
  method SkipTokens(data: string, p: nat) returns (q: nat, hit: bool)
    requires p < |data| && IsToken(data[p])
    ensures p <= q < |data|
    ensures forall i :: p <= i < q ==> IsToken(data[i])
    ensures hit == !IsToken(data[q])
  {
    var moves := if |data| - p >= 9 then 8 else if |data| - p >= 4 then 3 else 0;
    q, hit := p, false;
    while moves > 0 && !hit
      invariant p <= q && q + moves < |data|
      invariant forall i :: p <= i < q ==> IsToken(data[i])
      invariant hit == !IsToken(data[q])
    {
      q, moves := q + 1, moves - 1;
      hit := !IsToken(data[q]);
    }
  }

  /** The unrolled look-ahead in a header value: eleven steps or four. */
  method SkipPlain(data: string, p: nat) returns (q: nat, hit: bool)
    requires p < |data|
    ensures p <= q < |data|
    ensures forall i :: p < i < q ==> IsPlain(data[i])
    ensures hit ==> p < q && !IsPlain(data[q])
    ensures !hit && p < q ==> IsPlain(data[q])
  {
    var moves := if |data| - p >= 12 then 11 else if |data| - p >= 5 then 4 else 0;
    q, hit := p, false;
    while moves > 0 && !hit
      invariant p <= q && q + moves < |data|
      invariant forall i :: p < i < q ==> IsPlain(data[i])
      invariant hit ==> p < q && !IsPlain(data[q])
      invariant !hit && p < q ==> IsPlain(data[q])
    {
      q, moves := q + 1, moves - 1;
      hit := !IsPlain(data[q]);
    }
  }

  lemma SoundAtStart(c: Core)
    requires c.state.AtStart? && !c.state.start.ResOrRespH?
    ensures Sound(c)
  {
  }

  // ----- The end of a buffer -----

  /** At most one mark is set. */
  lemma OneMark(s: State, marks: Marks, p: nat)
    requires MarksOk(s, marks, p)
    ensures |marks| <= 1
    ensures Owner(s).Unowned? ==> marks == map[]
  {
    if k :| k in marks {
      assert marks.Keys == {k};
      assert |marks| == |marks.Keys|;
    } else {
      assert marks == map[];
    }
  }

  function LeftoverOf(k: Span, marks: Marks, data: string): seq<Event>
    requires forall j :: j in marks ==> marks[j] <= |data|
  {
    if k in marks then [Data(k, data[marks[k]..])] else []
  }

  function Leftover(marks: Marks, data: string): seq<Event>
    requires forall j :: j in marks ==> marks[j] <= |data|
  {
    LeftoverOf(Field, marks, data) + LeftoverOf(Value, marks, data) + LeftoverOf(Url, marks, data) +
    LeftoverOf(Reason, marks, data) + LeftoverOf(Body, marks, data)
  }

  lemma Regroup(s: seq<Event>, a: seq<Event>, b: seq<Event>, c: seq<Event>, d: seq<Event>, e: seq<Event>)
    ensures s + a + b + c + d + e == s + (a + b + c + d + e)
  {
  }

  lemma LeftoverNone(data: string)
    ensures Leftover(map[], data) == []
  {
  }

  lemma LeftoverOne(k: Span, marks: Marks, data: string)
    requires marks.Keys == {k} && marks[k] <= |data|
    ensures Leftover(marks, data) == [Data(k, data[marks[k]..])]
  {
    match k
    case Field => case Value => case Url => case Reason => case Body =>
  }

  /** The callbacks at the end of a buffer deliver what is pending. */
  lemma Flushed(s: State, marks: Marks, data: string, events: seq<Event>)
    requires MarksOk(s, marks, |data|) && InBuffer(marks, data, |data|) && data != []
    ensures forall k :: k in marks ==> marks[k] <= |data|
    ensures Merged(events + Leftover(marks, data)) == PushAll(Merged(events), Pending(s, marks, data, |data|))
  {
    hide Push, Leftover;
    if marks == map[] {
      LeftoverNone(data);
      assert events + [] == events;
    } else {
      var k := Owner(s).span;
      assert marks.Keys == {k};
      LeftoverOne(k, marks, data);
      assert data[marks[k]..] == data[marks[k]..|data|];
      MergedSnoc(events, Data(k, data[marks[k]..]));
      PushOne(Merged(events), Data(k, data[marks[k]..]));
    }
  }

  // ----- The parser -----

  class Parser {
    var kind: Kind
    var flags: Flags
    var state: State
    var header: HeaderState
    var index: nat
    var nread: nat
    var contentLength: int
    var major: nat
    var minor: nat
    var status: nat
    var verb: Method
    var errno: Errno
    var upgrade: bool

    /** Not a field of the source: whether on_headers_complete answers that there is no body. */
    var noBody: bool

    /** The callbacks made since the parser was initialised. */
    ghost var events: seq<Event>

    function Fields(): Core
      reads this
    {
      Core(kind, flags, state, header, index, contentLength, major, minor, status, verb, errno, upgrade, noBody)
    }

    /** What the parser is between two calls. The header counter means nothing in a body. */
    ghost function View(): Stream
      reads this
    {
      Stream(Fields(), Merged(events), false, if ParsingHeader(state) then nread else 0, 0, false)
    }

    ghost predicate Valid()
      reads this
    {
      nread < 0x1_0000_0000 && (errno == OK ==> Sound(Fields()))
    }

    method Init(t: Kind)
      modifies this
      ensures Valid() && errno == OK && events == [] && nread == 0
      ensures Fields() == old(Fields()).(
                kind := t,
                state := AtStart(if t == Request then PreStartReq else if t == Response then PreStartRes
                    else PreStartReqOrRes),
                upgrade := false, flags := NO_FLAGS, verb := Delete, major := 0, minor := 0, errno := OK)
    {
      hide Sound;
      var s := AtStart(if t == Request then PreStartReq else if t == Response then PreStartRes else PreStartReqOrRes);
      var c := Fields().(kind := t, state := s, upgrade := false, flags := NO_FLAGS, verb := Delete, major := 0,
                         minor := 0, errno := OK);
      SoundAtStart(c);
      Store(c);
      nread, events := 0, [];
    }

    method Store(c: Core)
      modifies this`kind, this`flags, this`state, this`header, this`index, this`contentLength, this`major,
               this`minor, this`status, this`verb, this`errno, this`upgrade, this`noBody
      ensures Fields() == c
    {
      kind, flags, state, header, index := c.kind, c.flags, c.state, c.header, c.index;
      contentLength, major, minor, status := c.contentLength, c.major, c.minor, c.status;
      verb, errno, upgrade, noBody := c.verb, c.errno, c.upgrade, c.noBody;
    }

    /** The state of the loop at a position of the buffer. */
    ghost predicate Good(data: string, marks: Marks, p: nat, start: nat)
      reads this
    {
      && Sound(Fields()) && errno == OK && nread < 0x1_0000_0000
      && MarksOk(state, marks, p) && start <= p <= |data|
      && InBuffer(marks, data, p)
    }

    ghost function Now(data: string, marks: Marks, p: nat, start: nat): Stream
      reads this
      requires Good(data, marks, p, start)
    {
      Mid(Fields(), events, marks, data, p, start, nread)
    }

    /** Where the reference ends up after the rest of the buffer. */
    ghost function Rest(data: string, marks: Marks, p: nat, start: nat): Stream
      reads this
      requires Good(data, marks, p, start)
    {
      Run(Now(data, marks, p, start), data[p..])
    }

    method InNameFast(data: string, marks: Marks, p: nat, ghost start: nat) returns (q: nat)
      requires Good(data, marks, p, start) && p < |data|
      requires state.InField? && header.General? && IsToken(data[p])
      ensures Good(data, marks, q, start) && p < q
      ensures Rest(data, marks, q, start) == Rest(data, marks, p, start)
    {
      hide Sound, Run, Push;
      var hit;
      q, hit := SkipTokens(data, p);
      if !hit { q := q + 1; }
      SpanGrows(data, marks, p, q, start, Field);
      TokensRun(Now(data, marks, p, start), data[p..], q - p);
    }

    method InValueFast(data: string, marks: Marks, p: nat, ghost start: nat) returns (q: nat)
      requires Good(data, marks, p, start) && p < |data|
      requires state.InValue? && header.General? && data[p] != CR && data[p] != LF && IsHeaderChar(data[p])
      modifies this`header
      ensures Good(data, marks, q, start) && p < q
      ensures Rest(data, marks, q, start) == old(Rest(data, marks, p, start))
    {
      hide Run, Push, MethodName, PushAll, Wrap, Pending, Merged;
      ghost var before := Now(data, marks, p, start);
      if data[p] == QT { header := Quoted; }
      var hit;
      q, hit := SkipPlain(data, p);
      if !hit { q := q + 1; }
      SpanGrows(data, marks, p, q, start, Value);
      ValueRun(before, data[p..], q - p);
    }

    /** Takes as much of the body as the buffer holds. */
    method ReadBlock(data: string, marks: Marks, p: nat, ghost start: nat) returns (marks': Marks, q: nat)
      requires Good(data, marks, p, start) && p < |data| && ReadsBlock(state)
      modifies this`state, this`contentLength, this`events
      ensures Good(data, marks', q, start) && p <= q && (q == p ==> Rank(state) < old(Rank(state)))
      ensures Rest(data, marks', q, start) == old(Rest(data, marks, p, start))
    {
      hide Run, Push, MethodName, Mid, InBuffer;
      if state.body.IdentityEof? || contentLength > |data| - p {
        marks', q := ReadPart(data, marks, p, start);
      } else {
        marks', q := ReadLast(data, marks, p, start);
      }
    }

    /** The buffer ends before the body does. */
    method ReadPart(data: string, marks: Marks, p: nat, ghost start: nat) returns (marks': Marks, q: nat)
      requires Good(data, marks, p, start) && p < |data| && ReadsBlock(state)
      requires state.body.IdentityEof? || contentLength > |data| - p
      modifies this`contentLength
      ensures Good(data, marks', q, start) && p < q
      ensures Rest(data, marks', q, start) == old(Rest(data, marks, p, start))
    {
      hide Run, Push, MethodName, Mid, InBuffer;
      marks' := if Body in marks then marks else marks[Body := p];
      BodyInBuffer(state, marks, data, p);
      q := |data|;
      BlockPart(Fields(), events, marks, data, p, q, start, nread);
      if !state.body.IdentityEof? { contentLength := contentLength - (q - p); }
    }

    /** The last byte of the body is in the buffer; a body of known length looks at it again. */
    method ReadLast(data: string, marks: Marks, p: nat, ghost start: nat) returns (marks': Marks, q: nat)
      requires Good(data, marks, p, start) && p < |data| && ReadsBlock(state)
      requires !state.body.IdentityEof? && contentLength <= |data| - p
      modifies this`state, this`contentLength, this`events
      ensures Good(data, marks', q, start) && p <= q && (q == p ==> Rank(state) < old(Rank(state)))
      ensures Rest(data, marks', q, start) == old(Rest(data, marks, p, start))
    {
      hide Run, Push, MethodName, Mid, InBuffer;
      marks' := if Body in marks then marks else marks[Body := p];
      BodyInBuffer(state, marks, data, p);
      q := p + contentLength;
      BlockLast(Fields(), events, marks, data, p, q, start, nread);
      contentLength := 0;
      if state.body.Identity? {
        state := MessageDone;
        events := events + [Data(Body, data[marks'[Body]..q])];
        marks' := marks' - {Body};
        assert marks' == map[];
        q := q - 1;
      } else {
        state := InBody(ChunkDataAlmostDone);
      }
    }

    /** Makes the mark or callback of a pass. */
    method Perform(act: Act, marks: Marks, data: string, p: nat) returns (marks': Marks)
      requires p <= |data| && forall k :: k in marks ==> marks[k] <= p
      modifies this`events
      ensures marks' == MarksAfter(act, marks, p)
      ensures events == EventsAfter(act, old(events), marks, data, p)
    {
      marks' := marks;
      match act
      case Idle =>
      case Keep(_) =>
      case Open(k) => if k !in marks { marks' := marks[k := p]; }
      case Mark(k) => if k !in marks { marks' := marks[k := p]; }
      case Close(k) =>
        if k in marks {
          events := events + [Data(k, data[marks[k]..p])];
          marks' := marks - {k};
        } else {
          assert marks - {k} == marks;
        }
      case MarkClose(k) =>
        if k !in marks { marks' := marks[k := p]; }
        assert data[p..p] == [];
        events := events + [Data(k, data[marks'[k]..p])];
        marks' := marks' - {k};
        assert marks' == marks - {k};
      case Notice(e) => events := events + [e];
      case Space => events := events + [Data(Value, " ")];
    }

    /** One pass through the switch at a byte that is not read in a block. */
    method OnePass(data: string, marks: Marks, p: nat, start: nat)
      returns (marks': Marks, q: nat, start': nat, control: Control)
      requires Good(data, marks, p, start) && p < |data| && !ReadsBlock(state)
      modifies this
      ensures control == Again || control == Advance ==>
                && Good(data, marks', q, start') && p <= q && (q == p ==> Rank(state) < old(Rank(state)))
                && Rest(data, marks', q, start') == old(Rest(data, marks, p, start))
      ensures control == Stop ==>
                var r := old(Rest(data, marks, p, start));
                Valid() && errno == OK && r.core == Fields() && View() == Begin(r) && r.pos == q && r.stopped
      ensures control == Fail ==>
                var r := old(Rest(data, marks, p, start));
                Valid() && r.core == Fields() && errno != OK && Unfinished(r.log) && r.pos == q
    {
      hide Run, Pass, Sound, Rank, EventsAfter, MarksAfter, InBuffer, Push;
      var o := Pass(Fields(), data[p]);
      PassRest(Fields(), events, marks, data, p, start, nread);
      Store(o.core);
      marks', q, start', control := marks, p, start, o.control;
      if control == Fail {
        assert PushAll(Merged(events), Pending(old(state), marks, data, p)) == old(Rest(data, marks, p, start)).log;
      } else {
        InBufferAfter(o.act, marks, data, p);
        marks' := Perform(o.act, marks, data, p);
        if o.reset { nread, start' := 0, p; }
        if control != Again { q := p + 1; }
      }
    }

    /** One turn of the loop: a block of the body, a fast path, or one pass. */
    method Turn(data: string, marks: Marks, p: nat, start: nat)
      returns (marks': Marks, q: nat, start': nat, control: Control)
      requires Good(data, marks, p, start) && p < |data|
      modifies this
      ensures control == Again || control == Advance ==>
                && Good(data, marks', q, start') && p <= q <= |data| && (q == p ==> Rank(state) < old(Rank(state)))
                && Rest(data, marks', q, start') == old(Rest(data, marks, p, start))
      ensures control == Stop ==>
                var r := old(Rest(data, marks, p, start));
                Valid() && errno == OK && r.core == Fields() && View() == Begin(r) && r.pos == q && r.stopped
      ensures control == Fail ==>
                var r := old(Rest(data, marks, p, start));
                Valid() && r.core == Fields() && errno != OK && Unfinished(r.log) && r.pos == q
    {
      hide Run, Sound, Push, Mid, Rank, Unfinished;
      marks', q, start', control := marks, p, start, Advance;
      if ReadsBlock(state) {
        marks', q := ReadBlock(data, marks, p, start);
      } else if state.InField? && header.General? && IsToken(data[p]) {
        q := InNameFast(data, marks, p, start);
      } else if state.InValue? && header.General? && data[p] != CR && data[p] != LF && IsHeaderChar(data[p]) {
        q := InValueFast(data, marks, p, start);
      } else {
        // the source rejects a name with a space before its colon here: it never meets one
        assert state.InField? && data[p] == ':' && p - marks[Field] > 1 ==> data[p - 1] != ' ';
        marks', q, start', control := OnePass(data, marks, p, start);
      }
    }

    /** Advancing over bytes of a marked span is growing it. */
    lemma SpanGrows(data: string, marks: Marks, p: nat, q: nat, start: nat, k: Span)
      requires Good(data, marks, p, start) && p < q <= |data|
      requires Owner(state) == Owned(k) && (state.InField? || state.InValue?)
      requires Field in marks ==> forall i :: p <= i < q ==> IsToken(data[i])
      ensures Good(data, marks, q, start)
      ensures Now(data, marks, q, start) == Grown(Now(data, marks, p, start), k, data[p..], q - p)
      ensures data[p..][q - p..] == data[q..]
    {
      hide Sound, Push, Wrap;
      WrapAdd(nread + (p - start), q - p);
      if k in marks {
        PendingGrows(Merged(events), k, data, marks[k], p, q);
        assert data[p..q] == data[p..][..q - p];
      }
    }

    /** A parser that is inside a span when a buffer starts continues the span there. */
    function EntryMarks(): (marks: Marks)
      reads this
      ensures MarksOk(state, marks, 0)
    {
      if state.InField? then map[Field := 0]
      else if state.InValue? then map[Value := 0]
      else if state.InUrl? then map[Url := 0]
      else if state.InReason? then map[Reason := 0]
      else map[]
    }

    /** An empty buffer. */
    method AtEndOfFile() returns (n: nat)
      requires Valid() && errno == OK
      modifies this
      ensures Valid()
      ensures var r := EndOfFile(old(View()));
              Fields() == r.core && (errno == OK ==> View() == r) && n == if errno == OK then 0 else 1
    {
      hide Sound;
      n := 0;
      if state == InBody(IdentityEof) {
        MergedSnoc(events, MessageComplete);
        events := events + [MessageComplete];
      } else if state != AtStart(PreStartReqOrRes) && state != AtStart(PreStartRes) && state != AtStart(PreStartReq) {
        errno := InvalidEofState;
        n := 1;
      }
    }

    /** The end of a buffer: the header-size check, then the callback of the span that is still
        marked. There is at most one. */
    method Finish(data: string, marks: Marks, start: nat)
      requires Good(data, marks, |data|, start) && data != []
      modifies this`nread, this`errno, this`events
      ensures Valid()
      ensures var r := Boundary(old(Now(data, marks, |data|, start)));
              && Fields() == r.core
              && (errno == OK ==> View() == Begin(r))
              && (errno != OK ==> Unfinished(r.log))
    {
      hide Sound, Push, PushAll;
      if ParsingHeader(state) {
        nread := Wrap(nread + (|data| - start));
        if nread > HTTP_MAX_HEADER_SIZE {
          errno := HeaderOverflow;
          assert PushAll(Merged(events), Pending(state, marks, data, |data|))
              == old(Now(data, marks, |data|, start)).log;
          return;
        }
      }
      Flushed(state, marks, data, events);
      Flush(data, marks);
    }

    /** The callbacks of the marks that are set at the end of a buffer. */
    method Flush(data: string, marks: Marks)
      requires forall k :: k in marks ==> marks[k] <= |data|
      modifies this`events
      ensures events == old(events) + Leftover(marks, data)
    {
      hide LeftoverOf;
      FlushOne(Field, data, marks);
      FlushOne(Value, data, marks);
      FlushOne(Url, data, marks);
      FlushOne(Reason, data, marks);
      FlushOne(Body, data, marks);
      Regroup(old(events), LeftoverOf(Field, marks, data), LeftoverOf(Value, marks, data), LeftoverOf(Url, marks, data),
              LeftoverOf(Reason, marks, data), LeftoverOf(Body, marks, data));
    }

    method FlushOne(k: Span, data: string, marks: Marks)
      requires forall j :: j in marks ==> marks[j] <= |data|
      modifies this`events
      ensures events == old(events) + LeftoverOf(k, marks, data)
    {
      if k in marks { events := events + [Data(k, data[marks[k]..])]; }
    }

    /** The callbacks made so far are all of `log` but at most one unfinished span. */
    ghost predicate Unfinished(log: seq<Event>)
      reads this
    {
      exists tail: seq<Event> :: |tail| <= 1 && PushAll(Merged(events), tail) == log
    }

    /** One call with one buffer does what the reference does with its bytes. */
    method Execute(data: string) returns (n: nat)
      requires Valid()
      modifies this
      ensures Valid()
      ensures var r := Call(old(View()), data);
              && Fields() == r.core
              && (errno == OK ==> View() == Begin(r))
              && (errno != OK && old(errno) == OK && data != [] ==> Unfinished(r.log))
              && n == if data == [] && old(errno) == OK && errno != OK then 1 else r.pos
    {
      hide Run, Good, Now, Rank, PushAll, Unfinished, MarksOk;
      if errno != OK { return 0; }
      if data == [] {
        n := AtEndOfFile();
        return;
      }
      var marks, p, start := EntryMarks(), 0, 0;
      ghost var final := Run(Begin(View()), data);
      assert Rest(data, marks, p, start) == final by { EntryIsView(data); }
      while p < |data|
        invariant Good(data, marks, p, start) && Rest(data, marks, p, start) == final && p <= |data|
        decreases |data| - p, Rank(state)
      {
        var control;
        marks, p, start, control := Turn(data, marks, p, start);
        if control == Fail || control == Stop { return p; }
      }
      AtEnd(data, marks, start);
      Finish(data, marks, start);
      n := |data|;
    }

    lemma AtEnd(data: string, marks: Marks, start: nat)
      requires Good(data, marks, |data|, start)
      ensures Rest(data, marks, |data|, start) == Now(data, marks, |data|, start)
      ensures Now(data, marks, |data|, start).pos == |data|
      ensures !Halted(Now(data, marks, |data|, start))
    {
      hide Sound;
    }

    lemma EntryIsView(data: string)
      requires Valid() && errno == OK && data != []
      ensures Good(data, EntryMarks(), 0, 0)
      ensures Now(data, EntryMarks(), 0, 0) == Begin(View())
      ensures data[0..] == data
    {
      hide Sound;
    }

    /** One call per piece. */
    method ExecuteAll(pieces: seq<string>)
      requires Valid()
      modifies this
      ensures Valid()
      ensures Fields() == Feed(old(View()), pieces).core
      ensures errno == OK ==> View() == Begin(Feed(old(View()), pieces))
    {
      hide Run, Sound, Push, PushAll;
      ghost var v := View();
      var i := 0;
      assert pieces[0..] == pieces;
      if errno != OK { FeedAfterError(v, pieces); }
      while i < |pieces|
        invariant 0 <= i <= |pieces| && Valid()
        invariant errno == OK ==> Begin(Feed(View(), pieces[i..])) == Begin(Feed(v, pieces))
        invariant errno != OK ==> Fields() == Feed(v, pieces).core
      {
        ghost var before, rest := View(), pieces[i..];
        assert rest[1..] == pieces[i + 1..];
        var n := Execute(pieces[i]);
        if before.core.errno == OK {
          ghost var after := Call(before, pieces[i]);
          assert Feed(before, rest) == Feed(after, rest[1..]);
          if errno == OK { FeedFromBegin(after, rest[1..]); } else { FeedAfterError(after, rest[1..]); }
        }
        i := i + 1;
      }
    }
  }
}
