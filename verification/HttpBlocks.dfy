/** Runs of the reference over several bytes of one kind: header-name characters, plain
    header-value characters and body bytes. They justify the look-ahead and the block reads
    of the buffered parser. */
module HttpBlocks {
  import opened HttpMachine
  import opened HttpStream

  lemma ValueByteStep(r: Stream, s: string)
    requires s != [] && !Halted(r) && r.core.state.InValue? && r.core.header.General?
    requires s[0] != CR && s[0] != LF && IsHeaderChar(s[0])
    ensures Step(r, s[0])
         == Grown(r.(core := r.core.(header := if s[0] == QT then Quoted else General)), Value, s, 1)
  {
    hide Step, Pass, MatchName, PassLength, Push, Wrap;
    StepOnce(r, s[0]);
    OnValue(r.core, s[0]);
    assert s[..1] == [s[0]];
  }

  lemma TokenStep(r: Stream, s: string)
    requires s != [] && !Halted(r) && r.core.state.InField? && r.core.header.General? && !r.muted && IsToken(s[0])
    ensures Step(r, s[0]) == Grown(r, Field, s, 1)
  {
    hide Step, Pass, MatchName, Push, Wrap;
    StepOnce(r, s[0]);
    OnField(r.core, s[0]);
    assert s[..1] == [s[0]];
  }

  /** Name characters once no known name can match any more. */
  lemma {:induction false} TokensRun(r: Stream, s: string, n: nat)
    requires n <= |s| && !Halted(r) && r.core.state.InField? && r.core.header.General? && !r.muted
    requires forall i :: 0 <= i < n ==> IsToken(s[i])
    ensures Run(r, s) == Run(Grown(r, Field, s, n), s[n..])
    decreases n
  {
    hide Pass, Step, Push, Wrap;
    if n == 0 {
      assert s[0..] == s;
    } else {
      TokenStep(r, s);
      TokensRun(Grown(r, Field, s, 1), s[1..], n - 1);
      GrownTwice(r, Field, s, n);
    }
  }

  predicate IsPlain(c: char) { c != CR && c != LF && c != QT && c != BS && IsHeaderChar(c) }

  lemma PlainStep(r: Stream, s: string)
    requires s != [] && !Halted(r) && r.core.state.InValue? && (r.core.header.General? || r.core.header.Quoted?)
    requires IsPlain(s[0])
    ensures Step(r, s[0]) == Grown(r, Value, s, 1)
  {
    hide Step, Pass, MatchName, PassLength, Push, Wrap;
    StepOnce(r, s[0]);
    OnValue(r.core, s[0]);
    assert s[..1] == [s[0]];
  }

  /** Value characters that neither end the value nor open, close or escape a quotation. */
  lemma {:induction false} PlainRun(r: Stream, s: string, n: nat)
    requires n <= |s| && !Halted(r) && r.core.state.InValue? && (r.core.header.General? || r.core.header.Quoted?)
    requires forall i :: 0 <= i < n ==> IsPlain(s[i])
    ensures Run(r, s) == Run(Grown(r, Value, s, n), s[n..])
    decreases n
  {
    hide Pass, Step, Push, Wrap;
    if n == 0 {
      assert s[0..] == s;
    } else {
      PlainStep(r, s);
      PlainRun(Grown(r, Value, s, 1), s[1..], n - 1);
      GrownTwice(r, Value, s, n);
    }
  }

  /** One value byte that may open a quotation, then plain ones. */
  lemma ValueRun(r: Stream, s: string, n: nat)
    requires 0 < n <= |s| && !Halted(r) && r.core.state.InValue? && r.core.header.General?
    requires s[0] != CR && s[0] != LF && IsHeaderChar(s[0])
    requires forall i :: 1 <= i < n ==> IsPlain(s[i])
    ensures var r' := r.(core := r.core.(header := if s[0] == QT then Quoted else General));
            Run(r, s) == Run(Grown(r', Value, s, n), s[n..])
  {
    hide Step, Push, Wrap;
    ValueByteStep(r, s);
    var r' := r.(core := r.core.(header := if s[0] == QT then Quoted else General));
    PlainRun(Grown(r', Value, s, 1), s[1..], n - 1);
    GrownTwice(r', Value, s, n);
  }

  /** A header-section state that has taken `n` more bytes of a span. */
  function Grown(r: Stream, k: Span, s: string, n: nat): Stream
    requires n <= |s|
  {
    r.(log := if n == 0 || (k == Value && r.muted) then r.log else Push(r.log, Data(k, s[..n])),
       pos := r.pos + n, since := if n == 0 then r.since else Wrap(r.since + n))
  }

  lemma GrownTwice(r: Stream, k: Span, s: string, n: nat)
    requires 0 < n <= |s|
    ensures Grown(Grown(r, k, s, 1), k, s[1..], n - 1) == Grown(r, k, s, n)
    ensures s[1..][n - 1..] == s[n..]
  {
    hide Push, Wrap;
    assert s[..n] == s[..1] + s[1..][..n - 1];
    PushJoin(r.log, k, s[..1], s[1..][..n - 1]);
    WrapAdd(r.since + 1, n - 1);
  }

  /** A state that has taken `n` more body bytes. */
  function Fed(r: Stream, s: string, n: nat): Stream
    requires n <= |s| && r.core.state.InBody?
  {
    r.(core := if r.core.state.body.IdentityEof? then r.core else r.core.(contentLength := r.core.contentLength - n),
       log := if n == 0 then r.log else Push(r.log, Data(Body, s[..n])), pos := r.pos + n)
  }

  lemma BodyStep(r: Stream, s: string)
    requires s != [] && !Halted(r) && ReadsBlock(r.core.state) && !r.muted && r.since == 0
    requires r.core.state.body.IdentityEof? || 1 < r.core.contentLength
    ensures Step(r, s[0]) == Fed(r, s, 1)
  {
    hide Step, Pass, Push;
    StepOnce(r, s[0]);
    OnBody(r.core, s[0]);
    assert s[..1] == [s[0]];
  }

  /** Body bytes before the last one. */
  lemma {:induction false} BodyRun(r: Stream, s: string, n: nat)
    requires n <= |s| && !Halted(r) && ReadsBlock(r.core.state) && !r.muted && r.since == 0
    requires r.core.state.body.IdentityEof? || n < r.core.contentLength
    ensures Run(r, s) == Run(Fed(r, s, n), s[n..])
    decreases n
  {
    hide Pass, Step, Push;
    if n == 0 {
      assert s[0..] == s;
    } else {
      BodyStep(r, s);
      BodyRun(Fed(r, s, 1), s[1..], n - 1);
      FedTwice(r, s, n);
    }
  }

  lemma FedTwice(r: Stream, s: string, n: nat)
    requires 0 < n <= |s| && r.core.state.InBody?
    ensures Fed(Fed(r, s, 1), s[1..], n - 1) == Fed(r, s, n)
    ensures s[1..][n - 1..] == s[n..]
  {
    hide Push;
    assert s[..n] == s[..1] + s[1..][..n - 1];
    PushJoin(r.log, Body, s[..1], s[1..][..n - 1]);
  }

  /** The last byte of a body of known length is looked at again, that of a chunk is not. */
  lemma BodyEnd(r: Stream, s: string)
    requires !Halted(r) && ReadsBlock(r.core.state) && !r.core.state.body.IdentityEof? && !r.muted && r.since == 0
    requires s != [] && r.core.contentLength == 1
    ensures var last := r.(core := r.core.(contentLength := 0), log := Push(r.log, Data(Body, [s[0]])));
            if r.core.state.body.Identity? then Run(r, s) == Run(last.(core := last.core.(state := MessageDone)), s)
            else Run(r, s) ==
                 Run(last.(core := last.core.(state := InBody(ChunkDataAlmostDone)), pos := r.pos + 1), s[1..])
  {
    hide Step, Pass;
    StepOnce(r, s[0]);
    OnBody(r.core, s[0]);
    var o := Pass(r.core, s[0]);
    if o.control == Again { StepOnce(Apply(r, o, s[0]), s[0]); }
  }

  /** All remaining bytes of a body of known length. */
  lemma BlockEnd(r: Stream, s: string, n: nat)
    requires 0 < n <= |s| && !Halted(r) && ReadsBlock(r.core.state) && !r.muted && r.since == 0
    requires !r.core.state.body.IdentityEof? && r.core.contentLength == n
    ensures var last := r.(core := r.core.(contentLength := 0), log := Push(r.log, Data(Body, s[..n])));
            if r.core.state.body.Identity?
            then Run(r, s) == Run(last.(core := last.core.(state := MessageDone), pos := r.pos + n - 1), s[n - 1..])
            else Run(r, s) ==
                 Run(last.(core := last.core.(state := InBody(ChunkDataAlmostDone)), pos := r.pos + n), s[n..])
  {
    hide Step, Pass, Push, Run, Fed, Halted;
    var y := Fed(r, s, n - 1);
    BodyRun(r, s, n - 1);
    FedIs(r, s, n);
    BodyEnd(y, s[n - 1..]);
    assert s[n - 1..][1..] == s[n..];
  }

  /** Before the last byte of a body of known length. */
  lemma FedIs(r: Stream, s: string, n: nat)
    requires 0 < n <= |s| && r.core.state.InBody? && !r.core.state.body.IdentityEof? && r.core.contentLength == n
    ensures var y := Fed(r, s, n - 1);
            && y == r.(core := r.core.(contentLength := 1), log := y.log, pos := r.pos + n - 1)
            && Halted(y) == Halted(r)
            && Push(y.log, Data(Body, [s[n - 1..][0]])) == Push(r.log, Data(Body, s[..n]))
  {
    hide Push;
    LastFed(r.log, s, n);
    assert s[n - 1..][0] == s[n - 1];
  }

  lemma LastFed(log: seq<Event>, s: string, n: nat)
    requires 0 < n <= |s|
    ensures var before := if n == 1 then log else Push(log, Data(Body, s[..n - 1]));
            Push(before, Data(Body, [s[n - 1]])) == Push(log, Data(Body, s[..n]))
  {
    hide Push;
    assert s[..n] == s[..n - 1] + [s[n - 1]];
    PushJoin(log, Body, s[..n - 1], [s[n - 1]]);
    if n == 1 { assert s[..n] == [s[n - 1]]; }
  }
}
