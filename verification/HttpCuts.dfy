/** How an input is cut into buffers: exactly when the cuts do not show. */
module HttpCuts {
  import opened HttpMachine
  import opened HttpStream

  // ----- The condition -----

  /** The next byte would be delivered as part of a header value. */
  predicate Delivers(c: Core, ch: char) {
    Pass(c, ch).act == Keep(Value)
  }

  /** A cut at `i` shows: the header-size check would fail there, or the parser is dropping the
      bytes of a header value (after a CR without LF) and would pick the value up again. */
  predicate ShowsAt(r: Stream, s: string, i: nat)
    requires i < |s|
  {
    var x := Run(r, s[..i]);
    !Halted(x) && (Overflows(x) || (x.muted && Delivers(x.core, s[i])))
  }

  predicate Safe(r: Stream, s: string) {
    forall i :: 0 < i < |s| ==> !ShowsAt(r, s, i)
  }

  /** The parser does not hand part of the input over to another protocol. */
  predicate Whole(r: Stream, s: string) {
    forall i :: 0 <= i < |s| ==> !Run(r, s[..i]).stopped
  }

  /** A parser between two calls. */
  predicate Settled(r: Stream) { r == Begin(r) && r.core.errno == OK }

  predicate CutsInto(s: string, pieces: seq<string>) {
    NonEmpty(pieces) && Concat(pieces) == s
  }

  // ----- What a run does not depend on -----

  predicate EndsInValue(log: seq<Event>) {
    log != [] && log[|log| - 1].Data? && log[|log| - 1].span == Value
  }

  /** The two streams differ at most in positions taken; dropping does not matter once halted. */
  predicate SameButPos(a: Stream, b: Stream) {
    a == b.(pos := a.pos, muted := a.muted) && (Halted(a) || a.muted == b.muted)
  }

  lemma {:induction false} StepSameButPos(a: Stream, b: Stream, ch: char)
    requires SameButPos(a, b)
    ensures SameButPos(Step(a, ch), Step(b, ch))
    decreases Rank(a.core.state)
  {
    hide Pass, Step, Emit;
    if !Halted(a) {
      StepOnce(a, ch);
      StepOnce(b, ch);
      PassKeeps(a.core, ch);
      var o := Pass(a.core, ch);
      if o.control == Again { StepSameButPos(Apply(a, o, ch), Apply(b, o, ch), ch); }
    } else {
      StepHalted(a, ch);
      StepHalted(b, ch);
    }
  }

  lemma {:induction false} RunSameButPos(a: Stream, b: Stream, s: string)
    requires SameButPos(a, b)
    ensures SameButPos(Run(a, s), Run(b, s))
    decreases |s|
  {
    hide Step;
    if s != [] {
      StepSameButPos(a, b, s[0]);
      RunSameButPos(Step(a, s[0]), Step(b, s[0]), s[1..]);
    }
  }

  /** While the parser is dropping value bytes, the last thing logged is value data. */
  predicate MutedInValue(r: Stream) {
    !Halted(r) && r.muted ==> r.core.state.InValue? && EndsInValue(r.log)
  }

  lemma {:induction false} StepMutedLog(r: Stream, ch: char)
    requires MutedInValue(r)
    ensures MutedInValue(Step(r, ch))
    decreases Rank(r.core.state)
  {
    hide Pass, Step;
    if Halted(r) {
      StepHalted(r, ch);
    } else {
      StepOnce(r, ch);
      PassKeeps(r.core, ch);
      var o := Pass(r.core, ch);
      MutedActs(r.core, ch);
      if o.control == Again { StepMutedLog(Apply(r, o, ch), ch); }
    }
  }

  /** What can happen to a byte of a header value. */
  lemma MutedActs(c: Core, ch: char)
    ensures var o := Pass(c, ch);
            && (c.state.InValue? && o.control != Fail ==>
                  if o.core.state.InValue? then o.act == Keep(Value) && o.control == Advance
                  else o.act == Close(Value))
  {
    if c.state.InValue? {
      OnValue(c, ch);
      hide Pass, MatchName, PassLength;
    } else {
      hide Pass;
    }
  }

  lemma {:induction false} RunMutedLog(r: Stream, s: string)
    requires MutedInValue(r)
    ensures MutedInValue(Run(r, s))
    decreases |s|
  {
    hide Step;
    if s != [] {
      StepMutedLog(r, s[0]);
      RunMutedLog(Step(r, s[0]), s[1..]);
    }
  }

  // ----- A safe cut does not show -----

  /** Picking a dropped value up again at its end makes no difference. */
  lemma UnmuteAtEnd(x: Stream, ch: char)
    requires !Halted(x) && MutedInValue(x)
    requires x.muted ==> !Delivers(x.core, ch)
    ensures SameButPos(Step(x.(muted := false), ch), Step(x, ch))
  {
    hide Pass, Step;
    var y := x.(muted := false);
    if x.muted {
      StepOnce(x, ch);
      StepOnce(y, ch);
      MutedActs(x.core, ch);
      var o := Pass(x.core, ch);
      PassKeeps(x.core, ch);
      PushNothing(x.log);
    } else {
      assert y == x;
    }
  }

  lemma PushNothing(log: seq<Event>)
    requires EndsInValue(log)
    ensures Push(log, Data(Value, [])) == log
  {
    var last := log[|log| - 1];
    assert last.bytes + [] == last.bytes;
    assert log[..|log| - 1] + [last] == log;
  }

  /** Starting a new buffer at a safe place changes nothing but the position count. */
  lemma RunAfterBegin(y: Stream, b: string, j: nat)
    requires 1 <= j <= |b| && !Halted(y) && MutedInValue(y)
    requires y.muted ==> !Delivers(y.core, b[0])
    ensures SameButPos(Run(Begin(y), b[..j]), Run(y, b[..j]))
  {
    hide Step, Delivers;
    UnmuteAtEnd(y, b[0]);
    StepSameButPos(Begin(y), y.(muted := false), b[0]);
    RunSameButPos(Step(Begin(y), b[0]), Step(y, b[0]), b[..j][1..]);
  }

  lemma ShowsAfterBegin(x: Stream, a: string, b: string, j: nat)
    requires 0 < j < |b| && !Halted(Run(x, a)) && MutedInValue(x)
    requires Run(x, a).muted ==> !Delivers(Run(x, a).core, b[0])
    ensures ShowsAt(Begin(Run(x, a)), b, j) <==> ShowsAt(x, a + b, |a| + j)
    ensures Run(Begin(Run(x, a)), b[..j]).stopped == Run(x, (a + b)[..|a| + j]).stopped
  {
    hide Run, Delivers;
    RunAppend(x, a, b[..j]);
    assert (a + b)[..|a| + j] == a + b[..j];
    RunMutedLog(x, a);
    RunAfterBegin(Run(x, a), b, j);
  }

  /** Safe cuts do not show, whether the input is accepted or rejected. */
  lemma {:induction false} SafeCuts(r: Stream, s: string, pieces: seq<string>)
    requires Settled(r) && s != [] && Whole(r, s) && Safe(r, s) && CutsInto(s, pieces)
    ensures Begin(Feed(r, pieces)) == Begin(Call(r, s))
    decreases |pieces|
  {
    hide Run, ShowsAt;
    var a, rest := pieces[0], pieces[1..];
    var b := Concat(rest);
    if rest == [] {
      assert a == s;
    } else {
      assert rest[0] != [];
      assert b != [] && s == a + b;
      RunAppend(r, a, b);
      var y := Run(r, a);
      assert s[..|a|] == a;
      if Halted(y) {
        RunHalted(y, b);
        FeedAfterError(y, rest);
      } else {
        assert !ShowsAt(r, s, |a|);
        CutHere(r, a, b);
        forall j | 0 < j < |b| ensures !ShowsAt(Begin(y), b, j) && !Run(Begin(y), b[..j]).stopped {
          ShowsAfterBegin(r, a, b, j);
        }
        assert Run(Begin(y), b[..0]) == Begin(y) by { RunNone(Begin(y)); }
        RunMutedLog(r, a);
        RunAfterBegin(y, b, |b|);
        assert b[..|b|] == b;
        FeedFromBegin(y, rest);
        SafeCuts(Begin(y), b, rest);
      }
    }
  }

  /** At a cut that does not show, the call ends where the reference is. */
  lemma CutHere(r: Stream, a: string, b: string)
    requires Settled(r) && a != [] && b != [] && !Halted(Run(r, a)) && !ShowsAt(r, a + b, |a|)
    ensures Call(r, a) == Run(r, a)
    ensures Run(r, a).muted ==> !Delivers(Run(r, a).core, b[0])
  {
    hide Run, Delivers;
    assert (a + b)[..|a|] == a;
  }

  // ----- An unsafe cut does show -----

  /** How many bytes a log delivers. */
  function Size(log: seq<Event>): nat {
    if log == [] then 0
    else Size(log[..|log| - 1]) + if log[|log| - 1].Data? then |log[|log| - 1].bytes| else 0
  }

  lemma SizePush(log: seq<Event>, e: Event)
    ensures Size(Push(log, e)) == Size(log) + if e.Data? then |e.bytes| else 0
  {
    var r := Push(log, e);
    if |r| == |log| + 1 {
      assert r[..|r| - 1] == log;
    } else {
      assert r[..|r| - 1] == log[..|log| - 1];
    }
  }

  /** Two streams in the same state, of which `a` has delivered `d` bytes more and drops no more. */
  predicate Ahead(a: Stream, b: Stream, d: nat) {
    && a.core == b.core && a.stopped == b.stopped
    && (a.muted ==> b.muted)
    && Size(a.log) >= Size(b.log) + d
  }

  lemma AheadApply(a: Stream, b: Stream, o: Outcome, ch: char, d: nat)
    requires Ahead(a, b, d)
    ensures Ahead(Apply(a, o, ch), Apply(b, o, ch), d)
    ensures !a.muted && b.muted && o.act == Keep(Value) && o.control != Fail ==>
        Ahead(Apply(a, o, ch), Apply(b, o, ch), d + 1)
  {
    hide Size, Emit;
    EmitSize(a.log, o.act, a.muted, ch);
    EmitSize(b.log, o.act, b.muted, ch);
  }

  /** How many bytes an action delivers. */
  function Gain(act: Act, muted: bool): nat {
    match act
    case Mark(_) => 1
    case Keep(k) => if k == Value && muted then 0 else 1
    case Notice(e) => if e.Data? then |e.bytes| else 0
    case Space => 1
    case _ => 0
  }

  lemma EmitSize(log: seq<Event>, act: Act, muted: bool, ch: char)
    ensures Size(Emit(log, act, muted, ch)) == Size(log) + Gain(act, muted)
  {
    hide Size, Push;
    match act
    case Idle =>
    case Open(_) =>
    case Mark(k) => SizePush(log, Data(k, [ch]));
    case Keep(k) => SizePush(log, Data(k, [ch]));
    case Close(k) => SizePush(log, Data(k, []));
    case MarkClose(k) => SizePush(log, Data(k, []));
    case Notice(e) => SizePush(log, e);
    case Space => SizePush(log, Data(Value, " "));
  }

  lemma {:induction false} AheadStep(a: Stream, b: Stream, ch: char, d: nat)
    requires Ahead(a, b, d)
    ensures Ahead(Step(a, ch), Step(b, ch), d)
    decreases Rank(a.core.state)
  {
    hide Pass, Step, Apply, Size;
    if Halted(a) {
      StepHalted(a, ch);
      StepHalted(b, ch);
    } else {
      StepOnce(a, ch);
      StepOnce(b, ch);
      PassKeeps(a.core, ch);
      var o := Pass(a.core, ch);
      AheadApply(a, b, o, ch, d);
      if o.control == Again {
        ApplyCore(a, o, ch);
        AheadStep(Apply(a, o, ch), Apply(b, o, ch), ch, d);
      }
    }
  }

  lemma ApplyCore(r: Stream, o: Outcome, ch: char)
    ensures Apply(r, o, ch).core == o.core
  {
  }

  lemma {:induction false} AheadRun(a: Stream, b: Stream, s: string, d: nat)
    requires Ahead(a, b, d)
    ensures Ahead(Run(a, s), Run(b, s), d)
    decreases |s|
  {
    hide Step, Size;
    if s != [] {
      AheadStep(a, b, s[0], d);
      AheadRun(Step(a, s[0]), Step(b, s[0]), s[1..], d);
    }
  }

  /** Picking a dropped value up again before its end delivers more bytes, for good. */
  lemma PickedUp(y: Stream, b: string)
    requires b != [] && !Halted(y) && y.muted && Delivers(y.core, b[0]) && Run(y, b).core.errno == OK && MutedInValue(y)
    ensures Size(Run(Begin(y), b).log) > Size(Run(y, b).log)
  {
    hide Pass, Step, Size;
    var x := Begin(y);
    StepOnce(x, b[0]);
    StepOnce(y, b[0]);
    MutedActs(y.core, b[0]);
    var o := Pass(y.core, b[0]);
    PassKeeps(y.core, b[0]);
    if o.control == Fail { RunHalted(Step(y, b[0]), b[1..]); }
    AheadApply(x, y, o, b[0], 0);
    AheadRun(Step(x, b[0]), Step(y, b[0]), b[1..], 1);
  }

  lemma UnsafeCut(r: Stream, s: string, i: nat)
    requires Settled(r) && Call(r, s).core.errno == OK && 0 < i < |s| && ShowsAt(r, s, i)
    ensures CutsInto(s, [s[..i], s[i..]])
    ensures Begin(Feed(r, [s[..i], s[i..]])) != Begin(Call(r, s))
  {
    hide Run, Size, Delivers;
    var a, b := s[..i], s[i..];
    assert a + b == s;
    TwoPieces(r, a, b);
    RunAppend(r, a, b);
    var y := Run(r, a);
    if Overflows(y) {
      assert Call(Call(r, a), b).core.errno == HeaderOverflow;
    } else {
      RunMutedLog(r, a);
      PickedUp(y, b);
      assert Call(Call(r, a), b).log == Run(Begin(y), b).log;
    }
  }

  lemma TwoPieces(r: Stream, a: string, b: string)
    requires a != [] && b != []
    ensures CutsInto(a + b, [a, b]) && Feed(r, [a, b]) == Call(Call(r, a), b)
  {
    hide Call;
    assert [a, b][1..] == [b] && [b][1..] == [];
    assert Concat([b]) == b + Concat([]) == b;
    assert Feed(Call(r, a), [b]) == Feed(Call(Call(r, a), b), [b][1..]);
  }

  /** The cuts never show if, and only if, no place inside the input is one where they would. */
  lemma CutIndependence(r: Stream, s: string)
    requires Settled(r) && s != [] && Whole(r, s) && Call(r, s).core.errno == OK
    ensures (forall pieces :: CutsInto(s, pieces) ==> Begin(Feed(r, pieces)) == Begin(Call(r, s))) <==> Safe(r, s)
  {
    hide Run, ShowsAt, Feed, CutsInto;
    if Safe(r, s) {
      forall pieces | CutsInto(s, pieces) ensures Begin(Feed(r, pieces)) == Begin(Call(r, s)) {
        SafeCuts(r, s, pieces);
      }
    } else {
      var i :| 0 < i < |s| && ShowsAt(r, s, i);
      UnsafeCut(r, s, i);
    }
  }

  // ----- When an input is safe -----

  /** Every CR that ends a header value is followed by LF. */
  predicate NoBareCr(r: Stream, s: string) {
    forall i :: 0 <= i < |s| && Run(r, s[..i]).core.state == InHeaders(HeaderAlmostDone) ==> s[i] == LF
  }

  predicate NoOverflow(r: Stream, s: string) {
    forall i :: 0 <= i < |s| ==> !Overflows(Run(r, s[..i]))
  }

  lemma {:induction false} StepStaysAudible(x: Stream, ch: char)
    requires !x.muted && (x.core.state == InHeaders(HeaderAlmostDone) ==> ch == LF)
    ensures !Step(x, ch).muted
    decreases Rank(x.core.state)
  {
    hide Pass, Step, Emit;
    if Halted(x) {
      StepHalted(x, ch);
    } else {
      StepOnce(x, ch);
      PassKeeps(x.core, ch);
      var o := Pass(x.core, ch);
      if x.core.state == InHeaders(ValueLws) { LwsLeaves(x.core, ch); }
      if o.control == Again { StepStaysAudible(Apply(x, o, ch), ch); }
    }
  }

  lemma LwsLeaves(c: Core, ch: char)
    requires c.state == InHeaders(ValueLws)
    ensures !Pass(c, ch).core.state.InValue?
  {
    OnHeaders(c, ch);
    hide Pass, PassFieldStart, PassValueStart, PassHeadersDone;
  }

  lemma {:induction false} StaysAudible(r: Stream, s: string, i: nat)
    requires !r.muted && NoBareCr(r, s) && i <= |s|
    ensures !Run(r, s[..i]).muted
    decreases i
  {
    hide Step;
    if i > 0 {
      StaysAudible(r, s, i - 1);
      RunSnoc(r, s, i - 1);
      StepStaysAudible(Run(r, s[..i - 1]), s[i - 1]);
    }
  }

  /** The usual reason for an input to be safe. */
  lemma QuietIsSafe(r: Stream, s: string)
    requires Settled(r) && NoBareCr(r, s) && NoOverflow(r, s)
    ensures Safe(r, s)
  {
    hide Run, Delivers, Overflows;
    forall i | 0 < i < |s| ensures !ShowsAt(r, s, i) {
      StaysAudible(r, s, i);
      assert !Overflows(Run(r, s[..i]));
    }
  }
}
