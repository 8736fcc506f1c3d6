/** Folded header lines, and bodies that end with the connection. */
module HttpEndings {
  import opened HttpMachine
  import opened HttpStream
  import opened HttpRequestLine
  import opened HttpHeaderLines
  import opened HttpBodies
  import opened HttpMessages

  // ----- Folded lines -----

  /** A blank at the start of a line stands for one space in the value of the header before it. */
  lemma FoldStart(x: Stream, c: Core, log: seq<Event>, ch: char)
    requires At(x, c, log) && c.state == InHeaders(ValueLws) && (ch == ' ' || ch == '\t')
    ensures At(Step(x, ch), c.(state := InHeaders(ValueStart)), Push(log, Data(Value, " ")))
  {
    hide Step, Pass, Push, PassFieldStart, PassValueStart, PassHeadersDone;
    OnHeaders(c, ch);
    StepOnce(x, ch);
  }

  /** A line that continues a value (section 3.2.4 of RFC 7230): one space and the rest of the line are added to it. */
  lemma FoldedLine(x: Stream, c: Core, log: seq<Event>, pad: string, v: string)
    requires Near(x, c, log) && c.state == InHeaders(ValueLws) && !IsSpecial(x.core.header)
    requires pad != [] && IsPad(pad) && IsValue(v)
    ensures Near(Run(x, pad + (v + "\r\n")), c, Push(log, Data(Value, " " + v)))
    ensures !IsSpecial(Run(x, pad + (v + "\r\n")).core.header)
  {
    hide Step, Push, Run, IsValue, Pass;
    var s := pad + (v + "\r\n");
    FoldStart(x, x.core, log, pad[0]);
    var y, log1 := Step(x, pad[0]), Push(log, Data(Value, " "));
    RunCons(x, s);
    assert s[1..] == pad[1..] + (v + "\r\n");
    RunAppend(y, pad[1..], v + "\r\n");
    PadRun(y, y.core, log1, pad[1..]);
    var z := Run(y, pad[1..]);
    ValueRun(z, z.core, z.log, v);
    PushJoin(log, Value, " ", v);
  }

  // ----- Bodies that end with the connection -----

  lemma {:induction false} EofBytes(x: Stream, c: Core, log: seq<Event>, s: string)
    requires At(x, c, log) && c.state == InBody(IdentityEof)
    ensures At(Run(x, s), c, if s == [] then log else Push(log, Data(Body, s)))
    decreases |s|
  {
    hide Step, Push, Pass;
    if s != [] {
      OnBody(c, s[0]);
      Take(x, s[0], c, log);
      EofBytes(Step(x, s[0]), c, Push(log, Data(Body, [s[0]])), s[1..]);
      PushCons(log, Body, s);
    }
  }

  /** A response whose head announces no length: all bytes up to the end of the connection are its body. */
  lemma UntilEof(x: Stream, log: seq<Event>, m: Message, body: string)
    requires Starts(x, Response, false, log) && HeadOk(m, Response) && KindOf(m, Response, false) == UntilClose
    ensures var y := Run(x, HeadText(m) + body);
            var all := PushAll(log, HeadEvents(m));
            && y.core.state == InBody(IdentityEof) && y.core.errno == OK
            && y.log == (if body == [] then all else Push(all, Data(Body, body)))
            && EndOfFile(y) == y.(log := Push(y.log, MessageComplete))
  {
    hide Step, Push, Run, HeadText, HeadEvents, HeadOk, KindOf, StartLineOf, HandsOver;
    var c := HeadRun(x, Response, false, log, m);
    HeadEventsSplit(log, m);
    RunAppend(x, HeadText(m), body);
    var y := Run(x, HeadText(m));
    EofBytes(y, y.core, y.log, body);
  }
}
