/** Start lines: the method recogniser, URLs and versions. Each lemma says what a run over a
    well-formed piece of text does, from any stream in the right state. */
module HttpRequestLine {
  import opened HttpMachine
  import opened HttpStream

  // ----- Stepping -----

  /** A stream that is not dropping bytes, seen without its counters. */
  predicate At(x: Stream, c: Core, log: seq<Event>) {
    x.core == c && x.log == log && !x.muted && !x.stopped && c.errno == OK
  }

  /** A message has just ended; if another protocol takes over, the parser takes no more bytes. */
  predicate Completed(x: Stream, c: Core, log: seq<Event>) {
    x.core == c && x.log == log && !x.muted && x.stopped == c.upgrade && c.errno == OK && (!x.stopped ==> x.since == 1)
  }

  /** A byte that is looked at once. */
  lemma Take(x: Stream, ch: char, c: Core, log: seq<Event>)
    requires At(x, c, log)
    requires var o := Pass(c, ch); o.control == Advance && o.act != Space && o.core.errno == OK
    ensures var o := Pass(c, ch);
            && At(Step(x, ch), o.core, Emit(log, o.act, false, ch))
            && (o.reset && ParsingHeader(o.core.state) ==> Step(x, ch).since == 1)
  {
    hide Pass, Step, Emit;
    StepOnce(x, ch);
  }

  /** The byte that completes a message. */
  lemma TakeLast(x: Stream, ch: char, c: Core, log: seq<Event>)
    requires At(x, c, log)
    requires var o := Pass(c, ch);
             && o.control == (if o.core.upgrade then Stop else Advance) && o.act == Notice(MessageComplete)
             && o.core.errno == OK && o.reset && ParsingHeader(o.core.state)
    ensures Completed(Step(x, ch), Pass(c, ch).core, Push(log, MessageComplete))
  {
    hide Pass, Step;
    StepOnce(x, ch);
  }

  /** A byte that is looked at again. */
  lemma Retake(x: Stream, ch: char, c: Core, log: seq<Event>)
    requires At(x, c, log)
    requires var o := Pass(c, ch); o.control == Again && o.act != Space && o.core.errno == OK
    ensures var o := Pass(c, ch);
            var y := Apply(x, o, ch);
            At(y, o.core, Emit(log, o.act, false, ch)) && Step(x, ch) == Step(y, ch)
  {
    hide Pass, Step, Emit;
    StepOnce(x, ch);
  }

  // ----- Methods -----

  /** The method the parser guesses after the first `i` characters of the name of `m`. */
  function Via(m: Method, i: nat): Method {
    if m == Checkout && i == 1 then Connect
    else if m == Copy && i <= 2 then Connect
    else if (m == Move || m == Merge || m == MSearch) && i == 1 then MkCol
    else if m == MkActivity && i <= 2 then MkCol
    else if (m == Put || m == Patch || m == PropFind || m == PropPatch) && i == 1 then Post
    else if m == PropPatch && i <= 4 then PropFind
    else if m == Unsubscribe && i <= 2 then Unlock
    else m
  }

  predicate Guesses(v: Method, i: nat, ch: char, next: Method) {
    var name := MethodName(v);
    ch != '\0' && ch != ' '
    && if i < |name| && name[i] == ch then next == v else OtherMethod(v, i, ch) == SomeMethod(next)
  }

  lemma NameChars(m: Method, i: nat)
    requires i < |MethodName(m)|
    ensures MethodName(m)[i] != '\0' && MethodName(m)[i] != ' ' && MethodName(m)[i] != CR
  {
    assert forall k :: 0 <= k < |MethodName(m)| ==> '-' <= MethodName(m)[k];
  }

  lemma ViaStep(m: Method, i: nat)
    requires 1 <= i < |MethodName(m)|
    ensures Guesses(Via(m, i), i, MethodName(m)[i], Via(m, i + 1))
  {
    NameChars(m, i);
    if Via(m, i) == m {
      hide MethodName;
    } else if m == PropPatch || m == Copy || m == Checkout {
      ViaSwitchLong(m, i);
    } else {
      ViaSwitch(m, i);
    }
  }

  lemma ViaSwitch(m: Method, i: nat)
    requires 1 <= i < |MethodName(m)| && Via(m, i) != m && !(m == PropPatch || m == Copy || m == Checkout)
    ensures Guesses(Via(m, i), i, MethodName(m)[i], Via(m, i + 1))
  {
    hide MethodName, Via, Guesses;
    if m == Put || m == Patch || m == PropFind || m == Unsubscribe { ViaSwitchP(m, i); } else { ViaSwitchM(m, i); }
  }

  lemma ViaSwitchP(m: Method, i: nat)
    requires m == Put || m == Patch || m == PropFind || m == Unsubscribe
    requires 1 <= i < |MethodName(m)| && Via(m, i) != m
    ensures Guesses(Via(m, i), i, MethodName(m)[i], Via(m, i + 1))
  {
    hide MethodName, Via, Guesses;
    if m == Unsubscribe { ViaUnsubscribe(i); } else { ViaPost(m, i); }
  }

  lemma ViaUnsubscribe(i: nat)
    requires 1 <= i < |MethodName(Unsubscribe)| && Via(Unsubscribe, i) != Unsubscribe
    ensures Guesses(Via(Unsubscribe, i), i, MethodName(Unsubscribe)[i], Via(Unsubscribe, i + 1))
  {
  }

  lemma ViaPost(m: Method, i: nat)
    requires (m == Put || m == Patch || m == PropFind) && 1 <= i < |MethodName(m)| && Via(m, i) != m
    ensures Guesses(Via(m, i), i, MethodName(m)[i], Via(m, i + 1))
  {
    assert i == 1;
  }

  lemma ViaSwitchM(m: Method, i: nat)
    requires !(m == Put || m == Patch || m == PropFind || m == Unsubscribe || m == PropPatch || m == Copy ||
        m == Checkout)
    requires 1 <= i < |MethodName(m)| && Via(m, i) != m
    ensures Guesses(Via(m, i), i, MethodName(m)[i], Via(m, i + 1))
  {
    match m
    case Move => case MkActivity => case Merge => case MSearch =>
  }

  lemma ViaSwitchLong(m: Method, i: nat)
    requires 1 <= i < |MethodName(m)| && Via(m, i) != m && (m == PropPatch || m == Copy || m == Checkout)
    ensures Guesses(Via(m, i), i, MethodName(m)[i], Via(m, i + 1))
  {
    match m
    case PropPatch => case Copy => case Checkout =>
  }

  /** The core after the first `i` characters of the name of `m`. */
  function MidName(c: Core, m: Method, i: nat): Core {
    c.(flags := NO_FLAGS, contentLength := -1, verb := Via(m, i), index := i, state := InMethod)
  }

  lemma FirstLetter(x: Stream, c: Core, log: seq<Event>, m: Method)
    requires At(x, c, log) && c.state == AtStart(StartReq)
    ensures |MethodName(m)| > 0 && At(Step(x, MethodName(m)[0]), MidName(c, m, 1), log)
  {
    hide MethodName, FirstMethod, Step, Via;
    FirstGuess(m);
    var ch := MethodName(m)[0];
    OnStart(c, ch);
    hide Pass;
    Take(x, ch, c, log);
  }

  lemma FirstGuess(m: Method)
    ensures |MethodName(m)| > 0 && IsAlpha(MethodName(m)[0]) && FirstMethod(MethodName(m)[0]) == SomeMethod(Via(m, 1))
  {
    hide MethodName, FirstMethod, Via, IsAlpha;
    if EarlyMethod(m) { FirstGuessEarly(m); } else { FirstGuessLate(m); }
  }

  predicate EarlyMethod(m: Method) {
    m.Delete? || m.Get? || m.Head? || m.Post? || m.Put? || m.Connect? || m.Options? || m.Trace? || m.Copy? || m.Lock? ||
    m.MkCol? || m.Move?
  }

  lemma FirstGuessEarly(m: Method)
    requires EarlyMethod(m)
    ensures |MethodName(m)| > 0 && IsAlpha(MethodName(m)[0]) && FirstMethod(MethodName(m)[0]) == SomeMethod(Via(m, 1))
  {
  }

  lemma FirstGuessLate(m: Method)
    requires !EarlyMethod(m)
    ensures |MethodName(m)| > 0 && IsAlpha(MethodName(m)[0]) && FirstMethod(MethodName(m)[0]) == SomeMethod(Via(m, 1))
  {
  }

  lemma NextLetter(x: Stream, c: Core, log: seq<Event>, m: Method, i: nat)
    requires 1 <= i < |MethodName(m)| && At(x, MidName(c, m, i), log)
    ensures At(Step(x, MethodName(m)[i]), MidName(c, m, i + 1), log)
  {
    hide MethodName, OtherMethod, Via, Step, Pass;
    var ch := MethodName(m)[i];
    ViaStep(m, i);
    OnMethod(x.core, ch);
    Take(x, ch, x.core, log);
  }

  lemma {:induction false} LettersRun(x: Stream, c: Core, log: seq<Event>, m: Method, i: nat)
    requires 1 <= i <= |MethodName(m)| && At(x, MidName(c, m, i), log)
    ensures At(Run(x, MethodName(m)[i..]), MidName(c, m, |MethodName(m)|), log)
    decreases |MethodName(m)| - i
  {
    hide MethodName, Via, Step, Pass;
    var s := MethodName(m)[i..];
    if i < |MethodName(m)| {
      NextLetter(x, c, log, m, i);
      LettersRun(Step(x, s[0]), c, log, m, i + 1);
      assert s[1..] == MethodName(m)[i + 1..];
    }
  }

  /** A method name and the space after it are recognised. */
  lemma MethodRun(x: Stream, c: Core, log: seq<Event>, m: Method)
    requires At(x, c, log) && c.state == AtStart(StartReq)
    ensures At(Run(x, MethodName(m) + " "),
               c.(flags := NO_FLAGS, contentLength := -1, verb := m, index := |MethodName(m)| + 1,
                   state := BeforeUrl), log)
  {
    hide Step, Pass, Via, Run;
    var name := MethodName(m);
    FirstLetter(x, c, log, m);
    hide MethodName;
    RunCons(x, name + " ");
    var y := Step(x, name[0]);
    LettersRun(y, c, log, m, 1);
    assert (name + " ")[1..] == name[1..] + " ";
    RunAppend(y, name[1..], " ");
    var z := Run(y, name[1..]);
    assert Via(m, |name|) == m by { ViaEnd(m); }
    OnMethod(z.core, ' ');
    Take(z, ' ', z.core, log);
    RunOne(z, ' ');
  }

  lemma ViaEnd(m: Method)
    ensures |MethodName(m)| >= 1 && Via(m, |MethodName(m)|) == m
  {
  }

  lemma RunCons(x: Stream, s: string)
    requires s != []
    ensures Run(x, s) == Run(Step(x, s[0]), s[1..])
  {
    hide Step;
  }

  /** The parser only ever changes its guess to a method that agrees with what it has read. */
  predicate Agrees(m: Method, i: nat, ch: char) {
    var o := OtherMethod(m, i, ch);
    o.SomeMethod? ==>
      i < |MethodName(o.verb)| && i <= |MethodName(m)| && MethodName(o.verb)[i] == ch
      && MethodName(o.verb)[..i] == MethodName(m)[..i]
  }

  lemma OtherAgrees(m: Method, i: nat, ch: char)
    ensures Agrees(m, i, ch)
  {
    if OtherMethod(m, i, ch).SomeMethod? {
      assert i == 1 || i == 2 || (i == 4 && m == PropFind);
      hide Agrees, MethodName;
      if i == 4 { AgreesAtFour(ch); } else if i == 2 { AgreesAtTwo(m, ch); } else { AgreesAtOne(m, ch); }
    }
  }

  lemma AgreesAtOne(m: Method, ch: char)
    ensures Agrees(m, 1, ch)
  {
    var o := OtherMethod(m, 1, ch);
    if o.SomeMethod? {
      var v, w := MethodName(o.verb), MethodName(m);
      assert |v| > 1 && |w| > 1 && v[0] == w[0] && v[1] == ch;
      assert v[..1] == [v[0]] && w[..1] == [w[0]];
    }
  }

  lemma AgreesAtTwo(m: Method, ch: char)
    ensures Agrees(m, 2, ch)
  {
    var o := OtherMethod(m, 2, ch);
    if o.SomeMethod? {
      var v, w := MethodName(o.verb), MethodName(m);
      assert |v| > 2 && |w| > 2 && v[0] == w[0] && v[1] == w[1] && v[2] == ch;
      assert v[..2] == [v[0], v[1]] && w[..2] == [w[0], w[1]];
    }
  }

  lemma AgreesAtFour(ch: char)
    ensures Agrees(PropFind, 4, ch)
  {
    assert MethodName(PropFind)[..4] == "PROP" == MethodName(PropPatch)[..4];
  }

  /** The parser has read exactly the characters of `s`, a prefix of the name it guesses. */
  predicate HasRead(y: Stream, s: string) {
    !Halted(y) && y.core.state == InMethod && y.core.index == |s| && s <= MethodName(y.core.verb)
  }

  lemma ReadFirst(x: Stream, ch: char)
    requires !Halted(x) && x.core.state == AtStart(StartReq)
    ensures Halted(Step(x, ch)) || HasRead(Step(x, ch), [ch])
  {
    FirstMethodName(ch);
    hide Step, MethodName, FirstMethod, Pass;
    StepOnce(x, ch);
    OnStart(x.core, ch);
    PassKeeps(x.core, ch);
  }

  lemma FirstMethodName(ch: char)
    ensures FirstMethod(ch).SomeMethod? ==> [ch] <= MethodName(FirstMethod(ch).verb)
  {
  }

  lemma ReadNext(y: Stream, s: string, ch: char)
    requires HasRead(y, s) && ch != ' '
    ensures Halted(Step(y, ch)) || HasRead(Step(y, ch), s + [ch])
  {
    hide Step, MethodName, OtherMethod, Pass;
    StepOnce(y, ch);
    OnMethod(y.core, ch);
    OtherAgrees(y.core.verb, |s|, ch);
    PassKeeps(y.core, ch);
    var o := OtherMethod(y.core.verb, |s|, ch);
    var v := if o.SomeMethod? then MethodName(o.verb) else [];
    if o.SomeMethod? { assert s == v[..|s|]; }
  }

  lemma {:induction false} MethodPrefix(x: Stream, s: string)
    requires !Halted(x) && x.core.state == AtStart(StartReq) && s != [] && ' ' !in s
    ensures Halted(Run(x, s)) || HasRead(Run(x, s), s)
    decreases |s|
  {
    hide Step, HasRead;
    var n := |s| - 1;
    var t, ch := s[..n], s[n];
    assert s == t + [ch];
    if n == 0 {
      ReadFirst(x, ch);
      RunOne(x, ch);
    } else {
      MethodPrefix(x, t);
      RunSnoc(x, s, n);
      assert s[..n + 1] == s;
      var y := Run(x, t);
      if Halted(y) { RunHalted(y, [ch]); RunOne(y, ch); } else { ReadNext(y, t, ch); }
    }
  }

  lemma ReadSpace(y: Stream, s: string)
    requires HasRead(y, s)
    ensures var z := Step(y, ' ');
            if s == MethodName(y.core.verb) then !Halted(z) && z.core.state == BeforeUrl && z.core.verb == y.core.verb
            else Halted(z)
  {
    hide Step, MethodName, Pass;
    StepOnce(y, ' ');
    OnMethod(y.core, ' ');
    PassKeeps(y.core, ' ');
    if |s| < |MethodName(y.core.verb)| { NameChars(y.core.verb, |s|); }
  }

  /** A word is accepted as a method exactly when it is one, and then as that one. */
  lemma MethodExact(x: Stream, s: string)
    requires At(x, x.core, x.log) && x.core.state == AtStart(StartReq) && s != [] && ' ' !in s
    ensures var z := Run(x, s + " ");
            && (!Halted(z) <==> exists m :: s == MethodName(m))
            && (!Halted(z) ==> z.core.state == BeforeUrl && s == MethodName(z.core.verb))
  {
    hide Step, MethodName, Run;
    MethodPrefix(x, s);
    RunAppend(x, s, " ");
    var y := Run(x, s);
    RunOne(y, ' ');
    if Halted(y) { RunHalted(y, " "); } else { ReadSpace(y, s); }
    forall m | s == MethodName(m) ensures !Halted(Run(x, s + " ")) { MethodRun(x, x.core, x.log, m); }
  }

  // ----- URLs -----

  /** The effect of one byte inside a URL; a byte that cannot be in a host name ends it. */
  function UrlStep(u: UrlState, ch: char): UrlMove {
    var m := MoveUrl(u, ch);
    if m.Leave? && u.Host? then MoveUrl(HostDone, ch) else m
  }

  function UrlWalk(u: UrlState, s: string): UrlMove
    decreases |s|
  {
    if s == [] then Stay(u)
    else
      var m := UrlStep(u, s[0]);
      if m.Leave? then m else UrlWalk(m.url, s[1..])
  }

  predicate CanEnd(u: UrlState) {
    u.Path? || u.QueryStart? || u.Query? || u.FragmentStart? || u.Fragment? || u.Host? || u.HostDone? || u.Port?
  }

  function TargetStart(ch: char): UrlState { if IsAlpha(ch) then Schema else Path }

  /** A request target: a path, `*` or an absolute URL. */
  predicate IsTarget(t: string) {
    && t != [] && (t[0] == '/' || t[0] == '*' || IsAlpha(t[0]))
    && var w := UrlWalk(TargetStart(t[0]), t[1..]);
       w.Stay? && CanEnd(w.url)
  }

  lemma UrlByte(x: Stream, c: Core, log: seq<Event>, u: UrlState, ch: char)
    requires At(x, c.(state := InUrl(u)), log) && UrlStep(u, ch).Stay?
    ensures At(Step(x, ch), c.(state := InUrl(UrlStep(u, ch).url)), Push(log, Data(Url, [ch])))
  {
    hide Step, Pass, MoveUrl, Push;
    OnUrl(x.core, ch);
    if MoveUrl(u, ch).Stay? {
      Take(x, ch, x.core, log);
    } else {
      Retake(x, ch, x.core, log);
      var y := Apply(x, Pass(x.core, ch), ch);
      OnUrl(y.core, ch);
      Take(y, ch, y.core, log);
    }
  }

  lemma {:induction false} UrlRun(x: Stream, c: Core, log: seq<Event>, u: UrlState, s: string)
    requires At(x, c.(state := InUrl(u)), log) && UrlWalk(u, s).Stay?
    ensures At(Run(x, s), c.(state := InUrl(UrlWalk(u, s).url)), if s == [] then log else Push(log, Data(Url, s)))
    decreases |s|
  {
    hide Step, UrlStep, Push;
    if s != [] {
      UrlByte(x, c, log, u, s[0]);
      UrlRun(Step(x, s[0]), c, Push(log, Data(Url, [s[0]])), UrlStep(u, s[0]).url, s[1..]);
      PushJoin(log, Url, [s[0]], s[1..]);
      assert s == [s[0]] + s[1..];
      if s[1..] == [] { assert s == [s[0]]; }
    }
  }

  lemma UrlSpace(x: Stream, c: Core, log: seq<Event>, u: UrlState)
    requires At(x, c.(state := InUrl(u)), log) && CanEnd(u)
    ensures At(Step(x, ' '), c.(state := InVersion(HttpStart)), Push(log, Data(Url, [])))
  {
    SpaceLeaves(u);
    SpaceLeaves(HostDone);
    hide Step, Pass, MoveUrl, Push;
    OnUrl(x.core, ' ');
    if u.Host? {
      Retake(x, ' ', x.core, log);
      var y := Apply(x, Pass(x.core, ' '), ' ');
      OnUrl(y.core, ' ');
      Take(y, ' ', y.core, log);
    } else {
      Take(x, ' ', x.core, log);
    }
  }

  lemma SpaceLeaves(u: UrlState)
    requires CanEnd(u)
    ensures MoveUrl(u, ' ').Leave?
  {
  }

  lemma TargetFirst(x: Stream, c: Core, log: seq<Event>, ch: char)
    requires At(x, c, log) && c.state == BeforeUrl && c.verb != Connect && (ch == '/' || ch == '*' || IsAlpha(ch))
    ensures At(Step(x, ch), c.(state := InUrl(TargetStart(ch))), Push(log, Data(Url, [ch])))
  {
    hide Step, Pass, Push;
    OnBeforeUrl(c, ch);
    Take(x, ch, c, log);
  }

  lemma PlainTarget(x: Stream, c: Core, log: seq<Event>, t: string)
    requires At(x, c, log) && c.state == BeforeUrl && c.verb != Connect && IsTarget(t)
    ensures At(Run(x, t), c.(state := InUrl(UrlWalk(TargetStart(t[0]), t[1..]).url)), Push(log, Data(Url, t)))
  {
    hide Step, Push, UrlWalk, Run;
    TargetFirst(x, c, log, t[0]);
    var y, log1 := Step(x, t[0]), Push(log, Data(Url, [t[0]]));
    RunCons(x, t);
    UrlRun(y, c, log1, TargetStart(t[0]), t[1..]);
    assert t == [t[0]] + t[1..];
    PushJoin(log, Url, [t[0]], t[1..]);
    if t[1..] == [] { assert t == [t[0]]; }
  }

  /** The target of a CONNECT: a host, perhaps with a port. */
  predicate IsAuthority(t: string) {
    && t != [] && t[0] != ' '
    && var w := UrlWalk(HostStart, t);
       w.Stay? && CanEnd(w.url)
  }

  lemma ConnectTarget(x: Stream, c: Core, log: seq<Event>, t: string)
    requires At(x, c, log) && c.state == BeforeUrl && c.verb == Connect && IsAuthority(t)
    ensures At(Run(x, t), c.(state := InUrl(UrlWalk(HostStart, t).url)), Push(log, Data(Url, t)))
  {
    hide Step, Pass, Push, UrlWalk, Run;
    OnBeforeUrl(c, t[0]);
    Retake(x, t[0], c, log);
    var y := Apply(x, Pass(c, t[0]), t[0]);
    RunCons(x, t);
    RunCons(y, t);
    UrlRun(y, c, log, HostStart, t);
  }

  predicate TargetOk(verb: Method, t: string) { if verb == Connect then IsAuthority(t) else IsTarget(t) }

  /** A request target and the space after it. */
  lemma TargetRun(x: Stream, c: Core, log: seq<Event>, t: string)
    requires At(x, c, log) && c.state == BeforeUrl && TargetOk(c.verb, t)
    ensures At(Run(x, t + " "), c.(state := InVersion(HttpStart)), Push(log, Data(Url, t)))
  {
    hide Step, Push, UrlWalk, Run;
    if c.verb == Connect { ConnectTarget(x, c, log, t); } else { PlainTarget(x, c, log, t); }
    var y := Run(x, t);
    UrlSpace(y, c, Push(log, Data(Url, t)), y.core.state.url);
    RunAppend(x, t, " ");
    RunOne(y, ' ');
    PushJoin(log, Url, t, []);
    assert t + [] == t;
  }

  // ----- Versions and status lines -----

  lemma VersionByte(x: Stream, c: Core, log: seq<Event>, ch: char)
    requires At(x, c, log) && c.state.InVersion?
    requires var o := PassVersion(c, c.state.version, ch); o.control == Advance && o.core.errno == OK && o.act == Idle
    ensures At(Step(x, ch), PassVersion(c, c.state.version, ch).core, log)
  {
    hide Step, Pass, PassVersion;
    OnVersion(c, ch);
    Take(x, ch, c, log);
  }

  lemma LineByte(x: Stream, c: Core, log: seq<Event>, ch: char)
    requires At(x, c, log) && c.state.InStatusLine?
    requires var o := PassStatusLine(c, c.state.line, ch); o.control == Advance && o.core.errno == OK && o.act == Idle
    ensures At(Step(x, ch), PassStatusLine(c, c.state.line, ch).core, log)
  {
    hide Step, Pass, PassStatusLine;
    OnStatusLine(c, ch);
    Take(x, ch, c, log);
  }

  /** The numbers of a request line and of a status line. */
  datatype Number = MajorOfRequest | MinorOfRequest | MajorOfReply | MinorOfReply | StatusOfReply

  function BeforeNumber(p: Number): State {
    match p
    case MajorOfRequest => InVersion(FirstMajor)
    case MinorOfRequest => InVersion(FirstMinor)
    case MajorOfReply => InStatusLine(ResFirstMajor)
    case MinorOfReply => InStatusLine(ResFirstMinor)
    case StatusOfReply => InStatusLine(FirstStatusCode)
  }

  function InNumber(p: Number): State {
    match p
    case MajorOfRequest => InVersion(Major)
    case MinorOfRequest => InVersion(Minor)
    case MajorOfReply => InStatusLine(ResMajor)
    case MinorOfReply => InStatusLine(ResMinor)
    case StatusOfReply => InStatusLine(StatusCode)
  }

  /** The core when the number `n` has been read. */
  function WithNumber(c: Core, p: Number, n: nat): Core {
    var d := c.(state := InNumber(p));
    match p
    case MajorOfRequest => d.(major := n)
    case MinorOfRequest => d.(minor := n)
    case MajorOfReply => d.(major := n)
    case MinorOfReply => d.(minor := n)
    case StatusOfReply => d.(status := n)
  }

  /** The numbers the parser takes: any number of digits, up to 999. */
  predicate IsNumber(s: string) { s != [] && (forall i :: 0 <= i < |s| ==> IsNum(s[i])) && Dec(s) <= 999 }

  lemma DigitFirst(x: Stream, c: Core, log: seq<Event>, p: Number, ch: char)
    requires At(x, c, log) && c.state == BeforeNumber(p) && IsNum(ch)
    ensures At(Step(x, ch), WithNumber(c, p, Digit(ch)), log)
  {
    hide Step;
    if c.state.InVersion? { VersionByte(x, c, log, ch); } else { LineByte(x, c, log, ch); }
  }

  lemma DigitNext(x: Stream, c: Core, log: seq<Event>, p: Number, n: nat, ch: char)
    requires At(x, WithNumber(c, p, n), log) && IsNum(ch) && n * 10 + Digit(ch) <= 999
    ensures At(Step(x, ch), WithNumber(c, p, n * 10 + Digit(ch)), log)
  {
    hide Step;
    if x.core.state.InVersion? { VersionByte(x, x.core, log, ch); } else { LineByte(x, x.core, log, ch); }
  }

  lemma {:induction false} NumberRun(x: Stream, c: Core, log: seq<Event>, p: Number, s: string)
    requires At(x, c, log) && c.state == BeforeNumber(p) && IsNumber(s)
    ensures At(Run(x, s), WithNumber(c, p, Dec(s)), log)
    decreases |s|
  {
    hide Step, Run, WithNumber, Dec;
    var n := |s| - 1;
    var t, ch := s[..n], s[n];
    assert s == t + [ch];
    DecSnoc(t, ch);
    if n == 0 {
      assert Dec([]) == 0 by { DecNone(); }
      RunOne(x, ch);
      DigitFirst(x, c, log, p, ch);
    } else {
      DecGrows(s, n);
      NumberRun(x, c, log, p, t);
      RunSnoc(x, s, n);
      assert s[..n + 1] == s;
      DigitNext(Run(x, t), c, log, p, Dec(t), ch);
    }
  }

  lemma DecNone()
    ensures Dec([]) == 0
  {
  }

  /** `HTTP/x.y` and the CR behind it; behind version 0.9 the head is over. */
  lemma VersionRun(x: Stream, c: Core, log: seq<Event>, a: string, b: string)
    requires At(x, c, log) && c.state == InVersion(HttpStart) && IsNumber(a) && IsNumber(b)
    ensures At(Run(x, "HTTP/" + (a + "." + (b + "\r"))),
               c.(major := Dec(a), minor := Dec(b),
                  state := if Dec(a) == 0 && Dec(b) == 9 then InHeaders(HeadersAlmostDone)
                      else InVersion(LineAlmostDone)),
               log)
  {
    hide Step, Run, Dec;
    VersionWord(x, c, log);
    RunAppend(x, "HTTP/", a + "." + (b + "\r"));
    var y := Run(x, "HTTP/");
    NumberRun(y, y.core, log, MajorOfRequest, a);
    RunAppend(y, a + ".", b + "\r");
    RunAppend(y, a, ".");
    var z := Run(y, a);
    RunOne(z, '.');
    VersionByte(z, z.core, log, '.');
    var u := Step(z, '.');
    NumberRun(u, u.core, log, MinorOfRequest, b);
    RunAppend(u, b, "\r");
    var v := Run(u, b);
    RunOne(v, CR);
    VersionByte(v, v.core, log, CR);
  }

  lemma VersionWord(x: Stream, c: Core, log: seq<Event>)
    requires At(x, c, log) && c.state == InVersion(HttpStart)
    ensures At(Run(x, "HTTP/"), c.(state := InVersion(FirstMajor)), log)
  {
    hide Step;
    VersionByte(x, c, log, 'H');
    var y := Step(x, 'H');
    VersionByte(y, y.core, log, 'T');
    var z := Step(y, 'T');
    VersionByte(z, z.core, log, 'T');
    var u := Step(z, 'T');
    VersionByte(u, u.core, log, 'P');
    var v := Step(u, 'P');
    VersionByte(v, v.core, log, '/');
    RunFive(x, 'H', 'T', 'T', 'P', '/');
  }

  lemma RunFive(x: Stream, a: char, b: char, c: char, d: char, e: char)
    ensures Run(x, [a, b, c, d, e]) == Step(Step(Step(Step(Step(x, a), b), c), d), e)
  {
    hide Step;
    RunCons(x, [a, b, c, d, e]);
    assert [a, b, c, d, e][1..] == [b, c, d, e];
    RunCons(Step(x, a), [b, c, d, e]);
    assert [b, c, d, e][1..] == [c, d, e];
    RunCons(Step(Step(x, a), b), [c, d, e]);
    assert [c, d, e][1..] == [d, e];
    RunCons(Step(Step(Step(x, a), b), c), [d, e]);
    assert [d, e][1..] == [e];
    RunOne(Step(Step(Step(Step(x, a), b), c), d), e);
  }
}
