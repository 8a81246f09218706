/** Whole runs: the sketch and the twin, put behind the same line framing and the
    same connections, print the same lines for ever. */
module RefinedRuns {
  import opened Ascii
  import opened Control
  import opened Framing
  import opened System
  import opened Refinement
  import T = TwinModel
  import TwinFacts

  /** A twin serving the same client and UART streams as the sketch. `failed`
      records that a call of `command` raised instead of returning. */
  datatype TwinSys = TwinSys(
    twin: T.Twin, client: Option<nat>, accepted: nat, net: string, uart: string,
    out: seq<Output>, failed: bool)

  predicate TwinFramed(w: TwinSys) { |w.net| < CAPACITY && |w.uart| < CAPACITY }

  function Serve(w: TwinSys, src: Source, frame: Option<Frame>): (r: TwinSys) {
    match frame
    case None => w
    case Some(TooLong) => w.(out := w.out + [Output(src, "ERR line")])
    case Some(Line(text)) =>
      match T.Command(w.twin, text)
      case IndexError => w.(failed := true)
      case ValueError(t) => w.(twin := t, failed := true)
      case Returned(r) => w.(twin := r.t, out := w.out + if r.text == "" then [] else [Output(src, r.text)])
  }

  function TwinByte(w: TwinSys, src: Source, c: char): (r: TwinSys)
    requires TwinFramed(w)
    ensures TwinFramed(r)
  {
    var f := Feed(if src.Uart? then w.uart else w.net, c);
    Serve(if src.Uart? then w.(uart := f.buffer) else w.(net := f.buffer), src, f.frame)
  }

  /** What each action of a run means for the twin. The lease check at the top of
      `loop` is `advance` by the time that passed; the twin has no counterpart of
      the report batches or of the host. */
  function TwinStep(w: TwinSys, a: Action): (r: TwinSys)
    requires TwinFramed(w)
    ensures TwinFramed(r)
  {
    match a
    case BeginLoop(env) => w.(twin := T.Advance(w.twin, env.beforeTouch).value)
    case AcceptClient =>
      var g := T.Greeting(w.twin);
      var dst := Tcp(w.accepted);
      w.(client := Some(w.accepted), accepted := w.accepted + 1, net := "",
         out := w.out + [Output(dst, g[0]), Output(dst, g[1])])
    case DropClient => w.(client := None)
    case NetByte(c, _) => if w.client.Some? then TwinByte(w, Tcp(w.client.value), c) else w
    case UartByte(c, _) => TwinByte(w, Uart, c)
    case HostRequest(_) => w
    case EndLoop(_) => w
  }

  function TwinRun(w: TwinSys, actions: seq<Action>): (r: TwinSys)
    requires TwinFramed(w)
    ensures TwinFramed(r)
  {
    if actions == [] then w else TwinStep(TwinRun(w, actions[..|actions| - 1]), actions[|actions| - 1])
  }

  /** The sketch's system seen as a twin's: same streams, same output. */
  function View(y: Sys): (r: TwinSys) {
    TwinSys(TwinOf(y.core), y.client, y.accepted, y.net, y.uart, y.out, false)
  }

  predicate PlainByte(c: char) { c == '\t' || c == '\r' || c == '\n' || ' ' <= c <= '~' }

  /** No host request, plain bytes, and a clock that moves only between loops. */
  predicate Quiet(a: Action) {
    match a
    case BeginLoop(env) => env.beforeArm == env.beforeReport == 0
    case NetByte(c, env) => PlainByte(c) && Steady(env)
    case UartByte(c, env) => PlainByte(c) && Steady(env)
    case HostRequest(_) => false
    case EndLoop(env) => env.beforeReport == 0
    case _ => true
  }

  ghost predicate Clean(y: Sys) { Framed(y) && Ready(y.core) && Printable(y.net) && Printable(y.uart) }

  lemma DeliverAgrees(y: Sys, src: Source, frame: Option<Frame>, env: Env)
    requires Ready(y.core) && Steady(env)
    requires frame.Some? && frame.value.Line? ==> Printable(frame.value.text) && |frame.value.text| < CAPACITY
    ensures View(Deliver(y, src, frame, env)) == Serve(View(y), src, frame)
    ensures Ready(Deliver(y, src, frame, env).core)
  {
    if frame.Some? && frame.value.Line? {
      CommandCommutes(y.core, frame.value.text, env);
      RepliesAreLines(y.core, frame.value.text, env);
    }
  }

  lemma FeedPrintable(buffer: string, c: char)
    requires |buffer| < CAPACITY && Printable(buffer) && PlainByte(c)
    ensures var f := Feed(buffer, c);
            && Printable(f.buffer)
            && (f.frame.Some? && f.frame.value.Line? ==> Printable(f.frame.value.text) && |f.frame.value.text| < CAPACITY)
  {}

  lemma ByteAgrees(y: Sys, src: Source, c: char, env: Env)
    requires Clean(y) && PlainByte(c) && Steady(env)
    ensures View(TakeByte(y, src, c, env)) == TwinByte(View(y), src, c)
    ensures Clean(TakeByte(y, src, c, env))
  {
    var f := Feed(Buffer(y, src), c);
    FeedPrintable(Buffer(y, src), c);
    var z := WithBuffer(y.(rx := y.rx + [(src, c)]), src, f.buffer);
    DeliverAgrees(z, src, f.frame, env);
  }

  lemma GreetingAgrees(s: State)
    ensures Greeting(s) == T.Greeting(TwinOf(s))
  {}

  /** One action: both sides move alike, and whenever `loop` ends the status word
      the sketch publishes is the one the twin has cached. */
  lemma StepAgrees(y: Sys, a: Action)
    requires Clean(y) && Quiet(a)
    ensures View(Step(y, a)) == TwinStep(View(y), a) && Clean(Step(y, a))
    ensures a.EndLoop? ==> HidOf(Step(y, a).core.status) == TwinStep(View(y), a).twin.hid
  {
    match a
    case BeginLoop(env) => CheckCommutes(y.core, env);
    case AcceptClient => GreetingAgrees(y.core);
    case NetByte(c, env) => if y.client.Some? { ByteAgrees(y, Tcp(y.client.value), c, env); }
    case UartByte(c, env) => ByteAgrees(y, Uart, c, env);
    case EndLoop(env) => PublishCommutes(y.core, env);
    case DropClient =>
  }

  ghost predicate AllQuiet(actions: seq<Action>) { forall i :: 0 <= i < |actions| ==> Quiet(actions[i]) }

  /** For every interleaving of loops, connections and plain bytes on both
      streams, and for every endpoint behaviour: the same replies to the same
      destinations in the same order, and corresponding states throughout. */
  lemma {:induction false} RunsAgree(y: Sys, actions: seq<Action>)
    requires Clean(y) && AllQuiet(actions)
    ensures View(Run(y, actions)) == TwinRun(View(y), actions) && Clean(Run(y, actions))
  {
    if actions == [] {
    } else {
      RunsAgree(y, actions[..|actions| - 1]);
      StepAgrees(Run(y, actions[..|actions| - 1]), actions[|actions| - 1]);
    }
  }

  /** A freshly built twin at the same addresses. */
  function NewTwin(net: Network): (r: TwinSys) {
    TwinSys(T.Fresh(T.Address(net.ip, net.gateway, net.subnet, T.CONTROL_PORT)), None, 0, "", "", [], false)
  }

  lemma StartsAlike(net: Network, env: Env)
    requires Steady(env)
    ensures View(PowerUp(net, env)) == NewTwin(net) && Clean(PowerUp(net, env))
  {
    SetupCommutes(net, env);
  }

  lemma RunsPublishAlike(y: Sys, actions: seq<Action>)
    requires Clean(y) && AllQuiet(actions) && actions != [] && actions[|actions| - 1].EndLoop?
    ensures HidOf(Run(y, actions).core.status) == TwinRun(View(y), actions).twin.hid
  {
    var init := actions[..|actions| - 1];
    RunsAgree(y, init);
    StepAgrees(Run(y, init), actions[|actions| - 1]);
  }

  /** From power-up on: equal output, no failure of the twin, corresponding
      states, and after every complete loop equal published and cached status. */
  lemma FirmwareRefinesTwin(net: Network, env: Env, actions: seq<Action>)
    requires Steady(env) && AllQuiet(actions)
    ensures View(Run(PowerUp(net, env), actions)) == TwinRun(NewTwin(net), actions)
    ensures actions != [] && actions[|actions| - 1].EndLoop? ==>
            HidOf(Run(PowerUp(net, env), actions).core.status) == TwinRun(NewTwin(net), actions).twin.hid
  {
    StartsAlike(net, env);
    var y := PowerUp(net, env);
    RunsAgree(y, actions);
    if actions != [] && actions[|actions| - 1].EndLoop? { RunsPublishAlike(y, actions); }
  }

  /** Outside the plain characters the two do differ. A line holding only a
      vertical tab is a command word to the sketch and no word at all to
      Python, whose `tokens[0]` then fails. */
  lemma VerticalTabDiffers(s: State, t: T.Twin, env: Env, line: string)
    requires !s.sim.armed && line == ['\U{0b}']
    ensures Execute(s, line, env).reply == Some("ERR disarmed")
    ensures T.Command(t, line) == T.IndexError
  {
    TabIsRefused(s, line, env);
    TwinFacts.OneSpaceRaises(t, '\U{0b}');
  }

  lemma TabIsRefused(s: State, line: string, env: Env)
    requires !s.sim.armed && line == ['\U{0b}']
    ensures Execute(s, line, env).reply == Some("ERR disarmed")
  {
    TabIsOneWord(line);
    TabIsUnknown(line);
    SketchRuns(s, line, [line], env);
  }

  lemma TabIsOneWord(line: string)
    requires line == ['\U{0b}']
    ensures Split(CString(line), DELIMS) == [line]
  {
    assert CStringAt(line, 1) == "";
    assert CString(line) == line;
    SplitLastWord(line, DELIMS);
  }

  /** A first character that is no letter matches no word that starts with one. */
  lemma NoMatch(line: string, w: string)
    requires line != "" && w != "" && Lower(line[0]) != Lower(w[0])
    ensures !StrCaseEq(line, w)
  {}

  lemma TabIsNoNumber(line: string)
    requires line == ['\U{0b}']
    ensures NumericKeyword(line) == Unknown
  {
    NoMatch(line, "BATTERY");
    NoMatch(line, "LOAD");
    NoMatch(line, "VOLTAGE");
    NoMatch(line, "INPUTVOLTAGE");
    NoMatch(line, "OUTPUTVOLTAGE");
    NoMatch(line, "RUNTIME");
    NoMatch(line, "STARTDELAY");
  }

  lemma TabIsNotGuarded(line: string)
    requires line == ['\U{0b}']
    ensures GuardedKeyword(line) == Unknown
  {
    TabIsNoNumber(line);
    NoMatch(line, "AC");
    NoMatch(line, "OVERLOAD");
    NoMatch(line, "REPLACE");
    NoMatch(line, "COMMLOST");
    NoMatch(line, "SHUTDOWN");
    NoMatch(line, "CHARGING");
    NoMatch(line, "LOWBAT");
  }

  lemma TabIsUnknown(line: string)
    requires line == ['\U{0b}']
    ensures KeywordOf(line) == Unknown
  {
    TabIsNotGuarded(line);
    NoMatch(line, "PING");
    NoMatch(line, "IDENT?");
    NoMatch(line, "HELP");
    NoMatch(line, "STATUS?");
    NoMatch(line, "STATUS");
    NoMatch(line, "NETWORK?");
    NoMatch(line, "ARM");
    NoMatch(line, "RESET");
    NoMatch(line, "REPORT");
  }
}
