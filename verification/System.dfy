/** The whole sketch as a transition system: control state, the current TCP
    client, the two line buffers, and everything that was printed. */
module System {
  import opened Ascii
  import opened Control
  import opened Framing
  import Registry

  /** Where bytes come from and replies go to. Connections are numbered in the
      order they are accepted. */
  datatype Source = Uart | Tcp(connection: nat)

  datatype Output = Output(dst: Source, text: string)

  /** Everything that touches the control state, or fails to, in order. */
  datatype Event =
    | Checked(env: Env)
    | Ran(src: Source, text: string, env: Env)
    | Overrun(src: Source)
    | Published(env: Env)
    | HostSet(request: Registry.SetReport)

  /** `log` and `rx` are histories: the events so far, and every byte taken from
      a stream together with its source. */
  datatype Sys = Sys(
    core: State, client: Option<nat>, accepted: nat, net: string, uart: string,
    out: seq<Output>, log: seq<Event>, rx: seq<(Source, char)>)

  /** The atomic actions of a run. `loop` performs some of them in a fixed order;
      host requests arrive as interrupts between them. */
  datatype Action =
    | BeginLoop(env: Env)
    | AcceptClient
    | DropClient
    | NetByte(c: char, env: Env)
    | UartByte(c: char, env: Env)
    | HostRequest(request: Registry.SetReport)
    | EndLoop(env: Env)

  predicate Framed(y: Sys) { |y.net| < CAPACITY && |y.uart| < CAPACITY }

  function Buffer(y: Sys, src: Source): (r: string) { if src.Uart? then y.uart else y.net }

  function WithBuffer(y: Sys, src: Source, b: string): (r: Sys) {
    if src.Uart? then y.(uart := b) else y.(net := b)
  }

  function Said(dst: Source, reply: Option<string>): (r: seq<Output>) {
    if reply.Some? then [Output(dst, reply.value)] else []
  }

  /** What a completed frame does. */
  function Deliver(y: Sys, src: Source, frame: Option<Frame>, env: Env): (r: Sys) {
    match frame
    case None => y
    case Some(TooLong) => y.(out := y.out + [Output(src, "ERR line")], log := y.log + [Overrun(src)])
    case Some(Line(text)) =>
      var r := Execute(y.core, text, env);
      y.(core := r.s, out := y.out + Said(src, r.reply), log := y.log + [Ran(src, text, env)])
  }

  /** One byte taken from a stream by `pollStream`. */
  function TakeByte(y: Sys, src: Source, c: char, env: Env): (r: Sys)
    requires Framed(y)
    ensures Framed(r)
  {
    var f := Feed(Buffer(y, src), c);
    var y := y.(rx := y.rx + [(src, c)]);
    Deliver(WithBuffer(y, src, f.buffer), src, f.frame, env)
  }

  function Greeting(s: State): (r: seq<string>) {
    [IDENTITY, if s.sim.armed then "OK ARMED" else "OK DISARMED"]
  }

  function Accept(y: Sys): (r: Sys) {
    var g := Greeting(y.core);
    var dst := Tcp(y.accepted);
    y.(client := Some(y.accepted), accepted := y.accepted + 1, net := "",
       out := y.out + [Output(dst, g[0]), Output(dst, g[1])])
  }

  function Step(y: Sys, a: Action): (r: Sys)
    requires Framed(y)
    ensures Framed(r)
  {
    match a
    case BeginLoop(env) => y.(core := Check(y.core, env), log := y.log + [Checked(env)])
    case AcceptClient => Accept(y)
    case DropClient => y.(client := None)
    case NetByte(c, env) => if y.client.Some? then TakeByte(y, Tcp(y.client.value), c, env) else y
    case UartByte(c, env) => TakeByte(y, Uart, c, env)
    case HostRequest(w) => y.(core := HostWrite(y.core, w), log := y.log + [HostSet(w)])
    case EndLoop(env) => y.(core := Publish(y.core, env), log := y.log + [Published(env)])
  }

  function Run(y: Sys, actions: seq<Action>): (r: Sys)
    requires Framed(y)
    ensures Framed(r)
  {
    if actions == [] then y else Step(Run(y, actions[..|actions| - 1]), actions[|actions| - 1])
  }

  lemma {:induction false} RunAppend(y: Sys, a: seq<Action>, b: seq<Action>)
    requires Framed(y)
    ensures Run(y, a + b) == Run(Run(y, a), b)
  {
    if b == [] {
      assert a + b == a;
    } else {
      RunAppend(y, a, b[..|b| - 1]);
      assert (a + b)[..|a + b| - 1] == a + b[..|b| - 1];
    }
  }

  lemma RunOne(y: Sys, a: Action)
    requires Framed(y)
    ensures Run(y, [a]) == Step(y, a)
  {
    assert [a][..0] == [];
    assert Run(y, []) == y;
  }

  // ------------------------------------------------------------ replay

  /** What an event does to the control state. */
  function React(s: State, e: Event): (r: State) {
    match e
    case Checked(env) => Check(s, env)
    case Ran(_, text, env) => Execute(s, text, env).s
    case Overrun(_) => s
    case Published(env) => Publish(s, env)
    case HostSet(w) => HostWrite(s, w)
  }

  function Replay(s: State, events: seq<Event>): (r: State) {
    if events == [] then s else React(Replay(s, events[..|events| - 1]), events[|events| - 1])
  }

  /** The events an action adds to the log: at most one. */
  function Added(y: Sys, a: Action): (e: Option<Event>)
    requires Framed(y)
  {
    match a
    case BeginLoop(env) => Some(Checked(env))
    case AcceptClient => None
    case DropClient => None
    case NetByte(c, env) => if y.client.Some? then ByteEvent(y, Tcp(y.client.value), c, env) else None
    case UartByte(c, env) => ByteEvent(y, Uart, c, env)
    case HostRequest(w) => Some(HostSet(w))
    case EndLoop(env) => Some(Published(env))
  }

  function ByteEvent(y: Sys, src: Source, c: char, env: Env): (r: Option<Event>)
    requires Framed(y)
  {
    match Feed(Buffer(y, src), c).frame
    case None => None
    case Some(TooLong) => Some(Overrun(src))
    case Some(Line(text)) => Some(Ran(src, text, env))
  }

  /** The control state changes only through logged events. */
  lemma StepIsReact(y: Sys, a: Action)
    requires Framed(y)
    ensures Added(y, a).None? ==> Step(y, a).core == y.core && Step(y, a).log == y.log
    ensures Added(y, a).Some? ==> Step(y, a).core == React(y.core, Added(y, a).value)
                                  && Step(y, a).log == y.log + [Added(y, a).value]
  {}

  lemma ReplaySnoc(s: State, events: seq<Event>, e: Event)
    ensures Replay(s, events + [e]) == React(Replay(s, events), e)
  {
    assert (events + [e])[..|events + [e]| - 1] == events;
  }

  /** The control state of any run is the replay of its event log: nothing else
      about the streams, the buffers or the connections matters. */
  lemma {:induction false} CoreIsReplay(s: State, y: Sys, actions: seq<Action>)
    requires Framed(y) && y.core == Replay(s, y.log)
    ensures Run(y, actions).core == Replay(s, Run(y, actions).log)
  {
    if actions == [] {
    } else {
      CoreIsReplay(s, y, actions[..|actions| - 1]);
      var z, a := Run(y, actions[..|actions| - 1]), actions[|actions| - 1];
      StepIsReact(z, a);
      if Added(z, a).Some? { ReplaySnoc(s, z.log, Added(z, a).value); }
    }
  }

  // ------------------------------------------------------------ one loop

  /** What happens while a stream is polled: a byte, or an interrupt. */
  datatype Arrival = Byte(c: char, env: Env) | Interrupt(request: Registry.SetReport)

  function ActionOf(net: bool, a: Arrival): (r: Action) {
    match a
    case Byte(c, env) => if net then NetByte(c, env) else UartByte(c, env)
    case Interrupt(w) => HostRequest(w)
  }

  function Arrivals(net: bool, input: seq<Arrival>): (r: seq<Action>)
    ensures |r| == |input|
  {
    seq(|input|, i requires 0 <= i < |input| => ActionOf(net, input[i]))
  }

  /** The surroundings of one iteration of `loop`: whether a new connection is
      waiting, the two answers of `connected()`, and what the streams deliver. */
  datatype LoopInput = LoopInput(
    begin: Env, candidate: bool, stillUp: bool, up: bool,
    net: seq<Arrival>, uart: seq<Arrival>, end: Env)

  function ConnectionActions(client: Option<nat>, input: LoopInput): (r: seq<Action>) {
    if input.candidate then [AcceptClient]
    else if client.Some? && !input.stillUp then [DropClient]
    else []
  }

  predicate HasClient(client: Option<nat>, input: LoopInput) {
    input.candidate || (client.Some? && input.stillUp)
  }

  /** The actions of one iteration of `loop`, given the client it starts with. */
  function LoopActions(client: Option<nat>, input: LoopInput): (r: seq<Action>) {
    [BeginLoop(input.begin)] + ConnectionActions(client, input)
    + NetActions(client, input) + Arrivals(false, input.uart) + [EndLoop(input.end)]
  }

  function Loop(y: Sys, input: LoopInput): (r: Sys)
    requires Framed(y)
    ensures Framed(r)
  {
    Run(y, LoopActions(y.client, input))
  }

  function NetActions(client: Option<nat>, input: LoopInput): (r: seq<Action>) {
    if HasClient(client, input) && input.up then Arrivals(true, input.net) else []
  }

  /** `loop`, phase by phase. */
  lemma LoopPhases(y: Sys, input: LoopInput)
    requires Framed(y)
    ensures var y1 := Step(y, BeginLoop(input.begin));
            var y2 := Run(y1, ConnectionActions(y.client, input));
            var y3 := Run(y2, NetActions(y.client, input));
            var y4 := Run(y3, Arrivals(false, input.uart));
            Loop(y, input) == Step(y4, EndLoop(input.end))
  {
    var a1 := [BeginLoop(input.begin)];
    var a2 := a1 + ConnectionActions(y.client, input);
    var a3 := a2 + NetActions(y.client, input);
    var a4 := a3 + Arrivals(false, input.uart);
    RunOne(y, a1[0]);
    RunAppend(y, a1, ConnectionActions(y.client, input));
    RunAppend(y, a2, NetActions(y.client, input));
    RunAppend(y, a3, Arrivals(false, input.uart));
    RunAppend(y, a4, [EndLoop(input.end)]);
    RunOne(Run(y, a4), EndLoop(input.end));
  }

  function PowerUp(net: Network, env: Env): (r: Sys)
    ensures Framed(r)
  {
    Sys(Setup(net, env), None, 0, "", "", [], [], [])
  }
}
