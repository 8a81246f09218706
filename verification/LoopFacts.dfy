/** One iteration of `loop` as its surroundings see it: who is connected afterwards, what
    a new client hears first, whose bytes are read, in which order. */
module LoopFacts {
  import opened Ascii
  import opened Control
  import opened Framing
  import opened System
  import opened Provenance
  import Registry
  import Switching

  // ---------------------------------------------------------------- what arrives

  /** The bytes among the arrivals of a stream. */
  function CharsOf(input: seq<Arrival>): (r: string) {
    if input == [] then ""
    else
      var a := input[|input| - 1];
      CharsOf(input[..|input| - 1]) + if a.Byte? then [a.c] else ""
  }

  /** Bytes with the source they come from. */
  function Tagged(src: Source, text: string): (r: seq<(Source, char)>)
    ensures |r| == |text| && forall i :: 0 <= i < |r| ==> r[i] == (src, text[i])
  {
    seq(|text|, i requires 0 <= i < |text| => (src, text[i]))
  }

  lemma TaggedNext(src: Source, text: string, c: char)
    ensures Tagged(src, text + [c]) == Tagged(src, text) + [(src, c)]
  {}

  /** Only what one source sends has been read, and nothing else has happened to
      connections, to the other buffer or to what others hear. */
  ghost predicate Polled(y: Sys, z: Sys, src: Source, text: string)
    requires Framed(y)
  {
    && z.client == y.client && z.accepted == y.accepted
    && z.rx == y.rx + Tagged(src, text)
    && Buffer(z, src) == FeedAll(Buffer(y, src), text).0
    && (src.Uart? ==> z.net == y.net) && (!src.Uart? ==> z.uart == y.uart)
    && (forall dst :: dst != src ==> TextsTo(z.out, dst) == TextsTo(y.out, dst))
    && y.log <= z.log && y.out <= z.out
  }

  lemma NothingPolled(y: Sys, src: Source)
    requires Framed(y)
    ensures Polled(y, y, src, "")
  {
    assert y.rx + Tagged(src, "") == y.rx;
  }

  lemma FeedAllNext(buffer: string, text: string, c: char)
    requires |buffer| < CAPACITY
    ensures FeedAll(buffer, text + [c]).0 == Feed(FeedAll(buffer, text).0, c).buffer
  {
    FeedAllChunks(buffer, text, [c]);
    FeedAllOne(FeedAll(buffer, text).0, c);
  }

  lemma ByteTaken(z: Sys, src: Source, c: char, env: Env)
    requires Framed(z)
    ensures var x := TakeByte(z, src, c, env);
            && x.client == z.client && x.accepted == z.accepted && x.rx == z.rx + [(src, c)]
            && Buffer(x, src) == Feed(Buffer(z, src), c).buffer
            && (src.Uart? ==> x.net == z.net) && (!src.Uart? ==> x.uart == z.uart)
            && z.log <= x.log && z.out <= x.out
  {}

  lemma OneMoreByte(y: Sys, z: Sys, src: Source, text: string, c: char, env: Env)
    requires Framed(y) && Framed(z) && Polled(y, z, src, text)
    ensures Polled(y, TakeByte(z, src, c, env), src, text + [c])
  {
    ByteTaken(z, src, c, env);
    TaggedNext(src, text, c);
    FeedAllNext(Buffer(y, src), text, c);
    forall dst | dst != src ensures TextsTo(TakeByte(z, src, c, env).out, dst) == TextsTo(y.out, dst) {
      RepliesStayHome(z, src, c, env, dst);
    }
  }

  lemma OneRequest(y: Sys, z: Sys, src: Source, text: string, w: Registry.SetReport)
    requires Framed(y) && Framed(z) && Polled(y, z, src, text)
    ensures Polled(y, Step(z, HostRequest(w)), src, text)
  {}

  /** The stream that is polled: the current client's, or the UART. */
  predicate IsStream(y: Sys, net: bool, src: Source) {
    if net then y.client.Some? && src == Tcp(y.client.value) else src == Uart
  }

  lemma ByteStep(z: Sys, net: bool, src: Source, c: char, env: Env)
    requires Framed(z) && IsStream(z, net, src)
    ensures Step(z, ActionOf(net, Arrival.Byte(c, env))) == TakeByte(z, src, c, env)
  {}

  lemma OneMoreArrival(y: Sys, z: Sys, net: bool, src: Source, text: string, a: Arrival)
    requires Framed(y) && Framed(z) && IsStream(z, net, src) && Polled(y, z, src, text)
    ensures Polled(y, Step(z, ActionOf(net, a)), src, text + if a.Byte? then [a.c] else "")
  {
    match a
    case Byte(c, env) =>
      ByteStep(z, net, src, c, env);
      OneMoreByte(y, z, src, text, c, env);
    case Interrupt(w) =>
      assert text + "" == text;
      OneRequest(y, z, src, text, w);
  }

  lemma ArrivalsNext(y: Sys, net: bool, input: seq<Arrival>)
    requires Framed(y) && input != []
    ensures var init, a := input[..|input| - 1], input[|input| - 1];
            Run(y, Arrivals(net, input)) == Step(Run(y, Arrivals(net, init)), ActionOf(net, a))
  {
    assert Arrivals(net, input)[..|input| - 1] == Arrivals(net, input[..|input| - 1]);
  }

  lemma {:induction false} StreamPolled(y: Sys, net: bool, input: seq<Arrival>, src: Source)
    requires Framed(y) && IsStream(y, net, src)
    ensures Polled(y, Run(y, Arrivals(net, input)), src, CharsOf(input))
  {
    if input == [] {
      assert Arrivals(net, input) == [];
      NothingPolled(y, src);
    } else {
      var init, a := input[..|input| - 1], input[|input| - 1];
      StreamPolled(y, net, init, src);
      ArrivalsNext(y, net, input);
      OneMoreArrival(y, Run(y, Arrivals(net, init)), net, src, CharsOf(init), a);
    }
  }

  // ---------------------------------------------------------------- connections

  /** A waiting connection is taken, whoever is connected. */
  ghost predicate TakenOver(y: Sys, z: Sys) {
    && z.client == Some(y.accepted) && z.accepted == y.accepted + 1 && z.net == ""
    && TextsTo(z.out, Tcp(y.accepted)) == TextsTo(y.out, Tcp(y.accepted))
                                          + ["OK NutUPS HID Simulator v2", if y.core.sim.armed then "OK ARMED" else "OK DISARMED"]
    && (forall dst :: dst != Tcp(y.accepted) ==> TextsTo(z.out, dst) == TextsTo(y.out, dst))
    && z.core == y.core && z.uart == y.uart && z.rx == y.rx && z.log == y.log
  }

  lemma AcceptTakes(y: Sys)
    requires Framed(y)
    ensures TakenOver(y, Step(y, AcceptClient))
  {
    var g := Greeting(y.core);
    var dst := Tcp(y.accepted);
    var one := y.out + [Output(dst, g[0])];
    assert y.out + [Output(dst, g[0]), Output(dst, g[1])] == one + [Output(dst, g[1])];
    forall d ensures TextsTo(Step(y, AcceptClient).out, d) == TextsTo(y.out, d) + if d == dst then g else [] {
      TextsSnoc(y.out, Output(dst, g[0]), d);
      TextsSnoc(one, Output(dst, g[1]), d);
      if d == dst { assert (TextsTo(y.out, d) + [g[0]]) + [g[1]] == TextsTo(y.out, d) + g; }
    }
  }

  /** Without one, the client stays exactly if it is still up. */
  ghost predicate KeptOrDropped(y: Sys, z: Sys, stillUp: bool) {
    z == y.(client := if y.client.Some? && stillUp then y.client else None)
  }

  lemma ConnectionPhase(y: Sys, input: LoopInput)
    requires Framed(y)
    ensures var z := Run(y, ConnectionActions(y.client, input));
            if input.candidate then TakenOver(y, z) else KeptOrDropped(y, z, input.stillUp)
  {
    if input.candidate {
      RunOne(y, AcceptClient);
      AcceptTakes(y);
    } else if y.client.Some? && !input.stillUp {
      RunOne(y, DropClient);
    }
  }

  // ---------------------------------------------------------------- the iteration

  /** Who is connected after an iteration: a waiting connection in any case, and
      otherwise the client there was, as long as it is still up. */
  function ClientAfter(y: Sys, input: LoopInput): (r: Option<nat>) {
    if input.candidate then Some(y.accepted) else if y.client.Some? && input.stillUp then y.client else None
  }

  /** What is read from it. */
  function NetText(y: Sys, input: LoopInput): (r: string) {
    if ClientAfter(y, input).Some? && input.up then CharsOf(input.net) else ""
  }

  function NetBytes(y: Sys, input: LoopInput): (r: seq<(Source, char)>) {
    if ClientAfter(y, input).Some? then Tagged(Tcp(ClientAfter(y, input).value), NetText(y, input)) else []
  }

  /** What a new client is told first. */
  function Welcome(armed: bool): (r: seq<string>) {
    ["OK NutUPS HID Simulator v2", if armed then "OK ARMED" else "OK DISARMED"]
  }

  /** The state behind the connection phase. */
  ghost predicate Connected(y: Sys, z: Sys, input: LoopInput) {
    && z.client == ClientAfter(y, input) && z.accepted == (if input.candidate then y.accepted + 1 else y.accepted)
    && z.rx == y.rx && z.uart == y.uart && z.net == (if input.candidate then "" else y.net)
    && z.log == y.log + [Checked(input.begin)]
    && (input.candidate ==>
          TextsTo(z.out, Tcp(y.accepted)) == TextsTo(y.out, Tcp(y.accepted))
                                             + Welcome(y.core.sim.armed && !Switching.Expires(y.core, input.begin)))
    && (forall dst :: (input.candidate && dst == Tcp(y.accepted)) || TextsTo(z.out, dst) == TextsTo(y.out, dst))
  }

  lemma CheckPhase(y: Sys, env: Env)
    requires Framed(y)
    ensures var z := Step(y, BeginLoop(env));
            && z.client == y.client && z.accepted == y.accepted && z.net == y.net && z.uart == y.uart
            && z.out == y.out && z.rx == y.rx && z.log == y.log + [Checked(env)]
            && z.core.sim.armed == (y.core.sim.armed && !Switching.Expires(y.core, env))
  {
    Switching.SwitchesExactly(y.core, Checked(env));
  }

  lemma FirstPhases(y: Sys, input: LoopInput)
    requires Framed(y)
    ensures Connected(y, Run(Step(y, BeginLoop(input.begin)), ConnectionActions(y.client, input)), input)
  {
    CheckPhase(y, input.begin);
    ConnectionPhase(Step(y, BeginLoop(input.begin)), input);
  }

  lemma NetPhase(y: Sys, y2: Sys, input: LoopInput)
    requires Framed(y) && Framed(y2) && y2.client == ClientAfter(y, input)
    ensures var z := Run(y2, NetActions(y.client, input));
            && z.client == y2.client && z.accepted == y2.accepted && z.uart == y2.uart
            && z.rx == y2.rx + NetBytes(y, input) && z.net == FeedAll(y2.net, NetText(y, input)).0
            && y2.log <= z.log && y2.out <= z.out
            && (forall dst :: (y2.client.Some? && dst == Tcp(y2.client.value)) || TextsTo(z.out, dst) == TextsTo(y2.out, dst))
  {
    if ClientAfter(y, input).Some? && input.up {
      StreamPolled(y2, true, input.net, Tcp(y2.client.value));
    } else {
      assert y2.rx + NetBytes(y, input) == y2.rx;
    }
  }

  lemma TextsGrow(a: seq<Output>, b: seq<Output>, dst: Source)
    requires a <= b
    ensures TextsTo(a, dst) <= TextsTo(b, dst)
    decreases |b|
  {
    if a != b {
      assert a <= b[..|b| - 1];
      TextsGrow(a, b[..|b| - 1], dst);
    }
  }

  /** What an iteration does to connections, streams and histories. */
  ghost predicate Iterated(y: Sys, z: Sys, input: LoopInput)
    requires Framed(y)
  {
    && z.client == ClientAfter(y, input) && z.accepted == (if input.candidate then y.accepted + 1 else y.accepted)
    && z.rx == y.rx + NetBytes(y, input) + Tagged(Uart, CharsOf(input.uart))
    && z.net == FeedAll(if input.candidate then "" else y.net, NetText(y, input)).0
    && z.uart == FeedAll(y.uart, CharsOf(input.uart)).0
    && y.log + [Checked(input.begin)] <= z.log && z.log[|z.log| - 1] == Published(input.end)
    && (input.candidate ==>
          TextsTo(y.out, Tcp(y.accepted)) + Welcome(y.core.sim.armed && !Switching.Expires(y.core, input.begin))
          <= TextsTo(z.out, Tcp(y.accepted)))
    && (forall dst :: dst == Uart || (z.client.Some? && dst == Tcp(z.client.value))
                      || TextsTo(z.out, dst) == TextsTo(y.out, dst))
  }

  lemma LastPhases(y: Sys, y2: Sys, input: LoopInput)
    requires Framed(y) && Framed(y2) && Connected(y, y2, input)
    ensures var y3 := Run(y2, NetActions(y.client, input));
            var y4 := Run(y3, Arrivals(false, input.uart));
            Iterated(y, Step(y4, EndLoop(input.end)), input)
  {
    var y3 := Run(y2, NetActions(y.client, input));
    var y4 := Run(y3, Arrivals(false, input.uart));
    NetPhase(y, y2, input);
    StreamPolled(y3, false, input.uart, Uart);
    TextsGrow(y2.out, y4.out, Tcp(y.accepted));
    EndPhase(y4, input.end);
  }

  lemma EndPhase(y4: Sys, env: Env)
    requires Framed(y4)
    ensures var z := Step(y4, EndLoop(env));
            && z.client == y4.client && z.accepted == y4.accepted && z.net == y4.net && z.uart == y4.uart
            && z.out == y4.out && z.rx == y4.rx && z.log == y4.log + [Published(env)]
  {}

  /** One iteration of `loop`, for any surroundings. A waiting connection takes over
      whoever is connected, with an empty line buffer, and hears the identity and the
      arming as the lease check left it before anything else; without one the client
      stays exactly if it is still up. The bytes read are those of the client that is
      then there and up, followed by those of the UART, each going into its own line
      buffer. The check comes first and the publishing last, and nobody else hears
      anything. */
  lemma LoopExactly(y: Sys, input: LoopInput)
    requires Framed(y)
    ensures Iterated(y, System.Loop(y, input), input)
  {
    LoopPhases(y, input);
    FirstPhases(y, input);
    LastPhases(y, Run(Step(y, BeginLoop(input.begin)), ConnectionActions(y.client, input)), input);
  }

  lemma BytesAppend(a: seq<(Source, char)>, b: seq<(Source, char)>, src: Source)
    ensures BytesOf(a + b, src) == BytesOf(a, src) + BytesOf(b, src)
    decreases |b|
  {
    if b == [] {
      assert a + b == a;
    } else {
      assert (a + b)[..|a + b| - 1] == a + b[..|b| - 1];
      BytesAppend(a, b[..|b| - 1], src);
    }
  }

  lemma {:induction false} BytesTagged(from: Source, text: string, src: Source)
    ensures BytesOf(Tagged(from, text), src) == if from == src then text else ""
  {
    if text == "" {
    } else {
      var init, c := text[..|text| - 1], text[|text| - 1];
      BytesTagged(from, init, src);
      assert text == init + [c];
      TaggedNext(from, init, c);
      BytesSnoc(Tagged(from, init), from, c, src);
    }
  }

  /** After a takeover no byte is credited to the old client any more, and it hears
      nothing. */
  lemma OldClientIsGone(y: Sys, input: LoopInput, former: nat)
    requires Framed(y) && input.candidate && former < y.accepted
    ensures var z := System.Loop(y, input);
            BytesOf(z.rx, Tcp(former)) == BytesOf(y.rx, Tcp(former)) && TextsTo(z.out, Tcp(former)) == TextsTo(y.out, Tcp(former))
  {
    LoopExactly(y, input);
    BytesAppend(y.rx + NetBytes(y, input), Tagged(Uart, CharsOf(input.uart)), Tcp(former));
    BytesAppend(y.rx, NetBytes(y, input), Tcp(former));
    BytesTagged(Uart, CharsOf(input.uart), Tcp(former));
    BytesTagged(Tcp(y.accepted), NetText(y, input), Tcp(former));
  }
}
