/** The sketch itself: line buffers that are filled in place, `pollStream`, and
    `loop`, proved to perform the actions of System.dfy. */
module Sketch {
  import opened Ascii
  import opened Control
  import opened Framing
  import opened System
  import Firmware
  import Lease
  import Provenance
  import ReportLog
  import Safety

  class LineBuffer {
    const data: array<char>
    var length: nat

    ghost predicate Valid()
      reads this
    {
      data.Length == CAPACITY && length < CAPACITY
    }

    ghost function Text(): (r: string)
      requires Valid()
      reads this, data
    {
      data[..length]
    }

    constructor ()
      ensures Valid() && fresh(data) && Text() == ""
    {
      data := new char[CAPACITY];
      length := 0;
    }
  }

  lemma {:induction false} CStringOfBuffer(buffer: string, text: string, p: nat)
    requires p <= |text| < |buffer| && buffer[..|text|] == text && buffer[|text|] == '\0'
    ensures CStringAt(buffer, p) == CStringAt(text, p)
    ensures p + |CStringAt(buffer, p)| < |buffer|
    decreases |text| - p
  {
    if p < |text| {
      assert buffer[p] == buffer[..|text|][p];
      CStringOfBuffer(buffer, text, p + 1);
    }
  }

  class Sketch {
    const control: Firmware.Controller
    const netLine: LineBuffer
    const uartLine: LineBuffer
    var controlClient: Option<nat>
    var accepted: nat
    var out: seq<Output>
    ghost var log: seq<Event>
    ghost var rx: seq<(Source, char)>
    /** Every lease check so far came at most `Lease.MAX_GAP` after the one before. */
    ghost var punctual: bool

    /** The two line buffers are separate, and their indices within bounds. */
    ghost predicate Wired()
      reads this, netLine, uartLine
    {
      && netLine != uartLine && netLine.data != uartLine.data
      && netLine.Valid() && uartLine.Valid()
    }

    ghost function Sys(): (y: Sys)
      requires Wired()
      reads this, control, netLine, netLine.data, uartLine, uartLine.data
      ensures Framed(y)
    {
      System.Sys.Sys(control.State(), controlClient, accepted, netLine.Text(), uartLine.Text(), out, log, rx)
    }

    /** What holds between iterations of `loop`. */
    ghost predicate Valid()
      reads this, control, netLine, netLine.data, uartLine, uartLine.data
    {
      Wired() && Invariant(Sys(), punctual)
    }

    constructor (network: Network, env: Env)
      ensures Valid() && punctual && Sys() == PowerUp(network, env) && Safety.Safe(control.State())
      ensures fresh(control) && fresh(netLine) && fresh(netLine.data) && fresh(uartLine) && fresh(uartLine.data)
    {
      control := new Firmware.Controller(network);
      netLine := new LineBuffer();
      uartLine := new LineBuffer();
      controlClient, accepted, out, log, rx, punctual := None, 0, [], [], [], true;
      new;
      control.Setup(env);
      StartsInvariant(network, env);
    }

    /** Terminate the buffer and hand it to the command parser. */
    method RunLine(line: LineBuffer, env: Env) returns (reply: Option<string>)
      requires Wired() && (line == uartLine || line == netLine)
      modifies control, line, line.data
      ensures Wired() && line.length == 0
      ensures var r := Execute(old(control.State()), old(line.Text()), env);
              control.State() == r.s && reply == r.reply
    {
      ghost var text := line.Text();
      line.data[line.length] := '\0';
      CStringOfBuffer(line.data[..], text, 0);
      reply := control.HandleCommand(line.data, env);
      line.length := 0;
    }

    /** The line-feed branch of `pollStream`. */
    method HandleLine(src: Source, line: LineBuffer, env: Env)
      requires Wired() && line == if src.Uart? then uartLine else netLine
      modifies this`out, this`log, control, line, line.data
      ensures Wired() && Sys() == Deliver(WithBuffer(old(Sys()), src, ""), src, Some(Line(old(line.Text()))), env)
    {
      ghost var text := line.Text();
      var reply := RunLine(line, env);
      if reply.Some? { out := out + [Output(src, reply.value)]; }
      log := log + [Ran(src, text, env)];
    }

    /** One pass of the loop in `pollStream` that reads the byte `c`. */
    method HandleByte(src: Source, line: LineBuffer, c: char, env: Env)
      requires Wired() && line == if src.Uart? then uartLine else netLine
      modifies this`out, this`log, this`rx, control, line, line.data
      ensures Wired() && Sys() == TakeByte(old(Sys()), src, c, env)
    {
      rx := rx + [(src, c)];
      if c == '\r' { return; }
      if c == '\n' {
        HandleLine(src, line, env);
        return;
      }
      if line.length + 1 < CAPACITY {
        line.data[line.length] := c;
        line.length := line.length + 1;
        assert line.Text() == old(line.Text()) + [c];
      } else {
        line.length := 0;
        out := out + [Output(src, "ERR line")];
        log := log + [Overrun(src)];
      }
    }

    /** A byte of the polled stream, or an interrupt that comes in between. */
    method HandleArrival(src: Source, line: LineBuffer, a: Arrival)
      requires Wired() && line == if src.Uart? then uartLine else netLine
      requires src.Tcp? ==> controlClient == Some(src.connection)
      modifies this`out, this`log, this`rx, control, line, line.data
      ensures Wired() && Sys() == Step(old(Sys()), ActionOf(src.Tcp?, a))
    {
      match a {
        case Byte(c, env) => HandleByte(src, line, c, env);
        case Interrupt(w) => HandleInterrupt(w);
      }
    }

    method HandleInterrupt(w: Registry.SetReport)
      requires Wired()
      modifies this`log, control
      ensures Wired() && Sys() == Step(old(Sys()), HostRequest(w))
    {
      control.HostRequest(w);
      log := log + [HostSet(w)];
    }

    /** `pollStream`, with the interrupts that happen while it runs. */
    method PollStream(src: Source, line: LineBuffer, input: seq<Arrival>)
      requires Wired() && line == if src.Uart? then uartLine else netLine
      requires src.Tcp? ==> controlClient == Some(src.connection)
      modifies this`out, this`log, this`rx, control, line, line.data
      ensures Wired() && Sys() == Run(old(Sys()), Arrivals(src.Tcp?, input))
    {
      ghost var actions := Arrivals(src.Tcp?, input);
      for i := 0 to |input|
        invariant Wired() && Sys() == Run(old(Sys()), actions[..i])
      {
        HandleArrival(src, line, input[i]);
        assert actions[..i + 1][..i] == actions[..i];
      }
      assert actions[..|input|] == actions;
    }

    method AcceptController()
      requires Wired()
      modifies this`controlClient, this`accepted, this`out, netLine
      ensures Wired() && Sys() == Accept(old(Sys()))
    {
      var dst := Tcp(accepted);
      controlClient := Some(accepted);
      accepted := accepted + 1;
      netLine.length := 0;
      out := out + [Output(dst, IDENTITY)];
      out := out + [Output(dst, if control.sim.armed then "OK ARMED" else "OK DISARMED")];
    }

    /** The connection handling in the middle of `loop`. */
    method ManageConnection(input: LoopInput)
      requires Wired()
      modifies this`controlClient, this`accepted, this`out, netLine
      ensures Wired() && Sys() == Run(old(Sys()), ConnectionActions(old(controlClient), input))
      ensures controlClient.Some? == HasClient(old(controlClient), input)
    {
      ghost var start := Sys();
      if input.candidate {
        AcceptController();
        RunOne(start, AcceptClient);
      } else if controlClient.Some? && !input.stillUp {
        controlClient := None;
        RunOne(start, DropClient);
      }
    }

    method BeginIteration(env: Env)
      requires Wired()
      modifies this`log, control
      ensures Wired() && Sys() == Step(old(Sys()), BeginLoop(env))
    {
      control.CheckLease(env);
      log := log + [Checked(env)];
    }

    method EndIteration(env: Env)
      requires Wired()
      modifies this`log, control
      ensures Wired() && Sys() == Step(old(Sys()), EndLoop(env))
    {
      control.Publish(env);
      log := log + [Published(env)];
    }

    method PollController(input: LoopInput, ghost client: Option<nat>)
      requires Wired() && controlClient.Some? == HasClient(client, input)
      modifies this`out, this`log, this`rx, control, netLine, netLine.data
      ensures Wired() && Sys() == Run(old(Sys()), NetActions(client, input))
    {
      if controlClient.Some? && input.up {
        PollStream(Tcp(controlClient.value), netLine, input.net);
      }
    }

    /** The phases of `loop`, with the surroundings they run in. */
    method RunPhases(input: LoopInput)
      requires Wired()
      modifies this`out, this`log, this`rx, this`controlClient, this`accepted, control,
               netLine, netLine.data, uartLine, uartLine.data
      ensures Wired() && Sys() == System.Loop(old(Sys()), input)
    {
      ghost var client := controlClient;
      LoopPhases(Sys(), input);
      BeginIteration(input.begin);
      ManageConnection(input);
      PollController(input, client);
      PollStream(Uart, uartLine, input.uart);
      EndIteration(input.end);
    }

    /** `loop`. From any state an earlier iteration can leave behind, for any
        surroundings: every invariant still holds, a disarmed device is safe, and a
        triple the host does not have means that the last attempt failed. */
    method Loop(input: LoopInput)
      requires Valid()
      modifies this, control, netLine, netLine.data, uartLine, uartLine.data
      ensures Valid() && Sys() == System.Loop(old(Sys()), input)
      ensures punctual == (old(punctual) && Lease.GapOk(old(Sys()).core, input.begin))
      ensures !Sys().core.sim.armed ==> Safety.Safe(Sys().core)
      ensures Retrying(Sys().core)
    {
      KeepsLoop(Sys(), input, punctual);
      punctual := punctual && Lease.GapOk(Sys().core, input.begin);
      RunPhases(input);
    }
  }

  /** A disarmed device is safe, the snapshot is what the host last received in
      full, every command so far is made of one source's bytes, and, as long as the
      loop is punctual, the lease arithmetic on the wrapping clock is exact. */
  ghost predicate Invariant(y: Sys, punctual: bool) {
    && Safety.SafeUnlessArmed(y.core) && ReportLog.SnapshotMatches(y.core) && Provenance.Separated(y)
    && (punctual ==> Lease.LeaseInv(y.core))
  }

  /** A triple that differs from the snapshot comes with a failed attempt. */
  predicate Retrying(s: State) { Changed(s) ==> s.tx != [] && !s.tx[|s.tx| - 1].complete }

  lemma StartsInvariant(net: Network, env: Env)
    ensures Invariant(PowerUp(net, env), true) && Safety.Safe(PowerUp(net, env).core)
  {
    Safety.SafeStateIsSafe(PowerOn(net), env);
    ReportLog.CommitKeepsSnapshot(SafeState(PowerOn(net)), env);
    Lease.StartsWithLease(net, env);
    Provenance.StartsSeparated(net, env);
  }

  /** What one iteration keeps, from the facts about runs. */
  lemma KeepsLoop(y: Sys, input: LoopInput, punctual: bool)
    requires Framed(y) && Invariant(y, punctual)
    ensures var z := System.Loop(y, input);
            && Invariant(z, punctual && Lease.GapOk(y.core, input.begin)) && Retrying(z.core)
            && (!z.core.sim.armed ==> Safety.Safe(z.core))
  {
    var actions := LoopActions(y.client, input);
    Safety.DisarmedIsSafe(y, actions);
    Provenance.RunKeepsSeparated(y, actions);
    ReportLog.LoopDelivers(y, input);
    if punctual && Lease.GapOk(y.core, input.begin) {
      Lease.OneLoopGap(y, input);
      Lease.RunKeepsLease(y, actions);
    }
  }

  // ---------------------------------------------------------------- the program

  function Loops(y: Sys, inputs: seq<LoopInput>): (r: Sys)
    requires Framed(y)
    ensures Framed(r)
  {
    if inputs == [] then y else System.Loop(Loops(y, inputs[..|inputs| - 1]), inputs[|inputs| - 1])
  }

  lemma LoopsNext(y: Sys, inputs: seq<LoopInput>, i: nat)
    requires Framed(y) && i < |inputs|
    ensures Loops(y, inputs[..i + 1]) == System.Loop(Loops(y, inputs[..i]), inputs[i])
  {
    assert inputs[..i + 1][..i] == inputs[..i];
  }

  /** `loop`, as often as there is input for it. */
  method RunLoops(s: Sketch, inputs: seq<LoopInput>)
    requires s.Valid()
    modifies s, s.control, s.netLine, s.netLine.data, s.uartLine, s.uartLine.data
    ensures s.Valid() && s.Sys() == Loops(old(s.Sys()), inputs)
  {
    ghost var y := s.Sys();
    var i := 0;
    while i < |inputs|
      invariant 0 <= i <= |inputs| && s.Valid() && s.Sys() == Loops(y, inputs[..i])
    {
      LoopsNext(y, inputs, i);
      s.Loop(inputs[i]);
      i := i + 1;
    }
    assert inputs[..i] == inputs;
  }

  /** The whole program: power-up, and then `loop` again and again. The sketch it leaves
      behind satisfies every invariant; a disarmed one is safe. */
  method PowerUpAndLoop(network: Network, start: Env, inputs: seq<LoopInput>) returns (s: Sketch)
    ensures fresh(s) && s.Valid() && s.Sys() == Loops(PowerUp(network, start), inputs)
  {
    s := new Sketch(network, start);
    RunLoops(s, inputs);
  }
}
