/** No splicing: every executed command is built from the bytes of one source. */
module Provenance {
  import opened Ascii
  import opened Control
  import opened Framing
  import opened System

  /** The bytes taken from one source, in order. */
  function BytesOf(rx: seq<(Source, char)>, src: Source): (r: string) {
    if rx == [] then ""
    else
      var e := rx[|rx| - 1];
      BytesOf(rx[..|rx| - 1], src) + if e.0 == src then [e.1] else ""
  }

  function FrameOf(e: Event, src: Source): (r: seq<Frame>) {
    if e.Ran? && e.src == src then [Line(e.text)]
    else if e.Overrun? && e.src == src then [TooLong]
    else []
  }

  /** The lines and overruns credited to one source, in order. */
  function FramesOf(log: seq<Event>, src: Source): (r: seq<Frame>) {
    if log == [] then [] else FramesOf(log[..|log| - 1], src) + FrameOf(log[|log| - 1], src)
  }

  /** What one source sent explains its lines and what is left in its buffer. */
  ghost predicate Explained(y: Sys, src: Source) {
    FramesOf(y.log, src) == Frames(BytesOf(y.rx, src))
  }

  ghost predicate Separated(y: Sys) {
    && (forall src :: Explained(y, src))
    && y.uart == Pending(BytesOf(y.rx, Uart))
    && (y.client.Some? ==> y.client.value < y.accepted
                           && y.net == Pending(BytesOf(y.rx, Tcp(y.client.value))))
    && (forall c: nat :: c >= y.accepted ==> BytesOf(y.rx, Tcp(c)) == "")
  }

  lemma BytesSnoc(rx: seq<(Source, char)>, from: Source, c: char, src: Source)
    ensures BytesOf(rx + [(from, c)], src) == if from == src then BytesOf(rx, src) + [c] else BytesOf(rx, src)
  {
    var all := rx + [(from, c)];
    assert all[..|all| - 1] == rx;
  }

  lemma FramesSnoc(log: seq<Event>, e: Event, src: Source)
    ensures FramesOf(log + [e], src) == FramesOf(log, src) + FrameOf(e, src)
  {
    var all := log + [e];
    assert all[..|all| - 1] == log;
  }

  lemma ByteHistory(y: Sys, from: Source, c: char, env: Env)
    requires Framed(y)
    ensures var z := TakeByte(y, from, c, env);
            var e := ByteEvent(y, from, c, env);
            && z.rx == y.rx + [(from, c)]
            && z.log == (if e.Some? then y.log + [e.value] else y.log)
  {}

  lemma EventCredits(y: Sys, from: Source, c: char, env: Env, src: Source)
    requires Framed(y)
    ensures var e := ByteEvent(y, from, c, env);
            (if e.Some? then FrameOf(e.value, src) else [])
            == if src == from then Emit(Feed(Buffer(y, from), c).frame) else []
  {}

  /** A byte of `from` advances the account of `from` and of nobody else. */
  lemma ByteExplained(y: Sys, from: Source, c: char, env: Env, src: Source)
    requires Framed(y) && Explained(y, src)
    requires Buffer(y, from) == Pending(BytesOf(y.rx, from))
    ensures Explained(TakeByte(y, from, c, env), src)
  {
    var z := TakeByte(y, from, c, env);
    var e := ByteEvent(y, from, c, env);
    ByteHistory(y, from, c, env);
    EventCredits(y, from, c, env, src);
    BytesSnoc(y.rx, from, c, src);
    if e.Some? { FramesSnoc(y.log, e.value, src); }
    var extra := if e.Some? then FrameOf(e.value, src) else [];
    assert FramesOf(z.log, src) == FramesOf(y.log, src) + extra;
    if from == src { StreamSnoc(BytesOf(y.rx, src), c); }
  }

  lemma ByteKeepsBuffers(y: Sys, from: Source, c: char, env: Env)
    requires Framed(y) && Buffer(y, from) == Pending(BytesOf(y.rx, from))
    ensures var z := TakeByte(y, from, c, env);
            && Buffer(z, from) == Pending(BytesOf(z.rx, from))
            && z.client == y.client && z.accepted == y.accepted
            && (from.Uart? ==> z.net == y.net) && (!from.Uart? ==> z.uart == y.uart)
  {
    BytesSnoc(y.rx, from, c, from);
    StreamSnoc(BytesOf(y.rx, from), c);
    ByteHistory(y, from, c, env);
  }

  lemma ByteKeepsOthers(y: Sys, from: Source, c: char, env: Env, src: Source)
    requires Framed(y) && src != from
    ensures BytesOf(TakeByte(y, from, c, env).rx, src) == BytesOf(y.rx, src)
  {
    ByteHistory(y, from, c, env);
    BytesSnoc(y.rx, from, c, src);
  }

  lemma ByteKeepsSeparated(y: Sys, from: Source, c: char, env: Env)
    requires Framed(y) && Separated(y)
    requires from == Uart || (y.client.Some? && from == Tcp(y.client.value))
    ensures Separated(TakeByte(y, from, c, env))
  {
    var z := TakeByte(y, from, c, env);
    forall src ensures Explained(z, src) { ByteExplained(y, from, c, env, src); }
    ByteKeepsBuffers(y, from, c, env);
    if from != Uart { ByteKeepsOthers(y, from, c, env, Uart); }
    if from == Uart && y.client.Some? { ByteKeepsOthers(y, from, c, env, Tcp(y.client.value)); }
    forall k: nat | k >= z.accepted ensures BytesOf(z.rx, Tcp(k)) == "" { ByteKeepsOthers(y, from, c, env, Tcp(k)); }
  }

  lemma OtherEventExplained(y: Sys, e: Event, src: Source)
    requires !e.Ran? && !e.Overrun? && Explained(y, src)
    ensures FramesOf(y.log + [e], src) == Frames(BytesOf(y.rx, src))
  {
    FramesSnoc(y.log, e, src);
  }

  lemma StepKeepsSeparated(y: Sys, a: Action)
    requires Framed(y) && Separated(y)
    ensures Separated(Step(y, a))
  {
    match a
    case NetByte(c, env) =>
      if y.client.Some? { ByteKeepsSeparated(y, Tcp(y.client.value), c, env); }
    case UartByte(c, env) => ByteKeepsSeparated(y, Uart, c, env);
    case AcceptClient =>
      assert forall src :: Explained(y, src) ==> Explained(Accept(y), src);
    case DropClient =>
      assert forall src :: Explained(y, src) ==> Explained(y.(client := None), src);
    case _ =>
      var e := Added(y, a).value;
      forall src ensures Explained(Step(y, a), src) { OtherEventExplained(y, e, src); }
  }

  lemma {:induction false} RunKeepsSeparated(y: Sys, actions: seq<Action>)
    requires Framed(y) && Separated(y)
    ensures Separated(Run(y, actions))
  {
    if actions == [] {
    } else {
      RunKeepsSeparated(y, actions[..|actions| - 1]);
      StepKeepsSeparated(Run(y, actions[..|actions| - 1]), actions[|actions| - 1]);
    }
  }

  lemma StartsSeparated(net: Network, env: Env)
    ensures Separated(PowerUp(net, env))
  {
    var y := PowerUp(net, env);
    forall src ensures Explained(y, src) { assert BytesOf([], src) == "" && FramesOf([], src) == []; }
  }

  /** For every interleaving of connects, takeovers, disconnects, bytes of any
      source and host requests: the commands credited to a source are exactly the
      lines of that source's own bytes, and the control state is what those
      commands give in the order of the log. */
  lemma NoSplicing(net: Network, env: Env, actions: seq<Action>, src: Source)
    ensures var y := Run(PowerUp(net, env), actions);
            && FramesOf(y.log, src) == Frames(BytesOf(y.rx, src))
            && y.core == Replay(Setup(net, env), y.log)
  {
    StartsSeparated(net, env);
    RunKeepsSeparated(PowerUp(net, env), actions);
    assert Explained(Run(PowerUp(net, env), actions), src);
    CoreIsReplay(Setup(net, env), PowerUp(net, env), actions);
  }

  // ---------------------------------------------------------------- replies

  /** The lines printed to one destination. */
  function TextsTo(out: seq<Output>, dst: Source): (r: seq<string>) {
    if out == [] then []
    else TextsTo(out[..|out| - 1], dst) + if out[|out| - 1].dst == dst then [out[|out| - 1].text] else []
  }

  lemma TextsSnoc(out: seq<Output>, o: Output, dst: Source)
    ensures TextsTo(out + [o], dst) == TextsTo(out, dst) + if o.dst == dst then [o.text] else []
  {
    assert (out + [o])[..|out + [o]| - 1] == out;
  }

  /** A byte of one source never prints anything to another. */
  lemma RepliesStayHome(y: Sys, from: Source, c: char, env: Env, dst: Source)
    requires Framed(y) && dst != from
    ensures TextsTo(TakeByte(y, from, c, env).out, dst) == TextsTo(y.out, dst)
  {
    var f := Feed(Buffer(y, from), c).frame;
    match f
    case None =>
    case Some(TooLong) => TextsSnoc(y.out, Output(from, "ERR line"), dst);
    case Some(Line(text)) =>
      var r := Execute(y.core, text, env).reply;
      if r.Some? {
        TextsSnoc(y.out, Output(from, r.value), dst);
      } else {
        assert y.out + Said(from, None) == y.out;
      }
  }
}
