/** The lease and the length of a line: which lines of an armed controller refresh
    it, whatever their length and whatever happens while they are typed. */
module LongLines {
  import opened Ascii
  import opened Control
  import opened Framing
  import opened System
  import opened Provenance
  import opened Words
  import EndToEnd
  import Lease

  // ---------------------------------------------------------------- the open line

  /** What a source has sent since its last line feed, carriage returns left out. */
  function Open(y: Sys, src: Source): (r: string) { OpenText(BytesOf(y.rx, src)) }

  function OpenText(bytes: string): (r: string) {
    var s := Segments(WithoutCR(bytes));
    s[|s| - 1]
  }

  /** The source whose next byte is taken: the UART, or the current client. */
  predicate Polled(y: Sys, src: Source) { src == Uart || (y.client.Some? && src == Tcp(y.client.value)) }

  /** The action with which the byte `c` of a source arrives. */
  function Arrival(src: Source, c: char, env: Env): (r: Action) {
    if src.Uart? then UartByte(c, env) else NetByte(c, env)
  }

  lemma ArrivalIsTaken(y: Sys, src: Source, c: char, env: Env)
    requires Framed(y) && Polled(y, src)
    ensures Step(y, Arrival(src, c, env)) == TakeByte(y, src, c, env)
  {}

  /** In every reachable state the buffer of a polled source holds the last
      n mod 96 of the n characters of its open line. */
  lemma BufferIsTail(y: Sys, src: Source)
    requires Framed(y) && Separated(y) && Polled(y, src)
    ensures Buffer(y, src) == Remainder(Open(y, src))
  {
    FramingRule(BytesOf(y.rx, src));
  }

  lemma LineFeedRuns(y: Sys, src: Source, env: Env)
    requires Framed(y)
    ensures TakeByte(y, src, '\n', env).core == Execute(y.core, Buffer(y, src), env).s
  {}

  lemma ReachableIsSeparated(net: Network, start: Env, actions: seq<Action>)
    ensures Separated(Run(PowerUp(net, start), actions))
  {
    StartsSeparated(net, start);
    RunKeepsSeparated(PowerUp(net, start), actions);
  }

  /** The line feed of any source in any reachable state, however the line was
      spread over loops, requests and the other channel: a line of any length is one
      command, its last n mod 96 characters. */
  lemma LineRunsItsTail(net: Network, start: Env, actions: seq<Action>, src: Source, env: Env)
    requires Polled(Run(PowerUp(net, start), actions), src)
    ensures var y := Run(PowerUp(net, start), actions);
            Step(y, Arrival(src, '\n', env)).core == Execute(y.core, Remainder(Open(y, src)), env).s
  {
    var y := Run(PowerUp(net, start), actions);
    ReachableIsSeparated(net, start, actions);
    BufferIsTail(y, src);
    ArrivalIsTaken(y, src, '\n', env);
    LineFeedRuns(y, src, env);
  }

  // ---------------------------------------------------------------- the lease

  /** The text holds a character other than space and tab before any NUL. */
  predicate HoldsWord(text: string) { !All(CString(text), DELIMS) }

  lemma WordIsToken(text: string)
    ensures HoldsWord(text) <==> Split(CString(text), DELIMS) != []
  {
    SplitEmptyIff(CString(text), DELIMS);
    TrimEmptyIff(CString(text), DELIMS);
  }

  /** The last refresh never lies in the future, whatever the gaps between checks. */
  ghost predicate NeverAhead(s: State) { s.lastCommandAt <= s.now }

  lemma ExecuteNeverAhead(s: State, buffer: string, env: Env)
    requires NeverAhead(s)
    ensures NeverAhead(Execute(s, buffer, env).s)
  {
    var tokens := Split(CString(buffer), DELIMS);
    if tokens != [] {
      Lease.PerformLease(Touch(s, env), KeywordOf(tokens[0]), Token(tokens, 1), Token(tokens, 2), env);
    }
  }

  lemma ReactNeverAhead(s: State, e: Event)
    requires NeverAhead(s)
    ensures NeverAhead(React(s, e))
  {
    match e
    case Checked(env) =>
      var t := s.now + env.beforeTouch;
      Lease.CommitSame(SafeState(s.(now := t, checkedAt := t)), env);
    case Ran(_, text, env) => ExecuteNeverAhead(s, text, env);
    case _ => Lease.QuietReact(s, e);
  }

  lemma {:induction false} RunNeverAhead(y: Sys, actions: seq<Action>)
    requires Framed(y) && NeverAhead(y.core)
    ensures NeverAhead(Run(y, actions).core)
  {
    if actions == [] {
    } else {
      RunNeverAhead(y, actions[..|actions| - 1]);
      var z, a := Run(y, actions[..|actions| - 1]), actions[|actions| - 1];
      StepIsReact(z, a);
      if Added(z, a).Some? { ReactNeverAhead(z.core, Added(z, a).value); }
    }
  }

  lemma StartsNeverAhead(net: Network, start: Env)
    ensures NeverAhead(PowerUp(net, start).core)
  {
    Lease.CommitSame(SafeState(PowerOn(net)), start);
  }

  /** The lease as a line that took effect leaves it: ended, or counted from the time
      the line was handled. */
  ghost predicate Refreshed(s: State, t: State, env: Env) {
    t.sim.armed ==> t.lastCommandAt >= s.now + env.beforeTouch
  }

  lemma CommandMoves(s: State, buffer: string, env: Env)
    requires s.sim.armed && NeverAhead(s)
    ensures var t := Execute(s, buffer, env).s;
            && (HoldsWord(buffer) ==> Refreshed(s, t, env))
            && (!HoldsWord(buffer) ==> t == s)
            && (env.beforeTouch > 0 ==> (Lease.SameLease(s, t) <==> !HoldsWord(buffer)))
  {
    WordIsToken(buffer);
    var tokens := Split(CString(buffer), DELIMS);
    if tokens != [] {
      Lease.PerformLease(Touch(s, env), KeywordOf(tokens[0]), Token(tokens, 1), Token(tokens, 2), env);
    }
  }

  /** Exactly which lines refresh the lease of an armed device, at the line feed of
      any source in any reachable state: a line of n characters does exactly when its
      last n mod 96 characters hold a word. Then the lease counts from the line feed,
      or the line has disarmed the device; otherwise the line has changed nothing at
      all. (A refresh shows only if time has passed since the line was begun.) */
  lemma LineRefreshesExactly(net: Network, start: Env, actions: seq<Action>, src: Source, env: Env)
    requires var y := Run(PowerUp(net, start), actions); Polled(y, src) && y.core.sim.armed
    ensures var y := Run(PowerUp(net, start), actions);
            var tail, t := Remainder(Open(y, src)), Step(y, Arrival(src, '\n', env)).core;
            && (HoldsWord(tail) ==> Refreshed(y.core, t, env))
            && (!HoldsWord(tail) ==> t == y.core)
            && (env.beforeTouch > 0 ==> (!Lease.SameLease(y.core, t) <==> HoldsWord(tail)))
  {
    var y := Run(PowerUp(net, start), actions);
    LineRunsItsTail(net, start, actions, src, env);
    StartsNeverAhead(net, start);
    RunNeverAhead(PowerUp(net, start), actions);
    CommandMoves(y.core, Remainder(Open(y, src)), env);
  }

  // ---------------------------------------------------------------- two lines

  lemma NoWordInNothing()
    ensures !HoldsWord("")
  {
    assert CString("") == "";
  }

  lemma PingIsWord()
    ensures HoldsWord("PING")
  {
    assert CString("PING") == ['P'] + CStringAt("PING", 1);
    assert CString("PING")[0] !in DELIMS;
  }

  /** One line that does not: 96 letters. They are a command that the device receives
      while armed, and its lease goes on running. */
  lemma OverlongLineDoesNot(net: Network, start: Env, actions: seq<Action>, src: Source, env: Env)
    requires var y := Run(PowerUp(net, start), actions);
             && Polled(y, src) && y.core.sim.armed
             && |Open(y, src)| == 96 && forall i :: 0 <= i < 96 ==> Open(y, src)[i] == 'x'
    ensures var y := Run(PowerUp(net, start), actions); Step(y, Arrival(src, '\n', env)).core == y.core
  {
    var y := Run(PowerUp(net, start), actions);
    assert Remainder(Open(y, src)) == "";
    NoWordInNothing();
    LineRefreshesExactly(net, start, actions, src, env);
  }

  function Typing(text: string, env: Env): (r: seq<Action>)
    ensures |r| == |text| && forall i :: 0 <= i < |r| ==> r[i] == UartByte(text[i], env)
  {
    seq(|text|, i requires 0 <= i < |text| => UartByte(text[i], env))
  }

  predicate Ordinary(text: string) { forall i :: 0 <= i < |text| ==> text[i] != '\r' && text[i] != '\n' }

  lemma OpenGrows(bytes: string, c: char)
    requires c != '\r' && c != '\n'
    ensures OpenText(bytes + [c]) == OpenText(bytes) + [c]
  {
    WithoutCRSnoc(bytes, c);
    SegmentsSnoc(WithoutCR(bytes), c);
  }

  lemma OpenCloses(bytes: string)
    ensures OpenText(bytes + ['\n']) == ""
  {
    WithoutCRSnoc(bytes, '\n');
    SegmentsSnoc(WithoutCR(bytes), '\n');
  }

  lemma ByteArrives(y: Sys, c: char, env: Env)
    requires Framed(y)
    ensures TakeByte(y, Uart, c, env).rx == y.rx + [(Uart, c)]
    ensures c != '\n' ==> TakeByte(y, Uart, c, env).core == y.core
  {}

  lemma OpenAfter(y: Sys, z: Sys, c: char)
    requires z.rx == y.rx + [(Uart, c)]
    ensures c == '\n' ==> Open(z, Uart) == ""
    ensures c != '\n' && c != '\r' ==> Open(z, Uart) == Open(y, Uart) + [c]
  {
    BytesSnoc(y.rx, Uart, c, Uart);
    if c == '\n' {
      OpenCloses(BytesOf(y.rx, Uart));
    } else if c != '\r' {
      OpenGrows(BytesOf(y.rx, Uart), c);
    }
  }

  /** What has happened while `text` was typed: nothing but that it is open. */
  ghost predicate Gathered(y: Sys, z: Sys, text: string) {
    z.core == y.core && Open(z, Uart) == Open(y, Uart) + text
  }

  lemma OneMoreTyped(y: Sys, z: Sys, text: string, c: char, env: Env)
    requires Framed(z) && Gathered(y, z, text) && c != '\r' && c != '\n'
    ensures Gathered(y, TakeByte(z, Uart, c, env), text + [c])
  {
    ByteArrives(z, c, env);
    OpenAfter(z, TakeByte(z, Uart, c, env), c);
    Assoc(Open(y, Uart), text, [c]);
  }

  lemma TypingSnoc(text: string, c: char, env: Env)
    ensures Typing(text + [c], env) == Typing(text, env) + [UartByte(c, env)]
  {}

  lemma RunSnoc(y: Sys, actions: seq<Action>, c: char, env: Env)
    requires Framed(y)
    ensures Run(y, actions + [UartByte(c, env)]) == TakeByte(Run(y, actions), Uart, c, env)
  {
    assert (actions + [UartByte(c, env)])[..|actions|] == actions;
  }

  lemma {:induction false} TypingGathers(y: Sys, text: string, env: Env)
    requires Framed(y) && Ordinary(text)
    ensures Gathered(y, Run(y, Typing(text, env)), text)
  {
    if text == "" {
      assert Typing(text, env) == [];
      assert Open(y, Uart) + "" == Open(y, Uart);
    } else {
      var init, c := text[..|text| - 1], text[|text| - 1];
      TypingGathers(y, init, env);
      TypingSnoc(init, c, env);
      RunSnoc(y, Typing(init, env), c, env);
      OneMoreTyped(y, Run(y, Typing(init, env)), init, c, env);
      assert text == init + [c];
    }
  }

  lemma ArmingArms(net: Network, start: Env, actions: seq<Action>, env: Env)
    requires Open(Run(PowerUp(net, start), actions), Uart) == "ARM ON"
    ensures var z := Run(PowerUp(net, start), actions + [UartByte('\n', env)]);
            z.core.sim.armed && Open(z, Uart) == ""
  {
    var y := Run(PowerUp(net, start), actions);
    RunSnoc(PowerUp(net, start), actions, '\n', env);
    ByteArrives(y, '\n', env);
    OpenAfter(y, TakeByte(y, Uart, '\n', env), '\n');
    LineRunsItsTail(net, start, actions, Uart, env);
    ArrivalIsTaken(y, Uart, '\n', env);
    assert Remainder("ARM ON") == "ARM ON";
    EndToEnd.ArmTaken(y.core, None, env);
  }

  lemma NothingOpen(net: Network, start: Env)
    ensures Open(PowerUp(net, start), Uart) == ""
  {
    assert BytesOf([], Uart) == "";
  }

  /** Such states do occur: an armed device, and any text typed on the UART behind the
      line that armed it. */
  lemma ArmedAndTyping(net: Network, start: Env, text: string, env: Env) returns (actions: seq<Action>)
    requires Ordinary(text)
    ensures var y := Run(PowerUp(net, start), actions); y.core.sim.armed && Open(y, Uart) == text
  {
    var y0 := PowerUp(net, start);
    NothingOpen(net, start);
    TypingGathers(y0, "ARM ON", env);
    NothingBefore("ARM ON");
    var arm := Typing("ARM ON", env) + [UartByte('\n', env)];
    ArmingArms(net, start, Typing("ARM ON", env), env);
    TypingGathers(Run(y0, arm), text, env);
    NothingBefore(text);
    RunAppend(y0, arm, Typing(text, env));
    actions := arm + Typing(text, env);
  }

  /** And one that does, by its tail: the same 96 letters with a PING behind them. */
  lemma OverlongTailDoes(net: Network, start: Env, actions: seq<Action>, src: Source, env: Env)
    requires var y := Run(PowerUp(net, start), actions);
             && Polled(y, src) && y.core.sim.armed
             && |Open(y, src)| == 100 && Open(y, src)[96..] == "PING" && env.beforeTouch > 0
    ensures var y := Run(PowerUp(net, start), actions);
            !Lease.SameLease(y.core, Step(y, Arrival(src, '\n', env)).core)
  {
    var y := Run(PowerUp(net, start), actions);
    assert Remainder(Open(y, src)) == "PING";
    PingIsWord();
    LineRefreshesExactly(net, start, actions, src, env);
  }
}
