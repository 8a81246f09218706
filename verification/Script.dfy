/** Conversations: any calls of the driver, their bytes spread over loop iterations
    and mixed with other traffic in any way, through the line framing into the
    sketch and back. */
module Script {
  import opened Ascii
  import opened Control
  import opened Framing
  import opened System
  import opened EndToEnd
  import opened Provenance
  import opened Switching
  import D = Driver
  import Safety

  /** The calls a conversation is made of. */
  datatype Call = Ping | Identify | ArmOn(lease: Option<int>) | Disarm | Reset | Assign(setter: D.Setter) | AskStatus

  predicate Sendable(call: Call) {
    && (call.ArmOn? ==> D.ArmLine(true, call.lease).Ok?)
    && (call.Assign? ==> D.CommandLine(call.setter).Ok?)
  }

  predicate AllSendable(calls: seq<Call>) { forall i :: 0 <= i < |calls| ==> Sendable(calls[i]) }

  /** The line a call sends. */
  function Text(call: Call): (r: string)
    requires Sendable(call)
  {
    match call
    case Ping => "PING"
    case Identify => "IDENT?"
    case ArmOn(lease) => D.ArmLine(true, lease).value
    case Disarm => "ARM OFF"
    case Reset => "RESET"
    case Assign(setter) => D.CommandLine(setter).value
    case AskStatus => "STATUS?"
  }

  /** What `transport.command` puts on the wire, call after call. */
  function Wire(calls: seq<Call>): (r: string)
    requires AllSendable(calls)
  {
    if calls == [] then "" else Wire(calls[..|calls| - 1]) + (Text(calls[|calls| - 1]) + "\n")
  }

  function LinesOf(calls: seq<Call>): (r: seq<Frame>)
    requires AllSendable(calls)
    ensures |r| == |calls|
  {
    if calls == [] then [] else LinesOf(calls[..|calls| - 1]) + [Line(Text(calls[|calls| - 1]))]
  }

  // ---------------------------------------------------------------- who talks

  /** The bytes the current client sends during a run. */
  function Typed(actions: seq<Action>): (r: string) {
    if actions == [] then ""
    else
      var a := actions[|actions| - 1];
      Typed(actions[..|actions| - 1]) + if a.NetByte? then [a.c] else ""
  }

  /** The client stays connected. Others do what they like - bytes on the UART, host
      requests - or, if it is alone, there are only loops. */
  predicate Calm(a: Action, alone: bool) {
    !a.AcceptClient? && !a.DropClient? && (alone ==> a.NetByte? || a.BeginLoop? || a.EndLoop?)
  }

  predicate Undisturbed(actions: seq<Action>, alone: bool) { forall i :: 0 <= i < |actions| ==> Calm(actions[i], alone) }

  /** The action is no check that finds the lease expired, and completes no disarming
      line of the other channel. */
  predicate Spares(y: Sys, a: Action) {
    && (a.BeginLoop? ==> !(y.core.sim.armed && Expires(y.core, a.env)))
    && (a.UartByte? && a.c == '\n' ==> !DisarmingLine(y.uart))
  }

  /** Nobody else disarms the device. That the client's own setters, PING, ARM ON and
      STATUS? do not is part of what is proved. */
  predicate NoDisarm(y: Sys, actions: seq<Action>)
    requires Framed(y)
  {
    actions == [] ||
    (var init := actions[..|actions| - 1]; NoDisarm(y, init) && Spares(Run(y, init), actions[|actions| - 1]))
  }

  /** Any other action leaves an armed device armed. */
  lemma SparesArmed(y: Sys, a: Action)
    requires Framed(y) && y.core.sim.armed && Spares(y, a) && !a.NetByte?
    ensures Step(y, a).core.sim.armed
  {
    StepIsReact(y, a);
    if Added(y, a).Some? { SwitchesExactly(y.core, Added(y, a).value); }
  }

  /** Whether a call leaves the device armed. */
  predicate ArmedBy(call: Call, armed: bool) {
    match call
    case ArmOn(_) => true
    case Disarm => false
    case Reset => false
    case _ => armed
  }

  predicate ArmedAfter(armed: bool, calls: seq<Call>) {
    if calls == [] then armed else ArmedBy(calls[|calls| - 1], ArmedAfter(armed, calls[..|calls| - 1]))
  }

  /** Setters come only once the device is armed. */
  predicate Permitted(armed: bool, calls: seq<Call>) {
    calls == [] ||
    (var init, last := calls[..|calls| - 1], calls[|calls| - 1];
     Permitted(armed, init) && (last.Assign? ==> ArmedAfter(armed, init)))
  }

  // ---------------------------------------------------------------- one call

  /** What `status()` returns from a device in its safe state. */
  function SafeReading(ip: string, limits: Limits): (r: D.Status) {
    Derived(
      D.Status(
        D.Supply(false, true, 100, limits.avgTimeToEmpty, "auto"),
        D.Levels(1300, 25, 23000, 23000),
        D.Overrides("auto", false, "auto", false),
        D.Alarms(false, false, false, false, false),
        D.Host(-1, -1, -1, ip)),
      limits)
  }

  /** A client's prediction for one call and for a whole conversation. */
  function PredictedBy(r: D.Status, call: Call, limits: Limits): (result: D.Status) {
    match call
    case ArmOn(_) => Derived(r.(supply := r.supply.(armed := true)), limits)
    case Disarm => SafeReading(r.host.ip, limits)
    case Reset => SafeReading(r.host.ip, limits)
    case Assign(setter) => Predicted(r, setter, limits)
    case _ => r
  }

  function PredictedAll(r: D.Status, calls: seq<Call>, limits: Limits): (result: D.Status) {
    if calls == [] then r
    else PredictedBy(PredictedAll(r, calls[..|calls| - 1], limits), calls[|calls| - 1], limits)
  }

  /** The reply a call should get. */
  predicate Fits(call: Call, reply: string) {
    match call
    case Ping => reply == "OK PONG"
    case Identify => reply == "OK NutUPS HID Simulator v2"
    case ArmOn(_) => reply == "OK armed"
    case Disarm => reply == "OK safe"
    case Reset => reply == "OK safe"
    case Assign(_) => reply == "OK"
    case AskStatus => D.StatusOf(reply).Ok? && Shown(reply)
  }

  predicate AllFit(calls: seq<Call>, replies: seq<string>) {
    |replies| == |calls| && forall i :: 0 <= i < |calls| ==> Fits(calls[i], replies[i])
  }

  /** What every call does to any state that permits it. */
  ghost predicate Answers(s: State, call: Call, done: Outcome) {
    && done.reply.Some? && Fits(call, done.reply.value)
    && done.s.net == s.net && (done.s.sim.armed <==> ArmedBy(call, s.sim.armed))
  }

  ghost predicate Reads(s: State, call: Call, done: Outcome) {
    && LimitsOf(done.s) == LimitsOf(s)
    && ReadingOf(done.s) == PredictedBy(ReadingOf(s), call, LimitsOf(s))
    && (call.AskStatus? ==> done.reply.Some? && D.StatusOf(done.reply.value) == D.Ok(ReadingOf(s)))
  }

  lemma PingWord()
    ensures KeywordOf("PING") == Keyword.Ping
  {}

  lemma PingTaken(s: State, env: Env)
    ensures Execute(s, "PING", env) == Outcome(Touch(s, env), Some("OK PONG"))
  {
    OneWordCommand(s, "PING", env);
    PingWord();
  }

  lemma PingAnswered(s: State, env: Env)
    ensures var done := Execute(s, Text(Call.Ping), env); Answers(s, Call.Ping, done) && Reads(s, Call.Ping, done)
  {
    PingTaken(s, env);
    TouchReads(s, env);
  }

  lemma IdentWord()
    ensures KeywordOf("IDENT?") == Ident
  {}

  lemma IdentifyAnswered(s: State, env: Env)
    ensures var done := Execute(s, Text(Identify), env); Answers(s, Identify, done) && Reads(s, Identify, done)
  {
    OneWordCommand(s, "IDENT?", env);
    IdentWord();
    TouchReads(s, env);
  }

  lemma ArmReads(s: State, lease: Option<int>, env: Env)
    requires 0 <= LeaseSeconds(lease) <= MAX_LEASE_SEC
    ensures var t := ArmedAs(s, lease, env);
            LimitsOf(t) == LimitsOf(s) && ReadingOf(t) == PredictedBy(ReadingOf(s), ArmOn(lease), LimitsOf(s))
  {
    var t, limits := ArmedAs(s, lease, env), LimitsOf(s);
    ReadingIsDerived(s);
    ReadingIsDerived(t);
    DerivedSameStored(Bare(s), limits);
    var a, b := Bare(s).(supply := Bare(s).supply.(armed := true)), ReadingOf(s).(supply := ReadingOf(s).supply.(armed := true));
    DerivedCongruent(a, b, limits);
  }

  lemma ArmAnswered(s: State, lease: Option<int>, env: Env)
    requires Sendable(ArmOn(lease))
    ensures var done := Execute(s, Text(ArmOn(lease)), env); Answers(s, ArmOn(lease), done) && Reads(s, ArmOn(lease), done)
  {
    ArmTaken(s, lease, env);
    TouchReads(s, env);
    ArmReads(Touch(s, env), lease, env);
  }

  lemma SafeReads(s: State, env: Env)
    ensures var t := Commit(SafeState(s), env);
            && LimitsOf(t) == LimitsOf(s) && ReadingOf(t) == SafeReading(ReadingOf(s).host.ip, LimitsOf(s))
            && t.net == s.net && !t.sim.armed
  {
    CommitReads(SafeState(s), env);
    ReadingIsDerived(SafeState(s));
    ReadingIsDerived(s);
  }

  lemma DisarmAnswered(s: State, env: Env)
    ensures var done := Execute(s, Text(Disarm), env); Answers(s, Disarm, done) && Reads(s, Disarm, done)
  {
    DisarmTaken(s, env);
    TouchReads(s, env);
    SafeReads(Touch(s, env), env);
  }

  lemma ResetAnswered(s: State, env: Env)
    ensures var done := Execute(s, Text(Call.Reset), env); Answers(s, Call.Reset, done) && Reads(s, Call.Reset, done)
  {
    ResetTaken(s, env);
    TouchReads(s, env);
    SafeReads(Touch(s, env), env);
  }

  lemma SetterAnswered(s: State, setter: D.Setter, env: Env)
    requires Sendable(Assign(setter)) && s.sim.armed
    ensures var done := Execute(s, Text(Assign(setter)), env); Answers(s, Assign(setter), done) && Reads(s, Assign(setter), done)
  {
    SetterAdvances(s, setter, env);
  }

  lemma StatusAnswered(s: State, env: Env)
    requires Visible(s.net.ip)
    ensures var done := Execute(s, Text(AskStatus), env); Answers(s, AskStatus, done) && Reads(s, AskStatus, done)
  {
    VisibleIsFree(s.net.ip);
    StatusTaken(s, env);
    StatusReads(s, env);
    StatusLineShown(Update(Touch(s, env)));
    TouchReads(s, env);
    UpdateReads(Touch(s, env));
  }

  lemma UpdateReads(s: State)
    ensures ReadingOf(Update(s)) == ReadingOf(s) && LimitsOf(Update(s)) == LimitsOf(s)
  {
    assert Update(Update(s)) == Update(s);
  }

  lemma CallAnswered(s: State, call: Call, env: Env)
    requires Sendable(call) && Visible(s.net.ip) && (call.Assign? ==> s.sim.armed)
    ensures var done := Execute(s, Text(call), env); Answers(s, call, done) && Reads(s, call, done)
  {
    match call
    case Ping => PingAnswered(s, env);
    case Identify => IdentifyAnswered(s, env);
    case ArmOn(lease) => ArmAnswered(s, lease, env);
    case Disarm => DisarmAnswered(s, env);
    case Reset => ResetAnswered(s, env);
    case Assign(setter) => SetterAnswered(s, setter, env);
    case AskStatus => StatusAnswered(s, env);
  }

  // ---------------------------------------------------------------- framing

  lemma CallLine(call: Call)
    requires Sendable(call)
    ensures var text := Text(call);
            |text| < CAPACITY && forall i :: 0 <= i < |text| ==> ' ' <= text[i] <= '~'
  {
    match call
    case Assign(setter) => SetterLine(setter);
    case ArmOn(lease) =>
      ArmLineIs(lease);
      if lease.Some? { NumberIsVisible(lease.value); }
    case _ =>
  }

  lemma SetterLine(setter: D.Setter)
    requires D.CommandLine(setter).Ok?
    ensures var text := D.CommandLine(setter).value;
            |text| < CAPACITY && forall i :: 0 <= i < |text| ==> ' ' <= text[i] <= '~'
  {
    LineIs(setter);
    WordIsVisible(setter);
    ArgumentIsVisible(setter);
  }

  lemma LineAfter(before: string, text: string)
    requires Pending(before) == ""
    requires |text| < CAPACITY && forall i :: 0 <= i < |text| ==> text[i] != '\r' && text[i] != '\n'
    ensures Frames(before + (text + "\n")) == Frames(before) + [Line(text)]
    ensures Pending(before + (text + "\n")) == ""
  {
    var all := before + (text + "\n");
    FeedAllIsFrames(all);
    FeedAllIsFrames(before);
    FeedAllChunks("", before, text + "\n");
    LongLine(text, "\n");
    ShortIsWhole(text);
  }

  lemma ShortIsWhole(text: string)
    requires |text| < CAPACITY
    ensures Finished(text) == [Line(text)]
  {
    assert text[0..] == text;
    assert Repeat(0) == [];
  }

  /** The sketch cuts the wire text back into the calls' lines. */
  lemma {:induction false} WireIsLines(calls: seq<Call>)
    requires AllSendable(calls)
    ensures Frames(Wire(calls)) == LinesOf(calls) && Pending(Wire(calls)) == ""
  {
    if calls == [] {
    } else {
      var init, last := calls[..|calls| - 1], calls[|calls| - 1];
      WireIsLines(init);
      CallLine(last);
      LineAfter(Wire(init), Text(last));
    }
  }

  // ---------------------------------------------------------------- one action

  lemma PerformKeepsNet(s: State, k: Keyword, arg: Option<string>, arg2: Option<string>, env: Env)
    ensures Perform(s, k, arg, arg2, env).s.net == s.net
  {}

  lemma ReactKeepsNet(s: State, e: Event)
    ensures React(s, e).net == s.net
  {
    match e
    case Ran(_, text, env) =>
      var tokens := Split(CString(text), DELIMS);
      if tokens != [] {
        PerformKeepsNet(Touch(s, env), KeywordOf(tokens[0]), Token(tokens, 1), Token(tokens, 2), env);
      }
    case HostSet(w) => Safety.HostWriteKeepsOthers(s, w);
    case _ =>
  }

  /** What a conversation does not notice of an action. */
  ghost predicate Unnoticed(y: Sys, z: Sys) {
    && y.client.Some? && z.client == y.client && z.net == y.net && z.core.net == y.core.net
    && TextsTo(z.out, Tcp(y.client.value)) == TextsTo(y.out, Tcp(y.client.value))
  }

  /** Traffic of others changes nothing about a conversation but perhaps the
      control state. */
  lemma OthersUnnoticed(y: Sys, a: Action)
    requires Framed(y) && y.client.Some? && !a.NetByte? && !a.AcceptClient? && !a.DropClient?
    ensures Unnoticed(y, Step(y, a))
  {
    StepIsReact(y, a);
    if Added(y, a).Some? { ReactKeepsNet(y.core, Added(y, a).value); }
    if a.UartByte? { RepliesStayHome(y, Uart, a.c, a.env, Tcp(y.client.value)); }
  }

  /** Loop boundaries show nothing to `status()` as long as the lease holds. */
  lemma BoundaryReads(y: Sys, a: Action)
    requires Framed(y) && (a.BeginLoop? || a.EndLoop?) && (y.core.sim.armed ==> Step(y, a).core.sim.armed)
    ensures var z := Step(y, a); ReadingOf(z.core) == ReadingOf(y.core) && LimitsOf(z.core) == LimitsOf(y.core)
  {
    var z := Step(y, a);
    ReadingIsDerived(y.core);
    ReadingIsDerived(z.core);
    if a.EndLoop? {
      Safety.SendKeeps(Update(y.core), false, a.env);
      ReadingIsDerived(Update(y.core));
    }
  }

  // ---------------------------------------------------------------- conversations

  /** The calls so far got the replies they should, nothing else was said to the
      client, and an armed device is still armed. */
  ghost predicate Talked(y: Sys, z: Sys, calls: seq<Call>, replies: seq<string>) {
    && y.client.Some? && z.client == y.client && z.core.net == y.core.net
    && AllFit(calls, replies)
    && TextsTo(z.out, Tcp(y.client.value)) == TextsTo(y.out, Tcp(y.client.value)) + replies
    && (ArmedAfter(y.core.sim.armed, calls) ==> z.core.sim.armed)
  }

  /** The device reads as predicted, and so did every status reply. */
  ghost predicate AsPredicted(y: State, z: State, calls: seq<Call>, replies: seq<string>) {
    && LimitsOf(z) == LimitsOf(y) && ReadingOf(z) == PredictedAll(ReadingOf(y), calls, LimitsOf(y))
    && StatusesFit(ReadingOf(y), LimitsOf(y), calls, replies)
  }

  /** Every status reply says what was predicted for its place. */
  predicate StatusesFit(r: D.Status, limits: Limits, calls: seq<Call>, replies: seq<string>) {
    |replies| == |calls| && forall i :: 0 <= i < |calls| ==> StatusFits(r, limits, calls, replies, i)
  }

  predicate StatusFits(r: D.Status, limits: Limits, calls: seq<Call>, replies: seq<string>, i: nat)
    requires i < |calls| && i < |replies|
  {
    calls[i].AskStatus? ==> D.StatusOf(replies[i]) == D.Ok(PredictedAll(r, calls[..i], limits))
  }

  /** Both, the second for a client that is alone. */
  ghost predicate Conversed(y: Sys, z: Sys, typed: string, calls: seq<Call>, replies: seq<string>, alone: bool) {
    z.net == Pending(typed) && Talked(y, z, calls, replies) && (alone ==> AsPredicted(y.core, z.core, calls, replies))
  }

  lemma AnsweredStep(z: Sys, text: string, reply: string, c: char, env: Env)
    requires Framed(z) && z.client.Some? && Feed(z.net, c).frame == Some(Line(text))
    requires Execute(z.core, text, env).reply == Some(reply)
    ensures var x := Step(z, NetByte(c, env));
            && x.core == Execute(z.core, text, env).s && x.client == z.client
            && TextsTo(x.out, Tcp(z.client.value)) == TextsTo(z.out, Tcp(z.client.value)) + [reply]
  {
    TextsSnoc(z.out, Output(Tcp(z.client.value), reply), Tcp(z.client.value));
  }

  lemma FitOn(calls: seq<Call>, replies: seq<string>, call: Call, reply: string)
    requires AllFit(calls, replies) && Fits(call, reply)
    ensures AllFit(calls + [call], replies + [reply])
  {}

  lemma ArmedOn(armed: bool, calls: seq<Call>, call: Call)
    ensures ArmedAfter(armed, calls + [call]) <==> ArmedBy(call, ArmedAfter(armed, calls))
  {
    assert (calls + [call])[..|calls|] == calls;
  }

  lemma TextsOn(texts: seq<string>, replies: seq<string>, reply: string)
    ensures (texts + replies) + [reply] == texts + (replies + [reply])
  {}

  lemma TalkedOn(y: Sys, z: Sys, x: Sys, calls: seq<Call>, replies: seq<string>, call: Call, done: Outcome)
    requires Talked(y, z, calls, replies) && Answers(z.core, call, done)
    requires x.core == done.s && x.client == z.client
    requires TextsTo(x.out, Tcp(y.client.value)) == TextsTo(z.out, Tcp(y.client.value)) + [done.reply.value]
    ensures Talked(y, x, calls + [call], replies + [done.reply.value])
  {
    FitOn(calls, replies, call, done.reply.value);
    ArmedOn(y.core.sim.armed, calls, call);
    TextsOn(TextsTo(y.out, Tcp(y.client.value)), replies, done.reply.value);
  }

  lemma PredictedAllOn(r: D.Status, calls: seq<Call>, call: Call, limits: Limits)
    ensures PredictedAll(r, calls + [call], limits) == PredictedBy(PredictedAll(r, calls, limits), call, limits)
  {
    assert (calls + [call])[..|calls|] == calls;
  }

  lemma StatusesOn(r: D.Status, limits: Limits, calls: seq<Call>, replies: seq<string>, call: Call, reply: string)
    requires StatusesFit(r, limits, calls, replies)
    requires call.AskStatus? ==> D.StatusOf(reply) == D.Ok(PredictedAll(r, calls, limits))
    ensures StatusesFit(r, limits, calls + [call], replies + [reply])
  {
    var all, texts := calls + [call], replies + [reply];
    forall i | 0 <= i < |all| ensures StatusFits(r, limits, all, texts, i) {
      if i < |calls| {
        EarlierOf(calls, call, i);
        EarlierOf(replies, reply, i);
        StatusAt(r, limits, calls, replies, i);
      } else {
        LatestOf(calls, call);
        LatestOf(replies, reply);
      }
    }
  }

  lemma StatusAt(r: D.Status, limits: Limits, calls: seq<Call>, replies: seq<string>, i: nat)
    requires StatusesFit(r, limits, calls, replies) && i < |calls|
    ensures StatusFits(r, limits, calls, replies, i)
  {}

  lemma EarlierOf<T>(init: seq<T>, last: T, i: nat)
    requires i < |init|
    ensures (init + [last])[i] == init[i] && (init + [last])[..i] == init[..i]
  {}

  lemma LatestOf<T>(init: seq<T>, last: T)
    ensures (init + [last])[|init|] == last && (init + [last])[..|init|] == init
  {}

  lemma PredictedOn(y: State, z: State, calls: seq<Call>, replies: seq<string>, call: Call, done: Outcome)
    requires AsPredicted(y, z, calls, replies) && Reads(z, call, done) && done.reply.Some?
    ensures AsPredicted(y, done.s, calls + [call], replies + [done.reply.value])
  {
    PredictedAllOn(ReadingOf(y), calls, call, LimitsOf(y));
    StatusesOn(ReadingOf(y), LimitsOf(y), calls, replies, call, done.reply.value);
  }

  /** The byte that completes a call. */
  lemma CallCompletes(y: Sys, z: Sys, typed: string, calls: seq<Call>, replies: seq<string>, alone: bool, call: Call,
                      c: char, env: Env) returns (reply: string)
    requires Framed(z) && Conversed(y, z, typed, calls, replies, alone) && Sendable(call)
    requires Visible(y.core.net.ip) && (call.Assign? ==> ArmedAfter(y.core.sim.armed, calls))
    requires Feed(Pending(typed), c).frame == Some(Line(Text(call)))
    ensures Conversed(y, Step(z, NetByte(c, env)), typed + [c], calls + [call], replies + [reply], alone)
  {
    var done := Execute(z.core, Text(call), env);
    CallAnswered(z.core, call, env);
    reply := done.reply.value;
    AnsweredStep(z, Text(call), reply, c, env);
    TalkedOn(y, z, Step(z, NetByte(c, env)), calls, replies, call, done);
    if alone { PredictedOn(y.core, z.core, calls, replies, call, done); }
    BufferFollows(z, typed, c, env);
  }

  lemma ByteIsBuffered(z: Sys, c: char, env: Env)
    requires Framed(z) && z.client.Some?
    ensures Step(z, NetByte(c, env)).net == Feed(z.net, c).buffer
  {}

  lemma BufferFollows(z: Sys, typed: string, c: char, env: Env)
    requires Framed(z) && z.client.Some? && z.net == Pending(typed)
    ensures Step(z, NetByte(c, env)).net == Pending(typed + [c])
  {
    ByteIsBuffered(z, c, env);
    StreamSnoc(typed, c);
  }

  /** A byte that completes nothing. */
  lemma ByteGathers(y: Sys, z: Sys, typed: string, calls: seq<Call>, replies: seq<string>, alone: bool, c: char, env: Env)
    requires Framed(z) && Conversed(y, z, typed, calls, replies, alone) && Feed(Pending(typed), c).frame == None
    ensures Conversed(y, Step(z, NetByte(c, env)), typed + [c], calls, replies, alone)
  {
    BufferFollows(z, typed, c, env);
  }

  /** Any other action of a run in which nothing disarms the device. */
  lemma OtherAction(y: Sys, z: Sys, typed: string, calls: seq<Call>, replies: seq<string>, alone: bool, a: Action)
    requires Framed(z) && Conversed(y, z, typed, calls, replies, alone)
    requires !a.NetByte? && Calm(a, alone)
    requires z.core.sim.armed ==> Step(z, a).core.sim.armed
    ensures Conversed(y, Step(z, a), typed, calls, replies, alone)
  {
    OthersUnnoticed(z, a);
    if alone { BoundaryReads(z, a); }
  }

  lemma TypedStep(actions: seq<Action>)
    requires actions != []
    ensures var a, before := actions[|actions| - 1], Typed(actions[..|actions| - 1]);
            && (!a.NetByte? ==> Typed(actions) == before)
            && (a.NetByte? ==> Typed(actions) == before + [a.c])
  {}

  lemma LastLine(calls: seq<Call>, frames: seq<Frame>, f: Frame)
    requires AllSendable(calls) && LinesOf(calls) == frames + [f]
    ensures calls != [] && LinesOf(calls[..|calls| - 1]) == frames && f == Line(Text(calls[|calls| - 1]))
  {
    var all := LinesOf(calls);
    assert all[..|all| - 1] == frames && all[|all| - 1] == f;
  }

  lemma NothingSaid(y: Sys, calls: seq<Call>, alone: bool)
    requires y.client.Some? && y.net == "" && calls == []
    ensures Conversed(y, y, "", calls, [], alone)
  {
    assert TextsTo(y.out, Tcp(y.client.value)) + [] == TextsTo(y.out, Tcp(y.client.value));
  }

  /** `calls` are the calls `done` and the one, if any, that the action completes. */
  ghost predicate Extends(typed: string, done: seq<Call>, calls: seq<Call>, a: Action)
    requires AllSendable(calls)
  {
    if !a.NetByte? || Feed(Pending(typed), a.c).frame.None? then done == calls
    else calls != [] && done == calls[..|calls| - 1]
         && Feed(Pending(typed), a.c).frame == Some(Line(Text(calls[|calls| - 1])))
  }

  function TypedWith(typed: string, a: Action): (r: string) { if a.NetByte? then typed + [a.c] else typed }

  /** The calls delivered before an action. */
  lemma Before(typed: string, calls: seq<Call>, a: Action) returns (done: seq<Call>)
    requires AllSendable(calls) && Frames(TypedWith(typed, a)) == LinesOf(calls)
    ensures AllSendable(done) && Frames(typed) == LinesOf(done) && Extends(typed, done, calls, a)
  {
    done := calls;
    if a.NetByte? {
      StreamSnoc(typed, a.c);
      var f := Feed(Pending(typed), a.c).frame;
      if f.Some? {
        LastLine(calls, Frames(typed), f.value);
        done := calls[..|calls| - 1];
      }
    }
  }

  /** One more action of a conversation that completes a call. */
  lemma LastCallCompletes(y: Sys, z: Sys, typed: string, done: seq<Call>, before: seq<string>, calls: seq<Call>,
                          alone: bool, c: char, env: Env) returns (replies: seq<string>)
    requires Framed(z) && Conversed(y, z, typed, done, before, alone) && Visible(y.core.net.ip)
    requires AllSendable(calls) && Permitted(y.core.sim.armed, calls) && calls != [] && done == calls[..|calls| - 1]
    requires Feed(Pending(typed), c).frame == Some(Line(Text(calls[|calls| - 1])))
    ensures Conversed(y, Step(z, NetByte(c, env)), typed + [c], calls, replies, alone)
  {
    var last := calls[|calls| - 1];
    var reply := CallCompletes(y, z, typed, done, before, alone, last, c, env);
    replies := before + [reply];
    assert calls == done + [last];
  }

  /** One more action of any kind. */
  lemma OneMoreAction(y: Sys, z: Sys, typed: string, done: seq<Call>, before: seq<string>, calls: seq<Call>, alone: bool,
                      a: Action) returns (replies: seq<string>)
    requires Framed(z) && Conversed(y, z, typed, done, before, alone) && Visible(y.core.net.ip)
    requires AllSendable(calls) && Permitted(y.core.sim.armed, calls) && Extends(typed, done, calls, a)
    requires Calm(a, alone) && Spares(z, a)
    ensures Conversed(y, Step(z, a), TypedWith(typed, a), calls, replies, alone)
  {
    replies := before;
    if !a.NetByte? {
      if z.core.sim.armed { SparesArmed(z, a); }
      OtherAction(y, z, typed, done, before, alone, a);
    } else if Feed(Pending(typed), a.c).frame.None? {
      ByteGathers(y, z, typed, done, before, alone, a.c, a.env);
    } else {
      replies := LastCallCompletes(y, z, typed, done, before, calls, alone, a.c, a.env);
    }
  }

  lemma PermittedBefore(armed: bool, typed: string, done: seq<Call>, calls: seq<Call>, a: Action)
    requires AllSendable(calls) && Permitted(armed, calls) && Extends(typed, done, calls, a)
    ensures Permitted(armed, done)
  {}

  /** Every prefix of a run has answered exactly the calls it completed. */
  lemma {:induction false} Progress(y: Sys, actions: seq<Action>, calls: seq<Call>, alone: bool) returns (replies: seq<string>)
    requires Framed(y) && y.client.Some? && y.net == "" && Visible(y.core.net.ip)
    requires Undisturbed(actions, alone) && NoDisarm(y, actions)
    requires AllSendable(calls) && Permitted(y.core.sim.armed, calls) && Frames(Typed(actions)) == LinesOf(calls)
    ensures Conversed(y, Run(y, actions), Typed(actions), calls, replies, alone)
    decreases |actions|
  {
    if actions == [] {
      replies := [];
      NothingSaid(y, calls, alone);
    } else {
      var init, a := actions[..|actions| - 1], actions[|actions| - 1];
      TypedStep(actions);
      var done := Before(Typed(init), calls, a);
      PermittedBefore(y.core.sim.armed, Typed(init), done, calls, a);
      var before := Progress(y, init, done, alone);
      replies := OneMoreAction(y, Run(y, init), Typed(init), done, before, calls, alone, a);
    }
  }

  /** Any number of calls with any arguments they accept, their bytes in any portions
      over any number of loop iterations, whatever else happens on the UART and the
      USB side, as long as nobody else disarms the device: exactly one reply per call, in
      order and of the right kind, and nothing else to this client. */
  lemma EveryCallAnswered(y: Sys, actions: seq<Action>, calls: seq<Call>) returns (replies: seq<string>)
    requires Framed(y) && y.client.Some? && y.net == "" && Visible(y.core.net.ip)
    requires Undisturbed(actions, false) && NoDisarm(y, actions)
    requires AllSendable(calls) && Permitted(y.core.sim.armed, calls) && Typed(actions) == Wire(calls)
    ensures Run(y, actions).net == "" && Talked(y, Run(y, actions), calls, replies)
  {
    WireIsLines(calls);
    replies := Progress(y, actions, calls, false);
  }

  /** And when this client is alone, every `status()` in between equals the client's
      own prediction, and so does one at the end. */
  lemma ScriptReadsBack(y: Sys, actions: seq<Action>, calls: seq<Call>, env: Env) returns (replies: seq<string>)
    requires Framed(y) && y.client.Some? && y.net == "" && Visible(y.core.net.ip)
    requires Undisturbed(actions, true) && NoDisarm(y, actions)
    requires AllSendable(calls) && Permitted(y.core.sim.armed, calls) && Typed(actions) == Wire(calls)
    ensures var z := Run(y, actions);
            && z.net == "" && Talked(y, z, calls, replies) && AsPredicted(y.core, z.core, calls, replies)
            && var reply := Execute(z.core, "STATUS?", env).reply;
               reply.Some? && D.StatusOf(reply.value) == D.Ok(PredictedAll(ReadingOf(y.core), calls, LimitsOf(y.core)))
  {
    WireIsLines(calls);
    replies := Progress(y, actions, calls, true);
    VisibleIsFree(y.core.net.ip);
    StatusReads(Run(y, actions).core, env);
  }
}
