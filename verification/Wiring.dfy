/** The driver's transport on the sketch's own output, in one run: connecting,
    synchronising, and any conversation after that. */
module Wiring {
  import opened Ascii
  import opened Control
  import opened System
  import opened Script
  import opened TransportFacts
  import opened Provenance
  import D = Driver
  import EndToEnd
  import N = Transport
  import Replies

  /** The lines a connection was sent between two states of a run. */
  function Heard(y: Sys, z: Sys, dst: Source): (r: seq<string>)
    requires |TextsTo(y.out, dst)| <= |TextsTo(z.out, dst)|
  {
    TextsTo(z.out, dst)[|TextsTo(y.out, dst)|..]
  }

  // ---------------------------------------------------------------- lines

  lemma ShownIsLine(line: string)
    requires EndToEnd.Shown(line)
    ensures LineText(line)
  {}

  lemma FittingIsLine(call: Call, reply: string)
    requires Fits(call, reply)
    ensures LineText(reply)
  {
    ShownIsLine(reply);
  }

  lemma GreetingIsPlain(s: State)
    ensures Greets(Greeting(s))
  {
    var g := Greeting(s);
    ShownIsLine(g[0]);
    ShownIsLine(g[1]);
    assert g[0][3] == 'N' && g[1][3] != 'P' && "OK PONG"[3] == 'P';
  }

  /** A new client hears the two greeting lines first. */
  lemma AcceptGreets(y: Sys)
    ensures TextsTo(Accept(y).out, Tcp(y.accepted)) == TextsTo(y.out, Tcp(y.accepted)) + Greeting(y.core)
  {
    var dst, g := Tcp(y.accepted), Greeting(y.core);
    var one := y.out + [Output(dst, g[0])];
    TextsSnoc(y.out, Output(dst, g[0]), dst);
    TextsSnoc(one, Output(dst, g[1]), dst);
    assert one + [Output(dst, g[1])] == y.out + [Output(dst, g[0]), Output(dst, g[1])];
    assert (TextsTo(y.out, dst) + [g[0]]) + [g[1]] == TextsTo(y.out, dst) + g;
  }

  function Texts(calls: seq<Call>): (r: seq<string>)
    requires AllSendable(calls)
    ensures |r| == |calls| && forall i :: 0 <= i < |calls| ==> r[i] == Text(calls[i])
  {
    seq(|calls|, i requires 0 <= i < |calls| => Text(calls[i]))
  }

  lemma TextIsSendable(call: Call)
    requires Sendable(call)
    ensures N.SingleLine(Text(call)) && N.IsAscii(Text(call))
  {
    CallLine(call);
  }

  lemma {:induction false} SentIsWire(calls: seq<Call>)
    requires AllSendable(calls)
    ensures SentText(Texts(calls)) == Wire(calls)
  {
    if calls == [] {
    } else {
      var init := calls[..|calls| - 1];
      SentIsWire(init);
      assert Texts(calls)[..|calls| - 1] == Texts(init);
    }
  }

  // ---------------------------------------------------------------- connecting

  /** The sketch accepts a client that sends PING and then `calls`: what the client
      hears is the greeting, the pong, and one reply per call. */
  lemma HeardInOrder(y: Sys, actions: seq<Action>, calls: seq<Call>, alone: bool) returns (replies: seq<string>)
    requires Framed(y) && EndToEnd.Visible(y.core.net.ip)
    requires Undisturbed(actions, alone) && NoDisarm(Accept(y), actions)
    requires AllSendable(calls) && Permitted(y.core.sim.armed, [Call.Ping] + calls)
    requires Typed(actions) == Wire([Call.Ping] + calls)
    ensures var z, dst := Run(Accept(y), actions), Tcp(y.accepted);
            && |TextsTo(y.out, dst)| <= |TextsTo(z.out, dst)|
            && Heard(y, z, dst) == Greeting(y.core) + ["OK PONG"] + replies
            && AllFit(calls, replies)
    ensures alone ==> AsPredicted(y.core, Run(Accept(y), actions).core, [Call.Ping] + calls, ["OK PONG"] + replies)
  {
    var all := [Call.Ping] + calls;
    WireIsLines(all);
    var answers := Progress(Accept(y), actions, all, alone);
    AcceptGreets(y);
    replies := answers[1..];
    PongFirst(calls, answers);
    HeardFrom(y, Run(Accept(y), actions), Tcp(y.accepted), Greeting(y.core), answers);
    PongMoves(Greeting(y.core), replies);
  }

  lemma PongFirst(calls: seq<Call>, answers: seq<string>)
    requires AllFit([Call.Ping] + calls, answers)
    ensures answers == ["OK PONG"] + answers[1..] && AllFit(calls, answers[1..])
  {
    PingFits([Call.Ping] + calls, answers);
    FirstOf(answers);
    RestFits(calls, answers);
  }

  lemma PingFits(calls: seq<Call>, answers: seq<string>)
    requires AllFit(calls, answers) && calls != [] && calls[0] == Call.Ping
    ensures answers != [] && answers[0] == "OK PONG"
  {
    assert Fits(calls[0], answers[0]);
  }

  lemma FirstOf(answers: seq<string>)
    requires answers != []
    ensures answers == [answers[0]] + answers[1..]
  {}

  lemma RestFits(calls: seq<Call>, answers: seq<string>)
    requires AllFit([Call.Ping] + calls, answers)
    ensures AllFit(calls, answers[1..])
  {
    forall i | 0 <= i < |calls| ensures Fits(calls[i], answers[1..][i]) { FitsNext(Call.Ping, calls, answers, i); }
  }

  lemma FitsNext(first: Call, calls: seq<Call>, answers: seq<string>, i: nat)
    requires AllFit([first] + calls, answers) && i < |calls|
    ensures Fits(calls[i], answers[1..][i])
  {
    NextOf(first, calls, i);
    FitsAt([first] + calls, answers, i + 1);
  }

  lemma NextOf<T>(first: T, rest: seq<T>, i: nat)
    requires i < |rest|
    ensures ([first] + rest)[i + 1] == rest[i]
  {}

  lemma PongMoves(greeting: seq<string>, replies: seq<string>)
    ensures greeting + (["OK PONG"] + replies) == greeting + ["OK PONG"] + replies
  {}

  lemma HeardFrom(y: Sys, z: Sys, dst: Source, greeting: seq<string>, answers: seq<string>)
    requires TextsTo(z.out, dst) == (TextsTo(y.out, dst) + greeting) + answers
    ensures |TextsTo(y.out, dst)| <= |TextsTo(z.out, dst)| && Heard(y, z, dst) == greeting + answers
  {}

  lemma {:induction false} OnWireAppend(a: seq<string>, b: seq<string>)
    ensures OnWire(a + b) == OnWire(a) + OnWire(b)
  {
    WireSplits(a + b, |a|);
    assert (a + b)[..|a|] == a && (a + b)[|a|..] == b;
  }

  lemma GreetingOnWire(greeting: seq<string>, replies: seq<string>)
    ensures OnWire(greeting + ["OK PONG"] + replies) == OnWire(greeting) + ("OK PONG" + "\r\n" + OnWire(replies))
  {
    OnWireAppend(greeting + ["OK PONG"], replies);
    OnWireAppend(greeting, ["OK PONG"]);
    OnWireCons("OK PONG", []);
    assert [] + ["OK PONG"] == ["OK PONG"] == ["OK PONG"] + [];
    assert OnWire([]) == "";
    Regrouped(OnWire(greeting), "OK PONG" + "\r\n" + "", OnWire(replies));
    assert "OK PONG" + "\r\n" + "" == "OK PONG" + "\r\n";
  }

  /** Connecting: the driver records exactly the two greeting lines, and what is
      left on the stream is exactly the replies to what comes after PING. */
  lemma ConnectAligns(y: Sys, z: Sys, link: N.Link, replies: seq<string>)
    requires |TextsTo(y.out, Tcp(y.accepted))| <= |TextsTo(z.out, Tcp(y.accepted))|
    requires Heard(y, z, Tcp(y.accepted)) == Greeting(y.core) + ["OK PONG"] + replies
    requires Stream(link) == OnWire(Heard(y, z, Tcp(y.accepted))) && N.Send(link, "PING\n").1
    ensures var r := N.Sync(link);
            && r.1 == Greeting(y.core) && r.2 == None && Stream(r.0) == OnWire(replies)
            && r.0.sent == link.sent + "PING\n" && r.0.sends == N.Send(link, "PING\n").0.sends
  {
    GreetingOnWire(Greeting(y.core), replies);
    GreetingIsPlain(y.core);
    SyncAligns(link, Greeting(y.core), OnWire(replies));
    SyncSends(link);
  }

  lemma SyncSends(link: N.Link)
    requires N.Send(link, "PING\n").1
    ensures N.Sync(link).0.sent == link.sent + "PING\n" && N.Sync(link).0.sends == N.Send(link, "PING\n").0.sends
  {
    AwaitIsStream(N.Send(link, "PING\n").0, N.SYNC_LINES, []);
  }

  // ---------------------------------------------------------------- conversations

  /** A script over any open link, whatever was sent on it before: every call of
      `command` returns its own reply and the stream is left as it should be. */
  lemma ScriptAnswers(s: N.State, calls: seq<Call>, replies: seq<string>, rest: string)
    requires AllSendable(calls) && AllFit(calls, replies)
    requires s.link.Some? && SendsWork(s.link.value.sends, |calls|) && Stream(s.link.value) == OnWire(replies) + rest
    ensures var r := Exchange(s, Texts(calls));
            && r.1 == AllOk(replies) && r.0.link.Some? && r.0.greeting == s.greeting
            && Stream(r.0.link.value) == rest && r.0.link.value.sent == s.link.value.sent + Wire(calls)
  {
    CallsMatch(calls, replies);
    RepliesAlign(s, Texts(calls), replies, rest);
    SentIsWire(calls);
  }

  lemma CallsMatch(calls: seq<Call>, replies: seq<string>)
    requires AllSendable(calls) && AllFit(calls, replies)
    ensures Matched(Texts(calls), replies)
  {
    forall i | 0 <= i < |calls| ensures Exchangeable(Texts(calls)[i], replies[i]) {
      TextIsSendable(calls[i]);
      FittingIsLine(calls[i], replies[i]);
    }
  }

  /** A transport that has not connected yet, with a peer that will accept it. */
  predicate Unopened(s: N.State, incoming: seq<N.Recv>) {
    s.link == None && s.attempts != [] && s.attempts[0] == N.Accepted(incoming, [])
  }

  lemma ConnectOpens(s: N.State, incoming: seq<N.Recv>, greeting: seq<string>, rest: string)
    requires Unopened(s, incoming)
    requires var r := N.Sync(N.Link("", incoming, [], "")); r.1 == greeting && r.2 == None && Stream(r.0) == rest
    ensures var c := N.Connect(s);
            && c.1 == None && c.0.greeting == greeting && c.0.link.Some? && Stream(c.0.link.value) == rest
            && c.0.link.value.sent == "PING\n" && c.0.link.value.sends == []
  {
    SyncSends(N.Link("", incoming, [], ""));
  }

  /** The whole story, over one run of the sketch and from a transport that was never
      opened. A client is accepted, whatever else happens on the UART and the USB
      side, in any chunks in both directions, as long as nobody else disarms the
      device. If the bytes the sketch receives are those the driver sends, and the
      bytes the driver receives are those the sketch prints: `connect` succeeds and
      records the greeting; every call returns its own reply; nothing is left on the
      stream; and the driver has sent exactly what the sketch has read. */
  lemma ConnectAndTalk(y: Sys, actions: seq<Action>, calls: seq<Call>, alone: bool, s: N.State, incoming: seq<N.Recv>)
    returns (replies: seq<string>)
    requires Framed(y) && EndToEnd.Visible(y.core.net.ip)
    requires Undisturbed(actions, alone) && NoDisarm(Accept(y), actions)
    requires AllSendable(calls) && Permitted(y.core.sim.armed, [Call.Ping] + calls)
    requires Typed(actions) == Wire([Call.Ping] + calls) && Unopened(s, incoming)
    requires var z, dst := Run(Accept(y), actions), Tcp(y.accepted);
             |TextsTo(y.out, dst)| <= |TextsTo(z.out, dst)| ==> Ahead(incoming) == OnWire(Heard(y, z, dst))
    ensures AllFit(calls, replies)
    ensures N.Connect(s).1 == None && N.Connect(s).0.greeting == Greeting(y.core)
    ensures var r := Exchange(N.Connect(s).0, Texts(calls));
            && r.1 == AllOk(replies) && r.0.greeting == Greeting(y.core) && r.0.link.Some?
            && Stream(r.0.link.value) == "" && r.0.link.value.sent == Typed(actions)
    ensures alone ==> AsPredicted(y.core, Run(Accept(y), actions).core, [Call.Ping] + calls, ["OK PONG"] + replies)
  {
    var z := Run(Accept(y), actions);
    replies := HeardInOrder(y, actions, calls, alone);
    var link := N.Link("", incoming, [], "");
    assert Stream(link) == Ahead(incoming);
    ConnectAligns(y, z, link, replies);
    ConnectOpens(s, incoming, Greeting(y.core), OnWire(replies));
    assert OnWire(replies) + "" == OnWire(replies);
    ScriptAnswers(N.Connect(s).0, calls, replies, "");
    WireFromPing(calls);
  }

  lemma {:induction false} SentAppend(a: seq<string>, b: seq<string>)
    ensures SentText(a + b) == SentText(a) + SentText(b)
  {
    if b == [] {
      assert a + b == a && SentText(a) + SentText(b) == SentText(a);
    } else {
      var init, last := b[..|b| - 1], b[|b| - 1];
      SentAppend(a, init);
      assert (a + b)[..|a + b| - 1] == a + init && (a + b)[|a + b| - 1] == last;
      Regrouped(SentText(a), SentText(init), last + "\n");
    }
  }

  lemma WireFromPing(calls: seq<Call>)
    requires AllSendable(calls)
    ensures Wire([Call.Ping] + calls) == "PING\n" + Wire(calls)
  {
    SentIsWire([Call.Ping] + calls);
    SentIsWire(calls);
    TextsFromPing(calls);
    SentAppend(["PING"], Texts(calls));
    SentPing();
  }

  lemma TextsFromPing(calls: seq<Call>)
    requires AllSendable(calls)
    ensures Texts([Call.Ping] + calls) == ["PING"] + Texts(calls)
  {}

  lemma SentPing()
    ensures SentText(["PING"]) == "PING\n"
  {
    assert ["PING"][..0] == [];
    assert SentText([]) + ("PING" + "\n") == "PING\n";
  }

  /** The client's bytes and nothing else. */
  function JustBytes(text: string, env: Env): (r: seq<Action>)
    ensures |r| == |text| && forall i :: 0 <= i < |r| ==> r[i] == NetByte(text[i], env)
  {
    seq(|text|, i requires 0 <= i < |text| => NetByte(text[i], env))
  }

  lemma {:induction false} JustBytesAreTyped(y: Sys, text: string, env: Env)
    requires Framed(y)
    ensures Typed(JustBytes(text, env)) == text && NoDisarm(y, JustBytes(text, env))
  {
    if text == "" {
    } else {
      var init := text[..|text| - 1];
      JustBytesAreTyped(y, init, env);
      assert JustBytes(text, env)[..|text| - 1] == JustBytes(init, env);
    }
  }

  /** Every conversation takes place: from every state, for all calls, there are a run
      of the sketch and a transport as `ConnectAndTalk` supposes them. */
  lemma ConversationsHappen(y: Sys, calls: seq<Call>, env: Env)
    returns (actions: seq<Action>, s: N.State, incoming: seq<N.Recv>)
    requires Framed(y) && AllSendable(calls)
    ensures Undisturbed(actions, true) && NoDisarm(Accept(y), actions)
    ensures Typed(actions) == Wire([Call.Ping] + calls) && Unopened(s, incoming)
    ensures var z, dst := Run(Accept(y), actions), Tcp(y.accepted);
            |TextsTo(y.out, dst)| <= |TextsTo(z.out, dst)| ==> Ahead(incoming) == OnWire(Heard(y, z, dst))
  {
    actions := JustBytes(Wire([Call.Ping] + calls), env);
    JustBytesAreTyped(Accept(y), Wire([Call.Ping] + calls), env);
    var z, dst := Run(Accept(y), actions), Tcp(y.accepted);
    incoming := [];
    if |TextsTo(y.out, dst)| <= |TextsTo(z.out, dst)| {
      incoming := [N.Chunk(OnWire(Heard(y, z, dst)))];
      OneChunk(OnWire(Heard(y, z, dst)));
    }
    s := N.State(None, [], [N.Accepted(incoming, [])]);
  }

  lemma OneChunk(text: string)
    ensures Ahead([N.Chunk(text)]) == text
  {
    assert [N.Chunk(text)][1..] == [];
  }

  /** A test as it is written against the driver: connect, which asks for the identity and
      compares it, arm, any setters, and a last `status()`. For a client that is alone,
      every call succeeds, the identity is the one that `connect` demands, and the status
      read at the end is the client's prediction from the state before. */
  lemma ArmSetAndRead(y: Sys, actions: seq<Action>, lease: Option<int>, setters: seq<D.Setter>, s: N.State,
                      incoming: seq<N.Recv>) returns (replies: seq<string>)
    requires Framed(y) && EndToEnd.Visible(y.core.net.ip) && AllSendable(Session(lease, setters))
    requires Undisturbed(actions, true) && NoDisarm(Accept(y), actions)
    requires Typed(actions) == Wire([Call.Ping] + Session(lease, setters)) && Unopened(s, incoming)
    requires var z, dst := Run(Accept(y), actions), Tcp(y.accepted);
             |TextsTo(y.out, dst)| <= |TextsTo(z.out, dst)| ==> Ahead(incoming) == OnWire(Heard(y, z, dst))
    ensures N.Connect(s).1 == None && N.Connect(s).0.greeting == Greeting(y.core)
    ensures Exchange(N.Connect(s).0, Texts(Session(lease, setters))).1 == AllOk(replies)
    ensures |replies| == |setters| + 3 && D.StripOk(replies[0]) == D.Ok("NutUPS HID Simulator v2")
            && replies[1] == "OK armed"
    ensures forall i :: 2 <= i < |setters| + 2 ==> replies[i] == "OK"
    ensures D.StatusOf(replies[|setters| + 2])
            == D.Ok(PredictedAll(EndToEnd.ReadingOf(y.core), [Call.Ping, Identify, ArmOn(lease)] + Assigns(setters),
                                 EndToEnd.LimitsOf(y.core)))
  {
    var calls := Session(lease, setters);
    SessionPermitted(y.core.sim.armed, lease, setters);
    replies := ConnectAndTalk(y, actions, calls, true, s, incoming);
    SessionReplies(lease, setters, replies);
    LastStatus(y.core, Run(Accept(y), actions).core, lease, setters, replies);
  }

  lemma SessionReplies(lease: Option<int>, setters: seq<D.Setter>, replies: seq<string>)
    requires AllFit(Session(lease, setters), replies)
    ensures |replies| == |setters| + 3 && replies[1] == "OK armed"
    ensures D.StripOk(replies[0]) == D.Ok("NutUPS HID Simulator v2")
    ensures forall i :: 2 <= i < |setters| + 2 ==> replies[i] == "OK"
  {
    var calls := Session(lease, setters);
    FitsAt(calls, replies, 0);
    FitsAt(calls, replies, 1);
    IdentityIsRead();
    forall i | 2 <= i < |setters| + 2 ensures replies[i] == "OK" { FitsAt(calls, replies, i); }
  }

  lemma IdentityIsRead()
    ensures D.StripOk("OK NutUPS HID Simulator v2") == D.Ok("NutUPS HID Simulator v2")
  {
    var line, payload := "OK NutUPS HID Simulator v2", "NutUPS HID Simulator v2";
    D.StripClean(line);
    Replies.OkSplits(line, payload);
    Replies.Branches(line);
  }

  lemma FitsAt(calls: seq<Call>, replies: seq<string>, i: nat)
    requires AllFit(calls, replies) && i < |calls|
    ensures calls[i].Identify? ==> replies[i] == "OK NutUPS HID Simulator v2"
    ensures calls[i].ArmOn? ==> replies[i] == "OK armed"
    ensures calls[i].Assign? ==> replies[i] == "OK"
  {
    assert Fits(calls[i], replies[i]);
  }

  lemma PredictedAt(y: State, z: State, calls: seq<Call>, replies: seq<string>, i: nat)
    requires AsPredicted(y, z, calls, replies) && i < |calls| && calls[i].AskStatus?
    ensures D.StatusOf(replies[i]) == D.Ok(PredictedAll(EndToEnd.ReadingOf(y), calls[..i], EndToEnd.LimitsOf(y)))
  {
    PredictedFor(EndToEnd.ReadingOf(y), EndToEnd.LimitsOf(y), calls, replies, i);
  }

  lemma PredictedFor(r: D.Status, limits: EndToEnd.Limits, calls: seq<Call>, replies: seq<string>, i: nat)
    requires StatusesFit(r, limits, calls, replies) && i < |calls| && calls[i].AskStatus?
    ensures D.StatusOf(replies[i]) == D.Ok(PredictedAll(r, calls[..i], limits))
  {
    StatusAt(r, limits, calls, replies, i);
  }

  lemma SessionSlices(lease: Option<int>, setters: seq<D.Setter>)
    ensures var all, n := [Call.Ping] + Session(lease, setters), |setters| + 3;
            all[n] == AskStatus && all[..n] == [Call.Ping, Identify, ArmOn(lease)] + Assigns(setters)
  {}

  lemma LastStatus(y: State, z: State, lease: Option<int>, setters: seq<D.Setter>, replies: seq<string>)
    requires |replies| == |setters| + 3
    requires AsPredicted(y, z, [Call.Ping] + Session(lease, setters), ["OK PONG"] + replies)
    ensures D.StatusOf(replies[|setters| + 2])
            == D.Ok(PredictedAll(EndToEnd.ReadingOf(y), [Call.Ping, Identify, ArmOn(lease)] + Assigns(setters),
                                 EndToEnd.LimitsOf(y)))
  {
    SessionSlices(lease, setters);
    PredictedAt(y, z, [Call.Ping] + Session(lease, setters), ["OK PONG"] + replies, |setters| + 3);
  }

  function Assigns(setters: seq<D.Setter>): (r: seq<Call>)
    ensures |r| == |setters| && forall i :: 0 <= i < |r| ==> r[i] == Assign(setters[i])
  {
    seq(|setters|, i requires 0 <= i < |setters| => Assign(setters[i]))
  }

  function Session(lease: Option<int>, setters: seq<D.Setter>): (r: seq<Call>)
    ensures |r| == |setters| + 3 && r[0] == Identify && r[1] == ArmOn(lease) && r[|setters| + 2] == AskStatus
    ensures forall i :: 2 <= i < |setters| + 2 ==> r[i] == Assign(setters[i - 2])
  {
    [Identify, ArmOn(lease)] + Assigns(setters) + [AskStatus]
  }

  lemma {:induction false} SettersPermitted(armed: bool, lease: Option<int>, setters: seq<D.Setter>)
    ensures var calls := [Call.Ping, Identify, ArmOn(lease)] + Assigns(setters);
            Permitted(armed, calls) && ArmedAfter(armed, calls)
  {
    var calls := [Call.Ping, Identify, ArmOn(lease)] + Assigns(setters);
    if setters == [] {
      assert calls[..2] == [Call.Ping, Identify] && calls[..2][..1] == [Call.Ping] && calls[..2][..1][..0] == [];
      assert Permitted(armed, [Call.Ping][..0]) && Permitted(armed, [Call.Ping, Identify][..1]);
    } else {
      var n := |setters| - 1;
      SettersPermitted(armed, lease, setters[..n]);
      assert calls[..|calls| - 1] == [Call.Ping, Identify, ArmOn(lease)] + Assigns(setters[..n]);
    }
  }

  lemma SessionPermitted(armed: bool, lease: Option<int>, setters: seq<D.Setter>)
    ensures Permitted(armed, [Call.Ping] + Session(lease, setters))
  {
    SettersPermitted(armed, lease, setters);
    var all := [Call.Ping] + Session(lease, setters);
    assert all[..|all| - 1] == [Call.Ping, Identify, ArmOn(lease)] + Assigns(setters);
  }
}
