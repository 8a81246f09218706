/** Report batches: what reaches the host, and what the snapshot remembers. */
module ReportLog {
  import opened Ascii
  import opened Words
  import opened Control
  import opened System
  import Safety
  import HidSetup
  import Registry

  /** One bit below the others. */
  lemma LowestBit(b: bool, rest: nat)
    ensures (Bit(b) + 2 * rest) / 2 == rest && ((Bit(b) + 2 * rest) % 2 == 1 <==> b)
  {}

  lemma LowBits(b0: bool, b1: bool, b2: bool, b3: bool, high: nat)
    requires high < 16
    ensures var x := Bit(b0) + 2 * Bit(b1) + 4 * Bit(b2) + 8 * Bit(b3) + 16 * high;
            BitOf(x, 1) == b0 && BitOf(x, 2) == b1 && BitOf(x, 4) == b2 && BitOf(x, 8) == b3
  {
    var n3 := Bit(b3) + 2 * high;
    var n2 := Bit(b2) + 2 * n3;
    var n1 := Bit(b1) + 2 * n2;
    LowestBit(b0, n1);
    LowestBit(b1, n2);
    LowestBit(b2, n3);
    LowestBit(b3, high);
    var x: int := Bit(b0) + 2 * n1;
    assert x / 2 == n1 && x / 4 == n1 / 2 == n2 && x / 8 == n2 / 2 == n3;
  }

  lemma HighBits(low: nat, b4: bool, b5: bool, b6: bool, b7: bool)
    requires low < 16
    ensures var x := low + 16 * Bit(b4) + 32 * Bit(b5) + 64 * Bit(b6) + 128 * Bit(b7);
            BitOf(x, 16) == b4 && BitOf(x, 32) == b5 && BitOf(x, 64) == b6 && BitOf(x, 128) == b7
  {
    var n6 := Bit(b6) + 2 * Bit(b7);
    var n5 := Bit(b5) + 2 * n6;
    var n4 := Bit(b4) + 2 * n5;
    LowestBit(b4, n5);
    LowestBit(b5, n6);
    LowestBit(b6, Bit(b7));
    var x: int := low + 16 * n4;
    assert x / 16 == n4 && x / 32 == n4 / 2 == n5 && x / 64 == n5 / 2 == n6 && x / 128 == n6 / 2 == Bit(b7);
  }

  lemma BitsOfByte(b0: bool, b1: bool, b2: bool, b3: bool, b4: bool, b5: bool, b6: bool, b7: bool)
    ensures var x := Bit(b0) + 2 * Bit(b1) + 4 * Bit(b2) + 8 * Bit(b3)
                     + 16 * Bit(b4) + 32 * Bit(b5) + 64 * Bit(b6) + 128 * Bit(b7);
            && BitOf(x, 1) == b0 && BitOf(x, 2) == b1 && BitOf(x, 4) == b2 && BitOf(x, 8) == b3
            && BitOf(x, 16) == b4 && BitOf(x, 32) == b5 && BitOf(x, 64) == b6 && BitOf(x, 128) == b7
  {
    LowBits(b0, b1, b2, b3, Bit(b4) + 2 * Bit(b5) + 4 * Bit(b6) + 8 * Bit(b7));
    HighBits(Bit(b0) + 2 * Bit(b1) + 4 * Bit(b2) + 8 * Bit(b3), b4, b5, b6, b7);
  }

  /** The two status bytes determine every status bit, so comparing words (as the
      sketch does) is comparing bits. */
  lemma StatusRoundTrip(p: PresentStatus)
    ensures StatusOfBytes(StatusBytes(p)) == p
  {
    BitsOfByte(p.charging, p.discharging, p.acPresent, p.batteryPresent,
               p.belowRemainingCapacityLimit, p.remainingTimeLimitExpired,
               p.needReplacement, p.voltageNotRegulated);
    BitsOfByte(p.fullyCharged, p.fullyDischarged, p.shutdownRequested, p.shutdownImminent,
               p.communicationLost, p.overload, false, false);
  }

  // ---------------------------------------------------------------- attempts

  /** Whatever the endpoint refuses, an attempt leaves a prefix of the seven
      reports behind, and all of it when every report was accepted. */
  lemma {:induction false} AttemptIsPrefix(reports: seq<seq<byte>>, usb: seq<SendOutcome>, i: nat)
    requires i <= |reports| && forall k :: 0 <= k < |reports| ==> reports[k] != []
    ensures var b := SendFrom(reports, usb, i);
            && b.bytes <= Flatten(reports[i..])
            && (b.complete ==> b.bytes == Flatten(reports[i..]))
            && (b.complete <==> forall k :: i <= k < |reports| ==> Accepts(Answer(usb, k), reports[k]))
    decreases |reports| - i
  {
    if i < |reports| {
      assert reports[i..][0] == reports[i] && reports[i..][1..] == reports[i + 1..];
      if Accepts(Answer(usb, i), reports[i]) {
        AttemptIsPrefix(reports, usb, i + 1);
      } else {
        assert Queued(Answer(usb, i), reports[i]) <= reports[i];
      }
    }
  }

  /** Seven texts one after the other, and where each of them starts. */
  lemma FlattenSeven(r: seq<seq<byte>>)
    requires |r| == 7
    ensures Flatten(r) == r[0] + (r[1] + (r[2] + (r[3] + (r[4] + (r[5] + (r[6] + []))))))
  {
    FlattenFrom(r, 0);
    FlattenFrom(r, 1);
    FlattenFrom(r, 2);
    FlattenFrom(r, 3);
    FlattenFrom(r, 4);
    FlattenFrom(r, 5);
    FlattenFrom(r, 6);
    assert r[0..] == r && r[7..] == [];
    assert Flatten(r[7..]) == [];
  }

  lemma Pieces(a: seq<byte>, b: seq<byte>, c: seq<byte>, rest: seq<byte>)
    requires |a| == 3 && |b| == 2 && |c| == 3
    ensures var all := a + (b + (c + rest));
            && |all| == 8 + |rest| && all[0] == a[0] && all[1..3] == a[1..]
            && all[3] == b[0] && all[4] == b[1]
            && all[5] == c[0] && all[6..8] == c[1..] && all[8..] == rest
  {}

  /** Layout of a full batch, as the host receives it. */
  lemma BatchLayout(s: State)
    ensures var b := Flatten(Reports(s));
            && |b| == 19
            && b[0] == 0x07 && b[1..3] == StatusBytes(s.status)
            && b[3] == 0x0C && b[4] == s.m.remaining
            && b[5] == 0x0D && IsWord(b, 6, s.m.runtime)
            && b[8] == 0x0B && IsWord(b, 9, s.m.voltage)
            && b[11] == 0x22 && b[12] == s.m.load
            && b[13] == 0x23 && IsWord(b, 14, s.m.inputVoltage)
            && b[16] == 0x24 && IsWord(b, 17, s.m.outputVoltage)
  {
    var r := Reports(s);
    FlattenSeven(r);
    Pieces(r[0], r[1], r[2], r[3] + (r[4] + (r[5] + (r[6] + []))));
    LastPieces(r[3], r[4], r[5], r[6]);
    assert r[0][1..] == StatusBytes(s.status);
    var b := Flatten(r);
    var tail := r[3] + (r[4] + (r[5] + (r[6] + [])));
    assert b[8..] == tail;
    assert forall k :: 0 <= k < 11 ==> b[8 + k] == tail[k];
  }

  /** A word, low byte first. */
  predicate IsWord(b: seq<byte>, i: nat, x: u16)
    requires i + 2 <= |b|
  {
    var low: int, high: int := b[i], b[i + 1];
    low + 256 * high == x
  }

  lemma LastPieces(d: seq<byte>, e: seq<byte>, f: seq<byte>, g: seq<byte>)
    requires |d| == 3 && |e| == 2 && |f| == 3 && |g| == 3
    ensures var t := d + (e + (f + (g + [])));
            && |t| == 11 && t[0] == d[0] && t[1] == d[1] && t[2] == d[2] && t[3] == e[0] && t[4] == e[1]
            && t[5] == f[0] && t[6] == f[1] && t[7] == f[2] && t[8] == g[0] && t[9] == g[1] && t[10] == g[2]
  {}

  lemma FlattenFrom(r: seq<seq<byte>>, i: nat)
    requires i < |r|
    ensures Flatten(r[i..]) == r[i] + Flatten(r[i + 1..])
  {
    assert r[i..][0] == r[i] && r[i..][1..] == r[i + 1..];
  }

  // ---------------------------------------------------------------- reports and features

  /** The variable each input report carries, with its size. */
  function Carried(id: u16): (r: Option<(HidSetup.Var, u16)>) {
    if id == 0x07 then Some((HidSetup.PresentStatusVar, 2))
    else if id == 0x0C then Some((HidSetup.Remaining, 1))
    else if id == 0x0D then Some((HidSetup.RunTimeToEmpty, 2))
    else if id == 0x0B then Some((HidSetup.Voltage, 2))
    else if id == 0x22 then Some((HidSetup.PercentLoad, 1))
    else if id == 0x23 then Some((HidSetup.InputVoltage, 2))
    else if id == 0x24 then Some((HidSetup.OutputVoltage, 2))
    else None
  }

  lemma CarriedIsRegistered(j: nat)
    requires j < |HidSetup.REGISTER_OPS| && HidSetup.REGISTER_OPS[j].Set?
    ensures var op := HidSetup.REGISTER_OPS[j];
            Carried(op.id).Some? ==> Carried(op.id) == Some((op.data, op.length)) && op.id in HidSetup.READ_ONLY
  {}

  lemma CarriedAt(id: u16) returns (k: nat)
    requires Carried(id).Some?
    ensures k < |HidSetup.REGISTER_OPS| && HidSetup.REGISTER_OPS[k].Set? && HidSetup.REGISTER_OPS[k].id == id
  {
    k := if id == 0x07 then 6 else if id == 0x0D then 7 else if id == 0x0B then 17 else if id == 0x22 then 18
         else if id == 0x23 then 19 else if id == 0x24 then 20 else 30;
  }

  lemma CarriedFeature(id: u16)
    requires Carried(id).Some?
    ensures Registry.Find(HidSetup.Table(), id) == Some(Registry.Entry(id, Carried(id).value.0, Carried(id).value.1, true))
  {
    Registry.ListIsMap(HidSetup.SETUP_OPS, id);
    HidSetup.RegisteredEarly(id);
    var k := CarriedAt(id);
    HidSetup.SetIsFound(HidSetup.REGISTER_OPS, k);
    var i := HidSetup.FoundIsSet(HidSetup.REGISTER_OPS, id);
    CarriedIsRegistered(i);
    var r :| 0 <= r < |HidSetup.READ_ONLY| && HidSetup.READ_ONLY[r] == id;
    HidSetup.ReadOnlyLocked(r);
  }

  lemma ReportCarries(s: State, i: nat)
    requires i < 7
    ensures var r := Reports(s)[i];
            Carried(r[0]).Some? && |r| == 1 + Carried(r[0]).value.1 && Store(s, Carried(r[0]).value.0, r[1..]) == s
  {
    var r := Reports(s)[i];
    assert r[1..] == if i == 0 then StatusBytes(s.status) else if i == 1 then [s.m.remaining]
      else if i == 2 then Bytes16(s.m.runtime) else if i == 3 then Bytes16(s.m.voltage)
      else if i == 4 then [s.m.load] else if i == 5 then Bytes16(s.m.inputVoltage) else Bytes16(s.m.outputVoltage);
    StatusRoundTrip(s.status);
    WordRoundTrip(s.m.runtime);
    WordRoundTrip(s.m.voltage);
    WordRoundTrip(s.m.inputVoltage);
    WordRoundTrip(s.m.outputVoltage);
  }

  /** Every input report agrees with the feature of the same id: the same size, a
      feature the host cannot write, and exactly the bytes that variable holds. */
  lemma ReportsMirrorFeatures(s: State, i: nat)
    requires i < 7
    ensures var r := Reports(s)[i];
            var e := Registry.Find(HidSetup.Table(), r[0]);
            e.Some? && e.value.lock && e.value.length == |r| - 1 && Store(s, e.value.data, r[1..]) == s
  {
    ReportCarries(s, i);
    CarriedFeature(Reports(s)[i][0]);
  }

  // ---------------------------------------------------------------- snapshot

  function LastComplete(tx: seq<Batch>): (r: Option<Batch>) {
    if tx == [] then None
    else if tx[|tx| - 1].complete then Some(tx[|tx| - 1])
    else LastComplete(tx[..|tx| - 1])
  }

  /** The remembered triple is the one the host last received in full, or the
      zeros the device started with. */
  ghost predicate SnapshotMatches(s: State) {
    match LastComplete(s.tx)
    case None => s.snap.status == NO_STATUS && s.snap.remaining == 0 && s.snap.runtime == 0
    case Some(b) =>
      && |b.bytes| == 19
      && StatusOfBytes(b.bytes[1..3]) == s.snap.status
      && b.bytes[4] == s.snap.remaining
      && Word16(b.bytes[6..8]) == s.snap.runtime
  }

  lemma LastCompleteSnoc(tx: seq<Batch>, b: Batch)
    ensures LastComplete(tx + [b]) == if b.complete then Some(b) else LastComplete(tx)
  {
    assert (tx + [b])[..|tx + [b]| - 1] == tx;
  }

  /** Effect of `sendUsbReports` on the log. An attempt is made when forced or
      when the triple differs from the snapshot; it queues a prefix of the batch,
      and an unforced call after which the triple still differs has failed. */
  lemma SendKeepsSnapshot(s: State, force: bool, env: Env)
    requires SnapshotMatches(s)
    ensures var t := SendReports(s, force, env);
            && SnapshotMatches(t)
            && (t.tx == s.tx || (|t.tx| == |s.tx| + 1 && t.tx[..|s.tx|] == s.tx
                                 && t.tx[|s.tx|].bytes <= Flatten(Reports(s))))
            && (force || Changed(s) ==> |t.tx| == |s.tx| + 1)
            && (Changed(t) ==> |t.tx| == |s.tx| + 1 && !t.tx[|s.tx|].complete && t.snap == s.snap)
  {
    var s1 := s.(now := s.now + env.beforeReport);
    assert Reports(s1) == Reports(s);
    var b := SendFrom(Reports(s), env.usb, 0);
    assert Reports(s)[0..] == Reports(s);
    AttemptIsPrefix(Reports(s), env.usb, 0);
    LastCompleteSnoc(s.tx, b);
    assert (s.tx + [b])[..|s.tx|] == s.tx;
    BatchLayout(s);
    StatusRoundTrip(s.status);
    WordRoundTrip(s.m.runtime);
  }

  /** The snapshot still matches, and attempts are only added to the log. */
  ghost predicate Kept(s: State, t: State) { SnapshotMatches(t) && s.tx <= t.tx }

  lemma CommitKeepsSnapshot(s: State, env: Env)
    requires SnapshotMatches(s)
    ensures Kept(s, Commit(s, env))
  {
    SendKeepsSnapshot(Update(s), true, env);
  }

  lemma FlagSnapshot(s: State, flag: Flag, arg: Option<string>, env: Env)
    requires SnapshotMatches(s)
    ensures Kept(s, DoFlag(s, flag, arg, env).s)
  {
    var v := ReadOnOff(arg);
    if v.Some? { CommitKeepsSnapshot(s.(sim := WithFlag(s.sim, flag, v.value)), env); }
  }

  lemma ModeSnapshot(s: State, charging: bool, arg: Option<string>, env: Env)
    requires SnapshotMatches(s)
    ensures Kept(s, DoMode(s, charging, arg, env).s)
  {
    var v := ReadOverride(arg);
    if v.Some? {
      if charging {
        CommitKeepsSnapshot(s.(sim := s.sim.(charging := v.value)), env);
      } else {
        CommitKeepsSnapshot(s.(sim := s.sim.(lowBattery := v.value)), env);
      }
    }
  }

  lemma NumberSnapshot(s: State, n: Number, arg: Option<string>, env: Env)
    requires SnapshotMatches(s)
    ensures Kept(s, DoNumber(s, n, arg, env).s)
  {
    var v := Decimal.ReadSigned(arg, Lowest(n), Highest(n));
    if v.Some? { CommitKeepsSnapshot(WithNumber(s, n, v.value), env); }
  }

  lemma RuntimeSnapshot(s: State, arg: Option<string>, env: Env)
    requires SnapshotMatches(s)
    ensures Kept(s, DoRuntime(s, arg, env).s)
  {
    if arg.Some? && StrCaseEq(arg.value, "AUTO") {
      CommitKeepsSnapshot(s.(sim := s.sim.(runtimeAuto := true)), env);
    } else {
      var v := Decimal.ReadSigned(arg, 0, 65535);
      if v.Some? {
        CommitKeepsSnapshot(s.(sim := s.sim.(runtimeAuto := false), m := s.m.(runtime := v.value)), env);
      }
    }
  }

  lemma GuardedSnapshot(s: State, k: Keyword, arg: Option<string>, env: Env)
    requires SnapshotMatches(s)
    ensures Kept(s, Guarded(s, k, arg, env).s)
  {
    if s.sim.armed {
      if k.SetFlag? {
        FlagSnapshot(s, k.flag, arg, env);
      } else if k.Charging? {
        ModeSnapshot(s, true, arg, env);
      } else if k.LowBat? {
        ModeSnapshot(s, false, arg, env);
      } else if k.SetNumber? {
        NumberSnapshot(s, k.number, arg, env);
      } else if k.Runtime? {
        RuntimeSnapshot(s, arg, env);
      }
    }
  }

  lemma ArmSnapshot(s: State, arg: Option<string>, arg2: Option<string>, env: Env)
    requires SnapshotMatches(s)
    ensures Kept(s, DoArm(s, arg, arg2, env).s)
  {
    CommitKeepsSnapshot(SafeState(s), env);
  }

  lemma QuerySnapshot(s: State, k: Keyword)
    requires SnapshotMatches(s) && IsQueryKind(k)
    ensures Kept(s, Query(s, k).s)
  {}

  lemma PerformSnapshot(s: State, k: Keyword, arg: Option<string>, arg2: Option<string>, env: Env)
    requires SnapshotMatches(s)
    ensures Kept(s, Perform(s, k, arg, arg2, env).s)
  {
    if IsQueryKind(k) {
      QuerySnapshot(s, k);
    } else if k.Arm? {
      ArmSnapshot(s, arg, arg2, env);
    } else if k.Reset? {
      CommitKeepsSnapshot(SafeState(s), env);
    } else if k.Report? {
      CommitKeepsSnapshot(s, env);
    } else {
      GuardedSnapshot(s, k, arg, env);
    }
  }

  lemma ExecuteSnapshot(s: State, buffer: string, env: Env)
    requires SnapshotMatches(s)
    ensures Kept(s, Execute(s, buffer, env).s)
  {
    var tokens := Split(CString(buffer), DELIMS);
    if tokens != [] {
      PerformSnapshot(Touch(s, env), KeywordOf(tokens[0]), Token(tokens, 1), Token(tokens, 2), env);
    }
  }

  lemma CheckSnapshot(s: State, env: Env)
    requires SnapshotMatches(s)
    ensures Kept(s, Check(s, env))
  {
    var t := s.now + env.beforeTouch;
    CommitKeepsSnapshot(SafeState(s.(now := t, checkedAt := t)), env);
  }

  lemma ReactSnapshot(s: State, e: Event)
    requires SnapshotMatches(s)
    ensures Kept(s, React(s, e))
  {
    match e
    case Checked(env) => CheckSnapshot(s, env);
    case Ran(_, text, env) => ExecuteSnapshot(s, text, env);
    case Overrun(_) =>
    case HostSet(w) => HostKeepsSnapshot(s, w);
    case Published(env) => SendKeepsSnapshot(Update(s), false, env);
  }

  lemma HostKeepsSnapshot(s: State, w: Registry.SetReport)
    requires SnapshotMatches(s)
    ensures Kept(s, HostWrite(s, w))
  {
    Safety.HostWriteKeepsOthers(s, w);
  }

  /** In every run, for any pattern of refusals, the snapshot is the triple of the
      last fully queued batch. */
  lemma {:induction false} SnapshotIsLastDelivered(net: Network, env: Env, actions: seq<Action>)
    ensures SnapshotMatches(Run(PowerUp(net, env), actions).core)
  {
    if actions == [] {
      CommitKeepsSnapshot(SafeState(PowerOn(net)), env);
    } else {
      SnapshotIsLastDelivered(net, env, actions[..|actions| - 1]);
      var z, a := Run(PowerUp(net, env), actions[..|actions| - 1]), actions[|actions| - 1];
      StepIsReact(z, a);
      if Added(z, a).Some? { ReactSnapshot(z.core, Added(z, a).value); }
    }
  }

  // ---------------------------------------------------------------- loop after loop

  lemma {:induction false} RunKeepsSnapshot(y: Sys, actions: seq<Action>)
    requires Framed(y) && SnapshotMatches(y.core)
    ensures Kept(y.core, Run(y, actions).core)
  {
    if actions == [] {
    } else {
      RunKeepsSnapshot(y, actions[..|actions| - 1]);
      var z, a := Run(y, actions[..|actions| - 1]), actions[|actions| - 1];
      StepIsReact(z, a);
      if Added(z, a).Some? { ReactSnapshot(z.core, Added(z, a).value); }
    }
  }

  /** The state in which one iteration of `loop` reaches its publishing phase. */
  function BeforePublish(y: Sys, input: LoopInput): (r: Sys)
    requires Framed(y)
    ensures Framed(r)
  {
    Run(y, [BeginLoop(input.begin)] + ConnectionActions(y.client, input)
           + NetActions(y.client, input) + Arrivals(false, input.uart))
  }

  lemma LoopPublishes(y: Sys, input: LoopInput)
    requires Framed(y)
    ensures Loop(y, input).core == Publish(BeforePublish(y, input).core, input.end)
  {
    var before := [BeginLoop(input.begin)] + ConnectionActions(y.client, input)
                  + NetActions(y.client, input) + Arrivals(false, input.uart);
    RunAppend(y, before, [EndLoop(input.end)]);
    RunOne(Run(y, before), EndLoop(input.end));
  }

  /** Every report of the batch is accepted at the end of the loop. */
  predicate EndpointAccepts(s: State, env: Env) {
    forall k :: 0 <= k < 7 ==> Accepts(Answer(env.usb, k), Reports(s)[k])
  }

  /** The publishing phase of any state: it ends with the triple delivered, or with
      an attempt that failed; and it cannot fail if the endpoint accepts. */
  lemma PublishDelivers(s: State, env: Env)
    requires SnapshotMatches(s)
    ensures var t := Publish(s, env);
            && Kept(s, t)
            && (Changed(t) ==> |t.tx| == |s.tx| + 1 && !t.tx[|s.tx|].complete)
            && (EndpointAccepts(Update(s), env) ==> !Changed(t))
  {
    SendKeepsSnapshot(Update(s), false, env);
    AttemptIsPrefix(Reports(Update(s)), env.usb, 0);
  }

  lemma LoopDelivers(y: Sys, input: LoopInput)
    requires Framed(y) && SnapshotMatches(y.core)
    ensures var z := Loop(y, input);
            && Kept(y.core, z.core)
            && (Changed(z.core) ==> |z.core.tx| > |y.core.tx| && !z.core.tx[|z.core.tx| - 1].complete)
            && (EndpointAccepts(Update(BeforePublish(y, input).core), input.end) ==> !Changed(z.core))
  {
    LoopPublishes(y, input);
    RunKeepsSnapshot(y, [BeginLoop(input.begin)] + ConnectionActions(y.client, input)
                        + NetActions(y.client, input) + Arrivals(false, input.uart));
    PublishDelivers(BeforePublish(y, input).core, input.end);
  }

  /** What two iterations in a row guarantee. */
  ghost predicate CurrentOrRetried(y: State, y1: State, y2: State) {
    && y.tx <= y1.tx <= y2.tx
    && (Changed(y1) ==> |y1.tx| > |y.tx| && !y1.tx[|y1.tx| - 1].complete)
    && (Changed(y1) ==> |y2.tx| > |y1.tx| || !Changed(y2))
    && SnapshotMatches(y2)
  }

  lemma TwoLoops(y: Sys, first: LoopInput, second: LoopInput)
    requires Framed(y) && SnapshotMatches(y.core)
    ensures var y1 := Loop(y, first);
            var y2 := Loop(y1, second);
            && CurrentOrRetried(y.core, y1.core, y2.core)
            && (EndpointAccepts(Update(BeforePublish(y1, second).core), second.end) ==> !Changed(y2.core))
  {
    LoopDelivers(y, first);
    LoopDelivers(Loop(y, first), second);
  }

  /** Over two consecutive iterations from every reachable state, whatever
      commands, host requests and refusals they contain: a triple that differs from
      the snapshot after the first means that its attempt failed; the second then
      logs another attempt, or finds the triple back at the snapshot; and as soon as
      the endpoint accepts a batch, the host has the triple of that moment. */
  lemma HostIsCurrentOrRetried(net: Network, env: Env, actions: seq<Action>, y: Sys, first: LoopInput, second: LoopInput)
    requires y == Run(PowerUp(net, env), actions)
    ensures var y1 := Loop(y, first);
            var y2 := Loop(y1, second);
            && CurrentOrRetried(y.core, y1.core, y2.core)
            && (EndpointAccepts(Update(BeforePublish(y1, second).core), second.end) ==> !Changed(y2.core))
  {
    SnapshotIsLastDelivered(net, env, actions);
    TwoLoops(y, first, second);
  }

  /** The second alternative does occur: between two loops the host turns the
      status word back by itself, and nothing is attempted. Here the device runs on
      battery with two minutes left; the delivered word said that the limit was not
      reached, a refused one that it was, and then the host lowers the limit. */
  lemma NothingToRetry(s: State, env: Env)
    requires s.status == s.snap.status && s.m.remaining == s.snap.remaining && s.m.runtime == s.snap.runtime
    requires s.status == Derive(s.sim, s.m, s.host.shutdownDelay, s.host.remainTimeLimit, s.host.remnLimit)
    requires !s.sim.acPresent && !s.sim.runtimeAuto && s.m.remaining > 0 && s.m.runtime == 120 && s.host.remainTimeLimit == 60
    requires U32(U32(s.now + env.beforeReport) - s.snap.lastReportMs) < 5000
    ensures var raised := Update(s.(host := s.host.(remainTimeLimit := 600)));
            && Changed(raised)
            && Publish(raised.(host := raised.host.(remainTimeLimit := 60)), env).tx == raised.tx
  {}

  // ---------------------------------------------------------------- what a change is

  /** The numbers that are reported and take no part in the change test. */
  predicate Unwatched(n: Number) { n.Load? || n.Voltage? || n.InputVoltage? || n.OutputVoltage? }

  /** The attempt that a command forces failed. */
  predicate Refused(s: State, t: State) { |t.tx| == |s.tx| + 1 && !t.tx[|s.tx|].complete }

  lemma PublishAttempts(s: State, env: Env)
    ensures var p := Publish(s, env);
            p.tx == s.tx <==> !Changed(Update(s)) && U32(U32(p.now) - s.snap.lastReportMs) < 5000
  {
    var u := Update(s);
    assert forall b: Batch :: s.tx + [b] != s.tx by {
      forall b: Batch ensures s.tx + [b] != s.tx { assert |s.tx + [b]| != |s.tx|; }
    }
  }

  lemma UnwatchedUnchanged(s: State, n: Number, v: int)
    requires Unwatched(n) && Lowest(n) <= v <= Highest(n)
    ensures Changed(Update(WithNumber(s, n, v))) <==> Changed(Update(s))
  {}

  /** A new load or voltage whose forced report was refused is not tried again before
      the five seconds are over: the host keeps the old value, and no loop in between
      makes up for it. */
  lemma RefusedVoltageWaits(s: State, n: Number, v: int, env: Env, later: Env)
    requires Unwatched(n) && Lowest(n) <= v <= Highest(n) && !Changed(Update(s))
    requires Refused(s, Commit(WithNumber(s, n, v), env))
    ensures var t := Commit(WithNumber(s, n, v), env);
            Publish(t, later).tx == t.tx <==> U32(U32(t.now + later.beforeReport) - s.snap.lastReportMs) < 5000
  {
    var w := WithNumber(s, n, v);
    var t := Commit(w, env);
    UnwatchedUnchanged(s, n, v);
    Safety.SendKeeps(Update(w), true, env);
    assert Update(Update(w)) == Update(w);
    SnapshotStays(Update(w), env);
    PublishAttempts(t, later);
  }

  lemma SnapshotStays(s: State, env: Env)
    requires Refused(s, SendReports(s, true, env))
    ensures SendReports(s, true, env).snap == s.snap
  {}

  /** A new battery level is tried again by the very next loop. */
  lemma RefusedBatteryRetries(s: State, v: int, env: Env, later: Env)
    requires 0 <= v <= 100 && v != s.snap.remaining
    requires Refused(s, Commit(WithNumber(s, Battery, v), env))
    ensures var t := Commit(WithNumber(s, Battery, v), env); Publish(t, later).tx != t.tx
  {
    var w := WithNumber(s, Battery, v);
    Safety.SendKeeps(Update(w), true, env);
    SnapshotStays(Update(w), env);
    PublishAttempts(Commit(w, env), later);
  }
}
