/** The start-up window: `setupHid` registers all features before it locks any of
    the read-only ones, and a host request may arrive in between. When does the
    device start safe all the same, and when can it still be made safe later? */
module SetupWindow {
  import opened Ascii
  import opened Words
  import opened Control
  import opened Registry
  import opened HidSetup
  import opened System
  import Decimal
  import EndToEnd
  import Safety

  /** What happens while `setupHid` runs: its own calls, and host requests. */
  datatype Moment = Did(op: Op<Var>) | Asked(request: SetReport)

  function CallsOf(moments: seq<Moment>): (r: seq<Op<Var>>) {
    if moments == [] then []
    else
      var m := moments[|moments| - 1];
      CallsOf(moments[..|moments| - 1]) + if m.Did? then [m.op] else []
  }

  /** A request against the feature list as far as it has been built. */
  function WriteVia(s: State, reg: seq<Entry<Var>>, w: SetReport): (r: State) {
    match Target(reg, w)
    case None => s
    case Some(e) => Store(s, e.data, Received(w)[1..])
  }

  function During(s: State, moments: seq<Moment>): (r: State) {
    if moments == [] then s
    else
      var init, m := moments[..|moments| - 1], moments[|moments| - 1];
      if m.Asked? then WriteVia(During(s, init), Apply([], CallsOf(init)), m.request) else During(s, init)
  }

  /** `setup` with whatever the host sends while the feature list is being built. */
  function SetupDuring(net: Network, moments: seq<Moment>, env: Env): (r: State) {
    SendReports(During(Update(SafeState(PowerOn(net))), moments), true, env)
  }

  /** Without requests it is `setup`. */
  lemma QuietIsSetup(net: Network, moments: seq<Moment>, env: Env)
    requires forall i :: 0 <= i < |moments| ==> moments[i].Did?
    ensures SetupDuring(net, moments, env) == Setup(net, env)
  {
    QuietMoments(Update(SafeState(PowerOn(net))), moments);
  }

  lemma {:induction false} QuietMoments(s: State, moments: seq<Moment>)
    requires forall i :: 0 <= i < |moments| ==> moments[i].Did?
    ensures During(s, moments) == s
  {
    if moments == [] {
    } else {
      QuietMoments(s, moments[..|moments| - 1]);
    }
  }

  /** The moments are those of one pass through `setupHid`. */
  predicate OnePass(moments: seq<Moment>) { CallsOf(moments) <= SETUP_OPS }

  lemma PassBefore(moments: seq<Moment>)
    requires moments != [] && OnePass(moments)
    ensures OnePass(moments[..|moments| - 1])
  {
    var init := moments[..|moments| - 1];
    assert CallsOf(init) <= CallsOf(moments);
  }

  // ---------------------------------------------------------------- acceptance

  /** The guard a request meets after `calls`: a well-formed Feature report for an
      id that is registered by then, with that length, and not locked. */
  predicate Accepted(calls: seq<Op<Var>>, w: SetReport) {
    && w.interfaceOk && w.reportType == 3
    && FirstSet(calls, w.id).Some? && !LastLock(calls, w.id)
    && w.wLength == FirstSet(calls, w.id).value.length + 1 && w.wLength <= 9
    && Received(w)[0] == w.id
  }

  /** The variable an accepted request writes. */
  function Written(calls: seq<Op<Var>>, w: SetReport): (r: Var)
    requires Accepted(calls, w)
  {
    FirstSet(calls, w.id).value.data
  }

  lemma WindowExactly(calls: seq<Op<Var>>, w: SetReport)
    ensures Target(Apply([], calls), w).Some? <==> Accepted(calls, w)
    ensures Accepted(calls, w) ==> Target(Apply([], calls), w).value.data == Written(calls, w)
  {
    ListIsMap(calls, w.id);
  }

  /** How many bytes a variable has. */
  function Width(v: Var): (n: nat) {
    match v
    case Product => 1
    case Serial => 1
    case Manufacturer => 1
    case Rechargeable => 1
    case CapacityMode => 1
    case PercentLoad => 1
    case ChemistryIndex => 1
    case ChemistryText => 4
    case VendorIndex => 1
    case VendorText => 16
    case AudibleAlarm => 1
    case DesignCapacity => 1
    case FullChargeCapacity => 1
    case Remaining => 1
    case WarnLimit => 1
    case RemnLimit => 1
    case Granularity1 => 1
    case Granularity2 => 1
    case _ => 2
  }

  lemma RegisteredWidth(j: nat)
    requires j < |REGISTER_OPS| && REGISTER_OPS[j].Set?
    ensures REGISTER_OPS[j].length == Width(REGISTER_OPS[j].data)
  {}

  lemma LocksComeLast(j: nat)
    requires |REGISTER_OPS| <= j < |SETUP_OPS|
    ensures SETUP_OPS[j].Lock?
  {
    assert SETUP_OPS[j] == LockAll(READ_ONLY)[j - |REGISTER_OPS|];
  }

  lemma SetsComeFirst(j: nat)
    requires j < |SETUP_OPS| && SETUP_OPS[j].Set?
    ensures j < |REGISTER_OPS| && SETUP_OPS[j] == REGISTER_OPS[j]
  {
    if j >= |REGISTER_OPS| { LocksComeLast(j); }
  }

  lemma WrittenWidth(calls: seq<Op<Var>>, w: SetReport)
    requires calls <= SETUP_OPS && Accepted(calls, w)
    ensures |Received(w)[1..]| == Width(Written(calls, w))
  {
    var i := FoundIsSet(calls, w.id);
    assert calls[i] == SETUP_OPS[i];
    SetsComeFirst(i);
    RegisteredWidth(i);
  }

  // ---------------------------------------------------------------- safe variables

  /** A variable holds what a safe device needs. */
  predicate SafeIn(s: State, v: Var) {
    match v
    case Remaining => s.m.remaining == 100
    case RunTimeToEmpty => s.m.runtime == 7200
    case Voltage => s.m.voltage == 1300
    case PercentLoad => s.m.load == 25
    case InputVoltage => s.m.inputVoltage == 23000
    case OutputVoltage => s.m.outputVoltage == 23000
    case AvgTimeToEmpty => s.m.avgTimeToEmpty == 7200
    case FullChargeCapacity => s.m.fullCharge == 100
    case PresentStatusVar => Safety.OnlineStatus(s.status)
    case _ => true
  }

  /** The bytes a variable may be given without harm. */
  predicate SafeBytes(v: Var, b: seq<byte>) {
    match v
    case Remaining => b == [100]
    case RunTimeToEmpty => b == Bytes16(7200)
    case Voltage => b == Bytes16(1300)
    case PercentLoad => b == [25]
    case InputVoltage => b == Bytes16(23000)
    case OutputVoltage => b == Bytes16(23000)
    case AvgTimeToEmpty => b == Bytes16(7200)
    case FullChargeCapacity => b == [100]
    case PresentStatusVar => |b| == 2 && Safety.OnlineStatus(StatusOfBytes(b))
    case _ => true
  }

  /** What a request cannot reach. */
  predicate Unarmed(s: State) { s.sim == SAFE_SIM && s.armLeaseMs == 0 && s.lastCommandMs == 0 }

  lemma SafeByVariable(s: State)
    ensures Safety.Safe(s) <==> Unarmed(s) && forall v :: SafeIn(s, v)
  {
    if forall v :: SafeIn(s, v) { NineVariables(s); }
  }

  lemma NineVariables(s: State)
    requires forall v :: SafeIn(s, v)
    ensures s.m == Safety.SAFE_MEASUREMENTS && Safety.OnlineStatus(s.status)
  {
    assert SafeIn(s, Remaining) && SafeIn(s, RunTimeToEmpty) && SafeIn(s, Var.Voltage);
    assert SafeIn(s, PercentLoad) && SafeIn(s, Var.InputVoltage) && SafeIn(s, Var.OutputVoltage);
    assert SafeIn(s, AvgTimeToEmpty) && SafeIn(s, FullChargeCapacity) && SafeIn(s, PresentStatusVar);
  }

  lemma OneWord(b: seq<byte>, x: u16)
    requires |b| == 2
    ensures Word16(b) == x <==> b == Bytes16(x)
  {}

  lemma StoreSafe(s: State, v: Var, b: seq<byte>)
    requires |b| == Width(v)
    ensures SafeIn(Store(s, v, b), v) <==> SafeBytes(v, b)
  {
    if |b| == 2 {
      OneWord(b, 7200);
      OneWord(b, 1300);
      OneWord(b, 23000);
    }
  }

  lemma StoreElsewhere(s: State, v: Var, b: seq<byte>, u: Var)
    requires u != v
    ensures SafeIn(Store(s, v, b), u) <==> SafeIn(s, u)
  {}

  lemma StoreMoves(s: State, v: Var, b: seq<byte>, u: Var)
    requires |b| == Width(v)
    ensures SafeIn(Store(s, v, b), u) <==> if u == v then SafeBytes(v, b) else SafeIn(s, u)
    ensures Unarmed(Store(s, v, b)) <==> Unarmed(s)
  {
    if u == v { StoreSafe(s, v, b); } else { StoreElsewhere(s, v, b, u); }
  }

  // ---------------------------------------------------------------- start-up

  /** The bytes of the last accepted request for a variable. */
  function LastWrite(moments: seq<Moment>, v: Var): (r: Option<seq<byte>>) {
    if moments == [] then None
    else
      var init, m := moments[..|moments| - 1], moments[|moments| - 1];
      if m.Asked? && Accepted(CallsOf(init), m.request) && Written(CallsOf(init), m.request) == v
      then Some(Received(m.request)[1..])
      else LastWrite(init, v)
  }

  /** The last request accepted for a variable, if there was one, left it safe. */
  predicate Harmless(moments: seq<Moment>, v: Var) {
    LastWrite(moments, v).Some? ==> SafeBytes(v, LastWrite(moments, v).value)
  }

  ghost predicate Tracks(s: State, t: State, moments: seq<Moment>, v: Var) {
    && (Unarmed(t) <==> Unarmed(s))
    && (SafeIn(t, v) <==> if LastWrite(moments, v).Some? then SafeBytes(v, LastWrite(moments, v).value) else SafeIn(s, v))
  }

  lemma RequestTracks(s: State, t: State, init: seq<Moment>, w: SetReport, v: Var)
    requires OnePass(init) && Tracks(s, t, init, v)
    ensures Tracks(s, WriteVia(t, Apply([], CallsOf(init)), w), init + [Asked(w)], v)
  {
    var calls := CallsOf(init);
    assert (init + [Asked(w)])[..|init|] == init;
    WindowExactly(calls, w);
    if Accepted(calls, w) {
      WrittenWidth(calls, w);
      StoreMoves(t, Written(calls, w), Received(w)[1..], v);
    }
  }

  /** After every moment of the start-up each variable is as its last accepted
      request left it. */
  lemma {:induction false} DuringTracks(s: State, moments: seq<Moment>, v: Var)
    requires OnePass(moments)
    ensures Tracks(s, During(s, moments), moments, v)
  {
    if moments == [] {
    } else {
      var init, m := moments[..|moments| - 1], moments[|moments| - 1];
      PassBefore(moments);
      DuringTracks(s, init, v);
      assert moments == init + [m];
      if m.Asked? { RequestTracks(s, During(s, init), init, m.request, v); }
    }
  }

  lemma SafeStart(net: Network)
    ensures Safety.Safe(Update(SafeState(PowerOn(net))))
  {
    assert AutoRuntime(SafeState(PowerOn(net)).m) == 7200;
  }

  lemma SendKeepsSafe(s: State, env: Env)
    ensures Safety.Safe(SendReports(s, true, env)) <==> Safety.Safe(s)
    ensures SendReports(s, true, env).m == s.m
  {
    Safety.SendKeeps(s, true, env);
  }

  /** Exactly when the device starts safe: for each variable the last request
      accepted during the start-up, if there was one, carried harmless bytes. */
  lemma StartsSafeExactly(net: Network, moments: seq<Moment>, env: Env)
    requires OnePass(moments)
    ensures Safety.Safe(SetupDuring(net, moments, env)) <==> forall v :: Harmless(moments, v)
  {
    var start := Update(SafeState(PowerOn(net)));
    var end := During(start, moments);
    SafeStart(net);
    SendKeepsSafe(end, env);
    SafeByVariable(start);
    SafeByVariable(end);
    forall v ensures SafeIn(end, v) <==> Harmless(moments, v) { DuringTracks(start, moments, v); }
    DuringTracks(start, moments, Product);
  }

  // ---------------------------------------------------------------- repair

  /** The device when `loop` is first entered. */
  function StartDuring(net: Network, moments: seq<Moment>, env: Env): (r: Sys)
    ensures Framed(r)
  {
    Sys(SetupDuring(net, moments, env), None, 0, "", "", [], [], [])
  }

  /** The two variables that `setSafeState` reads and never writes. */
  ghost predicate SameCalibration(s: State, t: State) {
    t.m.avgTimeToEmpty == s.m.avgTimeToEmpty && t.m.fullCharge == s.m.fullCharge
  }

  /** Restoring gives the safe state exactly if those two still have their values. */
  lemma RestoresExactly(s: State, env: Env)
    ensures Safety.Safe(Commit(SafeState(s), env)) <==> Safety.Calibrated(s)
  {
    Safety.SendKeeps(Update(SafeState(s)), true, env);
    if Safety.Calibrated(s) { Safety.SafeStateIsSafe(s, env); }
  }

  lemma CommitCalibration(s: State, force: bool, env: Env)
    ensures SameCalibration(s, SendReports(Update(s), force, env))
  {
    Safety.SendKeeps(Update(s), force, env);
  }

  lemma GuardedCalibration(s: State, k: Keyword, arg: Option<string>, env: Env)
    ensures SameCalibration(s, Guarded(s, k, arg, env).s)
  {
    if s.sim.armed {
      match k
      case SetFlag(f) => FlagCalibration(s, f, arg, env);
      case Charging => ModeCalibration(s, true, arg, env);
      case LowBat => ModeCalibration(s, false, arg, env);
      case SetNumber(n) => NumberCalibration(s, n, arg, env);
      case Runtime => RuntimeCalibration(s, arg, env);
      case _ =>
    }
  }

  lemma FlagCalibration(s: State, flag: Flag, arg: Option<string>, env: Env)
    ensures SameCalibration(s, DoFlag(s, flag, arg, env).s)
  {
    var v := ReadOnOff(arg);
    if v.Some? { CommitCalibration(s.(sim := WithFlag(s.sim, flag, v.value)), true, env); }
  }

  lemma ModeCalibration(s: State, charging: bool, arg: Option<string>, env: Env)
    ensures SameCalibration(s, DoMode(s, charging, arg, env).s)
  {
    var v := ReadOverride(arg);
    if v.Some? {
      CommitCalibration(s.(sim := s.sim.(charging := v.value)), true, env);
      CommitCalibration(s.(sim := s.sim.(lowBattery := v.value)), true, env);
    }
  }

  lemma NumberCalibration(s: State, n: Number, arg: Option<string>, env: Env)
    ensures SameCalibration(s, DoNumber(s, n, arg, env).s)
  {
    var v := Decimal.ReadSigned(arg, Lowest(n), Highest(n));
    if v.Some? { CommitCalibration(WithNumber(s, n, v.value), true, env); }
  }

  lemma RuntimeCalibration(s: State, arg: Option<string>, env: Env)
    ensures SameCalibration(s, DoRuntime(s, arg, env).s)
  {
    var v := Decimal.ReadSigned(arg, 0, 65535);
    CommitCalibration(s.(sim := s.sim.(runtimeAuto := true)), true, env);
    if v.Some? { CommitCalibration(s.(sim := s.sim.(runtimeAuto := false), m := s.m.(runtime := v.value)), true, env); }
  }

  lemma PerformCalibration(s: State, k: Keyword, arg: Option<string>, arg2: Option<string>, env: Env)
    ensures SameCalibration(s, Perform(s, k, arg, arg2, env).s)
  {
    CommitCalibration(s, true, env);
    CommitCalibration(SafeState(s), true, env);
    GuardedCalibration(s, k, arg, env);
  }

  lemma ReactCalibration(s: State, e: Event)
    ensures SameCalibration(s, React(s, e))
  {
    match e
    case Checked(env) =>
      var t := s.now + env.beforeTouch;
      CommitCalibration(SafeState(s.(now := t, checkedAt := t)), true, env);
    case Ran(_, text, env) =>
      var tokens := Split(CString(text), DELIMS);
      if tokens != [] {
        PerformCalibration(Touch(s, env), KeywordOf(tokens[0]), Token(tokens, 1), Token(tokens, 2), env);
      }
    case Overrun(_) =>
    case HostSet(w) => Safety.HostWriteKeepsOthers(s, w);
    case Published(env) => CommitCalibration(s, false, env);
  }

  /** After `setup` nothing changes them any more. */
  lemma {:induction false} RunCalibration(y: Sys, actions: seq<Action>)
    requires Framed(y)
    ensures SameCalibration(y.core, Run(y, actions).core)
  {
    if actions == [] {
    } else {
      RunCalibration(y, actions[..|actions| - 1]);
      var z, a := Run(y, actions[..|actions| - 1]), actions[|actions| - 1];
      StepIsReact(z, a);
      if Added(z, a).Some? { ReactCalibration(z.core, Added(z, a).value); }
    }
  }

  lemma CalibratedExactly(net: Network, moments: seq<Moment>, env: Env)
    requires OnePass(moments)
    ensures Safety.Calibrated(SetupDuring(net, moments, env)) <==>
            Harmless(moments, AvgTimeToEmpty) && Harmless(moments, FullChargeCapacity)
  {
    var start := Update(SafeState(PowerOn(net)));
    SafeStart(net);
    DuringTracks(start, moments, AvgTimeToEmpty);
    DuringTracks(start, moments, FullChargeCapacity);
    SendKeepsSafe(During(start, moments), env);
  }

  /** Exactly when the device can still be made safe: RESET works in every state of
      every later run if the average run time and the full charge capacity were left
      as they are, and otherwise no state of any later run is safe. From the first
      RESET on it then is safe unless armed, for ever. */
  lemma ResetRepairsExactly(net: Network, moments: seq<Moment>, env: Env, actions: seq<Action>, reset: Env)
    requires OnePass(moments)
    ensures var s, harmless := Run(StartDuring(net, moments, env), actions).core,
                               Harmless(moments, AvgTimeToEmpty) && Harmless(moments, FullChargeCapacity);
            var t := Execute(s, "RESET", reset).s;
            && (Safety.Safe(t) <==> harmless) && (Safety.Safe(s) ==> harmless)
            && (harmless ==> Safety.SafeUnlessArmed(t))
  {
    var y := StartDuring(net, moments, env);
    var s := Run(y, actions).core;
    CalibratedExactly(net, moments, env);
    RunCalibration(y, actions);
    EndToEnd.ResetTaken(s, reset);
    RestoresExactly(Touch(s, reset), reset);
  }

  // ---------------------------------------------------------------- two requests

  /** Two bytes of zero for a feature. */
  function Zeros(id: byte): (r: SetReport) { SetReport(true, 3, id, 3, [id, 0x00, 0x00]) }

  lemma VoltageIsSetOnce(i: nat)
    requires i < |REGISTER_OPS| && REGISTER_OPS[i].Set? && REGISTER_OPS[i].id == 0x0B
    ensures REGISTER_OPS[i] == Set(0x0B, Var.Voltage, 2)
  {}

  lemma AverageIsSetOnce(i: nat)
    requires i < |REGISTER_OPS| && REGISTER_OPS[i].Set? && REGISTER_OPS[i].id == 0x1C
    ensures REGISTER_OPS[i] == Set(0x1C, AvgTimeToEmpty, 2)
  {}

  lemma NotLockedYet(j: nat)
    requires j < |REGISTER_OPS| && REGISTER_OPS[j].Lock?
    ensures REGISTER_OPS[j].id != 0x0B && REGISTER_OPS[j].id != 0x1C
  {}

  lemma OpenInTheWindow(id: byte)
    requires id == 0x0B || id == 0x1C
    ensures Accepted(REGISTER_OPS, Zeros(id))
    ensures Written(REGISTER_OPS, Zeros(id)) == if id == 0x0B then Var.Voltage else AvgTimeToEmpty
  {
    SetIsFound(REGISTER_OPS, if id == 0x0B then 17 else 9);
    var i := FoundIsSet(REGISTER_OPS, id);
    if id == 0x0B { VoltageIsSetOnce(i); } else { AverageIsSetOnce(i); }
    forall j | 0 <= j < |REGISTER_OPS| && REGISTER_OPS[j].Lock? ensures REGISTER_OPS[j].id != id { NotLockedYet(j); }
    NeverNamedNeverLocked(REGISTER_OPS, id);
  }

  /** A request after the last registration and before the first lock, whatever came
      earlier. */
  lemma WrittenInTheWindow(init: seq<Moment>, id: byte)
    requires CallsOf(init) == REGISTER_OPS && (id == 0x0B || id == 0x1C)
    ensures var moments := init + [Asked(Zeros(id))];
            OnePass(moments) && !Harmless(moments, if id == 0x0B then Var.Voltage else AvgTimeToEmpty)
  {
    var moments := init + [Asked(Zeros(id))];
    assert moments[..|moments| - 1] == init;
    assert CallsOf(moments) == REGISTER_OPS + [];
    OpenInTheWindow(id);
    assert Received(Zeros(id))[1..] == [0x00, 0x00];
  }

  /** The battery voltage can be cleared. */
  lemma VoltageInTheWindow(net: Network, init: seq<Moment>, env: Env)
    requires CallsOf(init) == REGISTER_OPS
    ensures var s := SetupDuring(net, init + [Asked(Zeros(0x0B))], env); !s.sim.armed && !Safety.Safe(s)
  {
    var moments := init + [Asked(Zeros(0x0B))];
    WrittenInTheWindow(init, 0x0B);
    StartsSafeExactly(net, moments, env);
    StartsUnarmed(net, moments, env);
  }

  lemma StartsUnarmed(net: Network, moments: seq<Moment>, env: Env)
    requires OnePass(moments)
    ensures !SetupDuring(net, moments, env).sim.armed
  {
    var start := Update(SafeState(PowerOn(net)));
    DuringTracks(start, moments, Product);
    Safety.SendKeeps(During(start, moments), true, env);
  }

  /** So can the average run time, and then nothing makes the device safe again. */
  lemma CalibrationInTheWindow(net: Network, init: seq<Moment>, env: Env, actions: seq<Action>, reset: Env)
    requires CallsOf(init) == REGISTER_OPS
    ensures var s := Run(StartDuring(net, init + [Asked(Zeros(0x1C))], env), actions).core;
            !Safety.Safe(s) && !Safety.Safe(Execute(s, "RESET", reset).s)
  {
    WrittenInTheWindow(init, 0x1C);
    ResetRepairsExactly(net, init + [Asked(Zeros(0x1C))], env, actions, reset);
  }
}
