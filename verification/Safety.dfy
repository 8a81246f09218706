/** Disarmed means safe: an invariant of every run, whatever commands arrive on
    either channel, whenever leases expire, and whatever the USB host writes. */
module Safety {
  import opened Ascii
  import opened Words
  import opened Control
  import opened System
  import HidSetup
  import Registry

  const SAFE_MEASUREMENTS := Measurements(100, 7200, 1300, 25, 23000, 23000, 7200, 100)

  /** The status bits a safe, online device must show. */
  predicate OnlineStatus(p: PresentStatus) {
    && p.acPresent && p.fullyCharged && p.batteryPresent
    && !p.charging && !p.discharging && !p.remainingTimeLimitExpired
    && !p.shutdownRequested && !p.shutdownImminent
    && !p.needReplacement && !p.communicationLost && !p.overload && !p.fullyDischarged
  }

  ghost predicate Calibrated(s: State) { s.m.avgTimeToEmpty == 7200 && s.m.fullCharge == 100 }

  /** Everything but the host-writable variables is at its safe default. */
  ghost predicate Safe(s: State) {
    && s.sim == SAFE_SIM && s.armLeaseMs == 0 && s.lastCommandMs == 0
    && s.m == SAFE_MEASUREMENTS
    && OnlineStatus(s.status)
  }

  ghost predicate SafeUnlessArmed(s: State) { Calibrated(s) && (s.sim.armed || Safe(s)) }

  /** The safe status does not depend on any value the host can write, even if
      the host changes them between the sketch's separate reads. */
  lemma SafeStatusForAnyReads(shutdownDelay: i16, remainTimeLimit: u16, remnLimit: byte)
    ensures var p := Derive(SAFE_SIM, SAFE_MEASUREMENTS, shutdownDelay, remainTimeLimit, remnLimit);
            OnlineStatus(p) && (p.belowRemainingCapacityLimit <==> remnLimit >= 100)
  {}

  lemma SendKeeps(s: State, force: bool, env: Env)
    ensures var r := SendReports(s, force, env);
            && r.sim == s.sim && r.m == s.m && r.host == s.host && r.status == s.status
            && r.armLeaseMs == s.armLeaseMs && r.lastCommandMs == s.lastCommandMs
            && r.lastCommandAt == s.lastCommandAt && r.checkedAt == s.checkedAt
            && r.now == s.now + env.beforeReport && r.net == s.net
  {}

  lemma SafeStateIsSafe(s: State, env: Env)
    requires Calibrated(s)
    ensures Safe(Commit(SafeState(s), env)) && Calibrated(Commit(SafeState(s), env))
  {
    var t := Update(SafeState(s));
    assert AutoRuntime(SafeState(s).m) == 7200;
    SafeStatusForAnyReads(t.host.shutdownDelay, t.host.remainTimeLimit, t.host.remnLimit);
    SendKeeps(t, true, env);
  }

  lemma UpdateKeeps(s: State)
    requires SafeUnlessArmed(s)
    ensures SafeUnlessArmed(Update(s)) && Update(s).sim == s.sim
  {
    if !s.sim.armed {
      assert AutoRuntime(s.m) == 7200;
      SafeStatusForAnyReads(s.host.shutdownDelay, s.host.remainTimeLimit, s.host.remnLimit);
    }
  }

  lemma CommitKeeps(s: State, env: Env)
    requires SafeUnlessArmed(s)
    ensures SafeUnlessArmed(Commit(s, env))
  {
    UpdateKeeps(s);
    SendKeeps(Update(s), true, env);
  }

  lemma FlagKeeps(s: State, flag: Flag, arg: Option<string>, env: Env)
    requires SafeUnlessArmed(s) && s.sim.armed
    ensures SafeUnlessArmed(DoFlag(s, flag, arg, env).s)
  {
    var v := ReadOnOff(arg);
    if v.Some? { CommitKeeps(s.(sim := WithFlag(s.sim, flag, v.value)), env); }
  }

  lemma ModeKeeps(s: State, charging: bool, arg: Option<string>, env: Env)
    requires SafeUnlessArmed(s) && s.sim.armed
    ensures SafeUnlessArmed(DoMode(s, charging, arg, env).s)
  {
    var v := ReadOverride(arg);
    if v.Some? {
      if charging {
        CommitKeeps(s.(sim := s.sim.(charging := v.value)), env);
      } else {
        CommitKeeps(s.(sim := s.sim.(lowBattery := v.value)), env);
      }
    }
  }

  lemma NumberKeeps(s: State, n: Number, arg: Option<string>, env: Env)
    requires SafeUnlessArmed(s) && s.sim.armed
    ensures SafeUnlessArmed(DoNumber(s, n, arg, env).s)
  {
    var v := Decimal.ReadSigned(arg, Lowest(n), Highest(n));
    if v.Some? { CommitKeeps(WithNumber(s, n, v.value), env); }
  }

  lemma RuntimeKeeps(s: State, arg: Option<string>, env: Env)
    requires SafeUnlessArmed(s) && s.sim.armed
    ensures SafeUnlessArmed(DoRuntime(s, arg, env).s)
  {
    if arg.Some? && StrCaseEq(arg.value, "AUTO") {
      CommitKeeps(s.(sim := s.sim.(runtimeAuto := true)), env);
    } else {
      var v := Decimal.ReadSigned(arg, 0, 65535);
      if v.Some? {
        CommitKeeps(s.(sim := s.sim.(runtimeAuto := false), m := s.m.(runtime := v.value)), env);
      }
    }
  }

  lemma GuardedKeeps(s: State, k: Keyword, arg: Option<string>, env: Env)
    requires SafeUnlessArmed(s)
    ensures SafeUnlessArmed(Guarded(s, k, arg, env).s)
  {
    if s.sim.armed {
      match k
      case SetFlag(f) => FlagKeeps(s, f, arg, env);
      case Charging => ModeKeeps(s, true, arg, env);
      case LowBat => ModeKeeps(s, false, arg, env);
      case SetNumber(n) => NumberKeeps(s, n, arg, env);
      case Runtime => RuntimeKeeps(s, arg, env);
      case _ =>
    }
  }

  /** No command, in any state, breaks the invariant. */
  lemma ExecuteKeepsSafe(s: State, buffer: string, env: Env)
    requires SafeUnlessArmed(s)
    ensures SafeUnlessArmed(Execute(s, buffer, env).s)
  {
    var tokens := Split(CString(buffer), DELIMS);
    if tokens != [] {
      var t := Touch(s, env);
      var k := KeywordOf(tokens[0]);
      SafeStateIsSafe(t, env);
      CommitKeeps(t, env);
      UpdateKeeps(t);
      GuardedKeeps(t, k, Token(tokens, 1), env);
    }
  }

  /** Nothing but `ARM ON` arms a disarmed device, and it says so. */
  lemma OnlyArmOnArms(s: State, buffer: string, env: Env)
    requires !s.sim.armed
    ensures var r := Execute(s, buffer, env);
            r.s.sim.armed ==> r.reply == Some("OK armed") && r.s.m == s.m && r.s.sim == s.sim.(armed := true)
  {
    var tokens := Split(CString(buffer), DELIMS);
    if tokens != [] {
      var k := KeywordOf(tokens[0]);
      if k.Arm? {
        ArmArms(s, Token(tokens, 1), Token(tokens, 2), env);
      } else {
        OthersStayDisarmed(s, k, Token(tokens, 1), Token(tokens, 2), env);
      }
    }
  }

  lemma ArmArms(s: State, arg: Option<string>, arg2: Option<string>, env: Env)
    requires !s.sim.armed
    ensures var r := DoArm(s, arg, arg2, env);
            r.s.sim.armed ==> r.reply == Some("OK armed") && r.s.m == s.m && r.s.sim == s.sim.(armed := true)
  {
    SendKeeps(Update(SafeState(s)), true, env);
  }

  lemma OthersStayDisarmed(s: State, k: Keyword, arg: Option<string>, arg2: Option<string>, env: Env)
    requires !s.sim.armed && !k.Arm?
    ensures !Perform(s, k, arg, arg2, env).s.sim.armed
  {
    SendKeeps(Update(SafeState(s)), true, env);
    SendKeeps(Update(s), true, env);
  }

  /** The gate: on a disarmed device no command line changes a measurement, and the
      device is either still safe or has just been armed. */
  lemma DisarmedGate(s: State, buffer: string, env: Env)
    requires SafeUnlessArmed(s)
    ensures var r := Execute(s, buffer, env);
            SafeUnlessArmed(r.s) && (!s.sim.armed ==> r.s.m == s.m)
  {
    ExecuteKeepsSafe(s, buffer, env);
    if !s.sim.armed { OnlyArmOnArms(s, buffer, env); }
  }

  /** Of the registered variables the host can only reach seven. */
  lemma HostWriteKeepsOthers(s: State, w: Registry.SetReport)
    ensures HostWrite(s, w) == s.(host := HostWrite(s, w).host)
  {
    HidSetup.AcceptedExactly(w);
  }

  /** So no request of the USB host breaks the invariant either. */
  lemma HostWriteKeepsSafe(s: State, w: Registry.SetReport)
    requires SafeUnlessArmed(s)
    ensures SafeUnlessArmed(HostWrite(s, w))
  {
    HostWriteKeepsOthers(s, w);
  }

  lemma CheckKeepsSafe(s: State, env: Env)
    requires SafeUnlessArmed(s)
    ensures SafeUnlessArmed(Check(s, env))
  {
    var t := s.now + env.beforeTouch;
    SafeStateIsSafe(s.(now := t, checkedAt := t), env);
  }

  lemma PublishKeepsSafe(s: State, env: Env)
    requires SafeUnlessArmed(s)
    ensures SafeUnlessArmed(Publish(s, env))
  {
    UpdateKeeps(s);
    SendKeeps(Update(s), false, env);
  }

  lemma ReactKeepsSafe(s: State, e: Event)
    requires SafeUnlessArmed(s)
    ensures SafeUnlessArmed(React(s, e))
  {
    match e
    case Checked(env) => CheckKeepsSafe(s, env);
    case Ran(_, text, env) => ExecuteKeepsSafe(s, text, env);
    case Overrun(_) =>
    case HostSet(w) => HostWriteKeepsSafe(s, w);
    case Published(env) => PublishKeepsSafe(s, env);
  }

  /** In every state of every run: if the device is not armed, everything but the
      host-writable variables holds its safe default and the published status
      says online. */
  lemma {:induction false} DisarmedIsSafe(y: Sys, actions: seq<Action>)
    requires Framed(y) && SafeUnlessArmed(y.core)
    ensures SafeUnlessArmed(Run(y, actions).core)
  {
    if actions == [] {
    } else {
      DisarmedIsSafe(y, actions[..|actions| - 1]);
      var z, a := Run(y, actions[..|actions| - 1]), actions[|actions| - 1];
      StepIsReact(z, a);
      if Added(z, a).Some? { ReactKeepsSafe(z.core, Added(z, a).value); }
    }
  }

  lemma StartsSafe(net: Network, env: Env, actions: seq<Action>)
    ensures var s := Run(PowerUp(net, env), actions).core;
            SafeUnlessArmed(s) && (!s.sim.armed ==> Safe(s))
  {
    SafeStateIsSafe(PowerOn(net), env);
    DisarmedIsSafe(PowerUp(net, env), actions);
  }

  /** With which limits and delays the device starts. */
  lemma StartsWithHost(net: Network, env: Env)
    ensures Setup(net, env).host ==
            HostVars(startDelay := -1, rebootDelay := -1, shutdownDelay := -1,
                     remainTimeLimit := 600, warnLimit := 10, remnLimit := 5, audibleAlarm := 2)
  {
    SendKeeps(Update(SafeState(PowerOn(net))), true, env);
  }
}
