/** The firmware and its Python twin are the same machine. `TwinOf` reads a
    firmware state as a twin object; every command, clock advance and loop
    commutes with it, and both sides print the same lines. */
module Refinement {
  import opened Ascii
  import opened PythonText
  import opened Words
  import opened Control
  import T = TwinModel
  import D = Decimal
  import Safety
  import TwinFacts

  function HidOf(p: PresentStatus): (r: T.HidStatus) {
    T.HidStatus(p.charging, p.discharging, p.acPresent, p.batteryPresent,
                p.belowRemainingCapacityLimit, p.remainingTimeLimitExpired, p.needReplacement,
                p.fullyCharged, p.fullyDischarged, p.shutdownRequested, p.shutdownImminent,
                p.communicationLost, p.overload)
  }

  function SwitchesOf(sim: SimulatorState): (r: T.Switches) {
    T.Switches(sim.armed, sim.acPresent, sim.overload, sim.needReplacement, sim.communicationLost,
               sim.shutdownRequested, sim.runtimeAuto, ModeName(sim.charging), ModeName(sim.lowBattery))
  }

  function GaugesOf(m: Measurements, h: HostVars): (r: T.Gauges) {
    T.Gauges(m.remaining, m.voltage, m.runtime, h.startDelay, h.shutdownDelay, h.rebootDelay,
             m.load, m.inputVoltage, m.outputVoltage)
  }

  /** The status a fresh derivation would give; the firmware's published word may
      lag behind it between ARM ON and the end of the loop. */
  function Fresh(s: State): (r: PresentStatus) {
    Derive(s.sim, s.m, s.host.shutdownDelay, s.host.remainTimeLimit, s.host.remnLimit)
  }

  function TwinOf(s: State): (r: T.Twin) {
    T.Twin(SwitchesOf(s.sim), GaugesOf(s.m, s.host), s.armLeaseMs, s.lastCommandMs, U32(s.now),
           HidOf(Fresh(s)), T.Address(s.net.ip, s.net.gateway, s.net.subnet, T.CONTROL_PORT))
  }

  /** The limits and calibration values the twin has built in. */
  predicate Defaults(s: State) {
    && s.m.avgTimeToEmpty == 7200 && s.m.fullCharge == 100
    && s.host.remainTimeLimit == 600 && s.host.remnLimit == 5
  }

  /** Defaults, and an automatic runtime that is up to date. */
  predicate Ready(s: State) {
    Defaults(s) && (s.sim.runtimeAuto ==> s.m.runtime == AutoRuntime(s.m))
  }

  /** The clock stands still during the action. */
  predicate Steady(env: Env) { env.beforeTouch == env.beforeArm == env.beforeReport == 0 }

  // ---------------------------------------------------------------- model

  lemma RuntimeAgrees(m: Measurements)
    requires m.avgTimeToEmpty == 7200 && m.fullCharge == 100
    ensures AutoRuntime(m) == T.AutoSeconds(m.remaining)
  {}

  lemma DeriveAgrees(s: State)
    requires Defaults(s)
    ensures HidOf(Fresh(s)) == T.Recompute(SwitchesOf(s.sim), GaugesOf(s.m, s.host))
  {}

  lemma UpdateCommutes(s: State)
    requires Defaults(s)
    ensures TwinOf(Update(s)) == T.UpdateModel(TwinOf(s)) && Ready(Update(s))
    ensures Update(s).status == Fresh(Update(s))
  {
    RuntimeAgrees(s.m);
    DeriveAgrees(Update(s));
  }

  lemma ReadyIsUpdated(s: State)
    requires Ready(s)
    ensures T.UpdateModel(TwinOf(s)) == TwinOf(s)
  {
    RuntimeAgrees(s.m);
    DeriveAgrees(s);
  }

  lemma CommitCommutes(s: State, env: Env)
    requires Defaults(s) && Steady(env)
    ensures TwinOf(Commit(s, env)) == T.UpdateModel(TwinOf(s)) && Ready(Commit(s, env))
  {
    UpdateCommutes(s);
    Safety.SendKeeps(Update(s), true, env);
  }

  lemma SafeCommutes(s: State, env: Env)
    requires Defaults(s) && Steady(env)
    ensures TwinOf(Commit(SafeState(s), env)) == T.UpdateModel(T.SetSafe(TwinOf(s)))
    ensures Ready(Commit(SafeState(s), env))
  {
    CommitCommutes(SafeState(s), env);
  }

  // ---------------------------------------------------------------- words

  /** A one-character word that has no case is compared exactly by both sides. */
  lemma SameSymbol(t: string, c: char)
    requires !('a' <= c <= 'z') && !('A' <= c <= 'Z')
    ensures t == [c] <==> UpperAll(t) == [c]
  {
    if |t| == 1 {
      assert t == [t[0]] && UpperAll(t) == [Upper(t[0])] + UpperAll(t[1..]);
      assert UpperAll(t)[0] == Upper(t[0]);
    }
  }

  /** A token of ASCII characters, and not longer than Python's `int` allows. */
  predicate Common(token: Option<string>) {
    token.Some? ==> IsAscii(token.value) && |token.value| <= 4300
  }

  lemma OnOffAgrees(token: Option<string>)
    requires Common(token)
    ensures ReadOnOff(token) == T.ParseOnOff(token)
  {
    if token.Some? {
      var t := token.value;
      UpperIsAsciiUpper(t);
      FoldAgrees(t, "ON");
      FoldAgrees(t, "TRUE");
      FoldAgrees(t, "OFF");
      FoldAgrees(t, "FALSE");
      SameSymbol(t, '1');
      SameSymbol(t, '0');
    }
  }

  lemma OverrideAgrees(token: Option<string>)
    requires Common(token)
    ensures var a, b := ReadOverride(token), T.ParseOverride(token);
            if a.None? then b.None? else b == Some(ModeName(a.value))
  {
    if token.Some? {
      UpperIsAsciiUpper(token.value);
      FoldAgrees(token.value, "AUTO");
      OnOffAgrees(token);
    }
  }

  // ---------------------------------------------------------------- commands

  function FlagWord(f: Flag): (r: string) {
    match f
    case Ac => "AC"
    case Overload => "OVERLOAD"
    case Replace => "REPLACE"
    case CommLost => "COMMLOST"
    case Shutdown => "SHUTDOWN"
  }

  function NumberWord(n: Number): (r: string) {
    match n
    case Battery => "BATTERY"
    case Load => "LOAD"
    case Voltage => "VOLTAGE"
    case InputVoltage => "INPUTVOLTAGE"
    case OutputVoltage => "OUTPUTVOLTAGE"
    case StartDelay => "STARTDELAY"
  }

  /** A reply of the firmware, read as a call of the twin that returned. */
  function AnswerOf(o: Outcome): (r: T.Called) {
    T.Answer(TwinOf(o.s), if o.reply.Some? then o.reply.value else "")
  }

  lemma FlagCommutes(s: State, f: Flag, arg: Option<string>, env: Env)
    requires Ready(s) && Steady(env) && Common(arg)
    ensures AnswerOf(DoFlag(s, f, arg, env)) == T.RunSwitch(TwinOf(s), FlagWord(f), arg)
    ensures Ready(DoFlag(s, f, arg, env).s)
  {
    OnOffAgrees(arg);
    var v := ReadOnOff(arg);
    if v.Some? {
      SwitchCommutes(s.sim, f, v.value);
      CommitCommutes(s.(sim := WithFlag(s.sim, f, v.value)), env);
      UpdateIgnoresHid(s.(sim := WithFlag(s.sim, f, v.value)), TwinOf(s).hid);
    }
  }

  lemma SwitchCommutes(sim: SimulatorState, f: Flag, v: bool)
    ensures SwitchesOf(WithFlag(sim, f, v)) == T.SetSwitch(SwitchesOf(sim), FlagWord(f), v)
  {}

  /** A recomputation does not look at the cached status. */
  lemma UpdateIgnoresHid(s: State, hid: T.HidStatus)
    ensures T.UpdateModel(TwinOf(s)) == T.UpdateModel(TwinOf(s).(hid := hid))
  {}

  lemma ChargingCommutes(s: State, arg: Option<string>, env: Env)
    requires Ready(s) && Steady(env) && Common(arg)
    ensures AnswerOf(DoMode(s, true, arg, env)) == T.RunMode(TwinOf(s), "CHARGING", arg)
    ensures Ready(DoMode(s, true, arg, env).s)
  {
    OverrideAgrees(arg);
    var v := ReadOverride(arg);
    if v.Some? {
      var t := s.(sim := s.sim.(charging := v.value));
      CommitCommutes(t, env);
      UpdateIgnoresHid(t, TwinOf(s).hid);
    }
  }

  lemma LowBatCommutes(s: State, arg: Option<string>, env: Env)
    requires Ready(s) && Steady(env) && Common(arg)
    ensures AnswerOf(DoMode(s, false, arg, env)) == T.RunMode(TwinOf(s), "LOWBAT", arg)
    ensures Ready(DoMode(s, false, arg, env).s)
  {
    OverrideAgrees(arg);
    var v := ReadOverride(arg);
    if v.Some? {
      var t := s.(sim := s.sim.(lowBattery := v.value));
      CommitCommutes(t, env);
      UpdateIgnoresHid(t, TwinOf(s).hid);
    }
  }

  lemma NumberCommutes(s: State, n: Number, arg: Option<string>, env: Env)
    requires Ready(s) && Steady(env) && Common(arg)
    ensures AnswerOf(DoNumber(s, n, arg, env)) == T.RunGauge(TwinOf(s), NumberWord(n), arg)
    ensures Ready(DoNumber(s, n, arg, env).s)
  {
    TwinFacts.AsciiTokensAgree(arg, Lowest(n), Highest(n));
    var v := D.ReadSigned(arg, Lowest(n), Highest(n));
    LimitsAgree(n);
    if v.Some? {
      GaugeCommutes(s, n, v.value);
      CommitCommutes(WithNumber(s, n, v.value), env);
      UpdateIgnoresHid(WithNumber(s, n, v.value), TwinOf(s).hid);
    }
  }

  lemma LimitsAgree(n: Number)
    ensures T.Minimum(NumberWord(n)) == Lowest(n) && T.Maximum(NumberWord(n)) == Highest(n)
    ensures T.IsGauge(NumberWord(n))
  {}

  lemma GaugeCommutes(s: State, n: Number, v: int)
    requires Lowest(n) <= v <= Highest(n)
    ensures var t := WithNumber(s, n, v);
            && GaugesOf(t.m, t.host) == T.SetGauge(GaugesOf(s.m, s.host), NumberWord(n), v)
            && t.sim == s.sim
  {}

  lemma AutoRuntimeCommutes(s: State, env: Env)
    requires Ready(s) && Steady(env)
    ensures var w := TwinOf(s);
            var t := Commit(s.(sim := s.sim.(runtimeAuto := true)), env);
            TwinOf(t) == T.UpdateModel(w.(sw := w.sw.(runtimeAuto := true))) && Ready(t)
  {
    var t := s.(sim := s.sim.(runtimeAuto := true));
    CommitCommutes(t, env);
    UpdateIgnoresHid(t, TwinOf(s).hid);
  }

  lemma ManualRuntimeCommutes(s: State, v: int, env: Env)
    requires Ready(s) && Steady(env) && 0 <= v <= 65535
    ensures var w := TwinOf(s);
            var t := Commit(s.(sim := s.sim.(runtimeAuto := false), m := s.m.(runtime := v)), env);
            TwinOf(t) == T.UpdateModel(w.(sw := w.sw.(runtimeAuto := false), g := w.g.(runtimeSeconds := v)))
            && Ready(t)
  {
    var t := s.(sim := s.sim.(runtimeAuto := false), m := s.m.(runtime := v));
    CommitCommutes(t, env);
    UpdateIgnoresHid(t, TwinOf(s).hid);
  }

  lemma RuntimeCommutes(s: State, arg: Option<string>, env: Env)
    requires Ready(s) && Steady(env) && Common(arg)
    ensures AnswerOf(DoRuntime(s, arg, env)) == T.RunRuntime(TwinOf(s), arg)
    ensures Ready(DoRuntime(s, arg, env).s)
  {
    if arg.Some? {
      UpperIsAsciiUpper(arg.value);
      FoldAgrees(arg.value, "AUTO");
    }
    if arg.Some? && StrCaseEq(arg.value, "AUTO") {
      AutoRuntimeCommutes(s, env);
    } else {
      TwinFacts.AsciiTokensAgree(arg, 0, 65535);
      var v := D.ReadSigned(arg, 0, 65535);
      if v.Some? { ManualRuntimeCommutes(s, v.value, env); }
    }
  }

  lemma ArmOnCommutes(s: State, lease: int, env: Env)
    requires Ready(s) && Steady(env) && 0 <= lease <= MAX_LEASE_SEC
    ensures var t := s.(sim := s.sim.(armed := true), armLeaseMs := U32(lease * 1000),
                        now := s.now, lastCommandMs := U32(s.now), lastCommandAt := s.now);
            var w := TwinOf(s);
            && TwinOf(t) == T.UpdateModel(w.(sw := w.sw.(armed := true), armLeaseMs := lease * 1000,
                                              lastCommandMs := w.nowMs))
            && Ready(t)
  {
    var t := s.(sim := s.sim.(armed := true), armLeaseMs := U32(lease * 1000),
                now := s.now, lastCommandMs := U32(s.now), lastCommandAt := s.now);
    ReadyIsUpdated(t);
    UpdateIgnoresHid(t, TwinOf(s).hid);
  }

  lemma ArmCommutes(s: State, arg: Option<string>, arg2: Option<string>, env: Env)
    requires Ready(s) && Steady(env) && Common(arg) && Common(arg2)
    ensures AnswerOf(DoArm(s, arg, arg2, env)) == T.RunArm(TwinOf(s), arg, arg2)
    ensures Ready(DoArm(s, arg, arg2, env).s)
  {
    OnOffAgrees(arg);
    TwinFacts.AsciiTokensAgree(arg2, 0, MAX_LEASE_SEC);
    if ReadOnOff(arg) == Some(true) {
      var lease := if arg2.None? then Some(DEFAULT_LEASE_SEC) else D.ReadSigned(arg2, 0, MAX_LEASE_SEC);
      if lease.Some? { ArmOnCommutes(s, lease.value, env); }
    } else {
      SafeCommutes(s, env);
    }
  }

  // ---------------------------------------------------------------- dispatch

  /** The comparisons of the numeric words, folded up. */
  predicate NumericFolds(c: string) {
    var u := UpperAll(c);
    && (StrCaseEq(c, "BATTERY") <==> u == "BATTERY") && (StrCaseEq(c, "LOAD") <==> u == "LOAD")
    && (StrCaseEq(c, "VOLTAGE") <==> u == "VOLTAGE") && (StrCaseEq(c, "INPUTVOLTAGE") <==> u == "INPUTVOLTAGE")
    && (StrCaseEq(c, "OUTPUTVOLTAGE") <==> u == "OUTPUTVOLTAGE") && (StrCaseEq(c, "RUNTIME") <==> u == "RUNTIME")
    && (StrCaseEq(c, "STARTDELAY") <==> u == "STARTDELAY")
  }

  lemma NumericFold(c: string)
    ensures NumericFolds(c)
  {
    FoldAgrees(c, "BATTERY");
    FoldAgrees(c, "LOAD");
    FoldAgrees(c, "VOLTAGE");
    FoldAgrees(c, "INPUTVOLTAGE");
    FoldAgrees(c, "OUTPUTVOLTAGE");
    FoldAgrees(c, "RUNTIME");
    FoldAgrees(c, "STARTDELAY");
  }

  /** Both sides select the same numeric command. */
  lemma NumericWords(c: string)
    ensures var k := NumericKeyword(c);
            && (k.SetNumber? ==> UpperAll(c) == NumberWord(k.number))
            && (k.Runtime? <==> UpperAll(c) == "RUNTIME")
            && (k.Unknown? ==> !T.IsGauge(UpperAll(c)) && UpperAll(c) != "RUNTIME")
  {
    NumericFold(c);
  }

  lemma NumericCommutes(s: State, c: string, arg: Option<string>, env: Env)
    requires Ready(s) && Steady(env) && s.sim.armed && Common(arg)
    ensures AnswerOf(Guarded(s, NumericKeyword(c), arg, env)) == T.RunNumeric(TwinOf(s), UpperAll(c), arg)
    ensures Ready(Guarded(s, NumericKeyword(c), arg, env).s)
  {
    NumericWords(c);
    var k := NumericKeyword(c);
    if k.SetNumber? {
      NumberBranch(s, k.number, arg, env);
    } else if k.Runtime? {
      RuntimeBranch(s, arg, env);
    } else {
      UnknownBranch(s, UpperAll(c), arg, env);
    }
  }

  lemma NumberBranch(s: State, n: Number, arg: Option<string>, env: Env)
    requires Ready(s) && Steady(env) && s.sim.armed && Common(arg)
    ensures AnswerOf(Guarded(s, SetNumber(n), arg, env)) == T.RunNumeric(TwinOf(s), NumberWord(n), arg)
    ensures Ready(Guarded(s, SetNumber(n), arg, env).s)
  {
    LimitsAgree(n);
    NumberCommutes(s, n, arg, env);
  }

  lemma RuntimeBranch(s: State, arg: Option<string>, env: Env)
    requires Ready(s) && Steady(env) && s.sim.armed && Common(arg)
    ensures AnswerOf(Guarded(s, Runtime, arg, env)) == T.RunNumeric(TwinOf(s), "RUNTIME", arg)
    ensures Ready(Guarded(s, Runtime, arg, env).s)
  {
    assert !T.IsGauge("RUNTIME");
    RuntimeCommutes(s, arg, env);
  }

  lemma UnknownBranch(s: State, u: string, arg: Option<string>, env: Env)
    requires Ready(s) && s.sim.armed && !T.IsGauge(u) && u != "RUNTIME"
    ensures AnswerOf(Guarded(s, Unknown, arg, env)) == T.RunNumeric(TwinOf(s), u, arg)
  {}

  predicate IsSwitchWord(u: string) { u in {"AC", "OVERLOAD", "REPLACE", "COMMLOST", "SHUTDOWN"} }

  predicate IsModeWord(u: string) { u in {"CHARGING", "LOWBAT"} }

  lemma SwitchWords(c: string)
    ensures var k, u := GuardedKeyword(c), UpperAll(c);
            && (k == SetFlag(Ac) ==> u == "AC")
            && (k == SetFlag(Overload) ==> u == "OVERLOAD")
            && (k == SetFlag(Replace) ==> u == "REPLACE")
            && (k == SetFlag(CommLost) ==> u == "COMMLOST")
            && (k == SetFlag(Shutdown) ==> u == "SHUTDOWN")
  {
    FoldAgrees(c, "AC");
    FoldAgrees(c, "OVERLOAD");
    FoldAgrees(c, "REPLACE");
    FoldAgrees(c, "COMMLOST");
    FoldAgrees(c, "SHUTDOWN");
  }

  lemma SwitchWordOf(c: string)
    requires GuardedKeyword(c).SetFlag?
    ensures UpperAll(c) == FlagWord(GuardedKeyword(c).flag)
  {
    SwitchWords(c);
  }

  lemma SwitchWordIs(f: Flag)
    ensures IsSwitchWord(FlagWord(f))
  {}

  lemma NoSwitchWord(c: string)
    requires !GuardedKeyword(c).SetFlag?
    ensures !IsSwitchWord(UpperAll(c))
  {
    FoldAgrees(c, "AC");
    FoldAgrees(c, "OVERLOAD");
    FoldAgrees(c, "REPLACE");
    FoldAgrees(c, "COMMLOST");
    FoldAgrees(c, "SHUTDOWN");
  }

  lemma ModeWords(c: string)
    requires !GuardedKeyword(c).SetFlag?
    ensures var k, u := GuardedKeyword(c), UpperAll(c);
            && (k.Charging? ==> u == "CHARGING") && (k.LowBat? ==> u == "LOWBAT")
            && (!k.Charging? && !k.LowBat? ==> k == NumericKeyword(c) && !IsModeWord(u))
  {
    FoldAgrees(c, "CHARGING");
    FoldAgrees(c, "LOWBAT");
  }

  lemma SwitchBranch(s: State, f: Flag, u: string, arg: Option<string>, env: Env)
    requires Ready(s) && Steady(env) && s.sim.armed && u == FlagWord(f) && IsSwitchWord(u) && Common(arg)
    ensures AnswerOf(Guarded(s, SetFlag(f), arg, env)) == T.RunArmed(TwinOf(s), u, arg)
    ensures Ready(Guarded(s, SetFlag(f), arg, env).s)
  {
    FlagCommutes(s, f, arg, env);
  }

  lemma ModeBranch(s: State, charging: bool, u: string, arg: Option<string>, env: Env)
    requires Ready(s) && Steady(env) && s.sim.armed && !IsSwitchWord(u) && Common(arg)
    requires u == if charging then "CHARGING" else "LOWBAT"
    ensures AnswerOf(Guarded(s, if charging then Charging else LowBat, arg, env)) == T.RunArmed(TwinOf(s), u, arg)
    ensures Ready(Guarded(s, if charging then Charging else LowBat, arg, env).s)
  {
    if charging { ChargingCommutes(s, arg, env); } else { LowBatCommutes(s, arg, env); }
  }

  lemma GuardedCommutes(s: State, c: string, arg: Option<string>, env: Env)
    requires Ready(s) && Steady(env) && Common(arg)
    ensures AnswerOf(Guarded(s, GuardedKeyword(c), arg, env)) == T.RunArmed(TwinOf(s), UpperAll(c), arg)
    ensures Ready(Guarded(s, GuardedKeyword(c), arg, env).s)
  {
    if s.sim.armed {
      var k := GuardedKeyword(c);
      if k.SetFlag? {
        SwitchWordIs(k.flag);
        SwitchWordOf(c);
        SwitchBranch(s, k.flag, UpperAll(c), arg, env);
      } else {
        NoSwitchWord(c);
        ModeWords(c);
        if k.Charging? {
          ModeBranch(s, true, UpperAll(c), arg, env);
        } else if k.LowBat? {
          ModeBranch(s, false, UpperAll(c), arg, env);
        } else {
          NumericCommutes(s, c, arg, env);
        }
      }
    }
  }

  lemma GreetingWords(c: string)
    ensures var k, u := KeywordOf(c), UpperAll(c);
            && (k.Ping? <==> u == "PING")
            && (k.Ident? <==> u == "IDENT?")
            && (k.Help? <==> (u == "HELP" || u == "?"))
  {
    FoldAgrees(c, "PING");
    FoldAgrees(c, "IDENT?");
    FoldAgrees(c, "HELP");
    SameSymbol(c, '?');
  }

  lemma QueryWords(c: string)
    ensures var k, u := KeywordOf(c), UpperAll(c);
            && (k.Ping? <==> u == "PING")
            && (k.Ident? <==> u == "IDENT?")
            && (k.Help? <==> (u == "HELP" || u == "?"))
            && (k.Status? <==> (u == "STATUS?" || u == "STATUS"))
            && (k.NetworkInfo? <==> u == "NETWORK?")
  {
    GreetingWords(c);
    FoldAgrees(c, "STATUS?");
    FoldAgrees(c, "STATUS");
    FoldAgrees(c, "NETWORK?");
  }

  lemma ControlWords(c: string)
    requires var k := KeywordOf(c); !k.Ping? && !k.Ident? && !k.Help? && !k.Status? && !k.NetworkInfo?
    ensures var k, u := KeywordOf(c), UpperAll(c);
            && (k.Arm? <==> u == "ARM") && (k.Reset? <==> u == "RESET") && (k.Report? <==> u == "REPORT")
            && (!k.Arm? && !k.Reset? && !k.Report? ==> k == GuardedKeyword(c))
  {
    FoldAgrees(c, "ARM");
    FoldAgrees(c, "RESET");
    FoldAgrees(c, "REPORT");
  }

  // ---------------------------------------------------------------- replies

  function Texts(fields: seq<Field>): (r: seq<string>)
    ensures |r| == |fields|
    ensures forall i :: 0 <= i < |fields| ==> r[i] == fields[i].key + "=" + fields[i].value
  {
    seq(|fields|, i requires 0 <= i < |fields| => fields[i].key + "=" + fields[i].value)
  }

  /** Printing field by field and joining all of them give the same line. */
  lemma {:induction false} RenderIsJoin(fields: seq<Field>)
    requires fields != []
    ensures Render(fields) == "OK " + Join(Texts(fields))
  {
    var init, f := fields[..|fields| - 1], fields[|fields| - 1];
    var texts := Texts(fields);
    assert texts[..|texts| - 1] == Texts(init);
    if init != [] {
      RenderIsJoin(init);
    } else {
      assert Render(init) == "OK";
    }
  }

  function Keys(fields: seq<Field>): (r: seq<string>)
    ensures |r| == |fields| && forall i :: 0 <= i < |fields| ==> r[i] == fields[i].key
  {
    seq(|fields|, i requires 0 <= i < |fields| => fields[i].key)
  }

  function Values(fields: seq<Field>): (r: seq<string>)
    ensures |r| == |fields| && forall i :: 0 <= i < |fields| ==> r[i] == fields[i].value
  {
    seq(|fields|, i requires 0 <= i < |fields| => fields[i].value)
  }

  lemma SupplyKey(s: State, i: nat)
    requires i < 5
    ensures SupplyFields(s)[i].key == T.Key(i)
  {}

  lemma VoltageKey(s: State, i: nat)
    requires i < 4
    ensures VoltageFields(s)[i].key == T.Key(5 + i)
  {}

  lemma ModeKey(s: State, i: nat)
    requires i < 4
    ensures OverrideFields(s)[i].key == T.Key(9 + i)
  {}

  lemma FlagKey(s: State, i: nat)
    requires i < 5
    ensures FlagFields(s)[i].key == T.Key(13 + i)
  {}

  lemma HostKey(s: State, i: nat)
    requires i < 4
    ensures HostFields(s)[i].key == T.Key(18 + i)
  {}

  lemma FieldAt(s: State, i: nat)
    requires i < 22
    ensures StatusFields(s)[i] ==
            if i < 5 then SupplyFields(s)[i]
            else if i < 9 then VoltageFields(s)[i - 5]
            else if i < 13 then OverrideFields(s)[i - 9]
            else if i < 18 then FlagFields(s)[i - 13]
            else HostFields(s)[i - 18]
  {}

  lemma KeyAgrees(s: State, i: nat)
    requires i < 22
    ensures StatusFields(s)[i].key == T.Key(i)
  {
    FieldAt(s, i);
    if i < 5 {
      SupplyKey(s, i);
    } else if i < 9 {
      VoltageKey(s, i - 5);
    } else if i < 13 {
      ModeKey(s, i - 9);
    } else if i < 18 {
      FlagKey(s, i - 13);
    } else {
      HostKey(s, i - 18);
    }
  }

  lemma KeysAgree(s: State)
    ensures Keys(StatusFields(s)) == T.StatusKeys()
  {
    forall i | 0 <= i < 22 ensures Keys(StatusFields(s))[i] == T.Key(i) { KeyAgrees(s, i); }
  }

  lemma SupplyAgrees(s: State)
    ensures Values(SupplyFields(s)) == T.SupplyValues(TwinOf(s))
  {}

  lemma VoltagesAgree(s: State)
    ensures Values(VoltageFields(s)) == T.VoltageValues(TwinOf(s))
  {}

  lemma ModesAgree(s: State)
    requires s.status == Fresh(s)
    ensures Values(OverrideFields(s)) == T.ModeValues(TwinOf(s))
  {}

  lemma FlagsAgree(s: State)
    requires s.status == Fresh(s)
    ensures Values(FlagFields(s)) == T.FlagValues(TwinOf(s))
  {}

  lemma HostAgrees(s: State)
    ensures Values(HostFields(s)) == T.HostValues(TwinOf(s))
  {}

  lemma ValuesAgree(s: State)
    requires s.status == Fresh(s)
    ensures Values(StatusFields(s)) == T.StatusValues(TwinOf(s))
  {
    SupplyAgrees(s);
    VoltagesAgree(s);
    ModesAgree(s);
    FlagsAgree(s);
    HostAgrees(s);
    ValuesConcat(SupplyFields(s), VoltageFields(s), OverrideFields(s), FlagFields(s), HostFields(s));
  }

  lemma ValuesConcat(a: seq<Field>, b: seq<Field>, c: seq<Field>, d: seq<Field>, e: seq<Field>)
    ensures Values(a + b + c + d + e) == Values(a) + Values(b) + Values(c) + Values(d) + Values(e)
  {}

  /** The status line the firmware prints piece by piece is the line the twin
      joins from a dictionary. */
  lemma StatusLinesAgree(s: State)
    requires s.status == Fresh(s)
    ensures StatusLine(s) == T.StatusResponse(TwinOf(s))
  {
    var f := StatusFields(s);
    KeysAgree(s);
    ValuesAgree(s);
    RenderIsJoin(f);
    assert T.Pairs(T.StatusKeys(), T.StatusValues(TwinOf(s))) == Texts(f);
  }

  // ---------------------------------------------------------------- whole commands

  lemma QueryCommutes(s: State, c: string, arg: Option<string>, arg2: Option<string>)
    requires Ready(s) && IsQueryKind(KeywordOf(c))
    ensures AnswerOf(Query(s, KeywordOf(c))) == T.RunCommand(TwinOf(s), UpperAll(c), arg, arg2)
    ensures Ready(Query(s, KeywordOf(c)).s)
  {
    QueryWords(c);
    UpdateCommutes(s);
    StatusLinesAgree(Update(s));
  }

  lemma PerformCommutes(s: State, c: string, arg: Option<string>, arg2: Option<string>, env: Env)
    requires Ready(s) && Steady(env)
    requires Common(arg) && Common(arg2)
    ensures AnswerOf(Perform(s, KeywordOf(c), arg, arg2, env)) == T.RunCommand(TwinOf(s), UpperAll(c), arg, arg2)
    ensures Ready(Perform(s, KeywordOf(c), arg, arg2, env).s)
  {
    if IsQueryKind(KeywordOf(c)) {
      QueryCommutes(s, c, arg, arg2);
    } else {
      ControlCommutes(s, c, arg, arg2, env);
    }
  }

  lemma ControlCommutes(s: State, c: string, arg: Option<string>, arg2: Option<string>, env: Env)
    requires Ready(s) && Steady(env) && !IsQueryKind(KeywordOf(c))
    requires Common(arg) && Common(arg2)
    ensures AnswerOf(Perform(s, KeywordOf(c), arg, arg2, env)) == T.RunCommand(TwinOf(s), UpperAll(c), arg, arg2)
    ensures Ready(Perform(s, KeywordOf(c), arg, arg2, env).s)
  {
    NotAQuery(c);
    ControlWords(c);
    var k := KeywordOf(c);
    if k.Arm? {
      ArmCommutes(s, arg, arg2, env);
    } else if k.Reset? {
      SafeCommutes(s, env);
    } else if k.Report? {
      CommitCommutes(s, env);
    } else {
      GuardedCommutes(s, c, arg, env);
    }
  }

  lemma NotAQuery(c: string)
    requires !IsQueryKind(KeywordOf(c))
    ensures var u := UpperAll(c);
            u != "PING" && u != "IDENT?" && u !in {"HELP", "?"} && u !in {"STATUS?", "STATUS"} && u != "NETWORK?"
  {
    QueryWords(c);
  }

  /** Printable ASCII, space and tab: the characters on which C strings and
      Python strings are tokenised alike. */
  predicate Printable(line: string) {
    forall i :: 0 <= i < |line| ==> line[i] == '\t' || ' ' <= line[i] <= '~'
  }

  lemma {:induction false} PlainCString(line: string, p: nat)
    requires Printable(line) && p <= |line|
    ensures CStringAt(line, p) == line[p..]
    decreases |line| - p
  {
    if p < |line| { PlainCString(line, p + 1); }
  }

  lemma {:induction false} PlainDropCR(line: string)
    requires Printable(line)
    ensures T.DropCR(line) == line
  {
    if line == "" {
    } else {
      PlainDropCR(line[1..]);
      assert line == [line[0]] + line[1..];
    }
  }

  lemma StrippedIs(line: string)
    requires Printable(line)
    ensures T.Stripped(line) == TrimLeft(line, DELIMS)
  {
    PlainDropCR(line);
  }

  lemma CStringIs(line: string)
    requires Printable(line)
    ensures CString(line) == line
  {
    PlainCString(line, 0);
  }

  /** Among the characters of a printable line only the space and the tab
      separate words, for either side. */
  lemma PlainSplit(t: string)
    requires Printable(t)
    ensures Split(t, PYTHON_SPACE) == Split(t, DELIMS)
  {
    SplitAgrees(t, PYTHON_SPACE, DELIMS);
  }

  lemma {:induction false} TrimKeepsPrintable(line: string)
    requires Printable(line)
    ensures Printable(TrimLeft(line, DELIMS))
  {
    if line != "" && line[0] in DELIMS {
      assert forall i :: 0 <= i < |line| - 1 ==> line[1..][i] == line[i + 1];
      TrimKeepsPrintable(line[1..]);
    }
  }

  /** Both tokenisers cut a printable line into the same words. */
  lemma TokensAgree(line: string)
    requires Printable(line)
    ensures Split(T.Stripped(line), PYTHON_SPACE) == Split(CString(line), DELIMS)
    ensures T.Stripped(line) == "" <==> Split(CString(line), DELIMS) == []
  {
    CStringIs(line);
    StrippedIs(line);
    TrimKeepsPrintable(line);
    PlainSplit(TrimLeft(line, DELIMS));
    SplitSkipsLeading(line, DELIMS);
    SplitEmptyIff(line, DELIMS);
  }

  lemma TouchCommutes(s: State, env: Env)
    requires Ready(s) && Steady(env)
    ensures TwinOf(Touch(s, env)) == T.Touched(TwinOf(s)) && Ready(Touch(s, env))
  {}

  /** The words of a printable line are printable and no longer than the line. */
  lemma {:induction false} WordsArePrintable(line: string, i: nat)
    requires Printable(line) && i < |Split(line, DELIMS)|
    ensures Printable(Split(line, DELIMS)[i]) && |Split(line, DELIMS)[i]| <= |line|
    decreases |line|
  {
    var n := if line[0] in DELIMS then 1 else RunLength(line, DELIMS);
    assert forall k :: 0 <= k < |line| - n ==> line[n..][k] == line[n + k];
    if line[0] in DELIMS {
      WordsArePrintable(line[1..], i);
    } else if i > 0 {
      WordsArePrintable(line[n..], i - 1);
    } else {
      assert forall k :: 0 <= k < n ==> line[..n][k] == line[k];
    }
  }

  lemma WordsAreCommon(line: string, i: nat)
    requires Printable(line) && |line| <= 4300
    ensures Common(Token(Split(line, DELIMS), i))
  {
    if i < |Split(line, DELIMS)| { WordsArePrintable(line, i); }
  }

  lemma SketchRuns(s: State, line: string, tokens: seq<string>, env: Env)
    requires tokens == Split(CString(line), DELIMS) && tokens != []
    ensures Execute(s, line, env) == Perform(Touch(s, env), KeywordOf(tokens[0]), Token(tokens, 1), Token(tokens, 2), env)
  {}

  /** The same words, behind the lease refresh at the top. */
  lemma TouchedCommutes(s: State, c: string, arg: Option<string>, arg2: Option<string>, env: Env)
    requires Ready(s) && Steady(env) && IsAscii(c) && Common(arg) && Common(arg2)
    ensures var r := Perform(Touch(s, env), KeywordOf(c), arg, arg2, env);
            AnswerOf(r) == T.RunCommand(T.Touched(TwinOf(s)), PythonUpper(c), arg, arg2) && Ready(r.s)
  {
    TouchCommutes(s, env);
    UpperIsAsciiUpper(c);
    PerformCommutes(Touch(s, env), c, arg, arg2, env);
  }

  lemma SameTokens(tokens: seq<string>)
    ensures T.Arg(tokens, 1) == Token(tokens, 1) && T.Arg(tokens, 2) == Token(tokens, 2)
  {}

  lemma WordsCommute(s: State, line: string, tokens: seq<string>, env: Env)
    requires Ready(s) && Steady(env) && tokens != []
    requires tokens == Split(CString(line), DELIMS) == Split(T.Stripped(line), PYTHON_SPACE)
    requires IsAscii(tokens[0]) && Common(Token(tokens, 1)) && Common(Token(tokens, 2))
    ensures T.Command(TwinOf(s), line) == AnswerOf(Execute(s, line, env))
    ensures Ready(Execute(s, line, env).s)
  {
    TouchedCommutes(s, tokens[0], Token(tokens, 1), Token(tokens, 2), env);
    SameTokens(tokens);
    TwinFacts.CommandRuns(TwinOf(s), line, tokens);
    SketchRuns(s, line, tokens, env);
  }

  /** One command line, any state: the firmware and the twin answer alike and
      move to corresponding states, and the twin does not raise. */
  lemma CommandCommutes(s: State, line: string, env: Env)
    requires Ready(s) && Steady(env) && Printable(line) && |line| <= 4300
    ensures T.Command(TwinOf(s), line) == AnswerOf(Execute(s, line, env))
    ensures Ready(Execute(s, line, env).s)
  {
    TokensAgree(line);
    var tokens := Split(CString(line), DELIMS);
    if tokens == [] {
      BlankCommutes(s, line, env);
    } else {
      CStringIs(line);
      WordsArePrintable(line, 0);
      WordsAreCommon(line, 1);
      WordsAreCommon(line, 2);
      WordsCommute(s, line, tokens, env);
    }
  }

  lemma BlankCommutes(s: State, line: string, env: Env)
    requires Split(CString(line), DELIMS) == [] && T.Stripped(line) == ""
    ensures T.Command(TwinOf(s), line) == AnswerOf(Execute(s, line, env)) && Execute(s, line, env).s == s
  {}

  /** A reply is a non-empty line, so an empty twin reply means no reply at all. */
  lemma RepliesAreLines(s: State, line: string, env: Env)
    ensures Execute(s, line, env).reply.Some? ==> Execute(s, line, env).reply.value != ""
  {
    if Split(CString(line), DELIMS) != [] {
      var u := Update(Touch(s, env));
      assert StatusFields(u) != [];
    }
  }

  /** A lease check after `dt` milliseconds is `advance(dt)`. */
  lemma CheckCommutes(s: State, env: Env)
    requires Ready(s) && env.beforeArm == env.beforeReport == 0
    ensures T.Advance(TwinOf(s), env.beforeTouch) == Some(TwinOf(Check(s, env)))
    ensures Ready(Check(s, env))
  {
    var t := s.now + env.beforeTouch;
    var u := s.(now := t, checkedAt := t);
    assert U32(U32(s.now) + env.beforeTouch) == U32(t);
    assert TwinOf(u) == TwinOf(s).(nowMs := U32(t));
    SafeCommutes(u, env.(beforeTouch := 0));
    assert Commit(SafeState(u), env) == Commit(SafeState(u), env.(beforeTouch := 0));
  }

  /** At the end of a loop the published status is the twin's cached one. */
  lemma PublishCommutes(s: State, env: Env)
    requires Ready(s) && env.beforeReport == 0
    ensures var t := Publish(s, env);
            && TwinOf(t) == TwinOf(s) && Ready(t)
            && HidOf(t.status) == TwinOf(t).hid && !t.status.voltageNotRegulated
  {
    UpdateCommutes(s);
    ReadyIsUpdated(s);
    Safety.SendKeeps(Update(s), false, env);
  }

  lemma SetupCommutes(net: Network, env: Env)
    requires Steady(env)
    ensures TwinOf(Setup(net, env)) == T.Fresh(T.Address(net.ip, net.gateway, net.subnet, T.CONTROL_PORT))
    ensures Ready(Setup(net, env))
  {
    SafeCommutes(PowerOn(net), env);
  }
}
