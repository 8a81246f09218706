/** Driver against firmware: every setter line the driver prints is taken by the
    sketch as exactly that assignment, and `status()` reads it back. */
module EndToEnd {
  import opened Ascii
  import opened Decimal
  import opened PythonText
  import opened Words
  import opened Control
  import D = Driver
  import Safety
  import Refinement
  import StatusReading
  import W = CommandWords

  // ---------------------------------------------------------------- words

  /** The word and the argument of a setter's line. */
  function Word(setter: D.Setter): (r: string) {
    match setter
    case SetAc(_) => "AC"
    case SetBattery(_) => "BATTERY"
    case SetLoad(_) => "LOAD"
    case SetRuntime(_) => "RUNTIME"
    case SetVoltage(_) => "VOLTAGE"
    case SetInputVoltage(_) => "INPUTVOLTAGE"
    case SetOutputVoltage(_) => "OUTPUTVOLTAGE"
    case SetStartDelay(_) => "STARTDELAY"
    case SetCharging(_) => "CHARGING"
    case SetLowBattery(_) => "LOWBAT"
    case SetOverload(_) => "OVERLOAD"
    case SetNeedReplacement(_) => "REPLACE"
    case SetCommunicationLost(_) => "COMMLOST"
    case SetShutdownRequested(_) => "SHUTDOWN"
  }

  /** What a mode argument means: a bool is on or off, a text is read without the
      white space around it and without regard to case, and any other text means
      nothing. */
  function Meant(mode: D.Mode): (r: Option<OverrideMode>) {
    match mode
    case Switch(on) => if on then Some(ON) else Some(OFF)
    case Word(text) =>
      var word := PythonUpper(D.Strip(text));
      if word == "AUTO" then Some(AUTO) else if word == "ON" then Some(ON) else if word == "OFF" then Some(OFF) else None
  }

  function ModeWordOf(m: OverrideMode): (r: string) {
    match m
    case AUTO => "AUTO"
    case ON => "ON"
    case OFF => "OFF"
  }

  function ModeArgument(mode: D.Mode): (r: string) {
    if Meant(mode).Some? then ModeWordOf(Meant(mode).value) else ""
  }

  /** The driver sends the word of what is meant, and raises exactly if nothing is. */
  lemma ModeIsMeant(mode: D.Mode)
    ensures D.ModeWord(mode) == if Meant(mode).None? then D.Err(D.ValueError) else D.Ok(ModeArgument(mode))
  {}

  lemma ChargingLine(mode: D.Mode, w: D.Result<string>)
    requires w == D.ModeWord(mode)
    ensures D.CommandLine(D.SetCharging(mode)) == if w.Err? then D.Err(w.error) else D.Ok("CHARGING " + w.value)
  {}

  lemma LowBatLine(mode: D.Mode, w: D.Result<string>)
    requires w == D.ModeWord(mode)
    ensures D.CommandLine(D.SetLowBattery(mode)) == if w.Err? then D.Err(w.error) else D.Ok("LOWBAT " + w.value)
  {}

  lemma ModeLines(mode: D.Mode)
    ensures Meant(mode).None? ==>
              D.CommandLine(D.SetCharging(mode)) == D.CommandLine(D.SetLowBattery(mode)) == D.Err(D.ValueError)
    ensures Meant(mode).Some? ==>
              && D.CommandLine(D.SetCharging(mode)) == D.Ok("CHARGING " + ModeArgument(mode))
              && D.CommandLine(D.SetLowBattery(mode)) == D.Ok("LOWBAT " + ModeArgument(mode))
  {
    ModeIsMeant(mode);
    ChargingLine(mode, D.ModeWord(mode));
    LowBatLine(mode, D.ModeWord(mode));
  }

  function Argument(setter: D.Setter): (r: string) {
    match setter
    case SetAc(b) => D.OnOff(b)
    case SetBattery(v) => Print(v)
    case SetLoad(v) => Print(v)
    case SetRuntime(v) => if v.None? then "AUTO" else Print(v.value)
    case SetVoltage(v) => Print(v)
    case SetInputVoltage(v) => Print(v)
    case SetOutputVoltage(v) => Print(v)
    case SetStartDelay(v) => Print(v)
    case SetCharging(mode) => ModeArgument(mode)
    case SetLowBattery(mode) => ModeArgument(mode)
    case SetOverload(b) => D.OnOff(b)
    case SetNeedReplacement(b) => D.OnOff(b)
    case SetCommunicationLost(b) => D.OnOff(b)
    case SetShutdownRequested(b) => D.OnOff(b)
  }

  lemma LineIs(setter: D.Setter)
    requires D.CommandLine(setter).Ok?
    ensures D.CommandLine(setter).value == Word(setter) + " " + Argument(setter)
  {
    if setter.SetCharging? || setter.SetLowBattery? { ModeLines(setter.mode); }
  }

  function Key(setter: D.Setter): (k: Keyword)
    ensures k.SetFlag? || k.SetNumber? || k.Charging? || k.LowBat? || k.Runtime?
    ensures k.Charging? <==> setter.SetCharging?
    ensures k.LowBat? <==> setter.SetLowBattery?
    ensures k.Runtime? <==> setter.SetRuntime?
  {
    match setter
    case SetAc(_) => SetFlag(Ac)
    case SetBattery(_) => SetNumber(Battery)
    case SetLoad(_) => SetNumber(Load)
    case SetRuntime(_) => Runtime
    case SetVoltage(_) => SetNumber(Voltage)
    case SetInputVoltage(_) => SetNumber(InputVoltage)
    case SetOutputVoltage(_) => SetNumber(OutputVoltage)
    case SetStartDelay(_) => SetNumber(StartDelay)
    case SetCharging(_) => Charging
    case SetLowBattery(_) => LowBat
    case SetOverload(_) => SetFlag(Overload)
    case SetNeedReplacement(_) => SetFlag(Replace)
    case SetCommunicationLost(_) => SetFlag(CommLost)
    case SetShutdownRequested(_) => SetFlag(Shutdown)
  }

  lemma KeyIs(setter: D.Setter)
    ensures KeywordOf(Word(setter)) == Key(setter)
  {
    match setter
    case SetAc(_) => W.AcWord();
    case SetBattery(_) => W.BatteryWord();
    case SetLoad(_) => W.LoadWord();
    case SetRuntime(_) => W.RuntimeWord();
    case SetVoltage(_) => W.VoltageWord();
    case SetInputVoltage(_) => W.InputVoltageWord("INPUTVOLTAGE");
    case SetOutputVoltage(_) => W.OutputVoltageWord("OUTPUTVOLTAGE");
    case SetStartDelay(_) => W.StartDelayWord("STARTDELAY");
    case SetCharging(_) => W.ChargingWord();
    case SetLowBattery(_) => W.LowBatWord();
    case SetOverload(_) => W.OverloadWord();
    case SetNeedReplacement(_) => W.ReplaceWord();
    case SetCommunicationLost(_) => W.CommLostWord();
    case SetShutdownRequested(_) => W.ShutdownWord();
  }

  // ---------------------------------------------------------------- tokens

  predicate Visible(s: string) { forall i :: 0 <= i < |s| ==> '!' <= s[i] <= '~' }

  lemma VisibleIsWord(s: string)
    requires Visible(s)
    ensures Free(s, DELIMS)
  {}

  lemma PrintIsVisible(i: int)
    ensures Visible(Print(i)) && |Print(i)| >= 1
  {}

  lemma WordIsVisible(setter: D.Setter)
    ensures Visible(Word(setter)) && 2 <= |Word(setter)| <= 13
  {}

  lemma PrintIsShort(i: int)
    requires -99999 <= i <= 99999
    ensures |Print(i)| <= 6
  {
    assert Pow10(5) == 100000;
    DigitsLength(if i < 0 then -i else i, 5);
  }

  lemma ArgumentIsVisible(setter: D.Setter)
    requires D.CommandLine(setter).Ok?
    ensures Visible(Argument(setter)) && 1 <= |Argument(setter)| <= 6
  {
    match setter
    case SetBattery(v) => NumberIsVisible(v);
    case SetLoad(v) => NumberIsVisible(v);
    case SetRuntime(v) => if v.Some? { NumberIsVisible(v.value); }
    case SetVoltage(v) => NumberIsVisible(v);
    case SetInputVoltage(v) => NumberIsVisible(v);
    case SetOutputVoltage(v) => NumberIsVisible(v);
    case SetStartDelay(v) => NumberIsVisible(v);
    case SetCharging(mode) =>
      ModeLines(mode);
      ModeIsVisible(mode);
    case SetLowBattery(mode) =>
      ModeLines(mode);
      ModeIsVisible(mode);
    case _ =>
  }

  lemma NumberIsVisible(v: int)
    requires -99999 <= v <= 99999
    ensures Visible(Print(v)) && 1 <= |Print(v)| <= 6
  {
    PrintIsVisible(v);
    PrintIsShort(v);
  }

  lemma ModeWordIsVisible(w: string)
    requires D.IsModeWord(w)
    ensures Visible(w) && 1 <= |w| <= 6
  {}

  lemma ModeIsVisible(mode: D.Mode)
    requires Meant(mode).Some?
    ensures Visible(ModeArgument(mode)) && 1 <= |ModeArgument(mode)| <= 6
  {
    ModeWordIsVisible(ModeArgument(mode));
  }

  /** A word, a space and an argument are two tokens again. */
  lemma TwoTokens(word: string, arg: string)
    requires word != "" && arg != "" && Visible(word) && Visible(arg)
    ensures Split(CString(word + " " + arg), DELIMS) == [word, arg]
  {
    var line := word + " " + arg;
    assert Refinement.Printable(line);
    Refinement.CStringIs(line);
    VisibleIsWord(word);
    VisibleIsWord(arg);
    assert line == word + [' '] + arg;
    SplitWord(word, ' ', arg, DELIMS);
    SplitLastWord(arg, DELIMS);
  }

  // ---------------------------------------------------------------- commands

  function SwitchValue(setter: D.Setter): (b: bool)
    requires Key(setter).SetFlag?
    ensures D.CommandLine(setter).Ok? && Argument(setter) == D.OnOff(b)
  {
    match setter
    case SetAc(b) => b
    case SetOverload(b) => b
    case SetNeedReplacement(b) => b
    case SetCommunicationLost(b) => b
    case SetShutdownRequested(b) => b
  }

  function NumberValue(setter: D.Setter): (v: int)
    requires Key(setter).SetNumber? && D.CommandLine(setter).Ok?
    ensures Lowest(Key(setter).number) <= v <= Highest(Key(setter).number)
    ensures Argument(setter) == Print(v)
  {
    match setter
    case SetBattery(v) => v
    case SetLoad(v) => v
    case SetVoltage(v) => v
    case SetInputVoltage(v) => v
    case SetOutputVoltage(v) => v
    case SetStartDelay(v) => v
  }

  function ChosenMode(setter: D.Setter): (r: OverrideMode)
    requires (setter.SetCharging? || setter.SetLowBattery?) && D.CommandLine(setter).Ok?
  {
    ModeLines(setter.mode);
    Meant(setter.mode).value
  }

  function WithRuntime(s: State, seconds: Option<int>): (r: State)
    requires seconds.Some? ==> 0 <= seconds.value <= 65535
  {
    match seconds
    case None => s.(sim := s.sim.(runtimeAuto := true))
    case Some(v) => s.(sim := s.sim.(runtimeAuto := false), m := s.m.(runtime := v))
  }

  /** The one assignment a setter stands for. */
  function Assigned(s: State, setter: D.Setter): (r: State)
    requires D.CommandLine(setter).Ok?
  {
    match Key(setter)
    case SetFlag(f) => s.(sim := WithFlag(s.sim, f, SwitchValue(setter)))
    case SetNumber(n) => WithNumber(s, n, NumberValue(setter))
    case Charging => s.(sim := s.sim.(charging := ChosenMode(setter)))
    case LowBat => s.(sim := s.sim.(lowBattery := ChosenMode(setter)))
    case Runtime => WithRuntime(s, setter.seconds)
  }

  lemma OnOffRead(b: bool)
    ensures ReadOnOff(Some(D.OnOff(b))) == Some(b)
  {
    W.FoldSelf("ON");
    W.FoldSelf("OFF");
  }

  lemma AutoRead()
    ensures ReadOverride(Some("AUTO")) == Some(AUTO)
  {
    W.FoldSelf("AUTO");
  }

  lemma NotAuto()
    ensures !StrCaseEq("ON", "AUTO") && !StrCaseEq("OFF", "AUTO")
  {
    W.Shorter("ON", "AUTO");
    W.Shorter("OFF", "AUTO");
  }

  lemma ModeRead(m: OverrideMode)
    ensures ReadOverride(Some(ModeWordOf(m))) == Some(m)
  {
    match m
    case AUTO => AutoRead();
    case ON =>
      NotAuto();
      OnOffRead(true);
    case OFF =>
      NotAuto();
      OnOffRead(false);
  }

  lemma NumberRead(v: int, lo: int, hi: int)
    requires -99999 <= lo <= v <= hi <= 99999
    ensures ReadSigned(Some(Print(v)), lo, hi) == Some(v)
  {
    PrintAccepted(v, lo, hi, v);
  }

  lemma NoNumeralIsAuto(v: int)
    ensures !StrCaseEq(Print(v), "AUTO")
  {
    assert Lower(Print(v)[0]) == Print(v)[0];
  }

  lemma FlagTaken(s: State, setter: D.Setter, env: Env)
    requires s.sim.armed && Key(setter).SetFlag?
    ensures Guarded(s, Key(setter), Some(Argument(setter)), env)
            == Outcome(Commit(Assigned(s, setter), env), Some("OK"))
  {
    OnOffRead(SwitchValue(setter));
  }

  lemma ModeTaken(s: State, setter: D.Setter, env: Env)
    requires s.sim.armed && (setter.SetCharging? || setter.SetLowBattery?) && D.CommandLine(setter).Ok?
    ensures Guarded(s, Key(setter), Some(Argument(setter)), env)
            == Outcome(Commit(Assigned(s, setter), env), Some("OK"))
  {
    ModeLines(setter.mode);
    ModeRead(Meant(setter.mode).value);
  }

  lemma RuntimeTaken(s: State, setter: D.Setter, env: Env)
    requires s.sim.armed && setter.SetRuntime? && D.CommandLine(setter).Ok?
    ensures Guarded(s, Key(setter), Some(Argument(setter)), env)
            == Outcome(Commit(Assigned(s, setter), env), Some("OK"))
  {
    if setter.seconds.Some? {
      NumberRead(setter.seconds.value, 0, 65535);
      NoNumeralIsAuto(setter.seconds.value);
    } else {
      W.FoldSelf("AUTO");
    }
  }

  lemma NumberTaken(s: State, setter: D.Setter, env: Env)
    requires s.sim.armed && Key(setter).SetNumber? && D.CommandLine(setter).Ok?
    ensures Guarded(s, Key(setter), Some(Argument(setter)), env)
            == Outcome(Commit(Assigned(s, setter), env), Some("OK"))
  {
    var n := Key(setter).number;
    NumberRead(NumberValue(setter), Lowest(n), Highest(n));
  }

  lemma TwoWordCommand(s: State, word: string, arg: string, env: Env)
    requires word != "" && arg != "" && Visible(word) && Visible(arg)
    ensures Execute(s, word + " " + arg, env) == Perform(Touch(s, env), KeywordOf(word), Some(arg), None, env)
  {
    TwoTokens(word, arg);
  }

  lemma KeyTaken(s: State, setter: D.Setter, env: Env)
    requires s.sim.armed && D.CommandLine(setter).Ok?
    ensures Guarded(s, Key(setter), Some(Argument(setter)), env)
            == Outcome(Commit(Assigned(s, setter), env), Some("OK"))
  {
    if Key(setter).SetFlag? {
      FlagTaken(s, setter, env);
    } else if setter.SetCharging? || setter.SetLowBattery? {
      ModeTaken(s, setter, env);
    } else if setter.SetRuntime? {
      RuntimeTaken(s, setter, env);
    } else {
      NumberTaken(s, setter, env);
    }
  }

  /** Every setter, any argument it accepts, any armed state: one `OK`, and
      exactly the assignment the setter stands for. */
  lemma SetterTaken(s: State, setter: D.Setter, env: Env)
    requires s.sim.armed && D.CommandLine(setter).Ok?
    ensures Execute(s, D.CommandLine(setter).value, env)
            == Outcome(Commit(Assigned(Touch(s, env), setter), env), Some("OK"))
  {
    LineIs(setter);
    WordIsVisible(setter);
    ArgumentIsVisible(setter);
    KeyIs(setter);
    TwoWordCommand(s, Word(setter), Argument(setter), env);
    KeyTaken(Touch(s, env), setter, env);
  }

  /** The values the sketch derives from, which `status()` does not show. */
  datatype Limits = Limits(avgTimeToEmpty: u16, fullCharge: byte, remainTimeLimit: u16, remnLimit: byte)

  function LimitsOf(s: State): (r: Limits) {
    Limits(s.m.avgTimeToEmpty, s.m.fullCharge, s.host.remainTimeLimit, s.host.remnLimit)
  }

  /** What `status()` returns in state `s`. */
  function ReadingOf(s: State): (r: D.Status) { StatusReading.Reading(Refinement.TwinOf(Update(s))) }

  // ------------------------------------------------ a client's own prediction

  predicate Forced(mode: string, auto: bool) { if mode == "auto" then auto else mode == "on" }

  function ModeText(mode: D.Mode): (r: string) {
    match Meant(mode)
    case Some(AUTO) => "auto"
    case Some(ON) => "on"
    case _ => "off"
  }

  /** The stored field a setter names takes its argument; the others stay. */
  function Stored(r: D.Status, setter: D.Setter): (result: D.Status) {
    match setter
    case SetAc(b) => r.(supply := r.supply.(acPresent := b))
    case SetBattery(v) => r.(supply := r.supply.(batteryPercent := v))
    case SetLoad(v) => r.(levels := r.levels.(loadPercent := v))
    case SetRuntime(v) =>
      r.(supply := if v.None? then r.supply.(runtimeMode := "auto")
                   else r.supply.(runtimeMode := "manual", runtimeSeconds := v.value))
    case SetVoltage(v) => r.(levels := r.levels.(voltage := v))
    case SetInputVoltage(v) => r.(levels := r.levels.(inputVoltage := v))
    case SetOutputVoltage(v) => r.(levels := r.levels.(outputVoltage := v))
    case SetStartDelay(v) => r.(host := r.host.(startDelay := v))
    case SetCharging(mode) => r.(overrides := r.overrides.(chargingMode := ModeText(mode)))
    case SetLowBattery(mode) => r.(overrides := r.overrides.(lowBatteryMode := ModeText(mode)))
    case SetOverload(b) => r.(alarms := r.alarms.(overload := b))
    case SetNeedReplacement(b) => r.(alarms := r.alarms.(needReplacement := b))
    case SetCommunicationLost(b) => r.(alarms := r.alarms.(communicationLost := b))
    case SetShutdownRequested(b) => r.(alarms := r.alarms.(shutdownRequested := b))
  }

  function WithAutoRuntime(r: D.Supply, limits: Limits): (result: D.Supply) {
    if r.runtimeMode != "auto" || limits.fullCharge == 0 then r
    else
      var avg: int, full: int := limits.avgTimeToEmpty, limits.fullCharge;
      r.(runtimeSeconds := U16(avg * r.batteryPercent / full))
  }

  /** The derived fields, recomputed from the stored ones. */
  function Derived(r: D.Status, limits: Limits): (result: D.Status) {
    var supply := WithAutoRuntime(r.supply, limits);
    var expired := !supply.acPresent && supply.batteryPercent > 0 && supply.runtimeSeconds <= limits.remainTimeLimit;
    var requested := supply.armed && (r.alarms.shutdownRequested || r.host.shutdownDelay > 0);
    r.(supply := supply,
       overrides := r.overrides.(
         chargingActive := Forced(r.overrides.chargingMode, supply.acPresent && supply.batteryPercent < limits.fullCharge),
         lowBatteryActive := Forced(r.overrides.lowBatteryMode, supply.batteryPercent <= limits.remnLimit)),
       alarms := r.alarms.(shutdownImminent := requested || expired))
  }

  /** What a client expects `status()` to return after a setter. */
  function Predicted(r: D.Status, setter: D.Setter, limits: Limits): (result: D.Status) {
    Derived(Stored(r, setter), limits)
  }

  // ---------------------------------------------------------------- reading

  /** The stored fields of a state; the derived flags are left clear. */
  function Bare(s: State): (r: D.Status) {
    D.Status(
      D.Supply(s.sim.armed, s.sim.acPresent, s.m.remaining, s.m.runtime, if s.sim.runtimeAuto then "auto" else "manual"),
      D.Levels(s.m.voltage, s.m.load, s.m.inputVoltage, s.m.outputVoltage),
      D.Overrides(ModeName(s.sim.charging), false, ModeName(s.sim.lowBattery), false),
      D.Alarms(s.sim.overload, s.sim.needReplacement, s.sim.communicationLost, s.sim.shutdownRequested, false),
      D.Host(s.host.startDelay, s.host.shutdownDelay, s.host.rebootDelay, s.net.ip))
  }

  lemma ModeNames(m: OverrideMode, auto: bool)
    ensures Forced(ModeName(m), auto) == Override(m, auto)
  {}

  /** Reading a state is deriving from what it stores. */
  lemma ReadingIsDerived(s: State)
    ensures ReadingOf(s) == Derived(Bare(s), LimitsOf(s))
  {
    ModeNames(s.sim.charging, s.sim.acPresent && s.m.remaining < s.m.fullCharge);
    ModeNames(s.sim.lowBattery, s.m.remaining <= s.host.remnLimit);
  }

  /** Reports and the clock do not show in `status()`, and recomputing what was
      just computed changes nothing. */
  lemma CommitReads(s: State, env: Env)
    ensures ReadingOf(Commit(s, env)) == ReadingOf(s) && LimitsOf(Commit(s, env)) == LimitsOf(s)
    ensures Commit(s, env).sim == s.sim && Commit(s, env).net == s.net
  {
    Safety.SendKeeps(Update(s), true, env);
    assert Update(Update(s)) == Update(s);
    ReadingIsDerived(s);
    ReadingIsDerived(Commit(s, env));
  }

  lemma TouchReads(s: State, env: Env)
    ensures ReadingOf(Touch(s, env)) == ReadingOf(s) && LimitsOf(Touch(s, env)) == LimitsOf(s)
    ensures Touch(s, env).sim == s.sim
  {
    ReadingIsDerived(s);
    ReadingIsDerived(Touch(s, env));
  }

  /** Equal stored fields; the runtime counts as stored unless it is derived. */
  predicate SameStored(a: D.Status, b: D.Status, limits: Limits) {
    && a.supply.(runtimeSeconds := 0) == b.supply.(runtimeSeconds := 0)
    && (a.supply.runtimeMode != "auto" || limits.fullCharge == 0 ==> a.supply.runtimeSeconds == b.supply.runtimeSeconds)
    && a.levels == b.levels
    && a.overrides.chargingMode == b.overrides.chargingMode
    && a.overrides.lowBatteryMode == b.overrides.lowBatteryMode
    && a.alarms.(shutdownImminent := false) == b.alarms.(shutdownImminent := false)
    && a.host == b.host
  }

  lemma DerivedCongruent(a: D.Status, b: D.Status, limits: Limits)
    requires SameStored(a, b, limits)
    ensures Derived(a, limits) == Derived(b, limits)
  {}

  lemma DerivedSameStored(a: D.Status, limits: Limits)
    ensures SameStored(a, Derived(a, limits), limits)
  {}

  lemma StoredCongruent(a: D.Status, b: D.Status, setter: D.Setter, limits: Limits)
    requires SameStored(a, b, limits)
    ensures SameStored(Stored(a, setter), Stored(b, setter), limits)
  {}

  lemma FlagStored(s: State, setter: D.Setter)
    requires Key(setter).SetFlag?
    ensures Bare(Assigned(s, setter)) == Stored(Bare(s), setter)
  {}

  lemma NumberStored(s: State, setter: D.Setter)
    requires Key(setter).SetNumber? && D.CommandLine(setter).Ok?
    ensures Bare(Assigned(s, setter)) == Stored(Bare(s), setter)
  {}

  lemma ModeStored(s: State, setter: D.Setter)
    requires (setter.SetCharging? || setter.SetLowBattery?) && D.CommandLine(setter).Ok?
    ensures Bare(Assigned(s, setter)) == Stored(Bare(s), setter)
  {
    ModeLines(setter.mode);
  }

  lemma RuntimeStored(s: State, seconds: Option<int>)
    requires seconds.Some? ==> 0 <= seconds.value <= 65535
    ensures Bare(WithRuntime(s, seconds)) == Stored(Bare(s), D.SetRuntime(seconds))
  {}

  lemma AssignedIsStored(s: State, setter: D.Setter)
    requires D.CommandLine(setter).Ok?
    ensures Bare(Assigned(s, setter)) == Stored(Bare(s), setter)
    ensures LimitsOf(Assigned(s, setter)) == LimitsOf(s)
    ensures Assigned(s, setter).sim.armed == s.sim.armed && Assigned(s, setter).net == s.net
  {
    if Key(setter).SetFlag? {
      FlagStored(s, setter);
    } else if setter.SetCharging? || setter.SetLowBattery? {
      ModeStored(s, setter);
    } else if setter.SetRuntime? {
      RuntimeStored(s, setter.seconds);
    } else {
      NumberStored(s, setter);
    }
  }

  /** Reading after an assignment is what a client predicts from the reading
      before it. */
  lemma AssignedReads(s: State, setter: D.Setter)
    requires D.CommandLine(setter).Ok?
    ensures ReadingOf(Assigned(s, setter)) == Predicted(ReadingOf(s), setter, LimitsOf(s))
  {
    var limits := LimitsOf(s);
    AssignedIsStored(s, setter);
    ReadingIsDerived(Assigned(s, setter));
    ReadingIsDerived(s);
    DerivedSameStored(Bare(s), limits);
    StoredCongruent(Bare(s), ReadingOf(s), setter, limits);
    DerivedCongruent(Stored(Bare(s), setter), Stored(ReadingOf(s), setter), limits);
  }

  // ---------------------------------------------------------------- theorems

  lemma OneWordCommand(s: State, word: string, env: Env)
    requires word != "" && Visible(word)
    ensures Execute(s, word, env) == Perform(Touch(s, env), KeywordOf(word), None, None, env)
  {
    assert Refinement.Printable(word);
    Refinement.CStringIs(word);
    VisibleIsWord(word);
    SplitLastWord(word, DELIMS);
  }

  lemma StatusTaken(s: State, env: Env)
    ensures Execute(s, "STATUS?", env) == Outcome(Update(Touch(s, env)), Some(StatusLine(Update(Touch(s, env)))))
  {
    OneWordCommand(s, "STATUS?", env);
    W.StatusWord();
  }

  lemma ModeNameIsWord(m: OverrideMode)
    ensures Free(ModeName(m), PYTHON_SPACE)
  {
    StatusReading.NameIsWord(ModeName(m));
  }

  /** `status()` succeeds in every state, exactly as long as the address holds no
      white space, and returns the reading of that state. */
  lemma StatusReads(s: State, env: Env)
    ensures var reply := Execute(s, "STATUS?", env).reply;
            reply.Some? && (D.StatusOf(reply.value) == D.Ok(ReadingOf(s)) <==> Free(s.net.ip, PYTHON_SPACE))
  {
    StatusTaken(s, env);
    TouchReads(s, env);
    var u := Update(Touch(s, env));
    Refinement.StatusLinesAgree(u);
    ModeNameIsWord(u.sim.charging);
    ModeNameIsWord(u.sim.lowBattery);
    StatusReading.StatusRoundTrip(Refinement.TwinOf(u));
  }

  /** A setter's call moves the reading to the client's prediction. */
  lemma SetterAdvances(s: State, setter: D.Setter, env: Env)
    requires s.sim.armed && D.CommandLine(setter).Ok?
    ensures var done := Execute(s, D.CommandLine(setter).value, env);
            && done.reply == Some("OK") && done.s.sim.armed && done.s.net == s.net
            && LimitsOf(done.s) == LimitsOf(s)
            && ReadingOf(done.s) == Predicted(ReadingOf(s), setter, LimitsOf(s))
  {
    var t := Touch(s, env);
    SetterTaken(s, setter, env);
    TouchReads(s, env);
    AssignedReads(t, setter);
    AssignedIsStored(t, setter);
    CommitReads(Assigned(t, setter), env);
  }

  /** End to end: in any armed state, any setter with any argument it accepts
      gets exactly `OK`, keeps the device armed, and the next `status()` returns
      the client's prediction from the reading before the call. */
  lemma SetterReadsBack(s: State, setter: D.Setter, env: Env, later: Env)
    requires s.sim.armed && D.CommandLine(setter).Ok? && Free(s.net.ip, PYTHON_SPACE)
    ensures var done := Execute(s, D.CommandLine(setter).value, env);
            && done.reply == Some("OK") && done.s.sim.armed
            && var reply := Execute(done.s, "STATUS?", later).reply;
               reply.Some? && D.StatusOf(reply.value) == D.Ok(Predicted(ReadingOf(s), setter, LimitsOf(s)))
  {
    SetterAdvances(s, setter, env);
    StatusReads(Execute(s, D.CommandLine(setter).value, env).s, later);
  }

  // ------------------------------------------------- what a reply looks like

  lemma VisibleIsFree(s: string)
    requires Visible(s)
    ensures Free(s, PYTHON_SPACE)
  {
    forall i | 0 <= i < |s| ensures s[i] !in PYTHON_SPACE { D.NotASpace(s[i]); }
  }

  /** One line of printable ASCII. */
  predicate Shown(s: string) { forall i :: 0 <= i < |s| ==> ' ' <= s[i] <= '~' }

  predicate FieldsVisible(fields: seq<Field>) {
    forall i :: 0 <= i < |fields| ==> Visible(fields[i].key) && Visible(fields[i].value)
  }

  lemma AnswerVisible(b: bool)
    ensures Visible(YesNo(b))
  {}

  lemma ModeVisible(m: OverrideMode)
    ensures Visible(ModeName(m))
  {}

  lemma SupplyKeys()
    ensures Visible("armed") && Visible("ac") && Visible("battery") && Visible("runtime")
    ensures Visible("runtime_mode") && Visible("auto") && Visible("manual")
  {}

  lemma SupplyVisible(s: State)
    ensures FieldsVisible(SupplyFields(s))
  {
    SupplyKeys();
    AnswerVisible(s.sim.armed);
    AnswerVisible(s.sim.acPresent);
    PrintIsVisible(s.m.remaining);
    PrintIsVisible(s.m.runtime);
  }

  lemma VoltageKeys()
    ensures Visible("voltage_cv") && Visible("load") && Visible("input_voltage_cv") && Visible("output_voltage_cv")
  {}

  lemma VoltagesVisible(s: State)
    ensures FieldsVisible(VoltageFields(s))
  {
    VoltageKeys();
    PrintIsVisible(s.m.voltage);
    PrintIsVisible(s.m.load);
    PrintIsVisible(s.m.inputVoltage);
    PrintIsVisible(s.m.outputVoltage);
  }

  lemma OverrideKeys()
    ensures Visible("charging_mode") && Visible("charging_active") && Visible("lowbat_mode") && Visible("lowbat_active")
  {}

  lemma OverridesVisible(s: State)
    ensures FieldsVisible(OverrideFields(s))
  {
    OverrideKeys();
    ModeVisible(s.sim.charging);
    ModeVisible(s.sim.lowBattery);
    AnswerVisible(s.status.charging);
    AnswerVisible(s.status.belowRemainingCapacityLimit);
  }

  lemma FlagKeys()
    ensures Visible("overload") && Visible("replace") && Visible("commlost") && Visible("shutdown")
    ensures Visible("shutdown_imminent")
  {}

  lemma FlagsVisible(s: State)
    ensures FieldsVisible(FlagFields(s))
  {
    FlagKeys();
    AnswerVisible(s.sim.overload);
    AnswerVisible(s.sim.needReplacement);
    AnswerVisible(s.sim.communicationLost);
    AnswerVisible(s.sim.shutdownRequested);
    AnswerVisible(s.status.shutdownImminent);
  }

  lemma HostKeys()
    ensures Visible("host_start_delay") && Visible("host_shutdown_delay") && Visible("host_reboot_delay") && Visible("ip")
  {}

  lemma HostVisible(s: State)
    requires Visible(s.net.ip)
    ensures FieldsVisible(HostFields(s))
  {
    HostKeys();
    PrintIsVisible(s.host.startDelay);
    PrintIsVisible(s.host.shutdownDelay);
    PrintIsVisible(s.host.rebootDelay);
  }

  lemma {:induction false} RenderShown(fields: seq<Field>)
    requires FieldsVisible(fields)
    ensures Shown(Render(fields))
  {
    if fields == [] {
    } else {
      RenderShown(fields[..|fields| - 1]);
    }
  }

  /** A status line is one line of printable ASCII if the address is. */
  lemma StatusLineShown(s: State)
    requires Visible(s.net.ip)
    ensures Shown(StatusLine(s))
  {
    SupplyVisible(s);
    VoltagesVisible(s);
    OverridesVisible(s);
    FlagsVisible(s);
    HostVisible(s);
    FieldsTogether(SupplyFields(s), VoltageFields(s), OverrideFields(s), FlagFields(s), HostFields(s));
    RenderShown(StatusFields(s));
  }

  lemma FieldsTogether(a: seq<Field>, b: seq<Field>, c: seq<Field>, d: seq<Field>, e: seq<Field>)
    requires FieldsVisible(a) && FieldsVisible(b) && FieldsVisible(c) && FieldsVisible(d) && FieldsVisible(e)
    ensures FieldsVisible(a + b + c + d + e)
  {}

  // ------------------------------------------------- arming and restoring

  /** `reset()`: the safe state, whatever the device was doing. */
  lemma ResetTaken(s: State, env: Env)
    ensures Execute(s, "RESET", env) == Outcome(Commit(SafeState(Touch(s, env)), env), Some("OK safe"))
  {
    OneWordCommand(s, "RESET", env);
    W.ResetWord();
  }

  lemma ThreeTokens(word: string, arg: string, arg2: string)
    requires word != "" && arg != "" && arg2 != "" && Visible(word) && Visible(arg) && Visible(arg2)
    ensures Split(CString(word + " " + arg + " " + arg2), DELIMS) == [word, arg, arg2]
  {
    var line := word + " " + arg + " " + arg2;
    assert Refinement.Printable(line);
    Refinement.CStringIs(line);
    VisibleIsWord(word);
    VisibleIsWord(arg);
    VisibleIsWord(arg2);
    assert line == word + [' '] + (arg + [' '] + arg2);
    SplitWord(word, ' ', arg + [' '] + arg2, DELIMS);
    SplitWord(arg, ' ', arg2, DELIMS);
    SplitLastWord(arg2, DELIMS);
  }

  /** The lease, in seconds, that `arm(True, lease)` asks for. */
  function LeaseSeconds(lease: Option<int>): (r: int) { if lease.None? then 120 else lease.value }

  function ArmedAs(s: State, lease: Option<int>, env: Env): (r: State)
    requires 0 <= LeaseSeconds(lease) <= 3600
  {
    var t := s.now + env.beforeArm;
    s.(sim := s.sim.(armed := true), armLeaseMs := LeaseSeconds(lease) * 1000,
       now := t, lastCommandMs := U32(t), lastCommandAt := t)
  }

  lemma DefaultArm(s: State, on: string, env: Env)
    requires ReadOnOff(Some(on)) == Some(true)
    ensures DoArm(s, Some(on), None, env) == Outcome(ArmedAs(s, None, env), Some("OK armed"))
  {
    var lease := LeaseSeconds(None);
    assert lease == 120 && U32(lease * 1000) == 120_000;
  }

  lemma DefaultArmTaken(s: State, env: Env)
    ensures Execute(s, "ARM" + " " + "ON", env) == Outcome(ArmedAs(Touch(s, env), None, env), Some("OK armed"))
  {
    OnOffRead(true);
    W.ArmWord();
    TwoWordCommand(s, "ARM", "ON", env);
    DefaultArm(Touch(s, env), "ON", env);
  }

  lemma LeaseArmTaken(s: State, seconds: int, env: Env)
    requires 0 <= seconds <= MAX_LEASE_SEC
    ensures Execute(s, "ARM" + " " + "ON" + " " + Print(seconds), env)
            == Outcome(ArmedAs(Touch(s, env), Some(seconds), env), Some("OK armed"))
  {
    OnOffRead(true);
    W.ArmWord();
    NumberRead(seconds, 0, MAX_LEASE_SEC);
    NumberIsVisible(seconds);
    ThreeTokens("ARM", "ON", Print(seconds));
  }

  lemma ArmLineIs(lease: Option<int>)
    requires D.ArmLine(true, lease).Ok?
    ensures D.ArmLine(true, lease).value
            == if lease.None? then "ARM" + " " + "ON" else "ARM" + " " + "ON" + " " + Print(lease.value)
  {
    assert "ARM ON" == "ARM" + " " + "ON";
  }

  /** `arm(True, lease)`: any lease the driver sends is granted as asked. */
  lemma ArmTaken(s: State, lease: Option<int>, env: Env)
    requires D.ArmLine(true, lease).Ok?
    ensures Execute(s, D.ArmLine(true, lease).value, env) == Outcome(ArmedAs(Touch(s, env), lease, env), Some("OK armed"))
  {
    ArmLineIs(lease);
    if lease.None? { DefaultArmTaken(s, env); } else { LeaseArmTaken(s, lease.value, env); }
  }

  /** `disarm()`: the safe state as well. */
  lemma DisarmTaken(s: State, env: Env)
    ensures D.ArmLine(false, None) == D.Ok("ARM OFF")
    ensures Execute(s, "ARM OFF", env) == Outcome(Commit(SafeState(Touch(s, env)), env), Some("OK safe"))
  {
    OnOffRead(false);
    W.ArmWord();
    assert "ARM OFF" == "ARM" + " " + "OFF";
    TwoWordCommand(s, "ARM", "OFF", env);
  }
}
