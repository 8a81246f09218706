/** The control state of the sketch and what one command does to it, as values.
    The class in Firmware.dfy is proved to compute exactly these functions. */
module Control {
  import opened Ascii
  import opened Decimal
  import opened Words
  import Registry
  import HidSetup

  // ---------------------------------------------------------------- state

  datatype OverrideMode = AUTO | OFF | ON

  datatype SimulatorState = SimulatorState(
    armed: bool, acPresent: bool, overload: bool, needReplacement: bool,
    communicationLost: bool, shutdownRequested: bool, runtimeAuto: bool,
    charging: OverrideMode, lowBattery: OverrideMode)

  /** The status bit field of `HIDPowerDevice.h`, without its two unused bits. */
  datatype PresentStatus = PresentStatus(
    charging: bool, discharging: bool, acPresent: bool, batteryPresent: bool,
    belowRemainingCapacityLimit: bool, remainingTimeLimitExpired: bool,
    needReplacement: bool, voltageNotRegulated: bool,
    fullyCharged: bool, fullyDischarged: bool, shutdownRequested: bool,
    shutdownImminent: bool, communicationLost: bool, overload: bool)

  const NO_STATUS := PresentStatus(false, false, false, false, false, false, false,
                                   false, false, false, false, false, false, false)

  /** Measurement variables the sketch owns. */
  datatype Measurements = Measurements(
    remaining: byte, runtime: u16, voltage: u16, load: byte,
    inputVoltage: u16, outputVoltage: u16,
    avgTimeToEmpty: u16, fullCharge: byte)

  /** Variables meant to be written by the USB host as well. */
  datatype HostVars = HostVars(
    startDelay: i16, rebootDelay: i16, shutdownDelay: i16,
    remainTimeLimit: u16, warnLimit: byte, remnLimit: byte, audibleAlarm: byte)

  /** The three values of the last acknowledged report batch, and its time. */
  datatype Snapshot = Snapshot(status: PresentStatus, remaining: byte, runtime: u16, lastReportMs: u32)

  /** Bytes one attempt put into the endpoint, and whether every report went. */
  datatype Batch = Batch(bytes: seq<byte>, complete: bool)

  datatype Network = Network(ip: string, gateway: string, subnet: string)

  /** Control state. `now` is the unbounded time behind the wrapping `millis()`;
      `lastCommandAt` and `checkedAt` are the unbounded times of the last lease
      refresh and of the last lease check. `tx` logs the report attempts. */
  datatype State = State(
    sim: SimulatorState, armLeaseMs: u32, lastCommandMs: u32,
    m: Measurements, host: HostVars, status: PresentStatus,
    snap: Snapshot, tx: seq<Batch>, net: Network,
    now: nat, lastCommandAt: nat, checkedAt: nat)

  /** What the endpoint does with one report: free space, and whether the two
      `USB_Send` calls succeed (a failing one may leave some bytes behind). */
  datatype SendOutcome = SendOutcome(space: nat, idOk: bool, dataOk: bool, partial: nat)

  /** The surroundings while one action runs: how far the clock moves before
      each of the (at most three) readings of `millis()`, and the endpoint's
      answers report by report; a missing answer is a refusal. */
  datatype Env = Env(beforeTouch: nat, beforeArm: nat, beforeReport: nat, usb: seq<SendOutcome>)

  const DEFAULT_LEASE_SEC: int := 120
  const MAX_LEASE_SEC: int := 3600
  const REPORT_INTERVAL_MS: int := 5000
  const CONTROL_PORT: int := 5000

  // ---------------------------------------------------------------- model

  const SAFE_SIM := SimulatorState(false, true, false, false, false, false, true, AUTO, AUTO)

  /** `setSafeState`. */
  function SafeState(s: State): (r: State) {
    s.(sim := SAFE_SIM, armLeaseMs := 0, lastCommandMs := 0, lastCommandAt := 0,
       m := s.m.(remaining := 100, voltage := 1300, runtime := s.m.avgTimeToEmpty,
                 load := 25, inputVoltage := 23000, outputVoltage := 23000),
       host := s.host.(startDelay := -1, rebootDelay := -1, shutdownDelay := -1))
  }

  function AutoRuntime(m: Measurements): (r: u16) {
    if m.fullCharge == 0 then m.runtime
    else
      var avg: int, left: int, full: int := m.avgTimeToEmpty, m.remaining, m.fullCharge;
      U16(avg * left / full)
  }

  predicate Override(mode: OverrideMode, auto: bool) {
    if mode == AUTO then auto else mode == ON
  }

  /** The status word as a function of the variables it is derived from; the
      three host-writable inputs are separate parameters because the sketch
      reads each of them on its own. */
  function Derive(sim: SimulatorState, m: Measurements, shutdownDelay: i16, remainTimeLimit: u16, remnLimit: byte)
    : (r: PresentStatus)
  {
    var discharging := !sim.acPresent && m.remaining > 0;
    var expired := discharging && m.runtime <= remainTimeLimit;
    var requested := sim.armed && (sim.shutdownRequested || shutdownDelay > 0);
    PresentStatus(
      Override(sim.charging, sim.acPresent && m.remaining < m.fullCharge),
      discharging,
      sim.acPresent,
      true,
      Override(sim.lowBattery, m.remaining <= remnLimit),
      expired,
      sim.needReplacement,
      false,
      m.remaining >= m.fullCharge,
      m.remaining == 0,
      requested,
      requested || expired,
      sim.communicationLost,
      sim.overload)
  }

  /** `updateModel`. */
  function Update(s: State): (r: State) {
    var m := if s.sim.runtimeAuto then s.m.(runtime := AutoRuntime(s.m)) else s.m;
    s.(m := m, status := Derive(s.sim, m, s.host.shutdownDelay, s.host.remainTimeLimit, s.host.remnLimit))
  }

  // ---------------------------------------------------------------- reports

  /** The two bytes of the status bit field. */
  function StatusBytes(p: PresentStatus): (r: seq<byte>) {
    [ Bit(p.charging) + 2 * Bit(p.discharging) + 4 * Bit(p.acPresent) + 8 * Bit(p.batteryPresent)
      + 16 * Bit(p.belowRemainingCapacityLimit) + 32 * Bit(p.remainingTimeLimitExpired)
      + 64 * Bit(p.needReplacement) + 128 * Bit(p.voltageNotRegulated),
      Bit(p.fullyCharged) + 2 * Bit(p.fullyDischarged) + 4 * Bit(p.shutdownRequested)
      + 8 * Bit(p.shutdownImminent) + 16 * Bit(p.communicationLost) + 32 * Bit(p.overload) ]
  }

  predicate BitOf(b: byte, weight: int)
    requires weight > 0
  {
    var x: int := b;
    (x / weight) % 2 == 1
  }

  function StatusOfBytes(b: seq<byte>): (r: PresentStatus)
    requires |b| == 2
  {
    PresentStatus(
      BitOf(b[0], 1), BitOf(b[0], 2), BitOf(b[0], 4), BitOf(b[0], 8),
      BitOf(b[0], 16), BitOf(b[0], 32), BitOf(b[0], 64), BitOf(b[0], 128),
      BitOf(b[1], 1), BitOf(b[1], 2), BitOf(b[1], 4), BitOf(b[1], 8), BitOf(b[1], 16), BitOf(b[1], 32))
  }

  /** The seven reports of a batch, id byte first, in sending order. */
  function Reports(s: State): (r: seq<seq<byte>>)
    ensures |r| == 7
  {
    [ [0x07] + StatusBytes(s.status),
      [0x0C, s.m.remaining],
      [0x0D] + Bytes16(s.m.runtime),
      [0x0B] + Bytes16(s.m.voltage),
      [0x22, s.m.load],
      [0x23] + Bytes16(s.m.inputVoltage),
      [0x24] + Bytes16(s.m.outputVoltage) ]
  }

  /** `usbSend` accepts a report. */
  predicate Accepts(o: SendOutcome, report: seq<byte>) {
    o.space >= |report| && o.idOk && o.dataOk
  }

  /** The bytes `usbSend` leaves in the endpoint. */
  function Queued(o: SendOutcome, report: seq<byte>): (r: seq<byte>)
    requires report != []
  {
    if o.space < |report| || !o.idOk then []
    else if o.dataOk || o.partial >= |report| - 1 then report
    else report[..1 + o.partial]
  }

  const REFUSED := SendOutcome(0, false, false, 0)

  function Answer(usb: seq<SendOutcome>, i: nat): (r: SendOutcome) {
    if i < |usb| then usb[i] else REFUSED
  }

  function SendFrom(reports: seq<seq<byte>>, usb: seq<SendOutcome>, i: nat): (r: Batch)
    requires i <= |reports| && forall k :: 0 <= k < |reports| ==> reports[k] != []
    decreases |reports| - i
  {
    if i == |reports| then Batch([], true)
    else if Accepts(Answer(usb, i), reports[i]) then
      var rest := SendFrom(reports, usb, i + 1);
      Batch(reports[i] + rest.bytes, rest.complete)
    else Batch(Queued(Answer(usb, i), reports[i]), false)
  }

  predicate Changed(s: State) {
    s.status != s.snap.status || s.m.remaining != s.snap.remaining || s.m.runtime != s.snap.runtime
  }

  /** `sendUsbReports`. */
  function SendReports(s: State, force: bool, env: Env): (r: State) {
    var s := s.(now := s.now + env.beforeReport);
    if !force && !Changed(s) && U32(U32(s.now) - s.snap.lastReportMs) < REPORT_INTERVAL_MS then s
    else
      var batch := SendFrom(Reports(s), env.usb, 0);
      s.(tx := s.tx + [batch],
         snap := if batch.complete then Snapshot(s.status, s.m.remaining, s.m.runtime, U32(s.now)) else s.snap)
  }

  function Commit(s: State, env: Env): (r: State) { SendReports(Update(s), true, env) }

  // ---------------------------------------------------------------- parsing

  /** The C string that starts at position `p`: everything up to the next NUL. */
  function CStringAt(buffer: string, p: nat): (r: string)
    ensures p + |r| <= |buffer| || r == ""
    ensures '\0' !in r
    decreases |buffer| - p
  {
    if p >= |buffer| || buffer[p] == '\0' then "" else [buffer[p]] + CStringAt(buffer, p + 1)
  }

  function CString(buffer: string): (r: string) { CStringAt(buffer, 0) }

  function Token(tokens: seq<string>, i: nat): (r: Option<string>) {
    if i < |tokens| then Some(tokens[i]) else None
  }

  /** `parseOnOff`. */
  function ReadOnOff(token: Option<string>): (r: Option<bool>) {
    if token.None? then None
    else
      var t := token.value;
      if StrCaseEq(t, "ON") || t == "1" || StrCaseEq(t, "TRUE") then Some(true)
      else if StrCaseEq(t, "OFF") || t == "0" || StrCaseEq(t, "FALSE") then Some(false)
      else None
  }

  /** `parseOverride`. */
  function ReadOverride(token: Option<string>): (r: Option<OverrideMode>) {
    if token.None? then None
    else if StrCaseEq(token.value, "AUTO") then Some(AUTO)
    else
      match ReadOnOff(token)
      case None => None
      case Some(v) => Some(if v then ON else OFF)
  }

  // ---------------------------------------------------------------- commands

  datatype Flag = Ac | Overload | Replace | CommLost | Shutdown
  datatype Number = Battery | Load | Voltage | InputVoltage | OutputVoltage | StartDelay

  datatype Keyword =
    | Ping | Ident | Help | Status | NetworkInfo | Arm | Reset | Report
    | SetFlag(flag: Flag) | Charging | LowBat | SetNumber(number: Number) | Runtime | Unknown

  /** Command words in the order the sketch compares them. */
  function KeywordOf(c: string): (r: Keyword) {
    if StrCaseEq(c, "PING") then Ping
    else if StrCaseEq(c, "IDENT?") then Ident
    else if StrCaseEq(c, "HELP") || c == "?" then Help
    else if StrCaseEq(c, "STATUS?") || StrCaseEq(c, "STATUS") then Status
    else if StrCaseEq(c, "NETWORK?") then NetworkInfo
    else if StrCaseEq(c, "ARM") then Arm
    else if StrCaseEq(c, "RESET") then Reset
    else if StrCaseEq(c, "REPORT") then Report
    else GuardedKeyword(c)
  }

  /** The words behind `requireArmed`. */
  function GuardedKeyword(c: string): (k: Keyword)
    ensures k.SetFlag? || k.Charging? || k.LowBat? || k.SetNumber? || k.Runtime? || k.Unknown?
  {
    if StrCaseEq(c, "AC") then SetFlag(Ac)
    else if StrCaseEq(c, "OVERLOAD") then SetFlag(Overload)
    else if StrCaseEq(c, "REPLACE") then SetFlag(Replace)
    else if StrCaseEq(c, "COMMLOST") then SetFlag(CommLost)
    else if StrCaseEq(c, "SHUTDOWN") then SetFlag(Shutdown)
    else if StrCaseEq(c, "CHARGING") then Charging
    else if StrCaseEq(c, "LOWBAT") then LowBat
    else NumericKeyword(c)
  }

  function NumericKeyword(c: string): (k: Keyword)
    ensures k.SetNumber? || k.Runtime? || k.Unknown?
  {
    if StrCaseEq(c, "BATTERY") then SetNumber(Battery)
    else if StrCaseEq(c, "LOAD") then SetNumber(Load)
    else if StrCaseEq(c, "VOLTAGE") then SetNumber(Voltage)
    else if StrCaseEq(c, "INPUTVOLTAGE") then SetNumber(InputVoltage)
    else if StrCaseEq(c, "OUTPUTVOLTAGE") then SetNumber(OutputVoltage)
    else if StrCaseEq(c, "RUNTIME") then Runtime
    else if StrCaseEq(c, "STARTDELAY") then SetNumber(StartDelay)
    else Unknown
  }

  function WithFlag(sim: SimulatorState, flag: Flag, value: bool): (r: SimulatorState) {
    match flag
    case Ac => sim.(acPresent := value)
    case Overload => sim.(overload := value)
    case Replace => sim.(needReplacement := value)
    case CommLost => sim.(communicationLost := value)
    case Shutdown => sim.(shutdownRequested := value)
  }

  function Lowest(n: Number): (r: int) { if n == StartDelay then -1 else 0 }

  function Highest(n: Number): (r: int) {
    match n
    case Battery => 100
    case Load => 100
    case StartDelay => 32767
    case _ => 65535
  }

  function WithNumber(s: State, n: Number, v: int): (r: State)
    requires Lowest(n) <= v <= Highest(n)
  {
    match n
    case Battery => s.(m := s.m.(remaining := v))
    case Load => s.(m := s.m.(load := v))
    case Voltage => s.(m := s.m.(voltage := v))
    case InputVoltage => s.(m := s.m.(inputVoltage := v))
    case OutputVoltage => s.(m := s.m.(outputVoltage := v))
    case StartDelay => s.(host := s.host.(startDelay := v))
  }

  /** State after a command, and the one reply line it printed, if any. */
  datatype Outcome = Outcome(s: State, reply: Option<string>)

  /** The lease refresh at the top of `handleCommand`. */
  function Touch(s: State, env: Env): (r: State) {
    if s.sim.armed then
      var t := s.now + env.beforeTouch;
      s.(now := t, lastCommandMs := U32(t), lastCommandAt := t)
    else s
  }

  function DoArm(s: State, arg: Option<string>, arg2: Option<string>, env: Env): (r: Outcome) {
    match ReadOnOff(arg)
    case None => Outcome(s, Some("ERR mode"))
    case Some(false) => Outcome(Commit(SafeState(s), env), Some("OK safe"))
    case Some(true) =>
      var lease := if arg2.None? then Some(DEFAULT_LEASE_SEC) else ReadSigned(arg2, 0, MAX_LEASE_SEC);
      if lease.None? then Outcome(s, Some("ERR range"))
      else
        var t := s.now + env.beforeArm;
        Outcome(s.(sim := s.sim.(armed := true), armLeaseMs := U32(lease.value * 1000),
                   now := t, lastCommandMs := U32(t), lastCommandAt := t),
                Some("OK armed"))
  }

  function DoFlag(s: State, flag: Flag, arg: Option<string>, env: Env): (r: Outcome) {
    match ReadOnOff(arg)
    case None => Outcome(s, Some("ERR mode"))
    case Some(v) => Outcome(Commit(s.(sim := WithFlag(s.sim, flag, v)), env), Some("OK"))
  }

  function DoMode(s: State, charging: bool, arg: Option<string>, env: Env): (r: Outcome) {
    match ReadOverride(arg)
    case None => Outcome(s, Some("ERR mode"))
    case Some(v) =>
      var sim := if charging then s.sim.(charging := v) else s.sim.(lowBattery := v);
      Outcome(Commit(s.(sim := sim), env), Some("OK"))
  }

  function DoNumber(s: State, n: Number, arg: Option<string>, env: Env): (r: Outcome) {
    match ReadSigned(arg, Lowest(n), Highest(n))
    case None => Outcome(s, Some("ERR range"))
    case Some(v) => Outcome(Commit(WithNumber(s, n, v), env), Some("OK"))
  }

  function DoRuntime(s: State, arg: Option<string>, env: Env): (r: Outcome) {
    if arg.Some? && StrCaseEq(arg.value, "AUTO") then
      Outcome(Commit(s.(sim := s.sim.(runtimeAuto := true)), env), Some("OK"))
    else
      match ReadSigned(arg, 0, 65535)
      case None => Outcome(s, Some("ERR range"))
      case Some(v) =>
        Outcome(Commit(s.(sim := s.sim.(runtimeAuto := false), m := s.m.(runtime := v)), env), Some("OK"))
  }

  /** The commands behind `requireArmed`. */
  function Guarded(s: State, k: Keyword, arg: Option<string>, env: Env): (r: Outcome) {
    if !s.sim.armed then Outcome(s, Some("ERR disarmed"))
    else
      match k
      case SetFlag(f) => DoFlag(s, f, arg, env)
      case Charging => DoMode(s, true, arg, env)
      case LowBat => DoMode(s, false, arg, env)
      case SetNumber(n) => DoNumber(s, n, arg, env)
      case Runtime => DoRuntime(s, arg, env)
      case _ => Outcome(s, Some("ERR command"))
  }

  predicate IsQueryKind(k: Keyword) { k.Ping? || k.Ident? || k.Help? || k.Status? || k.NetworkInfo? }

  /** The read-only commands. */
  function Query(s: State, k: Keyword): (r: Outcome)
    requires IsQueryKind(k)
  {
    match k
    case Ping => Outcome(s, Some("OK PONG"))
    case Ident => Outcome(s, Some(IDENTITY))
    case Help => Outcome(s, Some("OK docs/CONTROL_PROTOCOL.md"))
    case Status => Outcome(Update(s), Some(StatusLine(Update(s))))
    case NetworkInfo => Outcome(s, Some(NetworkLine(s.net)))
  }

  function Perform(s: State, k: Keyword, arg: Option<string>, arg2: Option<string>, env: Env): (r: Outcome) {
    match k
    case Arm => DoArm(s, arg, arg2, env)
    case Reset => Outcome(Commit(SafeState(s), env), Some("OK safe"))
    case Report => Outcome(Commit(s, env), Some("OK"))
    case SetFlag(_) => Guarded(s, k, arg, env)
    case Charging => Guarded(s, k, arg, env)
    case LowBat => Guarded(s, k, arg, env)
    case SetNumber(_) => Guarded(s, k, arg, env)
    case Runtime => Guarded(s, k, arg, env)
    case Unknown => Guarded(s, k, arg, env)
    case _ => Query(s, k)
  }

  /** `handleCommand` on the contents of a line buffer. */
  function Execute(s: State, buffer: string, env: Env): (r: Outcome) {
    var tokens := Split(CString(buffer), DELIMS);
    if tokens == [] then Outcome(s, None)
    else Perform(Touch(s, env), KeywordOf(tokens[0]), Token(tokens, 1), Token(tokens, 2), env)
  }

  /** Top of `loop`: read the clock and let an expired lease restore safety. */
  function Check(s: State, env: Env): (r: State) {
    var t := s.now + env.beforeTouch;
    var s := s.(now := t, checkedAt := t);
    if s.sim.armed && s.armLeaseMs != 0 && U32(U32(t) - s.lastCommandMs) >= s.armLeaseMs
    then Commit(SafeState(s), env)
    else s
  }

  /** Bottom of `loop`. */
  function Publish(s: State, env: Env): (r: State) { SendReports(Update(s), false, env) }

  // ---------------------------------------------------------------- replies

  const IDENTITY := "OK NutUPS HID Simulator v2"

  function YesNo(b: bool): (r: string) { if b then "1" else "0" }

  function ModeName(m: OverrideMode): (r: string) {
    match m
    case ON => "on"
    case OFF => "off"
    case AUTO => "auto"
  }

  datatype Field = Field(key: string, value: string)

  /** The fields of the status reply, in print order. */
  function StatusFields(s: State): (r: seq<Field>)
    ensures |r| == 22
  {
    SupplyFields(s) + VoltageFields(s) + OverrideFields(s) + FlagFields(s) + HostFields(s)
  }

  function SupplyFields(s: State): (r: seq<Field>)
    ensures |r| == 5
  {
    [ Field("armed", YesNo(s.sim.armed)),
      Field("ac", YesNo(s.sim.acPresent)),
      Field("battery", Print(s.m.remaining)),
      Field("runtime", Print(s.m.runtime)),
      Field("runtime_mode", if s.sim.runtimeAuto then "auto" else "manual") ]
  }

  function VoltageFields(s: State): (r: seq<Field>)
    ensures |r| == 4
  {
    [ Field("voltage_cv", Print(s.m.voltage)),
      Field("load", Print(s.m.load)),
      Field("input_voltage_cv", Print(s.m.inputVoltage)),
      Field("output_voltage_cv", Print(s.m.outputVoltage)) ]
  }

  function OverrideFields(s: State): (r: seq<Field>)
    ensures |r| == 4
  {
    [ Field("charging_mode", ModeName(s.sim.charging)),
      Field("charging_active", YesNo(s.status.charging)),
      Field("lowbat_mode", ModeName(s.sim.lowBattery)),
      Field("lowbat_active", YesNo(s.status.belowRemainingCapacityLimit)) ]
  }

  function FlagFields(s: State): (r: seq<Field>)
    ensures |r| == 5
  {
    [ Field("overload", YesNo(s.sim.overload)),
      Field("replace", YesNo(s.sim.needReplacement)),
      Field("commlost", YesNo(s.sim.communicationLost)),
      Field("shutdown", YesNo(s.sim.shutdownRequested)),
      Field("shutdown_imminent", YesNo(s.status.shutdownImminent)) ]
  }

  function HostFields(s: State): (r: seq<Field>)
    ensures |r| == 4
  {
    [ Field("host_start_delay", Print(s.host.startDelay)),
      Field("host_shutdown_delay", Print(s.host.shutdownDelay)),
      Field("host_reboot_delay", Print(s.host.rebootDelay)),
      Field("ip", s.net.ip) ]
  }

  /** `OK` followed by one ` key=value` per field. */
  function Render(fields: seq<Field>): (r: string) {
    if fields == [] then "OK"
    else
      var f := fields[|fields| - 1];
      Render(fields[..|fields| - 1]) + " " + f.key + "=" + f.value
  }

  function StatusLine(s: State): (r: string) { Render(StatusFields(s)) }

  function NetworkLine(n: Network): (r: string) {
    "OK ip=" + n.ip + " gateway=" + n.gateway + " subnet=" + n.subnet + " port=" + Print(CONTROL_PORT)
  }

  // ---------------------------------------------------------------- host

  /** Storing received bytes into a registered variable. Variables that take no
      part in the control state are not represented here. */
  function Store(s: State, v: HidSetup.Var, b: seq<byte>): (r: State) {
    if |b| == 2 then
      match v
      case PresentStatusVar => s.(status := StatusOfBytes(b))
      case RunTimeToEmpty => s.(m := s.m.(runtime := Word16(b)))
      case AvgTimeToEmpty => s.(m := s.m.(avgTimeToEmpty := Word16(b)))
      case Voltage => s.(m := s.m.(voltage := Word16(b)))
      case InputVoltage => s.(m := s.m.(inputVoltage := Word16(b)))
      case OutputVoltage => s.(m := s.m.(outputVoltage := Word16(b)))
      case RemainTimeLimit => s.(host := s.host.(remainTimeLimit := Word16(b)))
      case DelayStartup => s.(host := s.host.(startDelay := Int16(b)))
      case DelayReboot => s.(host := s.host.(rebootDelay := Int16(b)))
      case DelayShutdown => s.(host := s.host.(shutdownDelay := Int16(b)))
      case _ => s
    else if |b| == 1 then
      match v
      case PercentLoad => s.(m := s.m.(load := b[0]))
      case Remaining => s.(m := s.m.(remaining := b[0]))
      case FullChargeCapacity => s.(m := s.m.(fullCharge := b[0]))
      case WarnLimit => s.(host := s.host.(warnLimit := b[0]))
      case RemnLimit => s.(host := s.host.(remnLimit := b[0]))
      case AudibleAlarm => s.(host := s.host.(audibleAlarm := b[0]))
      case _ => s
    else s
  }

  /** A SET_REPORT interrupt: whatever the feature table lets through is stored. */
  function HostWrite(s: State, w: Registry.SetReport): (r: State) {
    match Registry.Target(HidSetup.Table(), w)
    case None => s
    case Some(e) => Store(s, e.data, Registry.Received(w)[1..])
  }

  /** Values of the variables before `setup` runs. */
  function PowerOn(net: Network): (r: State) {
    State(SimulatorState(false, false, false, false, false, false, false, OFF, OFF), 0, 0,
          Measurements(100, 7200, 1300, 25, 23000, 23000, 7200, 100),
          HostVars(-1, -1, -1, 600, 10, 5, 2), NO_STATUS,
          Snapshot(NO_STATUS, 0, 0, 0), [], net, 0, 0, 0)
  }

  /** `setup`, up to the first report batch. */
  function Setup(net: Network, env: Env): (r: State) { Commit(SafeState(PowerOn(net)), env) }
}
