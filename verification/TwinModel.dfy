/** The Python behavioural twin of the firmware, as values. Integers are unbounded
    and modes are strings, as they are in Python; white space, digits and upper case
    are Python's for every character. */
module TwinModel {
  import opened Ascii
  import opened Decimal
  import opened PythonText
  import opened Words

  const CONTROL_PORT: int := 5000
  const ARM_DEFAULT_LEASE_SEC: int := 120
  const ARM_MAX_LEASE_SEC: int := 3600
  const FULL_CHARGE_CAPACITY: int := 100
  const LOW_BATTERY_LIMIT: int := 5
  const REMAIN_TIME_LIMIT: int := 600
  const AVG_TIME_TO_EMPTY: int := 7200

  datatype HidStatus = HidStatus(
    charging: bool, discharging: bool, acPresent: bool, batteryPresent: bool,
    belowRemainingCapacityLimit: bool, remainingTimeLimitExpired: bool, needReplacement: bool,
    fullyCharged: bool, fullyDischarged: bool, shutdownRequested: bool, shutdownImminent: bool,
    communicationLost: bool, overload: bool)

  datatype Switches = Switches(
    armed: bool, acPresent: bool, overload: bool, needReplacement: bool, communicationLost: bool,
    shutdownRequested: bool, runtimeAuto: bool, chargingMode: string, lowBatteryMode: string)

  datatype Gauges = Gauges(
    batteryPercent: int, batteryVoltageCv: int, runtimeSeconds: int,
    hostStartDelay: int, hostShutdownDelay: int, hostRebootDelay: int,
    loadPercent: int, inputVoltageCv: int, outputVoltageCv: int)

  datatype Address = Address(ip: string, gateway: string, subnet: string, port: int)

  /** One `FirmwareSimulator` object. */
  datatype Twin = Twin(
    sw: Switches, g: Gauges, armLeaseMs: int, lastCommandMs: int, nowMs: int,
    hid: HidStatus, address: Address)

  const SAFE_SWITCHES := Switches(false, true, false, false, false, false, true, "auto", "auto")
  const SAFE_GAUGES := Gauges(100, 1300, AVG_TIME_TO_EMPTY, -1, -1, -1, 25, 23000, 23000)

  /** `_set_safe_state`. */
  function SetSafe(t: Twin): (r: Twin) {
    t.(sw := SAFE_SWITCHES, g := SAFE_GAUGES, armLeaseMs := 0, lastCommandMs := 0)
  }

  function AutoSeconds(battery: int): (r: int) { AVG_TIME_TO_EMPTY * battery / FULL_CHARGE_CAPACITY }

  function Recompute(sw: Switches, g: Gauges): (r: HidStatus) {
    var autoCharging := sw.acPresent && g.batteryPercent < FULL_CHARGE_CAPACITY;
    var discharging := !sw.acPresent && g.batteryPercent > 0;
    var autoLow := g.batteryPercent <= LOW_BATTERY_LIMIT;
    var expired := discharging && g.runtimeSeconds <= REMAIN_TIME_LIMIT;
    var requested := sw.armed && (sw.shutdownRequested || g.hostShutdownDelay > 0);
    HidStatus(
      charging := if sw.chargingMode == "auto" then autoCharging else sw.chargingMode == "on",
      discharging := discharging,
      acPresent := sw.acPresent,
      batteryPresent := true,
      belowRemainingCapacityLimit := if sw.lowBatteryMode == "auto" then autoLow else sw.lowBatteryMode == "on",
      remainingTimeLimitExpired := expired,
      needReplacement := sw.needReplacement,
      fullyCharged := g.batteryPercent >= FULL_CHARGE_CAPACITY,
      fullyDischarged := g.batteryPercent == 0,
      shutdownRequested := requested,
      shutdownImminent := requested || expired,
      communicationLost := sw.communicationLost,
      overload := sw.overload)
  }

  /** `_update_model`. */
  function UpdateModel(t: Twin): (r: Twin) {
    var g := if t.sw.runtimeAuto then t.g.(runtimeSeconds := AutoSeconds(t.g.batteryPercent)) else t.g;
    t.(g := g, hid := Recompute(t.sw, g))
  }

  /** `_check_lease`. */
  function CheckLease(t: Twin): (r: Twin) {
    if t.sw.armed && t.armLeaseMs != 0 && U32(t.nowMs - t.lastCommandMs) >= t.armLeaseMs
    then UpdateModel(SetSafe(t)) else t
  }

  /** `advance`; a negative argument raises and changes nothing. */
  function Advance(t: Twin, milliseconds: int): (r: Option<Twin>) {
    if milliseconds < 0 then None
    else Some(CheckLease(t.(nowMs := U32(t.nowMs + milliseconds))))
  }

  // ---------------------------------------------------------------- arguments

  function ParseOnOff(token: Option<string>): (r: Option<bool>) {
    if token.None? then None
    else
      var value := PythonUpper(token.value);
      if value in {"ON", "1", "TRUE"} then Some(true)
      else if value in {"OFF", "0", "FALSE"} then Some(false)
      else None
  }

  function ParseOverride(token: Option<string>): (r: Option<string>) {
    if token.None? then None
    else if PythonUpper(token.value) == "AUTO" then Some("auto")
    else
      match ParseOnOff(token)
      case None => None
      case Some(v) => Some(if v then "on" else "off")
  }

  /** CPython's limit on the digits of a numeral that `int` converts. */
  const INT_MAX_STR_DIGITS: nat := 4300

  /** A token that passes the `isdigit` test and then makes `int` raise
      ValueError: it holds a digit that is no decimal digit, or too many digits. */
  predicate Unreadable(token: string) {
    var digits := Magnitude(token);
    digits != "" && AllPythonDigits(digits) && !(AllDecimals(digits) && |digits| <= 4300)
  }

  /** A parse that returns a number or None, or the ValueError of `int`. */
  datatype Parsed = Number(value: Option<int>) | Raises

  /** `_parse_signed`: the whole numeral is converted before it is compared. */
  function ParseSigned(token: Option<string>, minimum: int, maximum: int): (r: Parsed) {
    if token.None? || token.value == "" then Number(None)
    else
      var negative := token.value[0] == '-';
      var digits := if negative then token.value[1..] else token.value;
      if digits == "" || !AllPythonDigits(digits) then Number(None)
      else if !AllDecimals(digits) || |digits| > INT_MAX_STR_DIGITS then Raises
      else
        var parsed: int := DecimalsValue(digits);
        if parsed > 99999 then Number(None)
        else
          var signed := if negative then -parsed else parsed;
          if signed < minimum || signed > maximum then Number(None) else Number(Some(signed))
  }

  // ---------------------------------------------------------------- replies

  function Bit(b: bool): (r: string) { if b then "1" else "0" }

  /** The keys of `status_fields`, by position. */
  function Key(i: nat): (r: string) {
    match i
    case 0 => "armed"
    case 1 => "ac"
    case 2 => "battery"
    case 3 => "runtime"
    case 4 => "runtime_mode"
    case 5 => "voltage_cv"
    case 6 => "load"
    case 7 => "input_voltage_cv"
    case 8 => "output_voltage_cv"
    case 9 => "charging_mode"
    case 10 => "charging_active"
    case 11 => "lowbat_mode"
    case 12 => "lowbat_active"
    case 13 => "overload"
    case 14 => "replace"
    case 15 => "commlost"
    case 16 => "shutdown"
    case 17 => "shutdown_imminent"
    case 18 => "host_start_delay"
    case 19 => "host_shutdown_delay"
    case 20 => "host_reboot_delay"
    case _ => "ip"
  }

  function StatusKeys(): (r: seq<string>)
    ensures |r| == 22 && forall i :: 0 <= i < 22 ==> r[i] == Key(i)
  {
    seq(22, i requires 0 <= i < 22 => Key(i))
  }

  /** The values `status_fields` puts under those keys, in that order. */
  function StatusValues(t: Twin): (r: seq<string>)
    ensures |r| == 22
  {
    SupplyValues(t) + VoltageValues(t) + ModeValues(t) + FlagValues(t) + HostValues(t)
  }

  function SupplyValues(t: Twin): (r: seq<string>)
    ensures |r| == 5
  {
    [ Bit(t.sw.armed), Bit(t.sw.acPresent), Print(t.g.batteryPercent), Print(t.g.runtimeSeconds),
      if t.sw.runtimeAuto then "auto" else "manual" ]
  }

  function VoltageValues(t: Twin): (r: seq<string>)
    ensures |r| == 4
  {
    [ Print(t.g.batteryVoltageCv), Print(t.g.loadPercent), Print(t.g.inputVoltageCv), Print(t.g.outputVoltageCv) ]
  }

  function ModeValues(t: Twin): (r: seq<string>)
    ensures |r| == 4
  {
    [ t.sw.chargingMode, Bit(t.hid.charging), t.sw.lowBatteryMode, Bit(t.hid.belowRemainingCapacityLimit) ]
  }

  function FlagValues(t: Twin): (r: seq<string>)
    ensures |r| == 5
  {
    [ Bit(t.sw.overload), Bit(t.sw.needReplacement), Bit(t.sw.communicationLost),
      Bit(t.sw.shutdownRequested), Bit(t.hid.shutdownImminent) ]
  }

  function HostValues(t: Twin): (r: seq<string>)
    ensures |r| == 4
  {
    [ Print(t.g.hostStartDelay), Print(t.g.hostShutdownDelay), Print(t.g.hostRebootDelay), t.address.ip ]
  }

  function Pairs(keys: seq<string>, values: seq<string>): (r: seq<string>)
    requires |keys| == |values|
    ensures |r| == |keys|
  {
    seq(|keys|, i requires 0 <= i < |keys| => keys[i] + "=" + values[i])
  }

  /** `_status_response`, after `status_fields` has brought the model up to date. */
  function StatusResponse(t: Twin): (r: string) { "OK " + Join(Pairs(StatusKeys(), StatusValues(t))) }

  function NetworkResponse(a: Address): (r: string) {
    "OK ip=" + a.ip + " gateway=" + a.gateway + " subnet=" + a.subnet + " port=" + Print(a.port)
  }

  function Greeting(t: Twin): (r: seq<string>) {
    ["OK NutUPS HID Simulator v2", if t.sw.armed then "OK ARMED" else "OK DISARMED"]
  }

  // ---------------------------------------------------------------- commands

  datatype Reply = Reply(t: Twin, text: string)

  /** A call that returns, one that fails on `tokens[0]` of an empty list, and one
      that fails in `int`, with the twin it leaves behind. */
  datatype Called = Returned(r: Reply) | IndexError | ValueError(t: Twin)

  function Answer(t: Twin, text: string): (r: Called) { Returned(Reply(t, text)) }

  /** `line.replace("\r", "")`. */
  function DropCR(line: string): (r: string) {
    if line == "" then "" else (if line[0] == '\r' then "" else [line[0]]) + DropCR(line[1..])
  }

  function Stripped(line: string): (r: string) { TrimLeft(DropCR(line), {' ', '\t'}) }

  function Arg(tokens: seq<string>, i: nat): (r: Option<string>) {
    if |tokens| > i then Some(tokens[i]) else None
  }

  function RunArm(t: Twin, arg: Option<string>, arg2: Option<string>): (r: Called) {
    match ParseOnOff(arg)
    case None => Answer(t, "ERR mode")
    case Some(true) =>
      var lease := if arg2.Some? then ParseSigned(arg2, 0, ARM_MAX_LEASE_SEC) else Number(Some(ARM_DEFAULT_LEASE_SEC));
      if lease.Raises? then ValueError(t)
      else if lease.value.None? then Answer(t, "ERR range")
      else
        Answer(UpdateModel(t.(sw := t.sw.(armed := true), armLeaseMs := lease.value.value * 1000, lastCommandMs := t.nowMs)),
               "OK armed")
    case Some(false) => Answer(UpdateModel(SetSafe(t)), "OK safe")
  }

  function SetSwitch(sw: Switches, command: string, enabled: bool): (r: Switches)
    ensures r.chargingMode == sw.chargingMode && r.lowBatteryMode == sw.lowBatteryMode
    ensures r.armed == sw.armed && r.runtimeAuto == sw.runtimeAuto
  {
    if command == "AC" then sw.(acPresent := enabled)
    else if command == "OVERLOAD" then sw.(overload := enabled)
    else if command == "REPLACE" then sw.(needReplacement := enabled)
    else if command == "COMMLOST" then sw.(communicationLost := enabled)
    else sw.(shutdownRequested := enabled)
  }

  function RunSwitch(t: Twin, command: string, arg: Option<string>): (r: Called) {
    match ParseOnOff(arg)
    case None => Answer(t, "ERR mode")
    case Some(enabled) => Answer(UpdateModel(t.(sw := SetSwitch(t.sw, command, enabled))), "OK")
  }

  function RunMode(t: Twin, command: string, arg: Option<string>): (r: Called) {
    match ParseOverride(arg)
    case None => Answer(t, "ERR mode")
    case Some(mode) =>
      var sw := if command == "CHARGING" then t.sw.(chargingMode := mode) else t.sw.(lowBatteryMode := mode);
      Answer(UpdateModel(t.(sw := sw)), "OK")
  }

  function RunRuntime(t: Twin, arg: Option<string>): (r: Called) {
    if arg.Some? && PythonUpper(arg.value) == "AUTO" then
      Answer(UpdateModel(t.(sw := t.sw.(runtimeAuto := true))), "OK")
    else
      match ParseSigned(arg, 0, 65535)
      case Raises => ValueError(t)
      case Number(None) => Answer(t, "ERR range")
      case Number(Some(v)) =>
        Answer(UpdateModel(t.(sw := t.sw.(runtimeAuto := false), g := t.g.(runtimeSeconds := v))), "OK")
  }

  predicate IsGauge(command: string) {
    command in {"BATTERY", "LOAD", "VOLTAGE", "INPUTVOLTAGE", "OUTPUTVOLTAGE", "STARTDELAY"}
  }

  function Minimum(command: string): (r: int) { if command == "STARTDELAY" then -1 else 0 }

  function Maximum(command: string): (r: int) {
    if command == "BATTERY" || command == "LOAD" then 100
    else if command == "STARTDELAY" then 32767
    else 65535
  }

  function SetGauge(g: Gauges, command: string, v: int): (r: Gauges) {
    if command == "BATTERY" then g.(batteryPercent := v)
    else if command == "LOAD" then g.(loadPercent := v)
    else if command == "VOLTAGE" then g.(batteryVoltageCv := v)
    else if command == "INPUTVOLTAGE" then g.(inputVoltageCv := v)
    else if command == "OUTPUTVOLTAGE" then g.(outputVoltageCv := v)
    else g.(hostStartDelay := v)
  }

  function RunGauge(t: Twin, command: string, arg: Option<string>): (r: Called) {
    match ParseSigned(arg, Minimum(command), Maximum(command))
    case Raises => ValueError(t)
    case Number(None) => Answer(t, "ERR range")
    case Number(Some(v)) => Answer(UpdateModel(t.(g := SetGauge(t.g, command, v))), "OK")
  }

  function RunNumeric(t: Twin, command: string, arg: Option<string>): (r: Called) {
    if IsGauge(command) then RunGauge(t, command, arg)
    else if command == "RUNTIME" then RunRuntime(t, arg)
    else Answer(t, "ERR command")
  }

  function RunArmed(t: Twin, command: string, arg: Option<string>): (r: Called) {
    if !t.sw.armed then Answer(t, "ERR disarmed")
    else if command in {"AC", "OVERLOAD", "REPLACE", "COMMLOST", "SHUTDOWN"} then RunSwitch(t, command, arg)
    else if command in {"CHARGING", "LOWBAT"} then RunMode(t, command, arg)
    else RunNumeric(t, command, arg)
  }

  function RunCommand(t: Twin, command: string, arg: Option<string>, arg2: Option<string>): (r: Called) {
    if command == "PING" then Answer(t, "OK PONG")
    else if command == "IDENT?" then Answer(t, "OK NutUPS HID Simulator v2")
    else if command in {"HELP", "?"} then Answer(t, "OK docs/CONTROL_PROTOCOL.md")
    else if command in {"STATUS?", "STATUS"} then Answer(UpdateModel(t), StatusResponse(UpdateModel(t)))
    else if command == "NETWORK?" then Answer(t, NetworkResponse(t.address))
    else if command == "ARM" then RunArm(t, arg, arg2)
    else if command == "RESET" then Answer(UpdateModel(SetSafe(t)), "OK safe")
    else if command == "REPORT" then Answer(UpdateModel(t), "OK")
    else RunArmed(t, command, arg)
  }

  function Touched(t: Twin): (r: Twin) { if t.sw.armed then t.(lastCommandMs := t.nowMs) else t }

  /** `command`: the reply is empty exactly when nothing is left of the line. */
  function Command(t: Twin, line: string): (r: Called) {
    if Stripped(line) == "" then Answer(t, "")
    else
      var tokens := Split(Stripped(line), PYTHON_SPACE);
      if tokens == [] then IndexError
      else RunCommand(Touched(t), PythonUpper(tokens[0]), Arg(tokens, 1), Arg(tokens, 2))
  }

  /** `__init__`. */
  function Fresh(address: Address): (r: Twin) {
    UpdateModel(Twin(SAFE_SWITCHES, SAFE_GAUGES, 0, 0, 0, Recompute(SAFE_SWITCHES, SAFE_GAUGES), address))
  }
}
