/** The Python driver's protocol layer: the command lines its setters print, and
    how it reads replies. */
module Driver {
  import opened Ascii
  import opened Decimal
  import opened PythonText

  /** The driver's exceptions, told apart by where they are raised. */
  datatype Failure =
    | CommandError(detail: string)
    | UnexpectedResponse(text: string)
    | Missing(key: string)
    | NotBoolean(key: string, value: string)
    | NotInteger(key: string, value: string)
    | ValueError

  datatype Result<+T> = Ok(value: T) | Err(error: Failure) {
    predicate IsFailure() { Err? }
    function PropagateFailure<U>(): (r: Result<U>)
      requires Err?
    {
      Err(error)
    }
    function Extract(): (r: T)
      requires Ok?
    {
      value
    }
  }

  // ---------------------------------------------------------------- setters

  /** An argument of `set_charging` and `set_low_battery`. */
  datatype Mode = Switch(on: bool) | Word(text: string)

  datatype Setter =
    | SetAc(present: bool)
    | SetBattery(percent: int)
    | SetLoad(percent: int)
    | SetRuntime(seconds: Option<int>)
    | SetVoltage(centivolts: int)
    | SetInputVoltage(centivolts: int)
    | SetOutputVoltage(centivolts: int)
    | SetStartDelay(delay: int)
    | SetCharging(mode: Mode)
    | SetLowBattery(mode: Mode)
    | SetOverload(enabled: bool)
    | SetNeedReplacement(enabled: bool)
    | SetCommunicationLost(enabled: bool)
    | SetShutdownRequested(enabled: bool)

  function OnOff(b: bool): (r: string) { if b then "ON" else "OFF" }

  /** Python's `str.strip()`. */
  function Strip(s: string): (r: string) { TrimLeft(TrimRight(s, PYTHON_SPACE), PYTHON_SPACE) }

  predicate IsModeWord(word: string) { word == "AUTO" || word == "ON" || word == "OFF" }

  function ModeWord(mode: Mode): (r: Result<string>)
    ensures r.Ok? ==> IsModeWord(r.value)
  {
    match mode
    case Switch(on) => Ok(OnOff(on))
    case Word(text) =>
      var word := PythonUpper(Strip(text));
      if IsModeWord(word) then Ok(word) else Err(ValueError)
  }

  function Bounded(word: string, value: int, lo: int, hi: int): (r: Result<string>) {
    if lo <= value <= hi then Ok(word + " " + Print(value)) else Err(ValueError)
  }

  /** The line a setter sends, or the `ValueError` it raises instead. */
  function CommandLine(setter: Setter): (r: Result<string>) {
    match setter
    case SetAc(b) => Ok("AC " + OnOff(b))
    case SetBattery(v) => Bounded("BATTERY", v, 0, 100)
    case SetLoad(v) => Bounded("LOAD", v, 0, 100)
    case SetRuntime(v) => if v.None? then Ok("RUNTIME AUTO") else Bounded("RUNTIME", v.value, 0, 65535)
    case SetVoltage(v) => Bounded("VOLTAGE", v, 0, 65535)
    case SetInputVoltage(v) => Bounded("INPUTVOLTAGE", v, 0, 65535)
    case SetOutputVoltage(v) => Bounded("OUTPUTVOLTAGE", v, 0, 65535)
    case SetStartDelay(v) => Bounded("STARTDELAY", v, -1, 32767)
    case SetCharging(mode) => var w :- ModeWord(mode); Ok("CHARGING " + w)
    case SetLowBattery(mode) => var w :- ModeWord(mode); Ok("LOWBAT " + w)
    case SetOverload(b) => Ok("OVERLOAD " + OnOff(b))
    case SetNeedReplacement(b) => Ok("REPLACE " + OnOff(b))
    case SetCommunicationLost(b) => Ok("COMMLOST " + OnOff(b))
    case SetShutdownRequested(b) => Ok("SHUTDOWN " + OnOff(b))
  }

  /** The line `arm` sends. */
  function ArmLine(enabled: bool, lease: Option<int>): (r: Result<string>)
    ensures r.Ok? <==> !enabled || lease.None? || 0 <= lease.value <= 3600
  {
    if !enabled then Ok("ARM OFF")
    else if lease.None? then Ok("ARM ON")
    else Bounded("ARM ON", lease.value, 0, 3600)
  }

  // ---------------------------------------------------------------- replies

  predicate HasPrefix(s: string, p: string) { |p| <= |s| && s[..|p|] == p }

  function StripOk(response: string): (r: Result<string>) {
    var r := Strip(response);
    if HasPrefix(r, "ERR") then
      var detail := TrimLeft(r[3..], {' ', ':'});
      Err(CommandError(if detail == "" then r else detail))
    else if r == "OK" then Ok("")
    else if HasPrefix(r, "OK ") then Ok(r[3..])
    else Err(UnexpectedResponse(r))
  }

  /** A token cut at its first equals sign, if it has one. */
  function Cut(token: string): (r: Option<(string, string)>) {
    var n := RunLength(token, {'='});
    if n == |token| then None else Some((token[..n], token[n + 1..]))
  }

  /** The dictionary a list of tokens builds up. */
  function Entries(tokens: seq<string>): (r: map<string, string>) {
    if tokens == [] then map[]
    else
      var before, pair := Entries(tokens[..|tokens| - 1]), Cut(tokens[|tokens| - 1]);
      if pair.None? then before else before[pair.value.0 := pair.value.1]
  }

  /** `_parse_kv`. */
  method ParseKv(payload: string) returns (result: map<string, string>)
    ensures result == Entries(Split(payload, PYTHON_SPACE))
  {
    result := map[];
    var tokens := Split(payload, PYTHON_SPACE);
    for i := 0 to |tokens|
      invariant result == Entries(tokens[..i])
    {
      assert tokens[..i + 1][..i] == tokens[..i];
      var pair := Cut(tokens[i]);
      if pair.Some? {
        result := result[pair.value.0 := pair.value.1];
      }
    }
    assert tokens[..|tokens|] == tokens;
  }

  function Need(values: map<string, string>, key: string): (r: Result<string>) {
    if key in values then Ok(values[key]) else Err(Missing(key))
  }

  function AsBool(values: map<string, string>, key: string): (r: Result<bool>) {
    var value :- Need(values, key);
    if value == "1" then Ok(true)
    else if value == "0" then Ok(false)
    else Err(NotBoolean(key, value))
  }

  /** Digits with single underscores between them, as `int()` reads them. */
  predicate Grouped(s: string) {
    && s != "" && IsDigit(s[0]) && IsDigit(s[|s| - 1])
    && (forall i :: 0 <= i < |s| ==> IsDigit(s[i]) || s[i] == '_')
    && (forall i :: 0 < i < |s| && s[i] == '_' ==> s[i - 1] != '_')
  }

  function WithoutUnderscores(s: string): (r: string)
    requires forall i :: 0 <= i < |s| ==> IsDigit(s[i]) || s[i] == '_'
    ensures AllDigits(r)
    ensures AllDigits(s) ==> r == s
  {
    if s == "" then ""
    else (if s[0] == '_' then "" else [s[0]]) + WithoutUnderscores(s[1..])
  }

  /** Python's `int(text)`. */
  function PyInt(text: string): (r: Option<int>) { ReadInt(Strip(text)) }

  function ReadInt(t: string): (r: Option<int>) {
    var body := if t != "" && (t[0] == '-' || t[0] == '+') then t[1..] else t;
    if !Grouped(body) then None
    else
      var v: int := Value(WithoutUnderscores(body));
      Some(if t[0] == '-' then -v else v)
  }

  function AsInt(values: map<string, string>, key: string): (r: Result<int>) {
    var value :- Need(values, key);
    var v := PyInt(value);
    if v.Some? then Ok(v.value) else Err(NotInteger(key, value))
  }

  // ---------------------------------------------------------------- status

  datatype Supply = Supply(armed: bool, acPresent: bool, batteryPercent: int, runtimeSeconds: int, runtimeMode: string)

  datatype Levels = Levels(voltage: int, loadPercent: int, inputVoltage: int, outputVoltage: int)

  datatype Overrides = Overrides(
    chargingMode: string, chargingActive: bool, lowBatteryMode: string, lowBatteryActive: bool)

  datatype Alarms = Alarms(
    overload: bool, needReplacement: bool, communicationLost: bool, shutdownRequested: bool, shutdownImminent: bool)

  datatype Host = Host(startDelay: int, shutdownDelay: int, rebootDelay: int, ip: string)

  /** `SimulatorStatus`, its 22 fields grouped in order. */
  datatype Status = Status(supply: Supply, levels: Levels, overrides: Overrides, alarms: Alarms, host: Host)

  function ReadSupply(values: map<string, string>): (r: Result<Supply>) {
    var armed :- AsBool(values, "armed");
    var ac :- AsBool(values, "ac");
    var battery :- AsInt(values, "battery");
    var runtime :- AsInt(values, "runtime");
    var mode :- Need(values, "runtime_mode");
    Ok(Supply(armed, ac, battery, runtime, mode))
  }

  function ReadLevels(values: map<string, string>): (r: Result<Levels>) {
    var voltage :- AsInt(values, "voltage_cv");
    var load :- AsInt(values, "load");
    var input :- AsInt(values, "input_voltage_cv");
    var output :- AsInt(values, "output_voltage_cv");
    Ok(Levels(voltage, load, input, output))
  }

  function ReadOverrides(values: map<string, string>): (r: Result<Overrides>)
    ensures r.Ok? ==> "charging_mode" in values && r.value.chargingMode == values["charging_mode"]
    ensures r.Ok? ==> "lowbat_mode" in values && r.value.lowBatteryMode == values["lowbat_mode"]
  {
    var chargingMode :- Need(values, "charging_mode");
    var charging :- AsBool(values, "charging_active");
    var lowMode :- Need(values, "lowbat_mode");
    var low :- AsBool(values, "lowbat_active");
    Ok(Overrides(chargingMode, charging, lowMode, low))
  }

  function ReadAlarms(values: map<string, string>): (r: Result<Alarms>) {
    var overload :- AsBool(values, "overload");
    var replace :- AsBool(values, "replace");
    var commlost :- AsBool(values, "commlost");
    var shutdown :- AsBool(values, "shutdown");
    var imminent :- AsBool(values, "shutdown_imminent");
    Ok(Alarms(overload, replace, commlost, shutdown, imminent))
  }

  function ReadHost(values: map<string, string>): (r: Result<Host>)
    ensures r.Ok? ==> "ip" in values && r.value.ip == values["ip"]
  {
    var start :- AsInt(values, "host_start_delay");
    var shutdown :- AsInt(values, "host_shutdown_delay");
    var reboot :- AsInt(values, "host_reboot_delay");
    var ip :- Need(values, "ip");
    Ok(Host(start, shutdown, reboot, ip))
  }

  function ReadStatus(values: map<string, string>): (r: Result<Status>)
    ensures r.Ok? ==> "charging_mode" in values && r.value.overrides.chargingMode == values["charging_mode"]
    ensures r.Ok? ==> "lowbat_mode" in values && r.value.overrides.lowBatteryMode == values["lowbat_mode"]
    ensures r.Ok? ==> "ip" in values && r.value.host.ip == values["ip"]
  {
    var supply :- ReadSupply(values);
    var levels :- ReadLevels(values);
    var overrides :- ReadOverrides(values);
    var alarms :- ReadAlarms(values);
    var host :- ReadHost(values);
    Ok(Status(supply, levels, overrides, alarms, host))
  }

  /** `UpsSimulator.status`, given the reply line. */
  function StatusOf(response: string): (r: Result<Status>) {
    var payload :- StripOk(response);
    ReadStatus(Entries(Split(payload, PYTHON_SPACE)))
  }

  // ---------------------------------------------------------------- reading back

  lemma NotASpace(c: char)
    requires '!' <= c <= '~'
    ensures c !in PYTHON_SPACE
  {}

  lemma PrintIsWord(i: int)
    ensures Free(Print(i), PYTHON_SPACE)
  {
    var t := Print(i);
    forall k | 0 <= k < |t| ensures t[k] !in PYTHON_SPACE { NotASpace(t[k]); }
  }

  lemma StripWord(s: string)
    requires Free(s, PYTHON_SPACE)
    ensures Strip(s) == s
  {}

  lemma DigitsAreGrouped(s: string)
    requires s != "" && AllDigits(s)
    ensures Grouped(s) && Value(WithoutUnderscores(s)) == Value(s)
  {}

  /** `int` undoes `str`. */
  lemma PyIntOfPrint(i: int)
    ensures PyInt(Print(i)) == Some(i)
  {
    PrintIsNumeral(i);
    PrintIsWord(i);
    StripWord(Print(i));
    NumeralReads(Print(i));
  }

  /** A numeral without space or underscore reads as its value. */
  lemma NumeralReads(t: string)
    requires IsNumeral(t) && Strip(t) == t
    ensures PyInt(t) == Some(NumeralValue(t))
  {
    DigitsAreGrouped(Magnitude(t));
  }

  /** A token printed as `key=value` is cut back into key and value. */
  lemma CutPair(key: string, value: string)
    requires '=' !in key
    ensures Cut(key + "=" + value) == Some((key, value))
  {
    var token := key + "=" + value;
    assert token[..|key|] == key;
    RunLengthIs(token, {'='}, |key|);
    assert token[|key| + 1..] == value;
  }

  /** The last token naming a key decides its value. */
  lemma {:induction false} LastWins(tokens: seq<string>, i: nat, key: string, value: string)
    requires i < |tokens| && Cut(tokens[i]) == Some((key, value))
    requires forall j :: i < j < |tokens| ==> Cut(tokens[j]).None? || Cut(tokens[j]).value.0 != key
    ensures key in Entries(tokens) && Entries(tokens)[key] == value
  {
    if i < |tokens| - 1 {
      LastWins(tokens[..|tokens| - 1], i, key, value);
    }
  }

  /** Nothing in the dictionary contains white space. */
  lemma {:induction false} EntriesAreWords(tokens: seq<string>, key: string)
    requires forall i :: 0 <= i < |tokens| ==> Free(tokens[i], PYTHON_SPACE)
    requires key in Entries(tokens)
    ensures Free(Entries(tokens)[key], PYTHON_SPACE)
  {
    var last := tokens[|tokens| - 1];
    var pair := Cut(last);
    if pair.Some? && pair.value.0 == key {
      assert forall i :: 0 <= i < |pair.value.1| ==> pair.value.1[i] == last[|pair.value.0| + 1 + i];
    } else {
      EntriesAreWords(tokens[..|tokens| - 1], key);
    }
  }

  lemma StripClean(s: string)
    requires s != "" && s[0] !in PYTHON_SPACE && s[|s| - 1] !in PYTHON_SPACE
    ensures Strip(s) == s
  {}
}
