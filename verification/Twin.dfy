/** The class `FirmwareSimulator`, proved to compute the functions of TwinModel and
    to keep its cached status sound through every call. */
module FirmwareTwin {
  import opened Ascii
  import opened PythonText
  import opened Words
  import opened TwinModel
  import TwinFacts

  class FirmwareSimulator {
    var sw: Switches
    var g: Gauges
    var armLeaseMs: int
    var lastCommandMs: int
    var nowMs: int
    var hidStatus: HidStatus
    const address: Address

    ghost function State(): (r: Twin)
      reads this
    {
      TwinModel.Twin.Twin(sw, g, armLeaseMs, lastCommandMs, nowMs, hidStatus, address)
    }

    /** The cached status is the derivation from the fields, an automatic runtime
        is up to date, and every value is in the range of its wire type. */
    ghost predicate Valid()
      reads this
    {
      TwinFacts.Sound(State())
    }

    constructor (ip: string, gateway: string, subnet: string, port: int)
      ensures Valid() && State() == Fresh(Address(ip, gateway, subnet, port))
    {
      address := Address(ip, gateway, subnet, port);
      nowMs := 0;
      sw, g, armLeaseMs, lastCommandMs := SAFE_SWITCHES, SAFE_GAUGES, 0, 0;
      hidStatus := Recompute(SAFE_SWITCHES, SAFE_GAUGES);
      new;
      UpdateModel();
      TwinFacts.FreshIsSound(address);
    }

    method SetSafeState()
      modifies this
      ensures State() == SetSafe(old(State()))
    {
      sw := Switches(
        armed := false, acPresent := true, overload := false, needReplacement := false,
        communicationLost := false, shutdownRequested := false, runtimeAuto := true,
        chargingMode := "auto", lowBatteryMode := "auto");
      armLeaseMs := 0;
      lastCommandMs := 0;
      g := Gauges(
        batteryPercent := 100, batteryVoltageCv := 1300, runtimeSeconds := AVG_TIME_TO_EMPTY,
        hostStartDelay := -1, hostShutdownDelay := -1, hostRebootDelay := -1,
        loadPercent := 25, inputVoltageCv := 23000, outputVoltageCv := 23000);
    }

    method UpdateModel()
      modifies this
      ensures State() == TwinModel.UpdateModel(old(State()))
    {
      if sw.runtimeAuto {
        g := g.(runtimeSeconds := AVG_TIME_TO_EMPTY * g.batteryPercent / FULL_CHARGE_CAPACITY);
      }
      hidStatus := Recompute(sw, g);
    }

    method CheckLease()
      requires Valid()
      modifies this
      ensures Valid() && State() == TwinModel.CheckLease(old(State()))
    {
      TwinFacts.UpdateIsSound(SetSafe(State()));
      if sw.armed && armLeaseMs != 0 {
        var elapsed := U32(nowMs - lastCommandMs);
        if elapsed >= armLeaseMs {
          SetSafeState();
          UpdateModel();
        }
      }
    }

    /** `advance`. A negative argument raises and changes nothing; otherwise an
        armed simulator with a lease stays armed exactly as long as the wrapping
        difference is below it, and a disarmed one only sees its clock move. */
    method Advance(milliseconds: int) returns (raised: bool)
      requires Valid()
      modifies this
      ensures Valid() && raised == (milliseconds < 0)
      ensures State() == if raised then old(State()) else TwinModel.Advance(old(State()), milliseconds).value
      ensures old(sw.armed) && old(armLeaseMs) != 0 && !raised ==>
                (sw.armed <==> U32(nowMs - old(lastCommandMs)) < old(armLeaseMs))
      ensures !old(sw.armed) && !raised ==> State() == old(State()).(nowMs := nowMs)
    {
      if milliseconds < 0 { return true; }
      nowMs := U32(nowMs + milliseconds);
      CheckLease();
      raised := false;
    }

    // ---------------------------------------------------------- commands

    /** How a handler ended: with a text, or with the ValueError of `int`. */
    ghost function Ended(text: Option<string>): (r: Called)
      reads this
    {
      if text.Some? then Answer(State(), text.value) else ValueError(State())
    }

    method HandleArm(arg: Option<string>, arg2: Option<string>) returns (text: Option<string>)
      modifies this
      ensures Ended(text) == RunArm(old(State()), arg, arg2)
    {
      var enabled := ParseOnOff(arg);
      if enabled.None? { return Some("ERR mode"); }
      if enabled.value {
        var leaseSec := ARM_DEFAULT_LEASE_SEC;
        if arg2.Some? {
          var parsed := TwinModel.ParseSigned(arg2, 0, ARM_MAX_LEASE_SEC);
          if parsed.Raises? { return None; }
          if parsed.value.None? { return Some("ERR range"); }
          leaseSec := parsed.value.value;
        }
        sw := sw.(armed := true);
        armLeaseMs := leaseSec * 1000;
        lastCommandMs := nowMs;
        UpdateModel();
        return Some("OK armed");
      }
      SetSafeState();
      UpdateModel();
      text := Some("OK safe");
    }

    method HandleSwitch(command: string, arg: Option<string>) returns (text: string)
      modifies this
      ensures Answer(State(), text) == RunSwitch(old(State()), command, arg)
    {
      var enabled := ParseOnOff(arg);
      if enabled.None? { return "ERR mode"; }
      if command == "AC" { sw := sw.(acPresent := enabled.value); }
      else if command == "OVERLOAD" { sw := sw.(overload := enabled.value); }
      else if command == "REPLACE" { sw := sw.(needReplacement := enabled.value); }
      else if command == "COMMLOST" { sw := sw.(communicationLost := enabled.value); }
      else { sw := sw.(shutdownRequested := enabled.value); }
      UpdateModel();
      text := "OK";
    }

    method HandleMode(command: string, arg: Option<string>) returns (text: string)
      modifies this
      ensures Answer(State(), text) == RunMode(old(State()), command, arg)
    {
      var mode := ParseOverride(arg);
      if mode.None? { return "ERR mode"; }
      if command == "CHARGING" { sw := sw.(chargingMode := mode.value); }
      else { sw := sw.(lowBatteryMode := mode.value); }
      UpdateModel();
      text := "OK";
    }

    method HandleNumeric(command: string, arg: Option<string>) returns (text: Option<string>)
      modifies this
      ensures Ended(text) == RunNumeric(old(State()), command, arg)
    {
      if IsGauge(command) {
        var value := TwinModel.ParseSigned(arg, Minimum(command), Maximum(command));
        if value.Raises? { return None; }
        if value.value.None? { return Some("ERR range"); }
        g := SetGauge(g, command, value.value.value);
      } else if command == "RUNTIME" {
        if arg.Some? && PythonUpper(arg.value) == "AUTO" {
          sw := sw.(runtimeAuto := true);
        } else {
          var value := TwinModel.ParseSigned(arg, 0, 65535);
          if value.Raises? { return None; }
          if value.value.None? { return Some("ERR range"); }
          sw := sw.(runtimeAuto := false);
          g := g.(runtimeSeconds := value.value.value);
        }
      } else {
        return Some("ERR command");
      }
      UpdateModel();
      text := Some("OK");
    }

    method HandleArmed(command: string, arg: Option<string>) returns (text: Option<string>)
      modifies this
      ensures Ended(text) == RunArmed(old(State()), command, arg)
    {
      if !sw.armed { return Some("ERR disarmed"); }
      if command in {"AC", "OVERLOAD", "REPLACE", "COMMLOST", "SHUTDOWN"} {
        var reply := HandleSwitch(command, arg);
        text := Some(reply);
      } else if command in {"CHARGING", "LOWBAT"} {
        var reply := HandleMode(command, arg);
        text := Some(reply);
      } else {
        text := HandleNumeric(command, arg);
      }
    }

    /** `status_fields` updates the model as a side effect. */
    method StatusReply() returns (text: string)
      modifies this
      ensures State() == TwinModel.UpdateModel(old(State())) && text == StatusResponse(State())
    {
      UpdateModel();
      text := "OK " + Join(Pairs(StatusKeys(), StatusValues(
        TwinModel.Twin.Twin(sw, g, armLeaseMs, lastCommandMs, nowMs, hidStatus, address))));
    }

    method Dispatch(command: string, arg: Option<string>, arg2: Option<string>) returns (text: Option<string>)
      modifies this
      ensures Ended(text) == RunCommand(old(State()), command, arg, arg2)
    {
      if command == "PING" { return Some("OK PONG"); }
      if command == "IDENT?" { return Some("OK NutUPS HID Simulator v2"); }
      if command in {"HELP", "?"} { return Some("OK docs/CONTROL_PROTOCOL.md"); }
      if command in {"STATUS?", "STATUS"} {
        var reply := StatusReply();
        text := Some(reply);
      } else if command == "NETWORK?" {
        text := Some(NetworkResponse(address));
      } else if command == "ARM" {
        text := HandleArm(arg, arg2);
      } else if command == "RESET" {
        SetSafeState();
        UpdateModel();
        text := Some("OK safe");
      } else if command == "REPORT" {
        UpdateModel();
        text := Some("OK");
      } else {
        text := HandleArmed(command, arg);
      }
    }

    /** `command`: the reply, or the exception that was raised. Whatever happens the
        cached status stays sound, and queries, ERR replies and exceptions leave at
        most the time of the last command changed. */
    method Command(line: string) returns (text: Option<string>)
      requires Valid()
      modifies this
      ensures Valid()
      ensures match TwinModel.Command(old(State()), line)
              case Returned(r) => text == Some(r.text) && State() == r.t
              case IndexError => text == None && State() == old(State())
              case ValueError(t) => text == None && State() == t
      ensures text == None || TwinFacts.IsError(text.value) || TwinFacts.AsksOnly(line) ==>
                State() == old(State()) || State() == Touched(old(State()))
    {
      TwinFacts.CommandKeepsSound(State(), line);
      TwinFacts.AtMostTouched(State(), line);
      text := RunLine(line);
    }

    method RunLine(line: string) returns (text: Option<string>)
      modifies this
      ensures match TwinModel.Command(old(State()), line)
              case Returned(r) => text == Some(r.text) && State() == r.t
              case IndexError => text == None && State() == old(State())
              case ValueError(t) => text == None && State() == t
    {
      var stripped := Stripped(line);
      if stripped == "" { return Some(""); }
      var tokens := Split(stripped, PYTHON_SPACE);
      if tokens == [] { return None; }
      TwinFacts.CommandRuns(State(), line, tokens);
      TwinFacts.NeverIndexError(Touched(State()), PythonUpper(tokens[0]), Arg(tokens, 1), Arg(tokens, 2));
      text := RunTokens(tokens);
    }

    method RunTokens(tokens: seq<string>) returns (text: Option<string>)
      requires tokens != []
      modifies this
      ensures Ended(text) == RunCommand(Touched(old(State())), PythonUpper(tokens[0]), Arg(tokens, 1), Arg(tokens, 2))
    {
      if sw.armed { lastCommandMs := nowMs; }
      text := Dispatch(PythonUpper(tokens[0]), Arg(tokens, 1), Arg(tokens, 2));
    }
  }
}
