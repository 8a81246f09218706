/** The control half of the sketch, with its global variables as fields that the
    methods update in place. */
module Firmware {
  import opened Ascii
  import opened Decimal
  import opened Words
  import opened Control
  import HidSetup
  import Lease
  import Registry
  import ReportLog
  import Safety

  // ------------------------------------------------------------ tokenising

  /** A NUL follows position `p` within the buffer. */
  ghost predicate Terminated(buffer: string, p: nat) {
    p + |CStringAt(buffer, p)| < |buffer|
  }

  ghost function TokensAt(buffer: string, p: nat): (r: seq<string>) { Split(CStringAt(buffer, p), DELIMS) }

  lemma {:induction false} TerminatedStep(buffer: string, p: nat)
    requires p < |buffer| && Terminated(buffer, p) && buffer[p] != '\0'
    ensures Terminated(buffer, p + 1) && CStringAt(buffer, p) == [buffer[p]] + CStringAt(buffer, p + 1)
  {}

  /** What lies before `p` does not matter to the string at `p`. */
  lemma {:induction false} CStringFrame(a: string, b: string, p: nat)
    requires |a| == |b| && p <= |a| && a[p..] == b[p..]
    ensures CStringAt(a, p) == CStringAt(b, p)
    decreases |a| - p
  {
    if p < |a| {
      assert a[p..][0] == b[p..][0] && a[p + 1..] == a[p..][1..] && b[p + 1..] == b[p..][1..];
      CStringFrame(a, b, p + 1);
    }
  }

  /** `strtok_r(..., " \t", &save)`: skips delimiters, overwrites the delimiter
      that ends the token with a NUL, and leaves `save` after it. */
  method StrTok(data: array<char>, from: nat) returns (token: Option<string>, save: nat)
    requires from < data.Length && Terminated(data[..], from)
    modifies data
    ensures from <= save < data.Length && Terminated(data[..], save)
    ensures token == Token(TokensAt(old(data[..]), from), 0)
    ensures TokensAt(data[..], save) ==
            if token.Some? then TokensAt(old(data[..]), from)[1..] else []
  {
    ghost var was := data[..];
    var start := SkipDelimiters(data, from);
    if data[start] == '\0' {
      return None, start;
    }
    var end := ScanToken(data, start);
    TokenEnds(was, start, end);
    token := Some(data[..][start..end]);
    if data[end] == '\0' {
      save := end;
    } else {
      TerminatedStep(was, end);
      data[end] := '\0';
      save := end + 1;
      assert data[..][save..] == was[save..];
      CStringFrame(data[..], was, save);
    }
  }

  method SkipDelimiters(data: array<char>, from: nat) returns (p: nat)
    requires from < data.Length && Terminated(data[..], from)
    ensures from <= p < data.Length && Terminated(data[..], p)
    ensures TokensAt(data[..], p) == TokensAt(data[..], from)
    ensures data[p] !in DELIMS
  {
    p := from;
    while data[p] == ' ' || data[p] == '\t'
      invariant from <= p < data.Length && Terminated(data[..], p)
      invariant TokensAt(data[..], p) == TokensAt(data[..], from)
      decreases data.Length - p
    {
      TerminatedStep(data[..], p);
      assert CStringAt(data[..], p)[1..] == CStringAt(data[..], p + 1);
      p := p + 1;
    }
  }

  lemma TokenEnds(buffer: string, start: nat, end: nat)
    requires start < end < |buffer| && Terminated(buffer, end)
    requires CStringAt(buffer, start) == buffer[start..end] + CStringAt(buffer, end)
    requires Free(buffer[start..end], DELIMS) && (buffer[end] == '\0' || buffer[end] in DELIMS)
    ensures TokensAt(buffer, start) ==
            [buffer[start..end]] + if buffer[end] == '\0' then [] else TokensAt(buffer, end + 1)
  {
    var word := buffer[start..end];
    if buffer[end] == '\0' {
      assert CStringAt(buffer, start) == word;
      SplitLastWord(word, DELIMS);
    } else {
      TerminatedStep(buffer, end);
      assert CStringAt(buffer, start) == word + [buffer[end]] + CStringAt(buffer, end + 1);
      SplitWord(word, buffer[end], CStringAt(buffer, end + 1), DELIMS);
    }
  }

  lemma TokenGrows(buffer: string, start: nat, end: nat)
    requires start <= end < |buffer| && Terminated(buffer, end) && buffer[end] != '\0'
    requires CStringAt(buffer, start) == buffer[start..end] + CStringAt(buffer, end)
    ensures Terminated(buffer, end + 1)
    ensures CStringAt(buffer, start) == buffer[start..end + 1] + CStringAt(buffer, end + 1)
  {
    TerminatedStep(buffer, end);
    assert buffer[start..end + 1] == buffer[start..end] + [buffer[end]];
  }

  /** `strcspn`: the first delimiter or NUL at or after `start`. */
  method ScanToken(data: array<char>, start: nat) returns (end: nat)
    requires start < data.Length && Terminated(data[..], start)
    ensures start <= end < data.Length && Terminated(data[..], end)
    ensures data[end] == '\0' || data[end] in DELIMS
    ensures forall k :: start <= k < end ==> data[k] != '\0' && data[k] !in DELIMS
    ensures CStringAt(data[..], start) == data[..][start..end] + CStringAt(data[..], end)
  {
    ghost var buffer := data[..];
    end := start;
    while data[end] != '\0' && data[end] != ' ' && data[end] != '\t'
      invariant start <= end < data.Length && Terminated(buffer, end)
      invariant CStringAt(buffer, start) == buffer[start..end] + CStringAt(buffer, end)
      invariant forall k :: start <= k < end ==> buffer[k] != '\0' && buffer[k] !in DELIMS
      decreases data.Length - end
    {
      TokenGrows(buffer, start, end);
      end := end + 1;
    }
  }

  /** The command word and its two arguments, by three calls of `strtok_r`. */
  method TakeTokens(line: array<char>) returns (command: Option<string>, arg: Option<string>, arg2: Option<string>)
    requires line.Length > 0 && Terminated(line[..], 0)
    modifies line
    ensures var tokens := Split(CString(old(line[..])), DELIMS);
            command == Token(tokens, 0) && arg == Token(tokens, 1) && arg2 == Token(tokens, 2)
  {
    ghost var tokens := TokensAt(line[..], 0);
    var save := SkipDelimiters(line, 0);
    command, save := StrTok(line, save);
    if command.None? { return None, None, None; }
    arg, save := StrTok(line, save);
    arg2, save := StrTok(line, save);
  }

  // ------------------------------------------------------------ the sketch's globals

  class Controller {
    var sim: SimulatorState
    var armLeaseMs: u32
    var lastCommandMs: u32

    /** The loose globals of the sketch, grouped by who writes them. */
    var m: Measurements
    var host: HostVars

    var iPresentStatus: PresentStatus
    var snap: Snapshot

    /** The millisecond timer, the endpoint log and the network settings. */
    var timer: nat
    var tx: seq<Batch>
    const network: Network

    ghost var lastCommandAt: nat
    ghost var checkedAt: nat

    ghost function State(): (r: State)
      reads this
    {
      Control.State.State(sim, armLeaseMs, lastCommandMs, m, host, iPresentStatus, snap, tx, network,
                          timer, lastCommandAt, checkedAt)
    }

    /** What every public method keeps: while disarmed everything the host cannot
        write is at its safe default, and the snapshot is the triple of the last
        batch that was delivered in full. */
    ghost predicate Valid()
      reads this
    {
      Safety.SafeUnlessArmed(State()) && ReportLog.SnapshotMatches(State())
    }

    /** Static initialisers of the globals. */
    constructor (network: Network)
      ensures State() == PowerOn(network)
    {
      sim := SimulatorState(false, false, false, false, false, false, false, OFF, OFF);
      armLeaseMs, lastCommandMs := 0, 0;
      m := Measurements(100, 7200, 1300, 25, 23000, 23000, 7200, 100);
      host := HostVars(-1, -1, -1, 600, 10, 5, 2);
      iPresentStatus := NO_STATUS;
      snap := Snapshot(NO_STATUS, 0, 0, 0);
      timer, tx := 0, [];
      this.network := network;
      lastCommandAt, checkedAt := 0, 0;
    }

    /** `millis()`: the timer, truncated to 32 bits, after `delay` more milliseconds. */
    method Millis(delay: nat) returns (ms: u32)
      modifies this`timer
      ensures timer == old(timer) + delay && ms == U32(timer)
    {
      timer := timer + delay;
      ms := U32(timer);
    }

    method SetSafeState()
      modifies this
      ensures State() == SafeState(old(State()))
    {
      sim := SimulatorState(
        armed := false, acPresent := true, overload := false, needReplacement := false,
        communicationLost := false, shutdownRequested := false, runtimeAuto := true,
        charging := AUTO, lowBattery := AUTO);
      armLeaseMs := 0;
      lastCommandMs := 0;
      lastCommandAt := 0;
      m := m.(remaining := 100, voltage := 1300, runtime := m.avgTimeToEmpty,
              load := 25, inputVoltage := 23000, outputVoltage := 23000);
      host := host.(startDelay := -1, rebootDelay := -1, shutdownDelay := -1);
    }

    method UpdateModel()
      modifies this`m, this`iPresentStatus
      ensures State() == Update(old(State()))
    {
      var hostShutdownDelay := host.shutdownDelay;
      var remainTimeLimit := host.remainTimeLimit;
      if sim.runtimeAuto && m.fullCharge != 0 {
        m := m.(runtime := AutoRuntime(m));
      }
      iPresentStatus := DeriveStatus(hostShutdownDelay, remainTimeLimit);
    }

    /** The second half of `updateModel`: the status from the variables. */
    method DeriveStatus(hostShutdownDelay: i16, remainTimeLimit: u16) returns (s: PresentStatus)
      ensures s == Derive(sim, m, hostShutdownDelay, remainTimeLimit, host.remnLimit)
    {
      var runtime := m.runtime;
      var autoCharging := sim.acPresent && m.remaining < m.fullCharge;
      var charging := if sim.charging == AUTO then autoCharging else sim.charging == ON;
      var discharging := !sim.acPresent && m.remaining > 0;
      var autoLowBattery := m.remaining <= host.remnLimit;
      var lowBattery := if sim.lowBattery == AUTO then autoLowBattery else sim.lowBattery == ON;

      var requested := sim.armed && (sim.shutdownRequested || hostShutdownDelay > 0);
      var expired := discharging && runtime <= remainTimeLimit;
      s := PresentStatus(charging, discharging, sim.acPresent, true, lowBattery, expired,
                         sim.needReplacement, false, m.remaining >= m.fullCharge, m.remaining == 0,
                         requested, requested || expired, sim.communicationLost, sim.overload);
    }

    /** `usbSend` and `SendReport`: id byte and data go to the endpoint one after
        the other; `queued` is what reaches it. */
    method UsbSend(o: SendOutcome, report: seq<byte>) returns (sent: bool, queued: seq<byte>)
      requires report != []
      ensures sent == Accepts(o, report) && queued == Queued(o, report)
    {
      if o.space < |report| { return false, []; }
      if !o.idOk { return false, []; }
      queued := report[..1];
      var data := report[1..];
      if o.dataOk {
        queued := queued + data;
        assert queued == report;
        return true, queued;
      }
      queued := queued + if o.partial < |data| then data[..o.partial] else data;
      assert queued == if o.partial < |data| then report[..1 + o.partial] else report;
      sent := false;
    }

    /** The values `sendUsbReports` passes to `usbSend`, in order. */
    method CurrentReports() returns (reports: seq<seq<byte>>)
      ensures reports == Reports(State())
    {
      reports := [ [0x07] + StatusBytes(iPresentStatus), [0x0C, m.remaining],
                   [0x0D] + Bytes16(m.runtime), [0x0B] + Bytes16(m.voltage),
                   [0x22, m.load], [0x23] + Bytes16(m.inputVoltage),
                   [0x24] + Bytes16(m.outputVoltage) ];
    }

    method SendUsbReports(force: bool, env: Env)
      modifies this`timer, this`tx, this`snap
      ensures State() == SendReports(old(State()), force, env)
    {
      var now := Millis(env.beforeReport);
      var changed := iPresentStatus != snap.status || m.remaining != snap.remaining
                     || m.runtime != snap.runtime;
      if !force && !changed && U32(now - snap.lastReportMs) < REPORT_INTERVAL_MS { return; }

      SendBatch(env.usb, now);
    }

    /** One attempt, and the snapshot when it goes through. */
    method SendBatch(usb: seq<SendOutcome>, now: u32)
      modifies this`tx, this`snap
      ensures var b := SendFrom(Reports(old(State())), usb, 0);
              && tx == old(tx) + [b]
              && snap == if b.complete then Snapshot(iPresentStatus, m.remaining, m.runtime, now) else old(snap)
    {
      var reports := CurrentReports();
      var bytes, sent := SendInOrder(reports, usb);
      tx := tx + [Batch(bytes, sent)];
      if sent {
        snap := Snapshot(iPresentStatus, m.remaining, m.runtime, now);
      }
    }

    /** The chain of `if (sent) sent = usbSend(...)`. */
    method SendInOrder(reports: seq<seq<byte>>, usb: seq<SendOutcome>) returns (bytes: seq<byte>, sent: bool)
      requires forall k :: 0 <= k < |reports| ==> reports[k] != []
      ensures Batch(bytes, sent) == SendFrom(reports, usb, 0)
    {
      bytes, sent := [], true;
      var i := 0;
      while i < |reports| && sent
        invariant i <= |reports|
        invariant sent ==> SendFrom(reports, usb, 0).complete == SendFrom(reports, usb, i).complete
                           && SendFrom(reports, usb, 0).bytes == bytes + SendFrom(reports, usb, i).bytes
        invariant !sent ==> Batch(bytes, false) == SendFrom(reports, usb, 0)
      {
        var queued: seq<byte>;
        sent, queued := UsbSend(Answer(usb, i), reports[i]);
        bytes := bytes + queued;
        i := i + 1;
      }
    }

    // ---------------------------------------------------------- commands

    /** One `out.print(F(" key=")); out.print(value)` pair. */
    static method PrintField(line: string, ghost done: seq<Field>, key: string, value: string)
      returns (r: string)
      requires line == Render(done)
      ensures r == Render(done + [Field(key, value)])
    {
      r := line + " " + key + "=" + value;
      ghost var all := done + [Field(key, value)];
      assert all[..|all| - 1] == done;
    }

    static lemma Grouped4(done: seq<Field>, g: seq<Field>)
      requires |g| == 4
      ensures done + [g[0]] + [g[1]] + [g[2]] + [g[3]] == done + g
    {}

    static lemma Grouped5(done: seq<Field>, g: seq<Field>)
      requires |g| == 5
      ensures done + [g[0]] + [g[1]] + [g[2]] + [g[3]] + [g[4]] == done + g
    {}

    /** `armed` to `runtime_mode`. */
    method PrintSupply(before: string, ghost done: seq<Field>) returns (line: string)
      requires before == Render(done)
      ensures line == Render(done + SupplyFields(State()))
    {
      line := PrintField(before, done, "armed", YesNo(sim.armed));
      ghost var f := done + [Field("armed", YesNo(sim.armed))];
      line := PrintField(line, f, "ac", YesNo(sim.acPresent));
      f := f + [Field("ac", YesNo(sim.acPresent))];
      line := PrintField(line, f, "battery", Print(m.remaining));
      f := f + [Field("battery", Print(m.remaining))];
      line := PrintField(line, f, "runtime", Print(m.runtime));
      f := f + [Field("runtime", Print(m.runtime))];
      line := PrintField(line, f, "runtime_mode", if sim.runtimeAuto then "auto" else "manual");
      Grouped5(done, SupplyFields(State()));
    }

    /** `voltage_cv` to `output_voltage_cv`. */
    method PrintVoltages(before: string, ghost done: seq<Field>) returns (line: string)
      requires before == Render(done)
      ensures line == Render(done + VoltageFields(State()))
    {
      line := PrintField(before, done, "voltage_cv", Print(m.voltage));
      ghost var f := done + [Field("voltage_cv", Print(m.voltage))];
      line := PrintField(line, f, "load", Print(m.load));
      f := f + [Field("load", Print(m.load))];
      line := PrintField(line, f, "input_voltage_cv", Print(m.inputVoltage));
      f := f + [Field("input_voltage_cv", Print(m.inputVoltage))];
      line := PrintField(line, f, "output_voltage_cv", Print(m.outputVoltage));
      Grouped4(done, VoltageFields(State()));
    }

    /** `charging_mode` to `lowbat_active`. */
    method PrintOverrides(before: string, ghost done: seq<Field>) returns (line: string)
      requires before == Render(done)
      ensures line == Render(done + OverrideFields(State()))
    {
      line := PrintField(before, done, "charging_mode", ModeName(sim.charging));
      ghost var f := done + [Field("charging_mode", ModeName(sim.charging))];
      line := PrintField(line, f, "charging_active", YesNo(iPresentStatus.charging));
      f := f + [Field("charging_active", YesNo(iPresentStatus.charging))];
      line := PrintField(line, f, "lowbat_mode", ModeName(sim.lowBattery));
      f := f + [Field("lowbat_mode", ModeName(sim.lowBattery))];
      line := PrintField(line, f, "lowbat_active", YesNo(iPresentStatus.belowRemainingCapacityLimit));
      Grouped4(done, OverrideFields(State()));
    }

    /** `overload` to `shutdown_imminent`. */
    method PrintFlags(before: string, ghost done: seq<Field>) returns (line: string)
      requires before == Render(done)
      ensures line == Render(done + FlagFields(State()))
    {
      line := PrintField(before, done, "overload", YesNo(sim.overload));
      ghost var f := done + [Field("overload", YesNo(sim.overload))];
      line := PrintField(line, f, "replace", YesNo(sim.needReplacement));
      f := f + [Field("replace", YesNo(sim.needReplacement))];
      line := PrintField(line, f, "commlost", YesNo(sim.communicationLost));
      f := f + [Field("commlost", YesNo(sim.communicationLost))];
      line := PrintField(line, f, "shutdown", YesNo(sim.shutdownRequested));
      f := f + [Field("shutdown", YesNo(sim.shutdownRequested))];
      line := PrintField(line, f, "shutdown_imminent", YesNo(iPresentStatus.shutdownImminent));
      Grouped5(done, FlagFields(State()));
    }

    /** The host delays and the address. */
    method PrintHost(before: string, ghost done: seq<Field>) returns (line: string)
      requires before == Render(done)
      ensures line == Render(done + HostFields(State()))
    {
      line := PrintField(before, done, "host_start_delay", Print(host.startDelay));
      ghost var f := done + [Field("host_start_delay", Print(host.startDelay))];
      line := PrintField(line, f, "host_shutdown_delay", Print(host.shutdownDelay));
      f := f + [Field("host_shutdown_delay", Print(host.shutdownDelay))];
      line := PrintField(line, f, "host_reboot_delay", Print(host.rebootDelay));
      f := f + [Field("host_reboot_delay", Print(host.rebootDelay))];
      line := PrintField(line, f, "ip", network.ip);
      Grouped4(done, HostFields(State()));
    }

    static lemma GroupsInOrder(a: seq<Field>, b: seq<Field>, c: seq<Field>, d: seq<Field>, e: seq<Field>)
      ensures [] + a + b + c + d + e == a + b + c + d + e
    {}

    method PrintFields() returns (line: string)
      ensures line == StatusLine(State())
    {
      ghost var s := State();
      ghost var f := [] + SupplyFields(s);
      line := PrintSupply("OK", []);
      line := PrintVoltages(line, f);
      f := f + VoltageFields(s);
      line := PrintOverrides(line, f);
      f := f + OverrideFields(s);
      line := PrintFlags(line, f);
      f := f + FlagFields(s);
      line := PrintHost(line, f);
      GroupsInOrder(SupplyFields(s), VoltageFields(s), OverrideFields(s), FlagFields(s), HostFields(s));
    }

    /** `printStatus`. */
    method PrintStatus() returns (line: string)
      modifies this`m, this`iPresentStatus
      ensures State() == Update(old(State()))
      ensures line == StatusLine(State())
    {
      UpdateModel();
      line := PrintFields();
    }

    /** The tail shared by every command that changes the model. */
    method UpdateAndSend(env: Env)
      modifies this
      ensures State() == Commit(old(State()), env)
    {
      UpdateModel();
      SendUsbReports(true, env);
    }

    /** `applyBooleanCommand`; the C++ reference parameter is the flag's name. */
    method ApplyBooleanCommand(arg: Option<string>, flag: Flag, env: Env) returns (reply: Option<string>)
      modifies this
      ensures Outcome(State(), reply) == DoFlag(old(State()), flag, arg, env)
    {
      var value := ReadOnOff(arg);
      if value.None? { return Some("ERR mode"); }
      match flag {
        case Ac => sim := sim.(acPresent := value.value);
        case Overload => sim := sim.(overload := value.value);
        case Replace => sim := sim.(needReplacement := value.value);
        case CommLost => sim := sim.(communicationLost := value.value);
        case Shutdown => sim := sim.(shutdownRequested := value.value);
      }
      UpdateAndSend(env);
      reply := Some("OK");
    }

    method HandleArm(arg: Option<string>, arg2: Option<string>, env: Env) returns (reply: Option<string>)
      modifies this
      ensures Outcome(State(), reply) == DoArm(old(State()), arg, arg2, env)
    {
      var value := ReadOnOff(arg);
      if value.None? { return Some("ERR mode"); }
      if value.value {
        var leaseSec: Option<int> := Some(DEFAULT_LEASE_SEC);
        if arg2.Some? {
          leaseSec := ParseSigned(arg2, 0, MAX_LEASE_SEC);
          if leaseSec.None? { return Some("ERR range"); }
        }
        sim := sim.(armed := true);
        armLeaseMs := U32(leaseSec.value * 1000);
        lastCommandMs := Millis(env.beforeArm);
        lastCommandAt := timer;
        reply := Some("OK armed");
      } else {
        SetSafeState();
        UpdateAndSend(env);
        reply := Some("OK safe");
      }
    }

    method HandleMode(charging: bool, arg: Option<string>, env: Env) returns (reply: Option<string>)
      modifies this
      ensures Outcome(State(), reply) == DoMode(old(State()), charging, arg, env)
    {
      var value := ReadOverride(arg);
      if value.None? { return Some("ERR mode"); }
      if charging {
        sim := sim.(charging := value.value);
      } else {
        sim := sim.(lowBattery := value.value);
      }
      UpdateAndSend(env);
      reply := Some("OK");
    }

    /** The numeric commands of `handleCommand` other than RUNTIME. */
    method HandleNumber(n: Number, arg: Option<string>, env: Env) returns (reply: Option<string>)
      modifies this
      ensures Outcome(State(), reply) == DoNumber(old(State()), n, arg, env)
    {
      var value := ParseSigned(arg, Lowest(n), Highest(n));
      if value.None? { return Some("ERR range"); }
      match n {
        case Battery => m := m.(remaining := value.value);
        case Load => m := m.(load := value.value);
        case Voltage => m := m.(voltage := value.value);
        case InputVoltage => m := m.(inputVoltage := value.value);
        case OutputVoltage => m := m.(outputVoltage := value.value);
        case StartDelay => host := host.(startDelay := value.value);
      }
      UpdateAndSend(env);
      reply := Some("OK");
    }

    method HandleRuntime(arg: Option<string>, env: Env) returns (reply: Option<string>)
      modifies this
      ensures Outcome(State(), reply) == DoRuntime(old(State()), arg, env)
    {
      if arg.Some? && StrCaseEq(arg.value, "AUTO") {
        sim := sim.(runtimeAuto := true);
      } else {
        var value := ParseSigned(arg, 0, 65535);
        if value.None? { return Some("ERR range"); }
        sim := sim.(runtimeAuto := false);
        m := m.(runtime := value.value);
      }
      UpdateAndSend(env);
      reply := Some("OK");
    }

    /** The last part of `handleCommand`: commands with a numeric argument. */
    method HandleNumeric(command: string, arg: Option<string>, env: Env) returns (reply: Option<string>)
      requires sim.armed
      modifies this
      ensures Outcome(State(), reply) == Guarded(old(State()), NumericKeyword(command), arg, env)
    {
      if StrCaseEq(command, "BATTERY") {
        reply := HandleNumber(Battery, arg, env);
      } else if StrCaseEq(command, "LOAD") {
        reply := HandleNumber(Load, arg, env);
      } else if StrCaseEq(command, "VOLTAGE") {
        reply := HandleNumber(Voltage, arg, env);
      } else if StrCaseEq(command, "INPUTVOLTAGE") {
        reply := HandleNumber(InputVoltage, arg, env);
      } else if StrCaseEq(command, "OUTPUTVOLTAGE") {
        reply := HandleNumber(OutputVoltage, arg, env);
      } else if StrCaseEq(command, "RUNTIME") {
        reply := HandleRuntime(arg, env);
      } else if StrCaseEq(command, "STARTDELAY") {
        reply := HandleNumber(StartDelay, arg, env);
      } else {
        reply := Some("ERR command");
      }
    }

    /** The commands behind `requireArmed`. */
    method HandleGuarded(command: string, arg: Option<string>, env: Env) returns (reply: Option<string>)
      modifies this
      ensures Outcome(State(), reply) == Guarded(old(State()), GuardedKeyword(command), arg, env)
    {
      if !sim.armed { return Some("ERR disarmed"); }
      if StrCaseEq(command, "AC") {
        reply := ApplyBooleanCommand(arg, Ac, env);
      } else if StrCaseEq(command, "OVERLOAD") {
        reply := ApplyBooleanCommand(arg, Overload, env);
      } else if StrCaseEq(command, "REPLACE") {
        reply := ApplyBooleanCommand(arg, Replace, env);
      } else if StrCaseEq(command, "COMMLOST") {
        reply := ApplyBooleanCommand(arg, CommLost, env);
      } else if StrCaseEq(command, "SHUTDOWN") {
        reply := ApplyBooleanCommand(arg, Shutdown, env);
      } else if StrCaseEq(command, "CHARGING") || StrCaseEq(command, "LOWBAT") {
        reply := HandleMode(StrCaseEq(command, "CHARGING"), arg, env);
      } else {
        reply := HandleNumeric(command, arg, env);
      }
    }

    /** The read-only words, compared first. */
    method DispatchQuery(command: string) returns (handled: bool, reply: Option<string>)
      modifies this`m, this`iPresentStatus
      ensures var k := KeywordOf(command);
              && handled == (k.Ping? || k.Ident? || k.Help? || k.Status? || k.NetworkInfo?)
              && (!handled ==> State() == old(State()))
              && (handled ==> Outcome(State(), reply) == Query(old(State()), k))
    {
      handled := true;
      if StrCaseEq(command, "PING") { return true, Some("OK PONG"); }
      if StrCaseEq(command, "IDENT?") { return true, Some(IDENTITY); }
      if StrCaseEq(command, "HELP") || command == "?" { return true, Some("OK docs/CONTROL_PROTOCOL.md"); }
      if StrCaseEq(command, "STATUS?") || StrCaseEq(command, "STATUS") {
        var line := PrintStatus();
        return true, Some(line);
      }
      if StrCaseEq(command, "NETWORK?") { return true, Some(NetworkLine(network)); }
      handled, reply := false, None;
    }

    method Restore(env: Env)
      modifies this
      ensures State() == Commit(SafeState(old(State())), env)
    {
      SetSafeState();
      UpdateAndSend(env);
    }

    /** Dispatch on the command word, in the order the sketch compares it. */
    method Dispatch(command: string, arg: Option<string>, arg2: Option<string>, env: Env)
      returns (reply: Option<string>)
      modifies this
      ensures Outcome(State(), reply) == Perform(old(State()), KeywordOf(command), arg, arg2, env)
    {
      var handled;
      handled, reply := DispatchQuery(command);
      if handled { return; }
      if StrCaseEq(command, "ARM") {
        reply := HandleArm(arg, arg2, env);
      } else if StrCaseEq(command, "RESET") {
        Restore(env);
        reply := Some("OK safe");
      } else if StrCaseEq(command, "REPORT") {
        UpdateAndSend(env);
        reply := Some("OK");
      } else {
        reply := HandleGuarded(command, arg, env);
      }
    }

    /** What a command keeps, from the facts about `Execute`. */
    lemma KeepsCommand(s: State, buffer: string, env: Env)
      ensures var r := Execute(s, buffer, env);
              && (!s.sim.armed && r.s.sim.armed ==> r.reply == Some("OK armed"))
              && (Safety.SafeUnlessArmed(s) ==> Safety.SafeUnlessArmed(r.s))
              && (Safety.SafeUnlessArmed(s) && !s.sim.armed ==> r.s.m == s.m)
              && (ReportLog.SnapshotMatches(s) ==> ReportLog.SnapshotMatches(r.s))
    {
      if !s.sim.armed { Safety.OnlyArmOnArms(s, buffer, env); }
      if Safety.SafeUnlessArmed(s) { Safety.DisarmedGate(s, buffer, env); }
      if ReportLog.SnapshotMatches(s) { ReportLog.ExecuteSnapshot(s, buffer, env); }
    }

    /** The lease refresh. */
    method Refresh(env: Env)
      modifies this`lastCommandMs, this`lastCommandAt, this`timer
      ensures State() == Touch(old(State()), env)
    {
      if sim.armed {
        lastCommandMs := Millis(env.beforeTouch);
        lastCommandAt := timer;
      }
    }

    method RunWords(command: string, arg: Option<string>, arg2: Option<string>, env: Env)
      returns (reply: Option<string>)
      modifies this
      ensures Outcome(State(), reply) == Perform(Touch(old(State()), env), KeywordOf(command), arg, arg2, env)
    {
      Refresh(env);
      reply := Dispatch(command, arg, arg2, env);
    }

    /** `handleCommand`: tokenises the NUL-terminated buffer in place, refreshes the
        lease, and runs the command. The reply is the one line it prints. */
    method HandleCommand(line: array<char>, env: Env) returns (reply: Option<string>)
      requires line.Length > 0 && Terminated(line[..], 0)
      modifies this, line
      ensures Outcome(State(), reply) == Execute(old(State()), old(line[..]), env)
      ensures old(Valid()) ==> Valid()
      ensures !old(sim.armed) && sim.armed ==> reply == Some("OK armed")
      ensures old(Valid()) && !old(sim.armed) ==> m == old(m)
    {
      ghost var before := State();
      KeepsCommand(before, line[..], env);
      var command, arg, arg2 := TakeTokens(line);
      assert State() == before;
      if command.None? { return None; }
      reply := RunWords(command.value, arg, arg2, env);
    }

    // ---------------------------------------------------------- interrupts

    /** The `memcpy` of an accepted SET_REPORT into the registered variable. */
    method StoreVar(v: HidSetup.Var, b: seq<byte>)
      modifies this`m, this`host, this`iPresentStatus
      ensures State() == Store(old(State()), v, b)
    {
      if |b| == 2 {
        match v {
          case PresentStatusVar => iPresentStatus := StatusOfBytes(b);
          case RunTimeToEmpty => m := m.(runtime := Word16(b));
          case AvgTimeToEmpty => m := m.(avgTimeToEmpty := Word16(b));
          case Voltage => m := m.(voltage := Word16(b));
          case InputVoltage => m := m.(inputVoltage := Word16(b));
          case OutputVoltage => m := m.(outputVoltage := Word16(b));
          case RemainTimeLimit => host := host.(remainTimeLimit := Word16(b));
          case DelayStartup => host := host.(startDelay := Int16(b));
          case DelayReboot => host := host.(rebootDelay := Int16(b));
          case DelayShutdown => host := host.(shutdownDelay := Int16(b));
          case _ =>
        }
      } else if |b| == 1 {
        match v {
          case PercentLoad => m := m.(load := b[0]);
          case Remaining => m := m.(remaining := b[0]);
          case FullChargeCapacity => m := m.(fullCharge := b[0]);
          case WarnLimit => host := host.(warnLimit := b[0]);
          case RemnLimit => host := host.(remnLimit := b[0]);
          case AudibleAlarm => host := host.(audibleAlarm := b[0]);
          case _ =>
        }
      }
    }

    /** The USB interrupt for a host request. Whatever the host sends, only the host
        variables can change. */
    method HostRequest(w: Registry.SetReport)
      modifies this`m, this`host, this`iPresentStatus
      ensures State() == HostWrite(old(State()), w)
      ensures State() == old(State()).(host := host) && (old(Valid()) ==> Valid())
    {
      Safety.HostWriteKeepsOthers(State(), w);
      var target := Registry.Target(HidSetup.Table(), w);
      if target.Some? {
        StoreVar(target.value.data, Registry.Received(w)[1..]);
      }
    }

    // ---------------------------------------------------------- loop pieces

    /** The lease check at the top of `loop`. While the clock invariant holds and the
        last check is not too long ago, an armed device with a lease is disarmed
        exactly when the lease has truly expired, and is safe then. */
    method CheckLease(env: Env)
      modifies this
      ensures State() == Check(old(State()), env)
      ensures old(Valid()) ==> Valid() && (!sim.armed ==> Safety.Safe(State()))
      ensures old(Lease.LeaseInv(State()) && Lease.GapOk(State(), env) && sim.armed && armLeaseMs != 0) ==>
                (sim.armed <==> checkedAt < old(lastCommandAt) + old(armLeaseMs))
    {
      KeepsCheck(State(), env);
      var now := Millis(env.beforeTouch);
      checkedAt := timer;
      if sim.armed && armLeaseMs != 0 && U32(now - lastCommandMs) >= armLeaseMs {
        SetSafeState();
        UpdateAndSend(env);
      }
    }

    lemma KeepsCheck(s: State, env: Env)
      ensures Safety.SafeUnlessArmed(s) ==> Safety.SafeUnlessArmed(Check(s, env))
      ensures ReportLog.SnapshotMatches(s) ==> ReportLog.SnapshotMatches(Check(s, env))
      ensures Lease.LeaseInv(s) && Lease.GapOk(s, env) && s.sim.armed && s.armLeaseMs != 0 ==>
                (Check(s, env).sim.armed <==> Check(s, env).checkedAt < s.lastCommandAt + s.armLeaseMs)
    {
      if Safety.SafeUnlessArmed(s) { Safety.CheckKeepsSafe(s, env); }
      if ReportLog.SnapshotMatches(s) { ReportLog.CheckSnapshot(s, env); }
      if Lease.LeaseInv(s) && Lease.GapOk(s, env) && s.sim.armed && s.armLeaseMs != 0 { Lease.CheckIsExact(s, env); }
      Lease.CheckKeepsTime(s, env);
    }

    /** The end of `loop`. If the triple still differs from the snapshot, an attempt
        has just been made and has failed. */
    method Publish(env: Env)
      modifies this
      ensures State() == Control.Publish(old(State()), env)
      ensures old(Valid()) ==>
                Valid() && (Changed(State()) ==> |tx| == |old(tx)| + 1 && !tx[|old(tx)|].complete)
    {
      KeepsPublish(State(), env);
      UpdateModel();
      SendUsbReports(false, env);
    }

    lemma KeepsPublish(s: State, env: Env)
      ensures Safety.SafeUnlessArmed(s) ==> Safety.SafeUnlessArmed(Control.Publish(s, env))
      ensures ReportLog.SnapshotMatches(s) ==>
                var t := Control.Publish(s, env);
                ReportLog.SnapshotMatches(t) && (Changed(t) ==> |t.tx| == |s.tx| + 1 && !t.tx[|s.tx|].complete)
    {
      if Safety.SafeUnlessArmed(s) { Safety.PublishKeepsSafe(s, env); }
      if ReportLog.SnapshotMatches(s) { ReportLog.PublishDelivers(s, env); }
    }

    /** `setup`, without the parts that talk to other hardware: the device starts
        safe, and every invariant holds. */
    method Setup(env: Env)
      requires State() == PowerOn(network)
      modifies this
      ensures State() == Control.Setup(network, env)
      ensures Valid() && Safety.Safe(State()) && Lease.LeaseInv(State())
    {
      KeepsSetup(network, env);
      SetSafeState();
      UpdateAndSend(env);
    }

    lemma KeepsSetup(net: Network, env: Env)
      ensures var s := Control.Setup(net, env);
              Safety.SafeUnlessArmed(s) && Safety.Safe(s) && ReportLog.SnapshotMatches(s) && Lease.LeaseInv(s)
    {
      Safety.SafeStateIsSafe(PowerOn(net), env);
      ReportLog.CommitKeepsSnapshot(SafeState(PowerOn(net)), env);
      Lease.CommitSame(SafeState(PowerOn(net)), env);
    }
  }
}
