/** The status reply survives the trip: what the driver reads back is what the
    fields held. */
module StatusReading {
  import opened Ascii
  import opened Decimal
  import D = Driver
  import T = TwinModel

  /** A twin's fields in the driver's terms. */
  function Reading(t: T.Twin): (r: D.Status) {
    D.Status(
      D.Supply(t.sw.armed, t.sw.acPresent, t.g.batteryPercent, t.g.runtimeSeconds,
               if t.sw.runtimeAuto then "auto" else "manual"),
      D.Levels(t.g.batteryVoltageCv, t.g.loadPercent, t.g.inputVoltageCv, t.g.outputVoltageCv),
      D.Overrides(t.sw.chargingMode, t.hid.charging, t.sw.lowBatteryMode, t.hid.belowRemainingCapacityLimit),
      D.Alarms(t.sw.overload, t.sw.needReplacement, t.sw.communicationLost, t.sw.shutdownRequested,
               t.hid.shutdownImminent),
      D.Host(t.g.hostStartDelay, t.g.hostShutdownDelay, t.g.hostRebootDelay, t.address.ip))
  }

  // ---------------------------------------------------------------- keys

  predicate IsName(key: string) {
    forall i :: 0 <= i < |key| ==> 'a' <= key[i] <= 'z' || key[i] == '_'
  }

  lemma NameIsWord(key: string)
    requires IsName(key)
    ensures Free(key, PYTHON_SPACE) && '=' !in key
  {
    forall i | 0 <= i < |key| ensures key[i] !in PYTHON_SPACE { D.NotASpace(key[i]); }
  }

  lemma KeysAreNames(i: nat)
    requires i < 22
    ensures IsName(T.Key(i)) && |T.Key(i)| >= 2
  {
    if i < 6 {
      Names1(i);
    } else if i < 11 {
      Names2(i);
    } else if i < 16 {
      Names3(i);
    } else if i < 19 {
      Names4(i);
    } else {
      Names5(i);
    }
  }

  lemma Names1(i: nat)
    requires i < 6
    ensures IsName(T.Key(i)) && |T.Key(i)| >= 2
  {}

  lemma Names2(i: nat)
    requires 6 <= i < 11
    ensures IsName(T.Key(i)) && |T.Key(i)| >= 2
  {}

  lemma Names3(i: nat)
    requires 11 <= i < 16
    ensures IsName(T.Key(i)) && |T.Key(i)| >= 2
  {}

  lemma Names4(i: nat)
    requires 16 <= i < 19
    ensures IsName(T.Key(i)) && |T.Key(i)| >= 2
  {}

  lemma Names5(i: nat)
    requires 19 <= i < 22
    ensures IsName(T.Key(i)) && |T.Key(i)| >= 2
  {}

  /** Length and second letter already tell the keys apart. */
  function Mark(key: string): (r: int)
    requires |key| >= 2
  {
    256 * |key| + key[1] as int
  }

  const MARKS: seq<int> := [
    1394, 611, 1889, 1909, 3189, 2671, 1135, 4206, 4469, 3432, 3944,
    2927, 3439, 2166, 1893, 2159, 2152, 4456, 4207, 4975, 4463, 624
  ]

  lemma MarksAre(i: nat)
    requires i < 22
    ensures |T.Key(i)| >= 2 && Mark(T.Key(i)) == MARKS[i]
  {
    if i < 11 { FirstMarks(i); } else { LastMarks(i); }
  }

  lemma FirstMarks(i: nat)
    requires i < 11
    ensures |T.Key(i)| >= 2 && Mark(T.Key(i)) == MARKS[i]
  {}

  lemma LastMarks(i: nat)
    requires 11 <= i < 22
    ensures |T.Key(i)| >= 2 && Mark(T.Key(i)) == MARKS[i]
  {}

  lemma MarksDiffer(i: nat, j: nat)
    requires i < j < 22
    ensures MARKS[i] != MARKS[j]
  {}

  lemma KeysDiffer(i: nat, j: nat)
    requires i < 22 && j < 22 && i != j
    ensures T.Key(i) != T.Key(j)
  {
    MarksAre(i);
    MarksAre(j);
    if i < j { MarksDiffer(i, j); } else { MarksDiffer(j, i); }
  }

  // ---------------------------------------------------------------- tokens

  function Tokens(t: T.Twin): (r: seq<string>)
    ensures |r| == 22
  {
    T.Pairs(T.StatusKeys(), T.StatusValues(t))
  }

  /** Every key of the reply is read back with the value printed for it. */
  lemma Lookup(t: T.Twin, i: nat)
    requires i < 22
    ensures var m := D.Entries(Tokens(t));
            T.Key(i) in m && m[T.Key(i)] == T.StatusValues(t)[i]
  {
    var keys, values, toks := T.StatusKeys(), T.StatusValues(t), Tokens(t);
    forall j | 0 <= j < 22 ensures D.Cut(toks[j]) == Some((keys[j], values[j])) {
      KeysAreNames(j);
      NameIsWord(keys[j]);
      D.CutPair(keys[j], values[j]);
    }
    forall j | i < j < 22 ensures D.Cut(toks[j]).value.0 != keys[i] { KeysDiffer(i, j); }
    D.LastWins(toks, i, keys[i], values[i]);
  }

  /** The three fields that hold text are free of white space. */
  predicate Plain(t: T.Twin) {
    Free(t.sw.chargingMode, PYTHON_SPACE) && Free(t.sw.lowBatteryMode, PYTHON_SPACE)
    && Free(t.address.ip, PYTHON_SPACE)
  }

  lemma BitIsWord(b: bool)
    ensures Free(T.Bit(b), PYTHON_SPACE)
  {}

  lemma AutoIsWord(b: bool)
    ensures Free(if b then "auto" else "manual", PYTHON_SPACE)
  {
    NameIsWord(if b then "auto" else "manual");
  }

  lemma SupplyWords(t: T.Twin, i: nat)
    requires i < 5
    ensures Free(T.SupplyValues(t)[i], PYTHON_SPACE)
  {
    BitIsWord(t.sw.armed);
    BitIsWord(t.sw.acPresent);
    D.PrintIsWord(t.g.batteryPercent);
    D.PrintIsWord(t.g.runtimeSeconds);
    AutoIsWord(t.sw.runtimeAuto);
  }

  lemma VoltageWords(t: T.Twin, i: nat)
    requires i < 4
    ensures Free(T.VoltageValues(t)[i], PYTHON_SPACE)
  {
    D.PrintIsWord(t.g.batteryVoltageCv);
    D.PrintIsWord(t.g.loadPercent);
    D.PrintIsWord(t.g.inputVoltageCv);
    D.PrintIsWord(t.g.outputVoltageCv);
  }

  lemma ModeWords(t: T.Twin, i: nat)
    requires i < 4 && Plain(t)
    ensures Free(T.ModeValues(t)[i], PYTHON_SPACE)
  {
    BitIsWord(t.hid.charging);
    BitIsWord(t.hid.belowRemainingCapacityLimit);
  }

  lemma FlagWords(t: T.Twin, i: nat)
    requires i < 5
    ensures Free(T.FlagValues(t)[i], PYTHON_SPACE)
  {
    BitIsWord(t.sw.overload);
    BitIsWord(t.sw.needReplacement);
    BitIsWord(t.sw.communicationLost);
    BitIsWord(t.sw.shutdownRequested);
    BitIsWord(t.hid.shutdownImminent);
  }

  lemma HostWords(t: T.Twin, i: nat)
    requires i < 4 && Plain(t)
    ensures Free(T.HostValues(t)[i], PYTHON_SPACE)
  {
    D.PrintIsWord(t.g.hostStartDelay);
    D.PrintIsWord(t.g.hostShutdownDelay);
    D.PrintIsWord(t.g.hostRebootDelay);
  }

  lemma ValuesAreWords(t: T.Twin, i: nat)
    requires i < 22 && Plain(t)
    ensures Free(T.StatusValues(t)[i], PYTHON_SPACE)
  {
    if i < 5 {
      SupplyWords(t, i);
    } else if i < 9 {
      VoltageWords(t, i - 5);
    } else if i < 13 {
      ModeWords(t, i - 9);
    } else if i < 18 {
      FlagWords(t, i - 13);
    } else {
      HostWords(t, i - 18);
    }
  }

  lemma PairIsWord(key: string, value: string)
    requires Free(key, PYTHON_SPACE) && Free(value, PYTHON_SPACE)
    ensures key + "=" + value != "" && Free(key + "=" + value, PYTHON_SPACE)
  {
    D.NotASpace('=');
  }

  lemma TokensAreWords(t: T.Twin, i: nat)
    requires i < 22 && Plain(t)
    ensures Tokens(t)[i] != "" && Free(Tokens(t)[i], PYTHON_SPACE)
  {
    KeysAreNames(i);
    NameIsWord(T.Key(i));
    ValuesAreWords(t, i);
    PairIsWord(T.Key(i), T.StatusValues(t)[i]);
  }

  /** The reply's payload splits back into exactly the printed tokens. */
  lemma PayloadSplits(t: T.Twin)
    requires Plain(t)
    ensures D.StripOk(T.StatusResponse(t)) == D.Ok(Join(Tokens(t)))
    ensures Split(Join(Tokens(t)), PYTHON_SPACE) == Tokens(t)
  {
    var toks := Tokens(t);
    forall i | 0 <= i < 22 ensures toks[i] != "" && Free(toks[i], PYTHON_SPACE) { TokensAreWords(t, i); }
    SplitJoin(toks, PYTHON_SPACE);
    OkLine(toks);
  }

  lemma OkPayload(line: string, payload: string)
    requires line == "OK " + payload && payload != "" && D.Strip(line) == line
    ensures D.StripOk(line) == D.Ok(payload)
  {
    assert line[3..] == payload;
    assert line[0] == 'O';
    assert line[..3] == "OK ";
  }

  lemma JoinEnds(words: seq<string>)
    requires words != [] && words[|words| - 1] != ""
    ensures Join(words) != ""
    ensures var last := words[|words| - 1]; Join(words)[|Join(words)| - 1] == last[|last| - 1]
  {}

  lemma OkEnds(line: string, payload: string)
    requires line == "OK " + payload && payload != "" && payload[|payload| - 1] !in PYTHON_SPACE
    ensures D.Strip(line) == line
  {
    assert line[0] == 'O' && line[|line| - 1] == payload[|payload| - 1];
    D.NotASpace('O');
    D.StripClean(line);
  }

  /** `OK` and some words is recognised, and nothing is trimmed away. */
  lemma OkLine(words: seq<string>)
    requires words != [] && words[|words| - 1] != "" && Free(words[|words| - 1], PYTHON_SPACE)
    ensures D.StripOk("OK " + Join(words)) == D.Ok(Join(words))
  {
    JoinEnds(words);
    OkEnds("OK " + Join(words), Join(words));
    OkPayload("OK " + Join(words), Join(words));
  }

  // ---------------------------------------------------------------- fields

  lemma BoolBack(m: map<string, string>, key: string, b: bool)
    requires key in m && m[key] == T.Bit(b)
    ensures D.AsBool(m, key) == D.Ok(b)
  {}

  lemma IntBack(m: map<string, string>, key: string, i: int)
    requires key in m && m[key] == Print(i)
    ensures D.AsInt(m, key) == D.Ok(i)
  {
    D.PyIntOfPrint(i);
  }

  lemma GroupsAt(t: T.Twin, i: nat)
    requires i < 22
    ensures T.StatusValues(t)[i] ==
            if i < 5 then T.SupplyValues(t)[i] else if i < 9 then T.VoltageValues(t)[i - 5]
            else if i < 13 then T.ModeValues(t)[i - 9] else if i < 18 then T.FlagValues(t)[i - 13]
            else T.HostValues(t)[i - 18]
  {}

  /** The dictionary holds `value` under the key at position `i`. */
  lemma Found(t: T.Twin, i: nat, key: string, value: string)
    requires i < 22 && T.Key(i) == key
    requires value == if i < 5 then T.SupplyValues(t)[i] else if i < 9 then T.VoltageValues(t)[i - 5]
                      else if i < 13 then T.ModeValues(t)[i - 9] else if i < 18 then T.FlagValues(t)[i - 13]
                      else T.HostValues(t)[i - 18]
    ensures key in D.Entries(Tokens(t)) && D.Entries(Tokens(t))[key] == value
  {
    Lookup(t, i);
    GroupsAt(t, i);
  }

  lemma SupplyFound1(t: T.Twin)
    ensures var m, v := D.Entries(Tokens(t)), T.SupplyValues(t);
            && "armed" in m && m["armed"] == v[0]
            && "ac" in m && m["ac"] == v[1]
            && "battery" in m && m["battery"] == v[2]
  {
    Found(t, 0, "armed", T.SupplyValues(t)[0]);
    Found(t, 1, "ac", T.SupplyValues(t)[1]);
    Found(t, 2, "battery", T.SupplyValues(t)[2]);
  }

  lemma SupplyFound2(t: T.Twin)
    ensures var m, v := D.Entries(Tokens(t)), T.SupplyValues(t);
            && "runtime" in m && m["runtime"] == v[3]
            && "runtime_mode" in m && m["runtime_mode"] == v[4]
  {
    Found(t, 3, "runtime", T.SupplyValues(t)[3]);
    Found(t, 4, "runtime_mode", T.SupplyValues(t)[4]);
  }

  lemma SupplyBack(t: T.Twin)
    ensures D.ReadSupply(D.Entries(Tokens(t))) == D.Ok(Reading(t).supply)
  {
    var m := D.Entries(Tokens(t));
    SupplyFound1(t);
    SupplyFound2(t);
    BoolBack(m, "armed", t.sw.armed);
    BoolBack(m, "ac", t.sw.acPresent);
    IntBack(m, "battery", t.g.batteryPercent);
    IntBack(m, "runtime", t.g.runtimeSeconds);
  }

  lemma LevelsFound1(t: T.Twin)
    ensures var m, v := D.Entries(Tokens(t)), T.VoltageValues(t);
            && "voltage_cv" in m && m["voltage_cv"] == v[0]
            && "load" in m && m["load"] == v[1]
  {
    Found(t, 5, "voltage_cv", T.VoltageValues(t)[0]);
    Found(t, 6, "load", T.VoltageValues(t)[1]);
  }

  lemma LevelsFound2(t: T.Twin)
    ensures var m, v := D.Entries(Tokens(t)), T.VoltageValues(t);
            && "input_voltage_cv" in m && m["input_voltage_cv"] == v[2]
            && "output_voltage_cv" in m && m["output_voltage_cv"] == v[3]
  {
    Found(t, 7, "input_voltage_cv", T.VoltageValues(t)[2]);
    Found(t, 8, "output_voltage_cv", T.VoltageValues(t)[3]);
  }

  lemma LevelsBack(t: T.Twin)
    ensures D.ReadLevels(D.Entries(Tokens(t))) == D.Ok(Reading(t).levels)
  {
    var m := D.Entries(Tokens(t));
    LevelsFound1(t);
    LevelsFound2(t);
    IntBack(m, "voltage_cv", t.g.batteryVoltageCv);
    IntBack(m, "load", t.g.loadPercent);
    IntBack(m, "input_voltage_cv", t.g.inputVoltageCv);
    IntBack(m, "output_voltage_cv", t.g.outputVoltageCv);
  }

  lemma OverridesFound1(t: T.Twin)
    ensures var m, v := D.Entries(Tokens(t)), T.ModeValues(t);
            && "charging_mode" in m && m["charging_mode"] == v[0]
            && "charging_active" in m && m["charging_active"] == v[1]
  {
    Found(t, 9, "charging_mode", T.ModeValues(t)[0]);
    Found(t, 10, "charging_active", T.ModeValues(t)[1]);
  }

  lemma OverridesFound2(t: T.Twin)
    ensures var m, v := D.Entries(Tokens(t)), T.ModeValues(t);
            && "lowbat_mode" in m && m["lowbat_mode"] == v[2]
            && "lowbat_active" in m && m["lowbat_active"] == v[3]
  {
    Found(t, 11, "lowbat_mode", T.ModeValues(t)[2]);
    Found(t, 12, "lowbat_active", T.ModeValues(t)[3]);
  }

  lemma OverridesBack(t: T.Twin)
    ensures D.ReadOverrides(D.Entries(Tokens(t))) == D.Ok(Reading(t).overrides)
  {
    var m := D.Entries(Tokens(t));
    OverridesFound1(t);
    OverridesFound2(t);
    BoolBack(m, "charging_active", t.hid.charging);
    BoolBack(m, "lowbat_active", t.hid.belowRemainingCapacityLimit);
  }

  lemma AlarmsFound1(t: T.Twin)
    ensures var m, v := D.Entries(Tokens(t)), T.FlagValues(t);
            && "overload" in m && m["overload"] == v[0]
            && "replace" in m && m["replace"] == v[1]
            && "commlost" in m && m["commlost"] == v[2]
  {
    Found(t, 13, "overload", T.FlagValues(t)[0]);
    Found(t, 14, "replace", T.FlagValues(t)[1]);
    Found(t, 15, "commlost", T.FlagValues(t)[2]);
  }

  lemma AlarmsFound2(t: T.Twin)
    ensures var m, v := D.Entries(Tokens(t)), T.FlagValues(t);
            && "shutdown" in m && m["shutdown"] == v[3]
            && "shutdown_imminent" in m && m["shutdown_imminent"] == v[4]
  {
    Found(t, 16, "shutdown", T.FlagValues(t)[3]);
    Found(t, 17, "shutdown_imminent", T.FlagValues(t)[4]);
  }

  lemma AlarmsBack(t: T.Twin)
    ensures D.ReadAlarms(D.Entries(Tokens(t))) == D.Ok(Reading(t).alarms)
  {
    var m := D.Entries(Tokens(t));
    AlarmsFound1(t);
    AlarmsFound2(t);
    BoolBack(m, "overload", t.sw.overload);
    BoolBack(m, "replace", t.sw.needReplacement);
    BoolBack(m, "commlost", t.sw.communicationLost);
    BoolBack(m, "shutdown", t.sw.shutdownRequested);
    BoolBack(m, "shutdown_imminent", t.hid.shutdownImminent);
  }

  lemma HostFound1(t: T.Twin)
    ensures var m, v := D.Entries(Tokens(t)), T.HostValues(t);
            && "host_start_delay" in m && m["host_start_delay"] == v[0]
            && "host_shutdown_delay" in m && m["host_shutdown_delay"] == v[1]
  {
    Found(t, 18, "host_start_delay", T.HostValues(t)[0]);
    Found(t, 19, "host_shutdown_delay", T.HostValues(t)[1]);
  }

  lemma HostFound2(t: T.Twin)
    ensures var m, v := D.Entries(Tokens(t)), T.HostValues(t);
            && "host_reboot_delay" in m && m["host_reboot_delay"] == v[2]
            && "ip" in m && m["ip"] == v[3]
  {
    Found(t, 20, "host_reboot_delay", T.HostValues(t)[2]);
    Found(t, 21, "ip", T.HostValues(t)[3]);
  }

  lemma HostBack(t: T.Twin)
    ensures D.ReadHost(D.Entries(Tokens(t))) == D.Ok(Reading(t).host)
  {
    var m := D.Entries(Tokens(t));
    HostFound1(t);
    HostFound2(t);
    IntBack(m, "host_start_delay", t.g.hostStartDelay);
    IntBack(m, "host_shutdown_delay", t.g.hostShutdownDelay);
    IntBack(m, "host_reboot_delay", t.g.hostRebootDelay);
  }

  lemma FieldsBack(t: T.Twin)
    ensures D.ReadStatus(D.Entries(Tokens(t))) == D.Ok(Reading(t))
  {
    SupplyBack(t);
    LevelsBack(t);
    OverridesBack(t);
    AlarmsBack(t);
    HostBack(t);
  }

  predicate PlainText(r: D.Status) {
    Free(r.overrides.chargingMode, PYTHON_SPACE) && Free(r.overrides.lowBatteryMode, PYTHON_SPACE)
    && Free(r.host.ip, PYTHON_SPACE)
  }

  lemma ReadIsPlain(values: map<string, string>)
    requires D.ReadStatus(values).Ok?
    requires forall key :: key in values ==> Free(values[key], PYTHON_SPACE)
    ensures PlainText(D.ReadStatus(values).value)
  {}

  /** Whatever the driver reads contains no white space in its text fields. */
  lemma ReadTextIsPlain(response: string)
    requires D.StatusOf(response).Ok?
    ensures PlainText(D.StatusOf(response).value)
  {
    var toks := Split(D.StripOk(response).value, PYTHON_SPACE);
    forall key | key in D.Entries(toks) ensures Free(D.Entries(toks)[key], PYTHON_SPACE) {
      D.EntriesAreWords(toks, key);
    }
    ReadIsPlain(D.Entries(toks));
  }

  /** The round trip: integers of any sign and size and all flags come back as
      they were, exactly when the text fields contain no white space. */
  lemma StatusRoundTrip(t: T.Twin)
    ensures D.StatusOf(T.StatusResponse(t)) == D.Ok(Reading(t)) <==> Plain(t)
  {
    if Plain(t) {
      PayloadSplits(t);
      FieldsBack(t);
    }
    if D.StatusOf(T.StatusResponse(t)) == D.Ok(Reading(t)) {
      ReadTextIsPlain(T.StatusResponse(t));
    }
  }
}
