/** When the driver raises on its own: arguments it does not send, and status replies
    it does not read. */
module DriverFaults {
  import opened Ascii
  import opened Decimal
  import opened Words
  import opened Control
  import D = Driver
  import EndToEnd
  import Replies

  // ---------------------------------------------------------------- arguments

  /** The arguments each setter takes. */
  predicate Takes(setter: D.Setter) {
    match setter
    case SetBattery(v) => 0 <= v <= 100
    case SetLoad(v) => 0 <= v <= 100
    case SetRuntime(v) => v.Some? ==> 0 <= v.value <= 65535
    case SetVoltage(v) => 0 <= v <= 65535
    case SetInputVoltage(v) => 0 <= v <= 65535
    case SetOutputVoltage(v) => 0 <= v <= 65535
    case SetStartDelay(v) => -1 <= v <= 32767
    case SetCharging(mode) => EndToEnd.Meant(mode).Some?
    case SetLowBattery(mode) => EndToEnd.Meant(mode).Some?
    case _ => true
  }

  /** A setter sends a line exactly for these, and raises ValueError for all others. */
  lemma SetterRaisesExactly(setter: D.Setter)
    ensures D.CommandLine(setter).Ok? <==> Takes(setter)
    ensures !Takes(setter) ==> D.CommandLine(setter) == D.Err(D.ValueError)
  {
    if setter.SetCharging? || setter.SetLowBattery? { EndToEnd.ModeLines(setter.mode); }
  }

  /** The number a setter carries. */
  function NumberOf(setter: D.Setter): (v: int)
    requires EndToEnd.Key(setter).SetNumber?
  {
    match setter
    case SetBattery(v) => v
    case SetLoad(v) => v
    case SetVoltage(v) => v
    case SetInputVoltage(v) => v
    case SetOutputVoltage(v) => v
    case SetStartDelay(v) => v
  }

  lemma NumberLimits(setter: D.Setter)
    requires EndToEnd.Key(setter).SetNumber?
    ensures var n := EndToEnd.Key(setter).number;
            D.CommandLine(setter).Ok? <==> Lowest(n) <= NumberOf(setter) <= Highest(n)
  {
    SetterRaisesExactly(setter);
  }

  lemma PrintedIsRead(v: int, lo: int, hi: int)
    requires -99999 <= v <= 99999
    ensures ReadSigned(Some(Print(v)), lo, hi) == Some(v) <==> lo <= v <= hi
  {
    PrintIsNumeral(v);
  }

  /** Driver and sketch draw the same line: a number is sent exactly if the sketch takes
      its printed form. */
  lemma LimitsAgree(setter: D.Setter)
    requires EndToEnd.Key(setter).SetNumber? && -99999 <= NumberOf(setter) <= 99999
    ensures var n := EndToEnd.Key(setter).number;
            D.CommandLine(setter).Ok? <==>
            ReadSigned(Some(Print(NumberOf(setter))), Lowest(n), Highest(n)) == Some(NumberOf(setter))
  {
    var n, v := EndToEnd.Key(setter).number, NumberOf(setter);
    NumberLimits(setter);
    PrintedIsRead(v, Lowest(n), Highest(n));
  }

  // ---------------------------------------------------------------- pairs

  /** A token is cut at its first equals sign, and not at all if it has none. */
  lemma CutExactly(token: string, key: string, value: string)
    ensures D.Cut(token) == Some((key, value)) <==> '=' !in key && token == key + "=" + value
    ensures D.Cut(token) == None <==> '=' !in token
  {
    if '=' !in key && token == key + "=" + value { D.CutPair(key, value); }
    var n := RunLength(token, {'='});
    if n < |token| {
      assert token == token[..n] + [token[n]] + token[n + 1..];
      assert '=' !in token[..n];
    } else {
      assert token[..n] == token;
    }
  }

  // ---------------------------------------------------------------- integers

  /** Digits, with single underscores between them. */
  predicate Body(s: string) {
    && s != "" && IsDigit(s[0]) && IsDigit(s[|s| - 1])
    && (forall i :: 0 <= i < |s| ==> IsDigit(s[i]) || s[i] == '_')
    && (forall i :: 0 < i < |s| ==> s[i - 1] != '_' || s[i] != '_')
  }

  lemma BodyIsGrouped(s: string)
    ensures Body(s) <==> D.Grouped(s)
  {}

  /** The number that the digits of a body spell. */
  function BodyValue(s: string): (r: nat)
    requires Body(s)
  {
    Value(D.WithoutUnderscores(s))
  }

  /** What such a text is as an integer: an optional sign, then a body, and nothing
      else. */
  function IntOf(t: string): (r: Option<int>) {
    if t == "" then None
    else if t[0] == '-' then (if Body(t[1..]) then Some(-(BodyValue(t[1..]) as int)) else None)
    else
      var body := if t[0] == '+' then t[1..] else t;
      if Body(body) then Some(BodyValue(body)) else None
  }

  lemma ReadIntIs(t: string)
    ensures D.ReadInt(t) == IntOf(t)
  {
    BodyIsGrouped(t);
    if t != "" { BodyIsGrouped(t[1..]); }
  }

  /** `int()` reads the text between the white space that way. */
  lemma IntExactly(s: string)
    ensures D.PyInt(s) == IntOf(D.Strip(s))
  {
    ReadIntIs(D.Strip(s));
  }

  predicate Digital(s: string) { forall i :: 0 <= i < |s| ==> IsDigit(s[i]) || s[i] == '_' }

  lemma OneGone(c: char, s: string)
    requires (IsDigit(c) || c == '_') && Digital(s)
    ensures Digital([c] + s)
    ensures D.WithoutUnderscores([c] + s) == (if c == '_' then "" else [c]) + D.WithoutUnderscores(s)
  {
    assert ([c] + s)[1..] == s;
  }

  /** Underscores count for nothing, wherever they stand. */
  lemma {:induction false} UnderscoreGone(a: string, b: string)
    requires Digital(a) && Digital(b)
    ensures Digital(a + (['_'] + b)) && Digital(a + b)
    ensures D.WithoutUnderscores(a + (['_'] + b)) == D.WithoutUnderscores(a + b)
  {
    if a == "" {
      NothingBefore(['_'] + b);
      NothingBefore(b);
      OneGone('_', b);
      NothingBefore(D.WithoutUnderscores(b));
    } else {
      assert Digital(a[1..]);
      UnderscoreGone(a[1..], b);
      HeadFirst(a, ['_'] + b);
      HeadFirst(a, b);
      OneGone(a[0], a[1..] + (['_'] + b));
      OneGone(a[0], a[1..] + b);
    }
  }

  // ---------------------------------------------------------------- status

  /** What each of the 22 fields must be. */
  datatype Shape = Flag | Integer | Text

  function Wanted(i: nat): (r: (string, Shape)) {
    match i
    case 0 => ("armed", Flag)
    case 1 => ("ac", Flag)
    case 2 => ("battery", Integer)
    case 3 => ("runtime", Integer)
    case 4 => ("runtime_mode", Text)
    case 5 => ("voltage_cv", Integer)
    case 6 => ("load", Integer)
    case 7 => ("input_voltage_cv", Integer)
    case 8 => ("output_voltage_cv", Integer)
    case 9 => ("charging_mode", Text)
    case 10 => ("charging_active", Flag)
    case 11 => ("lowbat_mode", Text)
    case 12 => ("lowbat_active", Flag)
    case 13 => ("overload", Flag)
    case 14 => ("replace", Flag)
    case 15 => ("commlost", Flag)
    case 16 => ("shutdown", Flag)
    case 17 => ("shutdown_imminent", Flag)
    case 18 => ("host_start_delay", Integer)
    case 19 => ("host_shutdown_delay", Integer)
    case 20 => ("host_reboot_delay", Integer)
    case _ => ("ip", Text)
  }

  /** What is wrong with a field, if anything. */
  function Wrong(values: map<string, string>, key: string, shape: Shape): (r: Option<D.Failure>) {
    if key !in values then Some(D.Missing(key))
    else if shape == Flag && values[key] != "0" && values[key] != "1" then Some(D.NotBoolean(key, values[key]))
    else if shape == Integer && D.PyInt(values[key]).None? then Some(D.NotInteger(key, values[key]))
    else None
  }

  function Fault(values: map<string, string>, i: nat): (r: Option<D.Failure>) {
    Wrong(values, Wanted(i).0, Wanted(i).1)
  }

  /** What is wrong with the fields, one after the other. */
  function Faults(values: map<string, string>): (r: seq<Option<D.Failure>>)
    ensures |r| == 22
  {
    seq(22, i requires 0 <= i < 22 => Fault(values, i))
  }

  /** The first failure at or behind a position. */
  function FirstFrom<T>(faults: seq<Option<T>>, i: nat): (r: Option<T>)
    requires i <= |faults|
    decreases |faults| - i
  {
    if i == |faults| then None else if faults[i].Some? then faults[i] else FirstFrom(faults, i + 1)
  }

  lemma Flags(values: map<string, string>, key: string)
    ensures var r, w := D.AsBool(values, key), Wrong(values, key, Flag);
            if w.Some? then r == D.Err(w.value) else r == D.Ok(values[key] == "1")
  {}

  lemma Integers(values: map<string, string>, key: string)
    ensures var r, w := D.AsInt(values, key), Wrong(values, key, Integer);
            if w.Some? then r == D.Err(w.value) else r.Ok? && Some(r.value) == D.PyInt(values[key])
  {}

  lemma Texts(values: map<string, string>, key: string)
    ensures var r, w := D.Need(values, key), Wrong(values, key, Text);
            if w.Some? then r == D.Err(w.value) else r == D.Ok(values[key])
  {}

  /** A failure, or none. */
  function FailureOf<T>(r: D.Result<T>): (f: Option<D.Failure>) { if r.Err? then Some(r.error) else None }

  /** The first of two possible failures. */
  function Or<T>(a: Option<T>, b: Option<T>): (r: Option<T>) { if a.Some? then a else b }

  predicate SameMap(a: map<string, string>, b: map<string, string>) { a == b }

  /** Reading a key as a shape fails with `f`, or not at all. */
  ghost predicate Fails(values: map<string, string>, key: string, shape: Shape, f: Option<D.Failure>) {
    forall m :: SameMap(m, values) ==>
      f == match shape
           case Flag => FailureOf(D.AsBool(m, key))
           case Integer => FailureOf(D.AsInt(m, key))
           case Text => FailureOf(D.Need(m, key))
  }

  lemma FailsWrong(values: map<string, string>, key: string, shape: Shape)
    ensures Fails(values, key, shape, Wrong(values, key, shape))
  {
    Flags(values, key);
    Integers(values, key);
    Texts(values, key);
  }

  /** Every field of the list fails as its shape says. */
  lemma FailsAt(values: map<string, string>, i: nat, key: string, shape: Shape)
    requires i < 22 && Wanted(i) == (key, shape)
    ensures Fails(values, key, shape, Faults(values)[i])
  {
    FailsWrong(values, key, shape);
  }

  lemma SupplyChain(values: map<string, string>)
    ensures FailureOf(D.ReadSupply(values)) ==
            Or(FailureOf(D.AsBool(values, "armed")),
            Or(FailureOf(D.AsBool(values, "ac")),
            Or(FailureOf(D.AsInt(values, "battery")),
            Or(FailureOf(D.AsInt(values, "runtime")), FailureOf(D.Need(values, "runtime_mode"))))))
  {}

  lemma SupplyFails(values: map<string, string>, a: Option<D.Failure>, b: Option<D.Failure>, c: Option<D.Failure>,
        d: Option<D.Failure>, e: Option<D.Failure>)
    requires Fails(values, "armed", Flag, a)
    requires Fails(values, "ac", Flag, b)
    requires Fails(values, "battery", Integer, c)
    requires Fails(values, "runtime", Integer, d)
    requires Fails(values, "runtime_mode", Text, e)
    ensures FailureOf(D.ReadSupply(values)) == Or(a, Or(b, Or(c, Or(d, e))))
  {
    assert SameMap(values, values);
    SupplyChain(values);
  }

  lemma LevelsChain(values: map<string, string>)
    ensures FailureOf(D.ReadLevels(values)) ==
            Or(FailureOf(D.AsInt(values, "voltage_cv")),
            Or(FailureOf(D.AsInt(values, "load")),
            Or(FailureOf(D.AsInt(values, "input_voltage_cv")), FailureOf(D.AsInt(values, "output_voltage_cv")))))
  {}

  lemma LevelsFail(values: map<string, string>, a: Option<D.Failure>, b: Option<D.Failure>, c: Option<D.Failure>,
        d: Option<D.Failure>)
    requires Fails(values, "voltage_cv", Integer, a)
    requires Fails(values, "load", Integer, b)
    requires Fails(values, "input_voltage_cv", Integer, c)
    requires Fails(values, "output_voltage_cv", Integer, d)
    ensures FailureOf(D.ReadLevels(values)) == Or(a, Or(b, Or(c, d)))
  {
    assert SameMap(values, values);
    LevelsChain(values);
  }

  lemma OverridesChain(values: map<string, string>)
    ensures FailureOf(D.ReadOverrides(values)) ==
            Or(FailureOf(D.Need(values, "charging_mode")),
            Or(FailureOf(D.AsBool(values, "charging_active")),
            Or(FailureOf(D.Need(values, "lowbat_mode")), FailureOf(D.AsBool(values, "lowbat_active")))))
  {}

  lemma OverridesFail(values: map<string, string>, a: Option<D.Failure>, b: Option<D.Failure>,
        c: Option<D.Failure>, d: Option<D.Failure>)
    requires Fails(values, "charging_mode", Text, a)
    requires Fails(values, "charging_active", Flag, b)
    requires Fails(values, "lowbat_mode", Text, c)
    requires Fails(values, "lowbat_active", Flag, d)
    ensures FailureOf(D.ReadOverrides(values)) == Or(a, Or(b, Or(c, d)))
  {
    assert SameMap(values, values);
    OverridesChain(values);
  }

  lemma AlarmsChain(values: map<string, string>)
    ensures FailureOf(D.ReadAlarms(values)) ==
            Or(FailureOf(D.AsBool(values, "overload")),
            Or(FailureOf(D.AsBool(values, "replace")),
            Or(FailureOf(D.AsBool(values, "commlost")),
            Or(FailureOf(D.AsBool(values, "shutdown")), FailureOf(D.AsBool(values, "shutdown_imminent"))))))
  {}

  lemma AlarmsFail(values: map<string, string>, a: Option<D.Failure>, b: Option<D.Failure>, c: Option<D.Failure>,
        d: Option<D.Failure>, e: Option<D.Failure>)
    requires Fails(values, "overload", Flag, a)
    requires Fails(values, "replace", Flag, b)
    requires Fails(values, "commlost", Flag, c)
    requires Fails(values, "shutdown", Flag, d)
    requires Fails(values, "shutdown_imminent", Flag, e)
    ensures FailureOf(D.ReadAlarms(values)) == Or(a, Or(b, Or(c, Or(d, e))))
  {
    assert SameMap(values, values);
    AlarmsChain(values);
  }

  lemma HostChain(values: map<string, string>)
    ensures FailureOf(D.ReadHost(values)) ==
            Or(FailureOf(D.AsInt(values, "host_start_delay")),
            Or(FailureOf(D.AsInt(values, "host_shutdown_delay")),
            Or(FailureOf(D.AsInt(values, "host_reboot_delay")), FailureOf(D.Need(values, "ip")))))
  {}

  lemma HostFail(values: map<string, string>, a: Option<D.Failure>, b: Option<D.Failure>, c: Option<D.Failure>,
        d: Option<D.Failure>)
    requires Fails(values, "host_start_delay", Integer, a)
    requires Fails(values, "host_shutdown_delay", Integer, b)
    requires Fails(values, "host_reboot_delay", Integer, c)
    requires Fails(values, "ip", Text, d)
    ensures FailureOf(D.ReadHost(values)) == Or(a, Or(b, Or(c, d)))
  {
    assert SameMap(values, values);
    HostChain(values);
  }

  lemma SupplyFirst(values: map<string, string>, faults: seq<Option<D.Failure>>)
    requires faults == Faults(values)
    ensures FailureOf(D.ReadSupply(values)) == Or(faults[0], Or(faults[1], Or(faults[2], Or(faults[3], faults[4]))))
  {
    FailsAt(values, 0, "armed", Flag);
    FailsAt(values, 1, "ac", Flag);
    FailsAt(values, 2, "battery", Integer);
    FailsAt(values, 3, "runtime", Integer);
    FailsAt(values, 4, "runtime_mode", Text);
    SupplyFails(values, faults[0], faults[1], faults[2], faults[3], faults[4]);
  }

  lemma LevelsFirst(values: map<string, string>, faults: seq<Option<D.Failure>>)
    requires faults == Faults(values)
    ensures FailureOf(D.ReadLevels(values)) == Or(faults[5], Or(faults[6], Or(faults[7], faults[8])))
  {
    FailsAt(values, 5, "voltage_cv", Integer);
    FailsAt(values, 6, "load", Integer);
    FailsAt(values, 7, "input_voltage_cv", Integer);
    FailsAt(values, 8, "output_voltage_cv", Integer);
    LevelsFail(values, faults[5], faults[6], faults[7], faults[8]);
  }

  lemma OverridesFirst(values: map<string, string>, faults: seq<Option<D.Failure>>)
    requires faults == Faults(values)
    ensures FailureOf(D.ReadOverrides(values)) == Or(faults[9], Or(faults[10], Or(faults[11], faults[12])))
  {
    FailsAt(values, 9, "charging_mode", Text);
    FailsAt(values, 10, "charging_active", Flag);
    FailsAt(values, 11, "lowbat_mode", Text);
    FailsAt(values, 12, "lowbat_active", Flag);
    OverridesFail(values, faults[9], faults[10], faults[11], faults[12]);
  }

  lemma AlarmsFirst(values: map<string, string>, faults: seq<Option<D.Failure>>)
    requires faults == Faults(values)
    ensures FailureOf(D.ReadAlarms(values)) ==
            Or(faults[13], Or(faults[14], Or(faults[15], Or(faults[16], faults[17]))))
  {
    FailsAt(values, 13, "overload", Flag);
    FailsAt(values, 14, "replace", Flag);
    FailsAt(values, 15, "commlost", Flag);
    FailsAt(values, 16, "shutdown", Flag);
    FailsAt(values, 17, "shutdown_imminent", Flag);
    AlarmsFail(values, faults[13], faults[14], faults[15], faults[16], faults[17]);
  }

  lemma HostFirst(values: map<string, string>, faults: seq<Option<D.Failure>>)
    requires faults == Faults(values)
    ensures FailureOf(D.ReadHost(values)) == Or(faults[18], Or(faults[19], Or(faults[20], faults[21])))
  {
    FailsAt(values, 18, "host_start_delay", Integer);
    FailsAt(values, 19, "host_shutdown_delay", Integer);
    FailsAt(values, 20, "host_reboot_delay", Integer);
    FailsAt(values, 21, "ip", Text);
    HostFail(values, faults[18], faults[19], faults[20], faults[21]);
  }

  lemma GroupsFail(values: map<string, string>)
    ensures FailureOf(D.ReadStatus(values)) ==
            Or(FailureOf(D.ReadSupply(values)),
               Or(FailureOf(D.ReadLevels(values)),
                  Or(FailureOf(D.ReadOverrides(values)),
                  Or(FailureOf(D.ReadAlarms(values)), FailureOf(D.ReadHost(values))))))
  {}

  lemma FirstAmong4<T>(faults: seq<Option<T>>, i: nat)
    requires i + 4 <= |faults|
    ensures FirstFrom(faults, i) ==
            if faults[i].Some? then faults[i]
            else if faults[i + 1].Some? then faults[i + 1]
            else if faults[i + 2].Some? then faults[i + 2]
            else if faults[i + 3].Some? then faults[i + 3]
            else FirstFrom(faults, i + 4)
  {
    var _ := FirstFrom(faults, i + 1);
    var _ := FirstFrom(faults, i + 2);
    var _ := FirstFrom(faults, i + 3);
  }

  lemma FirstAmong5<T>(faults: seq<Option<T>>, i: nat)
    requires i + 5 <= |faults|
    ensures FirstFrom(faults, i) ==
            if faults[i].Some? then faults[i]
            else if faults[i + 1].Some? then faults[i + 1]
            else if faults[i + 2].Some? then faults[i + 2]
            else if faults[i + 3].Some? then faults[i + 3]
            else if faults[i + 4].Some? then faults[i + 4]
            else FirstFrom(faults, i + 5)
  {
    FirstAmong4(faults, i + 1);
  }

  /** `status()` fails exactly with the first fault of the reply, field by field in
      order: a missing key, a flag that is neither 0 nor 1, a number that `int` does not
      take. */
  lemma StatusFailsExactly(values: map<string, string>)
    ensures FailureOf(D.ReadStatus(values)) == FirstFrom(Faults(values), 0)
  {
    var faults := Faults(values);
    GroupsFail(values);
    SupplyFirst(values, faults);
    LevelsFirst(values, faults);
    OverridesFirst(values, faults);
    AlarmsFirst(values, faults);
    HostFirst(values, faults);
    FirstOfGroups(faults);
  }

  lemma FirstOfGroups<T>(faults: seq<Option<T>>)
    requires |faults| == 22
    ensures FirstFrom(faults, 0) ==
            Or(Or(faults[0], Or(faults[1], Or(faults[2], Or(faults[3], faults[4])))),
               Or(Or(faults[5], Or(faults[6], Or(faults[7], faults[8]))),
                  Or(Or(faults[9], Or(faults[10], Or(faults[11], faults[12]))),
                     Or(Or(faults[13], Or(faults[14], Or(faults[15], Or(faults[16], faults[17])))),
                        Or(faults[18], Or(faults[19], Or(faults[20], faults[21])))))))
  {
    FirstAmong5(faults, 0);
    FirstAmong4(faults, 5);
    FirstAmong4(faults, 9);
    FirstAmong5(faults, 13);
    FirstAmong4(faults, 18);
    assert FirstFrom(faults, 22) == None;
  }

  /** The fault at `k` is the first one. */
  predicate FirstAt<T(==)>(faults: seq<Option<T>>, i: nat, k: nat, e: T) {
    i <= k < |faults| && faults[k] == Some(e) && forall j :: i <= j < k ==> faults[j] == None
  }

  lemma {:induction false} NoFault<T>(faults: seq<Option<T>>, i: nat)
    requires i <= |faults|
    ensures FirstFrom(faults, i) == None <==> forall k :: i <= k < |faults| ==> faults[k] == None
    decreases |faults| - i
  {
    if i < |faults| { NoFault(faults, i + 1); }
  }

  lemma {:induction false} FaultFound<T>(faults: seq<Option<T>>, i: nat, e: T) returns (k: nat)
    requires i <= |faults| && FirstFrom(faults, i) == Some(e)
    ensures FirstAt(faults, i, k, e)
    decreases |faults| - i
  {
    if faults[i].Some? { k := i; } else { k := FaultFound(faults, i + 1, e); }
  }

  lemma {:induction false} FoundIsFirst<T>(faults: seq<Option<T>>, i: nat, k: nat, e: T)
    requires FirstAt(faults, i, k, e)
    ensures FirstFrom(faults, i) == Some(e)
    decreases |faults| - i
  {
    if i < k { FoundIsFirst(faults, i + 1, k, e); }
  }

  /** Which fault that is: the one before which there is none. */
  lemma StatusRaisesFirst(values: map<string, string>, e: D.Failure)
    ensures D.ReadStatus(values) == D.Err(e) <==> exists k :: FirstAt(Faults(values), 0, k, e)
    ensures D.ReadStatus(values).Ok? <==> forall k :: 0 <= k < 22 ==> Faults(values)[k] == None
  {
    var faults := Faults(values);
    StatusFailsExactly(values);
    NoFault(faults, 0);
    if FirstFrom(faults, 0) == Some(e) { var k := FaultFound(faults, 0, e); }
    if exists k :: FirstAt(faults, 0, k, e) {
      var k :| FirstAt(faults, 0, k, e);
      FoundIsFirst(faults, 0, k, e);
    }
  }
}
