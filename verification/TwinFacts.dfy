/** What every history of a twin keeps, and which calls change nothing. */
module TwinFacts {
  import opened Ascii
  import opened Decimal
  import opened PythonText
  import opened Words
  import opened TwinModel

  /** The cached status is the derivation from the fields, and an automatic
      runtime is the one the battery level gives. */
  ghost predicate Cached(t: Twin) {
    && t.hid == Recompute(t.sw, t.g)
    && (t.sw.runtimeAuto ==> t.g.runtimeSeconds == AutoSeconds(t.g.batteryPercent))
  }

  /** Python integers that stay within the firmware's bytes and words. */
  ghost predicate InRange(t: Twin) {
    && 0 <= t.g.batteryPercent <= 100 && 0 <= t.g.loadPercent <= 100
    && 0 <= t.g.batteryVoltageCv <= 65535 && 0 <= t.g.runtimeSeconds <= 65535
    && 0 <= t.g.inputVoltageCv <= 65535 && 0 <= t.g.outputVoltageCv <= 65535
    && -1 <= t.g.hostStartDelay <= 32767 && t.g.hostShutdownDelay == -1 && t.g.hostRebootDelay == -1
    && 0 <= t.armLeaseMs <= 3_600_000 && 0 <= t.lastCommandMs < TWO32 && 0 <= t.nowMs < TWO32
    && t.sw.chargingMode in {"auto", "on", "off"} && t.sw.lowBatteryMode in {"auto", "on", "off"}
  }

  ghost predicate Sound(t: Twin) { Cached(t) && InRange(t) }

  lemma UpdateIsSound(t: Twin)
    requires InRange(t)
    ensures Sound(UpdateModel(t)) && (Cached(t) ==> UpdateModel(t) == t)
  {}

  lemma FreshIsSound(address: Address)
    ensures Sound(Fresh(address))
  {}

  lemma ParsedInRange(token: Option<string>, minimum: int, maximum: int)
    ensures var v := TwinModel.ParseSigned(token, minimum, maximum);
            v.Number? && v.value.Some? ==> minimum <= v.value.value <= maximum
  {}

  /** A missing token, or one that does not make `int` raise. */
  predicate Readable(token: Option<string>) { token.Some? ==> !Unreadable(token.value) }

  /** A numeral that only Python takes: decimal digits, some of them of another
      script, that spell a number within the bounds. */
  predicate OnlyPython(token: string, minimum: int, maximum: int) {
    var digits := Magnitude(token);
    && digits != "" && AllDecimals(digits) && !AllDigits(digits) && |digits| <= 4300
    && var v: int := DecimalsValue(digits);
       v <= 99999 && minimum <= (if token[0] == '-' then -v else v) <= maximum
  }

  /** The whole-number parser of the twin raises exactly on unreadable tokens. It
      accepts the same tokens with the same values as the early-exit parser of the
      firmware exactly on the readable ones that are not digits of another script
      within the bounds. */
  lemma ParsersAgree(token: Option<string>, minimum: int, maximum: int)
    ensures TwinModel.ParseSigned(token, minimum, maximum).Raises? <==> !Readable(token)
    ensures TwinModel.ParseSigned(token, minimum, maximum) == Number(ReadSigned(token, minimum, maximum)) <==>
            Readable(token) && (token.Some? ==> !OnlyPython(token.value, minimum, maximum))
  {
    if token.Some? && token.value != "" {
      assert token.value[0..] == token.value;
      var digits := Magnitude(token.value);
      if AllDigits(digits) { AsciiValue(digits); }
    }
  }

  /** Without digits of other scripts they always agree. */
  lemma AsciiTokensAgree(token: Option<string>, minimum: int, maximum: int)
    requires token.Some? ==> IsAscii(token.value) && |token.value| <= 4300
    ensures TwinModel.ParseSigned(token, minimum, maximum) == Number(ReadSigned(token, minimum, maximum))
  {
    ParsersAgree(token, minimum, maximum);
    if token.Some? { AsciiToken(token.value); }
  }

  lemma AsciiToken(token: string)
    requires IsAscii(token) && |token| <= 4300
    ensures var digits := Magnitude(token);
            |digits| <= 4300 && (AllPythonDigits(digits) ==> AllDigits(digits) && AllDecimals(digits))
  {
    var digits := Magnitude(token);
    var skipped := |token| - |digits|;
    forall i | 0 <= i < |digits|
      ensures (DecimalOf(digits[i]).Some? <==> IsDigit(digits[i])) && !IsOtherDigit(digits[i])
    {
      assert digits[i] == token[skipped + i];
      EarlyDigits(digits[i]);
      NoOtherDigit(digits[i]);
    }
  }

  /** One that only Python takes: an Arabic-Indic three. */
  lemma ArabicThree(token: string)
    requires token == ['\U{663}']
    ensures TwinModel.ParseSigned(Some(token), 0, ARM_MAX_LEASE_SEC) == Number(Some(3))
    ensures ReadSigned(Some(token), 0, ARM_MAX_LEASE_SEC) == None
  {
    assert Magnitude(token) == token && token[..0] == "";
    assert ZEROS[0] == 0x660;
    assert DecimalOf('\U{663}') == Some(3);
    assert DecimalsValue(token[..0]) == 0;
  }

  predicate IsError(text: string) { |text| >= 3 && text[0] == 'E' && text[1] == 'R' && text[2] == 'R' }

  /** What every branch of `command` guarantees. */
  ghost predicate Kept(t: Twin, c: Called) {
    match c
    case Returned(r) => Sound(r.t) && (IsError(r.text) ==> r.t == t)
    case ValueError(u) => u == t
    case IndexError => false
  }

  lemma SwitchKept(t: Twin, command: string, arg: Option<string>)
    requires Sound(t)
    ensures Kept(t, RunSwitch(t, command, arg))
  {
    var v := ParseOnOff(arg);
    if v.Some? {
      UpdateIsSound(t.(sw := SetSwitch(t.sw, command, v.value)));
    }
  }

  lemma ModeKept(t: Twin, command: string, arg: Option<string>)
    requires Sound(t)
    ensures Kept(t, RunMode(t, command, arg))
  {
    var v := ParseOverride(arg);
    if v.Some? {
      if command == "CHARGING" {
        UpdateIsSound(t.(sw := t.sw.(chargingMode := v.value)));
      } else {
        UpdateIsSound(t.(sw := t.sw.(lowBatteryMode := v.value)));
      }
    }
  }

  lemma GaugeKept(t: Twin, command: string, arg: Option<string>)
    requires Sound(t) && IsGauge(command)
    ensures Kept(t, RunGauge(t, command, arg))
  {
    ParsedInRange(arg, Minimum(command), Maximum(command));
    var v := TwinModel.ParseSigned(arg, Minimum(command), Maximum(command));
    if v.Number? && v.value.Some? { UpdateIsSound(t.(g := SetGauge(t.g, command, v.value.value))); }
  }

  lemma RuntimeKept(t: Twin, arg: Option<string>)
    requires Sound(t)
    ensures Kept(t, RunRuntime(t, arg))
  {
    ParsedInRange(arg, 0, 65535);
    var v := TwinModel.ParseSigned(arg, 0, 65535);
    UpdateIsSound(t.(sw := t.sw.(runtimeAuto := true)));
    if v.Number? && v.value.Some? {
      UpdateIsSound(t.(sw := t.sw.(runtimeAuto := false), g := t.g.(runtimeSeconds := v.value.value)));
    }
  }

  lemma ArmedKept(t: Twin, command: string, arg: Option<string>)
    requires Sound(t)
    ensures Kept(t, RunArmed(t, command, arg))
  {
    if t.sw.armed {
      if command in {"AC", "OVERLOAD", "REPLACE", "COMMLOST", "SHUTDOWN"} {
        SwitchKept(t, command, arg);
      } else if command in {"CHARGING", "LOWBAT"} {
        ModeKept(t, command, arg);
      } else {
        NumericKept(t, command, arg);
      }
    }
  }

  lemma NumericKept(t: Twin, command: string, arg: Option<string>)
    requires Sound(t)
    ensures Kept(t, RunNumeric(t, command, arg))
  {
    if IsGauge(command) {
      GaugeKept(t, command, arg);
    } else if command == "RUNTIME" {
      RuntimeKept(t, arg);
    }
  }

  lemma ArmKept(t: Twin, arg: Option<string>, arg2: Option<string>)
    requires Sound(t)
    ensures Kept(t, RunArm(t, arg, arg2))
  {
    ParsedInRange(arg2, 0, ARM_MAX_LEASE_SEC);
    UpdateIsSound(SetSafe(t));
    var lease := if arg2.Some? then TwinModel.ParseSigned(arg2, 0, ARM_MAX_LEASE_SEC) else Number(Some(ARM_DEFAULT_LEASE_SEC));
    if lease.Number? && lease.value.Some? {
      UpdateIsSound(t.(sw := t.sw.(armed := true), armLeaseMs := lease.value.value * 1000, lastCommandMs := t.nowMs));
    }
  }

  predicate IsQuery(command: string) {
    command in {"PING", "IDENT?", "HELP", "?", "STATUS?", "STATUS", "NETWORK?", "REPORT"}
  }

  lemma RestoreKept(t: Twin)
    requires Sound(t)
    ensures Kept(t, Answer(UpdateModel(SetSafe(t)), "OK safe"))
  {
    UpdateIsSound(SetSafe(t));
  }

  lemma QueryKept(t: Twin, command: string, arg: Option<string>, arg2: Option<string>)
    requires Sound(t) && IsQuery(command)
    ensures Kept(t, RunCommand(t, command, arg, arg2))
    ensures RunCommand(t, command, arg, arg2).Returned? && RunCommand(t, command, arg, arg2).r.t == t
  {
    UpdateIsSound(t);
  }

  lemma RunCommandKept(t: Twin, command: string, arg: Option<string>, arg2: Option<string>)
    requires Sound(t)
    ensures Kept(t, RunCommand(t, command, arg, arg2))
    ensures IsQuery(command) ==> RunCommand(t, command, arg, arg2).Returned? && RunCommand(t, command, arg, arg2).r.t == t
  {
    if IsQuery(command) {
      QueryKept(t, command, arg, arg2);
    } else if command == "ARM" {
      ArmKept(t, arg, arg2);
    } else if command == "RESET" {
      RestoreKept(t);
    } else {
      ArmedKept(t, command, arg);
    }
  }

  /** The twin after a call, however the call ended. */
  function Left(t: Twin, c: Called): (r: Twin) {
    match c
    case Returned(r) => r.t
    case IndexError => t
    case ValueError(u) => u
  }

  /** Every call of `command`, whether it returns or raises, keeps the cache sound. */
  lemma CommandKeepsSound(t: Twin, line: string)
    requires Sound(t)
    ensures Sound(Left(t, Command(t, line)))
  {
    if Stripped(line) != "" {
      var tokens := Split(Stripped(line), PYTHON_SPACE);
      if tokens != [] { RunCommandKept(Touched(t), PythonUpper(tokens[0]), Arg(tokens, 1), Arg(tokens, 2)); }
    }
  }

  lemma AdvanceKeepsSound(t: Twin, milliseconds: int)
    requires Sound(t)
    ensures Advance(t, milliseconds).Some? ==> Sound(Advance(t, milliseconds).value)
  {
    if milliseconds >= 0 {
      var u := t.(nowMs := U32(t.nowMs + milliseconds));
      UpdateIsSound(SetSafe(u));
    }
  }

  /** Queries, REPORT and every rejected command change nothing but the time of
      the last command, although some of them recompute the status. */
  lemma QueriesAndErrorsChangeNothing(t: Twin, line: string)
    requires Sound(t) && Command(t, line).Returned?
    requires var tokens := Split(Stripped(line), PYTHON_SPACE);
             tokens != [] && (IsQuery(PythonUpper(tokens[0])) || IsError(Command(t, line).r.text))
    ensures Command(t, line).r.t == Touched(t)
  {
    var tokens := Split(Stripped(line), PYTHON_SPACE);
    RunCommandKept(Touched(t), PythonUpper(tokens[0]), Arg(tokens, 1), Arg(tokens, 2));
  }

  /** A line whose command only asks. */
  predicate AsksOnly(line: string) {
    var tokens := Split(Stripped(line), PYTHON_SPACE);
    tokens != [] && IsQuery(PythonUpper(tokens[0]))
  }

  /** The same for a call that may also raise. */
  lemma AtMostTouched(t: Twin, line: string)
    requires Sound(t)
    ensures var c := Command(t, line);
            !c.Returned? || IsError(c.r.text) || AsksOnly(line) ==> Left(t, c) == t || Left(t, c) == Touched(t)
  {
    var tokens := Split(Stripped(line), PYTHON_SPACE);
    if tokens != [] {
      CommandRuns(t, line, tokens);
      RunCommandKept(Touched(t), PythonUpper(tokens[0]), Arg(tokens, 1), Arg(tokens, 2));
    }
  }

  lemma {:induction false} DropAll(line: string, chars: set<char>)
    ensures All(DropCR(line), chars) <==> All(line, chars + {'\r'})
  {
    if line == "" {
    } else {
      DropAll(line[1..], chars);
      AllCons(line, chars + {'\r'});
      if line[0] == '\r' {
        NothingBefore(DropCR(line[1..]));
      } else {
        AllHead(line[0], DropCR(line[1..]), chars);
      }
    }
  }

  lemma AllHead(c: char, s: string, chars: set<char>)
    ensures All([c] + s, chars) <==> c in chars && All(s, chars)
  {
    assert ([c] + s)[1..] == s;
    AllCons([c] + s, chars);
  }

  lemma SpaceSets()
    ensures DELIMS + {'\r'} == {' ', '\t', '\r'} && PYTHON_SPACE + {'\r'} == PYTHON_SPACE && DELIMS <= PYTHON_SPACE
  {}

  /** `command` raises IndexError exactly on lines that hold something other than
      spaces, tabs and carriage returns, but nothing that Python does not count as
      white space (a vertical tab, a no-break space, ...). */
  lemma IndexErrorExactly(t: Twin, line: string)
    ensures Command(t, line) == IndexError <==> !All(line, {' ', '\t', '\r'}) && All(line, PYTHON_SPACE)
  {
    SpaceSets();
    DropAll(line, DELIMS);
    DropAll(line, PYTHON_SPACE);
    NothingLeft(DropCR(line), DELIMS, PYTHON_SPACE);
    var tokens := Split(Stripped(line), PYTHON_SPACE);
    if tokens == [] { RaisesIndex(t, line); } else { NotIndex(t, line, tokens); }
  }

  lemma RaisesIndex(t: Twin, line: string)
    requires Split(Stripped(line), PYTHON_SPACE) == []
    ensures Command(t, line) == IndexError <==> Stripped(line) != ""
  {}

  lemma NotIndex(t: Twin, line: string, tokens: seq<string>)
    requires tokens == Split(Stripped(line), PYTHON_SPACE) && tokens != []
    ensures Command(t, line) != IndexError && Stripped(line) != ""
  {
    CommandRuns(t, line, tokens);
    NeverIndexError(Touched(t), PythonUpper(tokens[0]), Arg(tokens, 1), Arg(tokens, 2));
  }

  lemma {:induction false} DropAppend(a: string, b: string)
    ensures DropCR(a + b) == DropCR(a) + DropCR(b)
  {
    if a == "" {
      NothingBefore(b);
      NothingBefore(DropCR(b));
    } else {
      DropAppend(a[1..], b);
      HeadFirst(a, b);
      DropHead(a[0], a[1..] + b);
      DropHead(a[0], a[1..]);
      assert a == [a[0]] + a[1..];
      Assoc(if a[0] == '\r' then "" else [a[0]], DropCR(a[1..]), DropCR(b));
    }
  }

  lemma DropHead(c: char, s: string)
    ensures DropCR([c] + s) == (if c == '\r' then "" else [c]) + DropCR(s)
  {
    assert ([c] + s)[1..] == s;
  }

  lemma ReturnGone(a: string, b: string)
    ensures DropCR(a + (['\r'] + b)) == DropCR(a + b)
  {
    DropAppend(a, ['\r'] + b);
    DropAppend(a, b);
    DropHead('\r', b);
    NothingBefore(DropCR(b));
  }

  lemma SameStripped(t: Twin, line: string, other: string)
    requires Stripped(line) == Stripped(other)
    ensures Command(t, line) == Command(t, other)
  {}

  /** Carriage returns count for nothing, wherever they stand. */
  lemma ReturnsIgnored(t: Twin, a: string, b: string)
    ensures Command(t, a + (['\r'] + b)) == Command(t, a + b)
  {
    ReturnGone(a, b);
    SameStripped(t, a + (['\r'] + b), a + b);
  }

  lemma NeverIndexError(t: Twin, command: string, arg: Option<string>, arg2: Option<string>)
    ensures RunCommand(t, command, arg, arg2) != IndexError
  {}

  /** The token a command hands to the number parser, if it gets that far: the
      lease of an arming, or the argument of a numeric command while armed. */
  function NumberToken(t: Twin, command: string, arg: Option<string>, arg2: Option<string>): (token: Option<string>)
    ensures !IsQuery(command) || token.None?
  {
    if IsQuery(command) then None
    else if command == "ARM" then (if ParseOnOff(arg) == Some(true) then arg2 else None)
    else if t.sw.armed && (IsGauge(command) || (command == "RUNTIME" && !(arg.Some? && PythonUpper(arg.value) == "AUTO")))
    then arg
    else None
  }

  lemma NumericRaises(t: Twin, command: string, arg: Option<string>)
    requires t.sw.armed
    ensures RunNumeric(t, command, arg).ValueError? <==>
            (IsGauge(command) || (command == "RUNTIME" && !(arg.Some? && PythonUpper(arg.value) == "AUTO"))) && !Readable(arg)
  {
    if IsGauge(command) { ParsersAgree(arg, Minimum(command), Maximum(command)); } else { ParsersAgree(arg, 0, 65535); }
  }

  lemma ArmRaises(t: Twin, arg: Option<string>, arg2: Option<string>)
    ensures RunArm(t, arg, arg2).ValueError? <==> ParseOnOff(arg) == Some(true) && !Readable(arg2)
  {
    ParsersAgree(arg2, 0, ARM_MAX_LEASE_SEC);
  }

  lemma ArmedRaises(t: Twin, command: string, arg: Option<string>)
    requires !IsQuery(command) && command != "ARM"
    ensures RunArmed(t, command, arg).ValueError? <==> !Readable(NumberToken(t, command, arg, None))
  {
    if t.sw.armed { NumericRaises(t, command, arg); }
  }

  lemma RunCommandRaises(t: Twin, command: string, arg: Option<string>, arg2: Option<string>)
    ensures RunCommand(t, command, arg, arg2).ValueError? <==> !Readable(NumberToken(t, command, arg, arg2))
  {
    if IsQuery(command) || command == "RESET" {
    } else if command == "ARM" {
      ArmRaises(t, arg, arg2);
    } else {
      ArmedRaises(t, command, arg);
    }
  }

  lemma RunCommandLeaves(t: Twin, command: string, arg: Option<string>, arg2: Option<string>)
    requires RunCommand(t, command, arg, arg2).ValueError?
    ensures RunCommand(t, command, arg, arg2).t == t
  {}

  lemma CommandRuns(t: Twin, line: string, tokens: seq<string>)
    requires tokens == Split(Stripped(line), PYTHON_SPACE) && tokens != []
    ensures Command(t, line) == RunCommand(Touched(t), PythonUpper(tokens[0]), Arg(tokens, 1), Arg(tokens, 2))
  {}

  /** `command` raises ValueError exactly when the token it hands to the number
      parser is made of Python digits only and `int` still refuses it; nothing but
      the time of the last command has changed then. */
  lemma ValueErrorExactly(t: Twin, line: string)
    ensures var tokens := Split(Stripped(line), PYTHON_SPACE);
            Command(t, line).ValueError? <==>
            tokens != [] && !Readable(NumberToken(t, PythonUpper(tokens[0]), Arg(tokens, 1), Arg(tokens, 2)))
    ensures Command(t, line).ValueError? ==> Command(t, line).t == Touched(t)
  {
    var tokens := Split(Stripped(line), PYTHON_SPACE);
    if tokens != [] {
      CommandRuns(t, line, tokens);
      TokenRaises(t, PythonUpper(tokens[0]), Arg(tokens, 1), Arg(tokens, 2));
    }
  }

  lemma TokenRaises(t: Twin, command: string, arg: Option<string>, arg2: Option<string>)
    ensures var c := RunCommand(Touched(t), command, arg, arg2);
            && (c.ValueError? <==> !Readable(NumberToken(t, command, arg, arg2)))
            && (c.ValueError? ==> c.t == Touched(t))
  {
    RunCommandRaises(Touched(t), command, arg, arg2);
    if RunCommand(Touched(t), command, arg, arg2).ValueError? { RunCommandLeaves(Touched(t), command, arg, arg2); }
  }

  // ---------------------------------------------------------------- one input for each

  /** Any one character that only Python counts as white space. */
  lemma OneSpaceRaises(t: Twin, c: char)
    requires c in PYTHON_SPACE && c !in DELIMS && c != '\r'
    ensures Command(t, [c]) == IndexError
  {
    IndexErrorExactly(t, [c]);
    assert [c][0] == c;
  }

  /** For example a no-break space, or a next-line character. */
  lemma NoBreakSpaceRaises(t: Twin)
    ensures Command(t, ['\U{a0}']) == IndexError && Command(t, ['\U{85}']) == IndexError
  {
    OneSpaceRaises(t, '\U{a0}');
    OneSpaceRaises(t, '\U{85}');
  }

  lemma ThreeWords(a: string, b: string, c: string)
    requires a != "" && b != "" && c != "" && Free(a, PYTHON_SPACE) && Free(b, PYTHON_SPACE) && Free(c, PYTHON_SPACE)
    ensures Split(a + [' '] + (b + [' '] + c), PYTHON_SPACE) == [a, b, c]
  {
    SplitWord(a, ' ', b + [' '] + c, PYTHON_SPACE);
    SplitWord(b, ' ', c, PYTHON_SPACE);
    SplitLastWord(c, PYTHON_SPACE);
    assert [a] + ([b] + [c]) == [a, b, c];
  }

  lemma ArmOnText(lease: string)
    ensures "ARM ON " + lease == "ARM" + [' '] + ("ON" + [' '] + lease)
  {}

  lemma ArmOnFree()
    ensures Free("ARM", PYTHON_SPACE) && Free("ON", PYTHON_SPACE)
  {}

  lemma ArmOnTokens(lease: string)
    requires lease != "" && Free(lease, PYTHON_SPACE)
    ensures Split("ARM ON " + lease, PYTHON_SPACE) == ["ARM", "ON", lease]
  {
    ArmOnFree();
    ArmOnText(lease);
    ThreeWords("ARM", "ON", lease);
  }

  lemma {:induction false} DropNothing(line: string)
    requires '\r' !in line
    ensures DropCR(line) == line
  {
    if line == "" {
    } else {
      DropNothing(line[1..]);
      assert line == [line[0]] + line[1..];
    }
  }

  lemma ArmOnRaises(t: Twin, lease: string)
    requires lease != "" && Free(lease, PYTHON_SPACE) && Unreadable(lease)
    ensures Command(t, "ARM ON " + lease).ValueError?
  {
    NoReturns("ARM ON ", lease);
    NothingStripped("ARM ON " + lease);
    ArmOnTokens(lease);
    ArmOnUpper();
    RunCommandRaises(Touched(t), "ARM", Some("ON"), Some(lease));
  }

  lemma ArmOnUpper()
    ensures PythonUpper("ARM") == "ARM" && PythonUpper("ON") == "ON"
  {
    UpperIsAsciiUpper("ARM");
    UpperIsAsciiUpper("ON");
  }

  /** A superscript two is a digit to `isdigit` and none to `int`. */
  lemma SuperscriptRaises(t: Twin, lease: string)
    requires lease == ['\U{b2}']
    ensures Command(t, "ARM ON " + lease).ValueError?
  {
    assert Magnitude(lease) == lease;
    NotDecimal('\U{b2}');
    assert OTHER_DIGITS[0].0 <= lease[0] as int <= OTHER_DIGITS[0].1;
    ArmOnRaises(t, lease);
  }

  lemma NotDecimal(c: char)
    requires c < '\U{660}' && !IsDigit(c)
    ensures DecimalOf(c) == None
  {
    EarlyDigits(c);
  }

  /** A numeral of 4301 digits is too long for `int`. */
  lemma LongNumeralRaises(t: Twin, lease: string)
    requires |lease| == 4301 && forall i :: 0 <= i < |lease| ==> lease[i] == '1'
    ensures Command(t, "ARM ON " + lease).ValueError?
  {
    AsciiDigits('1');
    assert Magnitude(lease) == lease;
    ArmOnRaises(t, lease);
  }

  lemma LigatureParses(word: string)
    requires word == ['o', '\U{fb00}']
    ensures Free(word, PYTHON_SPACE) && ParseOnOff(Some(word)) == Some(false)
  {
    LigatureIsOff(word);
  }

  lemma NothingStripped(line: string)
    requires line != "" && line[0] !in DELIMS && '\r' !in line
    ensures Stripped(line) == line
  {
    DropNothing(line);
  }

  lemma NoReturns(first: string, word: string)
    requires '\r' !in first && Free(word, PYTHON_SPACE)
    ensures '\r' !in first + word
  {
    assert '\r' in PYTHON_SPACE;
  }

  lemma ArmSplit(word: string)
    requires word != "" && Free(word, PYTHON_SPACE)
    ensures Split("ARM " + word, PYTHON_SPACE) == ["ARM", word]
  {
    assert "ARM " + word == "ARM" + [' '] + word;
    SplitWord("ARM", ' ', word, PYTHON_SPACE);
    SplitLastWord(word, PYTHON_SPACE);
  }

  lemma ArmTokens(word: string)
    requires word != "" && Free(word, PYTHON_SPACE)
    ensures Stripped("ARM " + word) == "ARM " + word && Split("ARM " + word, PYTHON_SPACE) == ["ARM", word]
  {
    NoReturns("ARM ", word);
    NothingStripped("ARM " + word);
    ArmSplit(word);
  }

  lemma ArmRuns(t: Twin, arg: Option<string>, arg2: Option<string>)
    ensures RunCommand(t, "ARM", arg, arg2) == RunArm(t, arg, arg2)
  {}

  /** And to Python a ligature disarms: `ARM o` with the ligature of two f. */
  lemma LigatureDisarms(t: Twin, word: string)
    requires word == ['o', '\U{fb00}']
    ensures Command(t, "ARM " + word) == Answer(UpdateModel(SetSafe(Touched(t))), "OK safe")
  {
    LigatureParses(word);
    ArmTokens(word);
    CommandRuns(t, "ARM " + word, ["ARM", word]);
    ArmOnUpper();
    ArmRuns(Touched(t), Some(word), None);
  }

  lemma NothingLeft(text: string, few: set<char>, many: set<char>)
    requires few <= many
    ensures var rest := TrimLeft(text, few);
            rest != "" && Split(rest, many) == [] <==> !All(text, few) && All(text, many)
  {
    var rest := TrimLeft(text, few);
    TrimEmptyIff(text, few);
    TrimEmptyIff(rest, many);
    SplitEmptyIff(rest, many);
    TrimBlank(text, few, many);
  }

  /** A history of a twin: commands and clock advances in any order. */
  datatype Call = Line(text: string) | Tick(milliseconds: int)

  function After(t: Twin, calls: seq<Call>): (r: Twin) {
    if calls == [] then t
    else
      var u := After(t, calls[..|calls| - 1]);
      match calls[|calls| - 1]
      case Line(text) => Left(u, Command(u, text))
      case Tick(ms) => if Advance(u, ms).Some? then Advance(u, ms).value else u
  }

  /** From construction on, for every history, `hid_status` equals recomputation
      from the fields and every value stays in the range of its wire type. */
  lemma {:induction false} AlwaysSound(address: Address, calls: seq<Call>)
    ensures Sound(After(Fresh(address), calls))
  {
    if calls == [] {
      FreshIsSound(address);
    } else {
      AlwaysSound(address, calls[..|calls| - 1]);
      var u := After(Fresh(address), calls[..|calls| - 1]);
      match calls[|calls| - 1]
      case Line(text) => CommandKeepsSound(u, text);
      case Tick(ms) => AdvanceKeepsSound(u, ms);
    }
  }
}
