/** Which command each protocol word selects. */
module CommandWords {
  import opened Ascii
  import opened Control

  lemma {:induction false} SameLength(a: string, b: string)
    requires StrCaseEq(a, b)
    ensures |a| == |b|
  {
    if a != "" && b != "" { SameLength(a[1..], b[1..]); }
  }

  lemma Shorter(c: string, w: string)
    requires |w| != |c|
    ensures !StrCaseEq(c, w)
  {
    if StrCaseEq(c, w) { SameLength(c, w); }
  }

  /** Words of ten or more characters are compared past all the others. */
  lemma LongWord(c: string)
    requires |c| >= 10
    ensures KeywordOf(c) == GuardedKeyword(c)
  {
    Shorter(c, "PING");
    Shorter(c, "IDENT?");
    Shorter(c, "HELP");
    Shorter(c, "STATUS?");
    Shorter(c, "STATUS");
    Shorter(c, "NETWORK?");
    Shorter(c, "ARM");
    Shorter(c, "RESET");
    Shorter(c, "REPORT");
  }

  lemma LongGuardedWord(c: string)
    requires |c| >= 10
    ensures GuardedKeyword(c) == NumericKeyword(c)
  {
    Shorter(c, "AC");
    Shorter(c, "OVERLOAD");
    Shorter(c, "REPLACE");
    Shorter(c, "COMMLOST");
    Shorter(c, "SHUTDOWN");
    Shorter(c, "CHARGING");
    Shorter(c, "LOWBAT");
  }

  lemma LongNumberWord(c: string)
    requires |c| >= 10
    ensures StrCaseEq(c, "INPUTVOLTAGE") ==> NumericKeyword(c) == SetNumber(InputVoltage)
    ensures StrCaseEq(c, "OUTPUTVOLTAGE") ==> NumericKeyword(c) == SetNumber(OutputVoltage)
    ensures StrCaseEq(c, "STARTDELAY") ==> NumericKeyword(c) == SetNumber(StartDelay)
  {
    Shorter(c, "BATTERY");
    Shorter(c, "LOAD");
    Shorter(c, "VOLTAGE");
    Shorter(c, "RUNTIME");
    if StrCaseEq(c, "STARTDELAY") {
      SameLength(c, "STARTDELAY");
      Shorter(c, "INPUTVOLTAGE");
      Shorter(c, "OUTPUTVOLTAGE");
    }
    if StrCaseEq(c, "OUTPUTVOLTAGE") {
      SameLength(c, "OUTPUTVOLTAGE");
      Shorter(c, "INPUTVOLTAGE");
    }
  }

  lemma InputVoltageWord(c: string)
    requires c == "INPUTVOLTAGE"
    ensures KeywordOf(c) == SetNumber(InputVoltage)
  {
    FoldSelf(c);
    LongNumberWord(c);
    LongGuardedWord(c);
    LongWord(c);
  }

  lemma OutputVoltageWord(c: string)
    requires c == "OUTPUTVOLTAGE"
    ensures KeywordOf(c) == SetNumber(OutputVoltage)
  {
    FoldSelf(c);
    LongNumberWord(c);
    LongGuardedWord(c);
    LongWord(c);
  }

  lemma {:induction false} FoldSelf(c: string)
    ensures StrCaseEq(c, c)
  {
    if c != "" { FoldSelf(c[1..]); }
  }

  lemma AcWord()
    ensures KeywordOf("AC") == SetFlag(Ac)
  {}

  lemma OverloadWord()
    ensures KeywordOf("OVERLOAD") == SetFlag(Overload)
  {}

  lemma ReplaceWord()
    ensures KeywordOf("REPLACE") == SetFlag(Replace)
  {}

  lemma CommLostWord()
    ensures KeywordOf("COMMLOST") == SetFlag(CommLost)
  {}

  lemma ShutdownWord()
    ensures KeywordOf("SHUTDOWN") == SetFlag(Shutdown)
  {}

  lemma ChargingWord()
    ensures KeywordOf("CHARGING") == Charging
  {}

  lemma LowBatWord()
    ensures KeywordOf("LOWBAT") == LowBat
  {}

  lemma BatteryWord()
    ensures KeywordOf("BATTERY") == SetNumber(Battery)
  {}

  lemma LoadWord()
    ensures KeywordOf("LOAD") == SetNumber(Load)
  {}

  lemma VoltageWord()
    ensures KeywordOf("VOLTAGE") == SetNumber(Voltage)
  {}

  lemma RuntimeWord()
    ensures KeywordOf("RUNTIME") == Runtime
  {}

  lemma StartDelayWord(c: string)
    requires c == "STARTDELAY"
    ensures KeywordOf(c) == SetNumber(StartDelay)
  {
    FoldSelf(c);
    LongNumberWord(c);
    LongGuardedWord(c);
    LongWord(c);
  }

  lemma ArmWord()
    ensures KeywordOf("ARM") == Arm
  {}

  lemma ResetWord()
    ensures KeywordOf("RESET") == Reset
  {}

  lemma StatusWord()
    ensures KeywordOf("STATUS?") == Status
  {}
}
