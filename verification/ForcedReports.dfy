/** What is sent to the host and when: which commands, checks and loops attempt a batch
    of reports, and what such an attempt leaves behind. */
module ForcedReports {
  import opened Ascii
  import opened Words
  import opened Control
  import opened System
  import opened Switching
  import Safety

  // ---------------------------------------------------------------- an attempt

  /** The endpoint takes a report of `size` bytes: there is room for it, and both sends
      succeed. */
  predicate Takes(usb: seq<SendOutcome>, j: nat, size: nat) {
    j < |usb| && usb[j].space >= size && usb[j].idOk && usb[j].dataOk
  }

  /** What a refused report leaves behind: nothing if there is no room or the id byte
      fails, and otherwise the id byte and what the failing send had passed on. */
  function Residue(usb: seq<SendOutcome>, j: nat, report: seq<byte>): (r: seq<byte>) {
    if j >= |usb| || usb[j].space < |report| || !usb[j].idOk then []
    else if 1 + usb[j].partial <= |report| then report[..1 + usb[j].partial]
    else report
  }

  /** A batch of which the endpoint takes the first `k` reports and no more. */
  ghost predicate Stopped(reports: seq<seq<byte>>, usb: seq<SendOutcome>, b: Batch, k: nat) {
    && k <= |reports|
    && (forall j :: 0 <= j < k ==> Takes(usb, j, |reports[j]|))
    && (b.complete <==> k == |reports|)
    && (k == |reports| ==> b.bytes == Flatten(reports))
    && (k < |reports| ==> !Takes(usb, k, |reports[k]|)
                          && b.bytes == Flatten(reports[..k]) + Residue(usb, k, reports[k]))
  }

  /** Exactly one batch more was attempted, with the reports of the state afterwards;
      the snapshot and its time move exactly if all of it was taken. */
  ghost predicate Attempted(s: State, t: State, usb: seq<SendOutcome>) {
    && |t.tx| == |s.tx| + 1 && t.tx[..|s.tx|] == s.tx
    && (exists k :: Stopped(Reports(t), usb, t.tx[|s.tx|], k))
    && t.snap == if t.tx[|s.tx|].complete then Snapshot(t.status, t.m.remaining, t.m.runtime, U32(t.now)) else s.snap
  }

  ghost predicate Untouched(s: State, t: State) { t.tx == s.tx && t.snap == s.snap }

  lemma OneAnswer(usb: seq<SendOutcome>, j: nat, report: seq<byte>)
    requires report != []
    ensures Accepts(Answer(usb, j), report) <==> Takes(usb, j, |report|)
    ensures !Takes(usb, j, |report|) ==> Queued(Answer(usb, j), report) == Residue(usb, j, report)
  {}

  lemma FlattenNext(reports: seq<seq<byte>>, i: nat, k: nat)
    requires i < k <= |reports|
    ensures Flatten(reports[i..k]) == reports[i] + Flatten(reports[i + 1..k])
  {
    assert reports[i..k][1..] == reports[i + 1..k];
  }

  /** From report `i` on: `k` is where it stops. */
  ghost predicate StoppedFrom(reports: seq<seq<byte>>, usb: seq<SendOutcome>, b: Batch, i: nat, k: nat) {
    && i <= k <= |reports|
    && (forall j :: i <= j < k ==> Takes(usb, j, |reports[j]|))
    && (b.complete <==> k == |reports|)
    && (k < |reports| ==> !Takes(usb, k, |reports[k]|))
    && b.bytes == Flatten(reports[i..k]) + if k < |reports| then Residue(usb, k, reports[k]) else []
  }

  lemma OneMoreTaken(reports: seq<seq<byte>>, usb: seq<SendOutcome>, rest: Batch, i: nat, k: nat)
    requires i < |reports| && Takes(usb, i, |reports[i]|) && StoppedFrom(reports, usb, rest, i + 1, k)
    ensures StoppedFrom(reports, usb, Batch(reports[i] + rest.bytes, rest.complete), i, k)
  {
    FlattenNext(reports, i, k);
    Assoc(reports[i], Flatten(reports[i + 1..k]), if k < |reports| then Residue(usb, k, reports[k]) else []);
  }

  lemma {:induction false} SendStops(reports: seq<seq<byte>>, usb: seq<SendOutcome>, i: nat) returns (k: nat)
    requires i <= |reports| && forall j :: 0 <= j < |reports| ==> reports[j] != []
    ensures StoppedFrom(reports, usb, SendFrom(reports, usb, i), i, k)
    decreases |reports| - i
  {
    if i == |reports| {
      k := i;
      assert reports[i..k] == [];
    } else {
      OneAnswer(usb, i, reports[i]);
      if Takes(usb, i, |reports[i]|) {
        k := SendStops(reports, usb, i + 1);
        OneMoreTaken(reports, usb, SendFrom(reports, usb, i + 1), i, k);
      } else {
        k := i;
        assert reports[i..i] == [];
        NothingBefore(Residue(usb, i, reports[i]));
      }
    }
  }

  lemma FromTheStart(reports: seq<seq<byte>>, usb: seq<SendOutcome>, b: Batch, k: nat)
    requires StoppedFrom(reports, usb, b, 0, k)
    ensures Stopped(reports, usb, b, k)
  {
    assert reports[0..k] == reports[..k];
    if k == |reports| {
      assert reports[..k] == reports;
      assert Flatten(reports) + [] == Flatten(reports);
    }
  }

  lemma ReportsHold(s: State)
    ensures forall j :: 0 <= j < 7 ==> Reports(s)[j] != []
  {}

  /** `sendUsbReports` attempts a batch exactly if it is forced, or something of the
      triple differs from the snapshot, or five seconds have passed since the last full
      batch. */
  lemma SendAttempts(s: State, force: bool, env: Env)
    ensures var t := SendReports(s, force, env);
            if force || s.status != s.snap.status || s.m.remaining != s.snap.remaining || s.m.runtime != s.snap.runtime
               || U32(U32(s.now + env.beforeReport) - s.snap.lastReportMs) >= 5000
            then Attempted(s, t, env.usb) else Untouched(s, t)
  {
    var t := SendReports(s, force, env);
    ReportsHold(s);
    var k := SendStops(Reports(s), env.usb, 0);
    FromTheStart(Reports(s), env.usb, SendFrom(Reports(s), env.usb, 0), k);
    assert Reports(t) == Reports(s);
  }

  lemma CommitAttempts(s: State, before: State, env: Env)
    requires before.tx == s.tx && before.snap == s.snap
    ensures Attempted(before, Commit(s, env), env.usb)
  {
    SendAttempts(Update(s), true, env);
  }

  // ---------------------------------------------------------------- words

  predicate SwitchWord(u: string) {
    u == "AC" || u == "OVERLOAD" || u == "REPLACE" || u == "COMMLOST" || u == "SHUTDOWN" || u == "CHARGING" || u == "LOWBAT"
  }

  predicate NumberWord(u: string) {
    u == "BATTERY" || u == "LOAD" || u == "VOLTAGE" || u == "INPUTVOLTAGE" || u == "OUTPUTVOLTAGE"
    || u == "RUNTIME" || u == "STARTDELAY"
  }

  predicate SetterWord(u: string) { SwitchWord(u) || NumberWord(u) }

  predicate Assigns(k: Keyword) { k.SetFlag? || k.Charging? || k.LowBat? || k.SetNumber? || k.Runtime? }

  predicate NumberFolds(c: string, u: string) {
    && (StrCaseEq(c, "BATTERY") <==> u == "BATTERY") && (StrCaseEq(c, "LOAD") <==> u == "LOAD")
    && (StrCaseEq(c, "VOLTAGE") <==> u == "VOLTAGE") && (StrCaseEq(c, "INPUTVOLTAGE") <==> u == "INPUTVOLTAGE")
    && (StrCaseEq(c, "OUTPUTVOLTAGE") <==> u == "OUTPUTVOLTAGE") && (StrCaseEq(c, "RUNTIME") <==> u == "RUNTIME")
    && (StrCaseEq(c, "STARTDELAY") <==> u == "STARTDELAY")
  }

  lemma NumberFold(c: string)
    ensures NumberFolds(c, UpperAll(c))
  {
    FoldAgrees(c, "BATTERY");
    FoldAgrees(c, "LOAD");
    FoldAgrees(c, "VOLTAGE");
    FoldAgrees(c, "INPUTVOLTAGE");
    FoldAgrees(c, "OUTPUTVOLTAGE");
    FoldAgrees(c, "RUNTIME");
    FoldAgrees(c, "STARTDELAY");
  }

  lemma NumberWordIs(c: string, u: string)
    requires NumberFolds(c, u)
    ensures Assigns(NumericKeyword(c)) <==> NumberWord(u)
  {}

  lemma NumericWord(c: string)
    ensures Assigns(NumericKeyword(c)) <==> NumberWord(UpperAll(c))
  {
    NumberFold(c);
    NumberWordIs(c, UpperAll(c));
  }

  /** The comparisons of the switch words, folded up. */
  predicate SwitchFolds(c: string, u: string) {
    && (StrCaseEq(c, "AC") <==> u == "AC") && (StrCaseEq(c, "OVERLOAD") <==> u == "OVERLOAD")
    && (StrCaseEq(c, "REPLACE") <==> u == "REPLACE") && (StrCaseEq(c, "COMMLOST") <==> u == "COMMLOST")
    && (StrCaseEq(c, "SHUTDOWN") <==> u == "SHUTDOWN") && (StrCaseEq(c, "CHARGING") <==> u == "CHARGING")
    && (StrCaseEq(c, "LOWBAT") <==> u == "LOWBAT")
  }

  lemma SwitchFold(c: string)
    ensures SwitchFolds(c, UpperAll(c))
  {
    FoldAgrees(c, "AC");
    FoldAgrees(c, "OVERLOAD");
    FoldAgrees(c, "REPLACE");
    FoldAgrees(c, "COMMLOST");
    FoldAgrees(c, "SHUTDOWN");
    FoldAgrees(c, "CHARGING");
    FoldAgrees(c, "LOWBAT");
  }

  lemma SwitchWordIs(c: string, u: string)
    requires SwitchFolds(c, u)
    ensures SwitchWord(u) ==> Assigns(GuardedKeyword(c))
    ensures !SwitchWord(u) ==> GuardedKeyword(c) == NumericKeyword(c)
  {}

  lemma GuardedWord(c: string)
    ensures Assigns(GuardedKeyword(c)) <==> SetterWord(UpperAll(c))
  {
    SwitchFold(c);
    SwitchWordIs(c, UpperAll(c));
    if !SwitchWord(UpperAll(c)) { NumericWord(c); }
  }

  predicate EarlierWord(u: string) {
    u == "PING" || u == "IDENT?" || u == "HELP" || u == "?" || u == "STATUS?" || u == "STATUS" || u == "NETWORK?"
    || u == "ARM" || u == "RESET" || u == "REPORT"
  }

  lemma EarlierWords(u: string)
    requires EarlierWord(u)
    ensures !SetterWord(u)
  {}

  lemma QuestionMark(c: string)
    ensures c == "?" ==> UpperAll(c) == "?"
  {
    if c == "?" { assert c[1..] == ""; }
  }

  predicate EarlierFolds(c: string, u: string) {
    && (StrCaseEq(c, "PING") <==> u == "PING") && (StrCaseEq(c, "IDENT?") <==> u == "IDENT?")
    && (StrCaseEq(c, "HELP") <==> u == "HELP") && (c == "?" ==> u == "?")
    && (StrCaseEq(c, "STATUS?") <==> u == "STATUS?") && (StrCaseEq(c, "STATUS") <==> u == "STATUS")
    && (StrCaseEq(c, "NETWORK?") <==> u == "NETWORK?") && (StrCaseEq(c, "ARM") <==> u == "ARM")
    && (StrCaseEq(c, "RESET") <==> u == "RESET") && (StrCaseEq(c, "REPORT") <==> u == "REPORT")
  }

  lemma EarlierFold(c: string)
    ensures EarlierFolds(c, UpperAll(c))
  {
    QuestionMark(c);
    FoldAgrees(c, "PING");
    FoldAgrees(c, "IDENT?");
    FoldAgrees(c, "HELP");
    FoldAgrees(c, "STATUS?");
    FoldAgrees(c, "STATUS");
    FoldAgrees(c, "NETWORK?");
    FoldAgrees(c, "ARM");
    FoldAgrees(c, "RESET");
    FoldAgrees(c, "REPORT");
  }

  lemma EarlierKeyword(c: string, u: string)
    requires EarlierFolds(c, u)
    ensures KeywordOf(c) == GuardedKeyword(c) || EarlierWord(u)
  {}

  lemma LaterKeyword(c: string)
    requires KeywordOf(c) != GuardedKeyword(c)
    ensures !Assigns(KeywordOf(c))
  {}

  lemma SetterKeyword(c: string)
    ensures Assigns(KeywordOf(c)) <==> SetterWord(UpperAll(c))
  {
    GuardedWord(c);
    EarlierFold(c);
    EarlierKeyword(c, UpperAll(c));
    if KeywordOf(c) != GuardedKeyword(c) {
      LaterKeyword(c);
      EarlierWords(UpperAll(c));
    }
  }

  lemma ReportWordIs(c: string, u: string)
    requires EarlierFolds(c, u)
    ensures KeywordOf(c) == Report <==> u == "REPORT"
  {}

  lemma ReportKeyword(c: string)
    ensures KeywordOf(c) == Report <==> UpperAll(c) == "REPORT"
  {
    EarlierFold(c);
    ReportWordIs(c, UpperAll(c));
  }

  // ---------------------------------------------------------------- commands

  /** The line forces a batch: REPORT, RESET, ARM with a word for off, or a setter that
      is answered `OK`. */
  ghost predicate Forces(s: State, text: string, env: Env) {
    var w := WordsOf(text);
    w != [] && (UpperAll(w[0]) == "REPORT" || DisarmingLine(text)
                || (SetterWord(UpperAll(w[0])) && Execute(s, text, env).reply == Some("OK")))
  }

  lemma GuardedAttempts(s: State, before: State, k: Keyword, arg: Option<string>, env: Env)
    requires Assigns(k) && before.tx == s.tx && before.snap == s.snap
    ensures var r := Guarded(s, k, arg, env);
            if r.reply == Some("OK") then Attempted(before, r.s, env.usb) else Untouched(before, r.s)
  {
    if s.sim.armed {
      match k
      case SetFlag(f) => FlagAttempts(s, before, f, arg, env);
      case Charging => ModeAttempts(s, before, true, arg, env);
      case LowBat => ModeAttempts(s, before, false, arg, env);
      case SetNumber(n) => NumberAttempts(s, before, n, arg, env);
      case Runtime => RuntimeAttempts(s, before, arg, env);
    }
  }

  lemma FlagAttempts(s: State, before: State, flag: Control.Flag, arg: Option<string>, env: Env)
    requires before.tx == s.tx && before.snap == s.snap
    ensures var r := DoFlag(s, flag, arg, env);
            if r.reply == Some("OK") then Attempted(before, r.s, env.usb) else Untouched(before, r.s)
  {
    var v := ReadOnOff(arg);
    if v.Some? { CommitAttempts(s.(sim := WithFlag(s.sim, flag, v.value)), before, env); }
  }

  lemma ModeAttempts(s: State, before: State, charging: bool, arg: Option<string>, env: Env)
    requires before.tx == s.tx && before.snap == s.snap
    ensures var r := DoMode(s, charging, arg, env);
            if r.reply == Some("OK") then Attempted(before, r.s, env.usb) else Untouched(before, r.s)
  {
    var v := ReadOverride(arg);
    if v.Some? {
      if charging {
        CommitAttempts(s.(sim := s.sim.(charging := v.value)), before, env);
      } else {
        CommitAttempts(s.(sim := s.sim.(lowBattery := v.value)), before, env);
      }
    }
  }

  lemma NumberAttempts(s: State, before: State, n: Number, arg: Option<string>, env: Env)
    requires before.tx == s.tx && before.snap == s.snap
    ensures var r := DoNumber(s, n, arg, env);
            if r.reply == Some("OK") then Attempted(before, r.s, env.usb) else Untouched(before, r.s)
  {
    var v := Decimal.ReadSigned(arg, Lowest(n), Highest(n));
    if v.Some? { CommitAttempts(WithNumber(s, n, v.value), before, env); }
  }

  lemma RuntimeAttempts(s: State, before: State, arg: Option<string>, env: Env)
    requires before.tx == s.tx && before.snap == s.snap
    ensures var r := DoRuntime(s, arg, env);
            if r.reply == Some("OK") then Attempted(before, r.s, env.usb) else Untouched(before, r.s)
  {
    var v := Decimal.ReadSigned(arg, 0, 65535);
    CommitAttempts(s.(sim := s.sim.(runtimeAuto := true)), before, env);
    if v.Some? {
      CommitAttempts(s.(sim := s.sim.(runtimeAuto := false), m := s.m.(runtime := v.value)), before, env);
    }
  }

  /** A command by its keyword. */
  ghost predicate KeywordForces(k: Keyword, arg: Option<string>, reply: Option<string>) {
    k.Report? || k.Reset? || (k.Arm? && arg.Some? && OffWord(arg.value)) || (Assigns(k) && reply == Some("OK"))
  }

  lemma ArmAttempts(s: State, before: State, arg: Option<string>, arg2: Option<string>, env: Env)
    requires before.tx == s.tx && before.snap == s.snap
    ensures var r := DoArm(s, arg, arg2, env);
            if arg.Some? && OffWord(arg.value) then Attempted(before, r.s, env.usb) else Untouched(before, r.s)
  {
    if arg.Some? { OffIsOff(arg.value); }
    CommitAttempts(SafeState(s), before, env);
  }

  lemma AssignsIsGuarded(s: State, k: Keyword, arg: Option<string>, arg2: Option<string>, env: Env)
    requires Assigns(k)
    ensures Perform(s, k, arg, arg2, env) == Guarded(s, k, arg, env)
  {}

  lemma PerformAttempts(s: State, before: State, k: Keyword, arg: Option<string>, arg2: Option<string>, env: Env)
    requires before.tx == s.tx && before.snap == s.snap
    ensures var r := Perform(s, k, arg, arg2, env);
            if KeywordForces(k, arg, r.reply) then Attempted(before, r.s, env.usb) else Untouched(before, r.s)
  {
    if Assigns(k) {
      GuardedAttempts(s, before, k, arg, env);
      AssignsIsGuarded(s, k, arg, arg2, env);
    } else if k.Arm? {
      ArmAttempts(s, before, arg, arg2, env);
    } else if k.Reset? {
      CommitAttempts(SafeState(s), before, env);
    } else if k.Report? {
      CommitAttempts(s, before, env);
    }
  }

  lemma WordsForce(w: seq<string>, reply: Option<string>)
    requires w != []
    ensures KeywordForces(KeywordOf(w[0]), Token(w, 1), reply) <==>
            UpperAll(w[0]) == "REPORT" || StrCaseEq(w[0], "RESET")
            || (|w| >= 2 && StrCaseEq(w[0], "ARM") && OffWord(w[1]))
            || (SetterWord(UpperAll(w[0])) && reply == Some("OK"))
  {
    ArmKeyword(w[0]);
    ResetKeyword(w[0]);
    ReportKeyword(w[0]);
    SetterKeyword(w[0]);
  }

  lemma RunsWords(s: State, text: string, w: seq<string>, env: Env)
    requires w == WordsOf(text) && w != []
    ensures Execute(s, text, env) == Perform(Touch(s, env), KeywordOf(w[0]), Token(w, 1), Token(w, 2), env)
  {}

  /** Every line in every state: those lines attempt one batch with the new values, and
      every other line sends nothing. */
  lemma LineForcesExactly(s: State, text: string, env: Env)
    ensures var t := Execute(s, text, env).s;
            if Forces(s, text, env) then Attempted(s, t, env.usb) else Untouched(s, t)
  {
    var w := WordsOf(text);
    if w != [] {
      RunsWords(s, text, w, env);
      var r := Perform(Touch(s, env), KeywordOf(w[0]), Token(w, 1), Token(w, 2), env);
      WordsForce(w, r.reply);
      PerformAttempts(Touch(s, env), s, KeywordOf(w[0]), Token(w, 1), Token(w, 2), env);
    }
  }

  // ---------------------------------------------------------------- events

  /** What makes an event attempt a batch. */
  ghost predicate EventForces(s: State, e: Event) {
    match e
    case Ran(_, text, env) => Forces(s, text, env)
    case Checked(env) => s.sim.armed && Expires(s, env)
    case Published(env) => PublishForces(Update(s), env)
    case _ => false
  }

  /** At the end of a loop: the status, the battery level or the run time differs from
      the last full batch, or that is five seconds old. */
  predicate PublishForces(u: State, env: Env) {
    u.status != u.snap.status || u.m.remaining != u.snap.remaining || u.m.runtime != u.snap.runtime
    || U32(U32(u.now + env.beforeReport) - u.snap.lastReportMs) >= 5000
  }

  function AnswersOf(e: Event): (usb: seq<SendOutcome>) {
    match e
    case Ran(_, _, env) => env.usb
    case Checked(env) => env.usb
    case Published(env) => env.usb
    case _ => []
  }

  lemma CheckForces(s: State, env: Env)
    ensures if s.sim.armed && Expires(s, env) then Attempted(s, Check(s, env), env.usb) else Untouched(s, Check(s, env))
  {
    var t := s.now + env.beforeTouch;
    CommitAttempts(SafeState(s.(now := t, checkedAt := t)), s, env);
  }

  lemma PublishAttemptsExactly(s: State, env: Env)
    ensures if PublishForces(Update(s), env) then Attempted(s, Publish(s, env), env.usb) else Untouched(s, Publish(s, env))
  {
    SendAttempts(Update(s), false, env);
  }

  /** Over any event: exactly those send, one batch each. */
  lemma EventForcesExactly(s: State, e: Event)
    ensures var t := React(s, e);
            if EventForces(s, e) then Attempted(s, t, AnswersOf(e)) else Untouched(s, t)
  {
    match e
    case Ran(_, text, env) => LineForcesExactly(s, text, env);
    case Checked(env) => CheckForces(s, env);
    case Published(env) => PublishAttemptsExactly(s, env);
    case HostSet(w) => Safety.HostWriteKeepsOthers(s, w);
    case Overrun(_) =>
  }

  /** And `setup` attempts the first one. */
  lemma SetupForces(net: Network, env: Env)
    ensures Attempted(PowerOn(net), Setup(net, env), env.usb)
  {
    CommitAttempts(SafeState(PowerOn(net)), PowerOn(net), env);
  }
}
