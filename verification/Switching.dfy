/** What arms and what disarms: which lines do, by their words, and that nothing else
    does but a lease check that finds the lease expired. */
module Switching {
  import opened Ascii
  import opened Decimal
  import opened Words
  import opened Control
  import opened System
  import opened CommandWords
  import Lease

  // ---------------------------------------------------------------- words

  function WordsOf(text: string): (r: seq<string>) { Split(CString(text), DELIMS) }

  predicate OnWord(t: string) { StrCaseEq(t, "ON") || t == "1" || StrCaseEq(t, "TRUE") }

  predicate OffWord(t: string) { StrCaseEq(t, "OFF") || t == "0" || StrCaseEq(t, "FALSE") }

  /** A number of seconds the device grants. */
  ghost predicate LeaseWord(t: string) { exists v :: 0 <= v <= MAX_LEASE_SEC && Accepted(t, 0, MAX_LEASE_SEC, v) }

  /** ARM with a word for on, and no lease or one in range. */
  ghost predicate ArmingLine(text: string) {
    var w := WordsOf(text);
    |w| >= 2 && StrCaseEq(w[0], "ARM") && OnWord(w[1]) && (|w| >= 3 ==> LeaseWord(w[2]))
  }

  /** RESET, or ARM with a word for off. */
  predicate DisarmingLine(text: string) {
    var w := WordsOf(text);
    w != [] && (StrCaseEq(w[0], "RESET") || (|w| >= 2 && StrCaseEq(w[0], "ARM") && OffWord(w[1])))
  }

  lemma OnIsOn(t: string)
    ensures OnWord(t) <==> ReadOnOff(Some(t)) == Some(true)
  {}

  lemma OnIsNotOff(t: string)
    requires OffWord(t)
    ensures !OnWord(t)
  {
    if StrCaseEq(t, "OFF") { SameLength(t, "OFF"); }
    if StrCaseEq(t, "FALSE") { SameLength(t, "FALSE"); }
    if StrCaseEq(t, "ON") { SameLength(t, "ON"); }
    if StrCaseEq(t, "TRUE") { SameLength(t, "TRUE"); }
  }

  lemma OffIsOff(t: string)
    ensures OffWord(t) <==> ReadOnOff(Some(t)) == Some(false)
  {
    if OffWord(t) { OnIsNotOff(t); }
  }

  lemma ArmKeyword(c: string)
    ensures KeywordOf(c) == Arm <==> StrCaseEq(c, "ARM")
  {
    if StrCaseEq(c, "ARM") {
      SameLength(c, "ARM");
      Shorter(c, "PING");
      Shorter(c, "IDENT?");
      Shorter(c, "HELP");
      Shorter(c, "STATUS?");
      Shorter(c, "STATUS");
      Shorter(c, "NETWORK?");
    }
  }

  lemma ResetKeyword(c: string)
    ensures KeywordOf(c) == Reset <==> StrCaseEq(c, "RESET")
  {
    if StrCaseEq(c, "RESET") {
      SameLength(c, "RESET");
      Shorter(c, "PING");
      Shorter(c, "IDENT?");
      Shorter(c, "HELP");
      Shorter(c, "STATUS?");
      Shorter(c, "STATUS");
      Shorter(c, "NETWORK?");
      Shorter(c, "ARM");
    }
  }

  lemma LeaseIsRead(t: string)
    ensures LeaseWord(t) <==> ReadSigned(Some(t), 0, MAX_LEASE_SEC).Some?
  {
    var r := ReadSigned(Some(t), 0, MAX_LEASE_SEC);
    if r.Some? { assert Accepted(t, 0, MAX_LEASE_SEC, r.value); }
  }

  // ---------------------------------------------------------------- lines

  lemma ArmSwitches(s: State, arg: Option<string>, arg2: Option<string>, env: Env)
    ensures DoArm(s, arg, arg2, env).s.sim.armed <==>
            if arg.Some? && OnWord(arg.value) && (arg2.Some? ==> LeaseWord(arg2.value)) then true
            else s.sim.armed && !(arg.Some? && OffWord(arg.value))
  {
    if arg.Some? {
      OnIsOn(arg.value);
      OffIsOff(arg.value);
    }
    if arg2.Some? { LeaseIsRead(arg2.value); }
    Lease.RestoreLease(s, env);
  }

  lemma OthersSwitchNothing(s: State, k: Keyword, arg: Option<string>, arg2: Option<string>, env: Env)
    requires !k.Arm? && !k.Reset?
    ensures Perform(s, k, arg, arg2, env).s.sim.armed == s.sim.armed
  {
    if IsQueryKind(k) {
      Lease.QueryLease(s, k);
    } else if k.Report? {
      Lease.CommitSame(s, env);
    } else {
      Lease.GuardedSame(s, k, arg, env);
    }
  }

  lemma WordsSwitch(s: State, w: seq<string>, env: Env)
    requires w != []
    ensures Perform(s, KeywordOf(w[0]), Token(w, 1), Token(w, 2), env).s.sim.armed <==>
            if |w| >= 2 && StrCaseEq(w[0], "ARM") && OnWord(w[1]) && (|w| >= 3 ==> LeaseWord(w[2])) then true
            else s.sim.armed && !StrCaseEq(w[0], "RESET") && !(|w| >= 2 && StrCaseEq(w[0], "ARM") && OffWord(w[1]))
  {
    ArmKeyword(w[0]);
    ResetKeyword(w[0]);
    if KeywordOf(w[0]).Arm? {
      ArmSwitches(s, Token(w, 1), Token(w, 2), env);
    } else if KeywordOf(w[0]).Reset? {
      Lease.RestoreLease(s, env);
    } else {
      OthersSwitchNothing(s, KeywordOf(w[0]), Token(w, 1), Token(w, 2), env);
    }
  }

  /** A line arms exactly if it is an arming line; it disarms an armed device exactly
      if it is a disarming one. */
  lemma LineSwitches(s: State, text: string, env: Env)
    ensures Execute(s, text, env).s.sim.armed <==> ArmingLine(text) || (s.sim.armed && !DisarmingLine(text))
  {
    var w := WordsOf(text);
    if w != [] {
      WordsSwitch(Touch(s, env), w, env);
    }
  }

  // ---------------------------------------------------------------- events

  /** A check finds the lease expired. */
  predicate Expires(s: State, env: Env) {
    s.armLeaseMs != 0 && U32(U32(s.now + env.beforeTouch) - s.lastCommandMs) >= s.armLeaseMs
  }

  /** In unbounded time: at the lease after the last refresh, or later. */
  lemma ExpiresInTime(s: State, env: Env)
    requires Lease.LeaseInv(s) && Lease.GapOk(s, env) && s.sim.armed
    ensures Expires(s, env) <==> s.armLeaseMs != 0 && s.now + env.beforeTouch >= s.lastCommandAt + s.armLeaseMs
  {
    if s.armLeaseMs != 0 { Lease.CheckIsExact(s, env); }
  }

  /** The event is a line that arms. */
  ghost predicate ArmsBy(e: Event) { e.Ran? && ArmingLine(e.text) }

  /** The event is a line that disarms, or a check that finds the lease expired. */
  predicate DisarmsBy(s: State, e: Event) {
    (e.Ran? && DisarmingLine(e.text)) || (e.Checked? && Expires(s, e.env))
  }

  /** Whatever happens, these two decide whether the device is armed afterwards. */
  lemma SwitchesExactly(s: State, e: Event)
    ensures React(s, e).sim.armed <==> ArmsBy(e) || (s.sim.armed && !DisarmsBy(s, e))
  {
    match e
    case Checked(env) =>
      var t := s.now + env.beforeTouch;
      Lease.CommitSame(SafeState(s.(now := t, checkedAt := t)), env);
    case Ran(_, text, env) => LineSwitches(s, text, env);
    case _ => Lease.QuietReact(s, e);
  }

  /** The last event that switched arming, if there was one, armed; and if there was
      none, the device was armed before. */
  ghost predicate LeftArmed(s: State, events: seq<Event>) {
    if events == [] then s.sim.armed
    else
      var init, last := events[..|events| - 1], events[|events| - 1];
      ArmsBy(last) || (!DisarmsBy(Replay(s, init), last) && LeftArmed(s, init))
  }

  lemma {:induction false} LeftArmedExactly(s: State, events: seq<Event>)
    ensures Replay(s, events).sim.armed <==> LeftArmed(s, events)
  {
    if events == [] {
    } else {
      LeftArmedExactly(s, events[..|events| - 1]);
      SwitchesExactly(Replay(s, events[..|events| - 1]), events[|events| - 1]);
    }
  }
}
