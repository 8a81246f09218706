/** The arming lease on the wrapping 32-bit clock. */
module Lease {
  import opened Ascii
  import opened Words
  import opened Control
  import opened System
  import Safety

  const MAX_LEASE_MS: int := 3_600_000

  /** The longest time between two lease checks for which the 32-bit difference
      is still the elapsed time. */
  const MAX_GAP: int := 0x1_0000_0000 - 3_600_000

  ghost predicate LeaseInv(s: State) {
    && s.lastCommandAt <= s.now && s.checkedAt <= s.now
    && s.armLeaseMs <= MAX_LEASE_MS
    && s.lastCommandMs == U32(s.lastCommandAt)
    && (s.sim.armed && s.armLeaseMs != 0 ==>
          s.checkedAt <= s.lastCommandAt || s.checkedAt - s.lastCommandAt < s.armLeaseMs)
  }

  function CheckTime(s: State, env: Env): (r: nat) { s.now + env.beforeTouch }

  ghost predicate GapOk(s: State, env: Env) { CheckTime(s, env) - s.checkedAt <= MAX_GAP }

  lemma WrapAround(x: nat, y: nat)
    requires y <= x < y + TWO32
    ensures U32(U32(x) - U32(y)) == x - y
  {
    var d := x - y;
    assert (x % TWO32 - y % TWO32 - d) % TWO32 == 0;
  }

  /** At every check the 32-bit difference is the true elapsed time, so a
      non-zero lease fires exactly when it has expired. */
  lemma CheckIsExact(s: State, env: Env)
    requires LeaseInv(s) && GapOk(s, env) && s.sim.armed && s.armLeaseMs != 0
    ensures U32(U32(CheckTime(s, env)) - s.lastCommandMs) == CheckTime(s, env) - s.lastCommandAt
    ensures Check(s, env).sim.armed <==> CheckTime(s, env) < s.lastCommandAt + s.armLeaseMs
    ensures !Check(s, env).sim.armed ==> Check(s, env).sim == SAFE_SIM
  {
    WrapAround(CheckTime(s, env), s.lastCommandAt);
    Safety.SendKeeps(Update(SafeState(s.(now := CheckTime(s, env), checkedAt := CheckTime(s, env)))), true, env);
  }

  /** The bound on the gap cannot be raised by even one millisecond: one longer
      gap hides an expired lease behind a wrapped clock. */
  lemma GapBoundIsTight(s: State, env: Env)
    requires s.sim.armed && s.armLeaseMs == MAX_LEASE_MS && s.lastCommandMs == U32(s.lastCommandAt)
    requires s.checkedAt == s.now == s.lastCommandAt + MAX_LEASE_MS - 1
    requires CheckTime(s, env) - s.checkedAt == MAX_GAP + 1
    ensures LeaseInv(s) && CheckTime(s, env) > s.lastCommandAt + s.armLeaseMs
    ensures Check(s, env).sim.armed
  {
    assert CheckTime(s, env) == s.lastCommandAt + TWO32;
    assert U32(CheckTime(s, env)) == U32(s.lastCommandAt);
  }

  // ---------------------------------------------------------------- steps

  ghost predicate SameLease(s: State, t: State) {
    && t.sim.armed == s.sim.armed && t.armLeaseMs == s.armLeaseMs
    && t.lastCommandMs == s.lastCommandMs && t.lastCommandAt == s.lastCommandAt
    && t.checkedAt == s.checkedAt && t.now >= s.now
  }

  lemma CommitSame(s: State, env: Env)
    ensures SameLease(s, Commit(s, env))
  {
    Safety.SendKeeps(Update(s), true, env);
  }

  lemma FlagSame(s: State, flag: Flag, arg: Option<string>, env: Env)
    ensures SameLease(s, DoFlag(s, flag, arg, env).s)
  {
    var v := ReadOnOff(arg);
    if v.Some? { CommitSame(s.(sim := WithFlag(s.sim, flag, v.value)), env); }
  }

  lemma NumberSame(s: State, n: Number, arg: Option<string>, env: Env)
    ensures SameLease(s, DoNumber(s, n, arg, env).s)
  {
    var v := Decimal.ReadSigned(arg, Lowest(n), Highest(n));
    if v.Some? { CommitSame(WithNumber(s, n, v.value), env); }
  }

  lemma GuardedSame(s: State, k: Keyword, arg: Option<string>, env: Env)
    ensures SameLease(s, Guarded(s, k, arg, env).s)
  {
    if s.sim.armed {
      match k
      case SetFlag(f) => FlagSame(s, f, arg, env);
      case Charging => ModeSame(s, true, arg, env);
      case LowBat => ModeSame(s, false, arg, env);
      case SetNumber(n) => NumberSame(s, n, arg, env);
      case Runtime => RuntimeSame(s, arg, env);
      case _ =>
    }
  }

  lemma ModeSame(s: State, charging: bool, arg: Option<string>, env: Env)
    ensures SameLease(s, DoMode(s, charging, arg, env).s)
  {
    var v := ReadOverride(arg);
    if v.Some? {
      if charging {
        CommitSame(s.(sim := s.sim.(charging := v.value)), env);
      } else {
        CommitSame(s.(sim := s.sim.(lowBattery := v.value)), env);
      }
    }
  }

  lemma RuntimeSame(s: State, arg: Option<string>, env: Env)
    ensures SameLease(s, DoRuntime(s, arg, env).s)
  {
    var v := Decimal.ReadSigned(arg, 0, 65535);
    CommitSame(s.(sim := s.sim.(runtimeAuto := true)), env);
    if v.Some? {
      CommitSame(s.(sim := s.sim.(runtimeAuto := false), m := s.m.(runtime := v.value)), env);
    }
  }

  ghost predicate Rearmed(s: State, t: State, env: Env) {
    && t.sim.armed && t.now == s.now + env.beforeArm && t.lastCommandAt == t.now
    && t.lastCommandMs == U32(t.now) && t.armLeaseMs <= MAX_LEASE_MS && t.checkedAt == s.checkedAt
  }

  ghost predicate Disarmed(s: State, t: State) {
    && !t.sim.armed && t.lastCommandAt == t.lastCommandMs == t.armLeaseMs == 0
    && t.checkedAt == s.checkedAt && t.now >= s.now
  }

  lemma ArmLease(s: State, arg: Option<string>, arg2: Option<string>, env: Env)
    ensures var t := DoArm(s, arg, arg2, env).s;
            SameLease(s, t) || Rearmed(s, t, env) || Disarmed(s, t)
  {
    RestoreLease(s, env);
  }

  lemma RestoreLease(s: State, env: Env)
    ensures Disarmed(s, Commit(SafeState(s), env))
  {
    CommitSame(SafeState(s), env);
  }

  lemma QueryLease(s: State, k: Keyword)
    requires IsQueryKind(k)
    ensures SameLease(s, Query(s, k).s)
  {}

  /** A command leaves the lease alone, starts it afresh, or ends it. */
  lemma PerformLease(s: State, k: Keyword, arg: Option<string>, arg2: Option<string>, env: Env)
    ensures var t := Perform(s, k, arg, arg2, env).s;
            SameLease(s, t) || Rearmed(s, t, env) || Disarmed(s, t)
  {
    if IsQueryKind(k) {
      QueryLease(s, k);
    } else if k.Arm? {
      ArmLease(s, arg, arg2, env);
    } else if k.Reset? {
      RestoreLease(s, env);
    } else if k.Report? {
      CommitSame(s, env);
    } else {
      GuardedSame(s, k, arg, env);
    }
  }

  lemma ExecuteKeepsLease(s: State, buffer: string, env: Env)
    requires LeaseInv(s)
    ensures LeaseInv(Execute(s, buffer, env).s)
  {
    var tokens := Split(CString(buffer), DELIMS);
    if tokens != [] {
      PerformLease(Touch(s, env), KeywordOf(tokens[0]), Token(tokens, 1), Token(tokens, 2), env);
    }
  }

  /** The gap condition for an action: only lease checks care. */
  ghost predicate ActionOk(y: Sys, a: Action) { a.BeginLoop? ==> GapOk(y.core, a.env) }

  lemma CheckKeepsLease(s: State, env: Env)
    requires LeaseInv(s) && GapOk(s, env)
    ensures LeaseInv(Check(s, env))
  {
    CommitSame(SafeState(s.(now := CheckTime(s, env), checkedAt := CheckTime(s, env))), env);
    if s.sim.armed && s.armLeaseMs != 0 { CheckIsExact(s, env); }
  }

  lemma QuietReact(s: State, e: Event)
    requires !e.Ran? && !e.Checked?
    ensures SameLease(s, React(s, e))
  {
    if e.Published? { Safety.SendKeeps(Update(s), false, e.env); }
  }

  lemma ReactKeepsLease(s: State, e: Event)
    requires LeaseInv(s) && (e.Checked? ==> GapOk(s, e.env))
    ensures LeaseInv(React(s, e))
  {
    match e
    case Checked(env) => CheckKeepsLease(s, env);
    case Ran(_, text, env) => ExecuteKeepsLease(s, text, env);
    case _ => QuietReact(s, e);
  }

  lemma StepKeepsLease(y: Sys, a: Action)
    requires Framed(y) && LeaseInv(y.core) && ActionOk(y, a)
    ensures LeaseInv(Step(y, a).core)
  {
    StepIsReact(y, a);
    if Added(y, a).Some? { ReactKeepsLease(y.core, Added(y, a).value); }
  }

  /** Every lease check of a run comes soon enough after the previous one. */
  ghost predicate GapsOk(y: Sys, actions: seq<Action>)
    requires Framed(y)
  {
    actions == [] ||
    (GapsOk(y, actions[..|actions| - 1])
     && ActionOk(Run(y, actions[..|actions| - 1]), actions[|actions| - 1]))
  }

  lemma {:induction false} RunKeepsLease(y: Sys, actions: seq<Action>)
    requires Framed(y) && LeaseInv(y.core) && GapsOk(y, actions)
    ensures LeaseInv(Run(y, actions).core)
  {
    if actions == [] {
    } else {
      RunKeepsLease(y, actions[..|actions| - 1]);
      StepKeepsLease(Run(y, actions[..|actions| - 1]), actions[|actions| - 1]);
    }
  }

  lemma OneCheck(y: Sys, env: Env)
    requires Framed(y) && GapOk(y.core, env)
    ensures GapsOk(y, [BeginLoop(env)])
  {
    var first := [BeginLoop(env)];
    assert first[..0] == [] && first[0] == BeginLoop(env);
    assert GapsOk(y, []) && Run(y, []) == y;
  }

  /** What follows the check in an iteration. */
  function AfterCheck(client: Option<nat>, input: LoopInput): (r: seq<Action>)
    ensures forall i :: 0 <= i < |r| ==> !r[i].BeginLoop?
    ensures [BeginLoop(input.begin)] + r == LoopActions(client, input)
  {
    ConnectionActions(client, input) + NetActions(client, input) + Arrivals(false, input.uart) + [EndLoop(input.end)]
  }

  /** Only the check at its top makes an iteration of `loop` depend on the gap. */
  lemma OneLoopGap(y: Sys, input: LoopInput)
    requires Framed(y) && GapOk(y.core, input.begin)
    ensures GapsOk(y, LoopActions(y.client, input))
  {
    OneCheck(y, input.begin);
    NoMoreChecks(y, [BeginLoop(input.begin)], AfterCheck(y.client, input));
  }

  lemma {:induction false} NoMoreChecks(y: Sys, done: seq<Action>, rest: seq<Action>)
    requires Framed(y) && GapsOk(y, done) && forall i :: 0 <= i < |rest| ==> !rest[i].BeginLoop?
    ensures GapsOk(y, done + rest)
  {
    if rest == [] {
      assert done + rest == done;
    } else {
      var init := rest[..|rest| - 1];
      NoMoreChecks(y, done, init);
      assert (done + rest)[..|done + rest| - 1] == done + init;
    }
  }

  lemma StartsWithLease(net: Network, env: Env)
    ensures LeaseInv(PowerUp(net, env).core)
  {
    CommitSame(SafeState(PowerOn(net)), env);
  }

  // ---------------------------------------------------------------- refresh

  /** The event is a complete line that is not blank. */
  predicate IsCommand(e: Event) { e.Ran? && Split(CString(e.text), DELIMS) != [] }

  /** The action completes a line that is not blank. */
  predicate CompletesCommand(y: Sys, a: Action)
    requires Framed(y)
  {
    Added(y, a).Some? && IsCommand(Added(y, a).value)
  }

  /** Nothing but a complete, non-blank line touches the lease: not stray bytes,
      not blank lines, not overruns, not connections, not the host. */
  lemma OnlyCommandsRefresh(y: Sys, a: Action)
    requires Framed(y) && !CompletesCommand(y, a) && !a.BeginLoop?
    ensures SameLease(y.core, Step(y, a).core)
  {
    StepIsReact(y, a);
    if Added(y, a).Some? && !Added(y, a).value.Ran? { QuietReact(y.core, Added(y, a).value); }
  }

  /** Every complete, non-blank line that leaves the device armed restarts the
      lease at the time it was handled. */
  lemma CommandRefreshes(s: State, buffer: string, env: Env)
    requires Split(CString(buffer), DELIMS) != [] && s.sim.armed
    ensures var t := Execute(s, buffer, env).s;
            t.sim.armed ==>
              s.now + env.beforeTouch <= t.lastCommandAt <= s.now + env.beforeTouch + env.beforeArm
              && t.lastCommandMs == U32(t.lastCommandAt)
  {
    var tokens := Split(CString(buffer), DELIMS);
    PerformLease(Touch(s, env), KeywordOf(tokens[0]), Token(tokens, 1), Token(tokens, 2), env);
  }

  // ---------------------------------------------------------------- silence

  /** A run during which no controller completes a command. */
  ghost predicate Silent(y: Sys, actions: seq<Action>)
    requires Framed(y)
  {
    actions == [] ||
    (Silent(y, actions[..|actions| - 1])
     && !CompletesCommand(Run(y, actions[..|actions| - 1]), actions[|actions| - 1]))
  }

  /** While nobody talks, the device is armed exactly until the first lease check
      at or after expiry: never disarmed earlier, never left armed later. */
  lemma {:induction false} SilenceDisarms(y: Sys, actions: seq<Action>)
    requires Framed(y) && LeaseInv(y.core) && y.core.sim.armed && y.core.armLeaseMs != 0
    requires GapsOk(y, actions) && Silent(y, actions)
    ensures var s := Run(y, actions).core;
            && s.now >= y.core.now
            && (s.sim.armed <==> s.checkedAt < y.core.lastCommandAt + y.core.armLeaseMs)
            && (s.sim.armed ==> s.armLeaseMs == y.core.armLeaseMs && s.lastCommandAt == y.core.lastCommandAt)
  {
    if actions == [] {
    } else {
      var init, a := actions[..|actions| - 1], actions[|actions| - 1];
      SilenceDisarms(y, init);
      RunKeepsLease(y, init);
      var z := Run(y, init);
      if a.BeginLoop? {
        CheckKeepsTime(z.core, a.env);
        if z.core.sim.armed { CheckIsExact(z.core, a.env); }
      } else {
        OnlyCommandsRefresh(z, a);
      }
    }
  }

  lemma CheckKeepsTime(s: State, env: Env)
    ensures Check(s, env).checkedAt == CheckTime(s, env) && Check(s, env).now >= CheckTime(s, env)
    ensures !s.sim.armed ==> !Check(s, env).sim.armed
    ensures Check(s, env).sim.armed ==> Check(s, env) == s.(now := CheckTime(s, env), checkedAt := CheckTime(s, env))
  {
    CommitSame(SafeState(s.(now := CheckTime(s, env), checkedAt := CheckTime(s, env))), env);
  }

  /** If the controller vanishes, the device is safe again within the lease plus
      one gap, where `gap` bounds how long ago the last lease check was. */
  lemma VanishedControllerDisarms(y: Sys, actions: seq<Action>, gap: nat)
    requires Framed(y) && Safety.SafeUnlessArmed(y.core)
    requires LeaseInv(y.core) && y.core.sim.armed && y.core.armLeaseMs != 0
    requires GapsOk(y, actions) && Silent(y, actions)
    requires Run(y, actions).core.now - Run(y, actions).core.checkedAt <= gap
    requires Run(y, actions).core.now >= y.core.lastCommandAt + y.core.armLeaseMs + gap
    ensures Safety.Safe(Run(y, actions).core)
  {
    SilenceDisarms(y, actions);
    Safety.DisarmedIsSafe(y, actions);
  }

  /** A lease of zero never fires, however long the gaps. */
  lemma {:induction false} ZeroLeaseNeverFires(y: Sys, actions: seq<Action>)
    requires Framed(y) && y.core.sim.armed && y.core.armLeaseMs == 0
    requires Silent(y, actions)
    ensures Run(y, actions).core.sim.armed && Run(y, actions).core.armLeaseMs == 0
  {
    if actions == [] {
    } else {
      var init, a := actions[..|actions| - 1], actions[|actions| - 1];
      ZeroLeaseNeverFires(y, init);
      if !a.BeginLoop? { OnlyCommandsRefresh(Run(y, init), a); }
    }
  }
}
