/** Host requests inside an action. `updateModel` reads three host variables one after
    the other, each of them atomically, and a SET_REPORT interrupt may arrive between
    any two of the reads, or between a read and the end of the action. Nothing new comes of that: such a run
    ends in the state of a run in which all requests arrive between the actions. */
module TornReads {
  import opened Words
  import opened Control
  import opened System
  import opened Registry
  import HidSetup
  import Safety

  /** What the three reads find, whatever requests arrive in between. */
  datatype Reads = Reads(shutdownDelay: i16, remainTimeLimit: u16, remnLimit: byte)

  /** `updateModel` with reads of their own, and the host variables at its end. */
  function TornUpdate(s: State, r: Reads, after: HostVars): (t: State) {
    var m := if s.sim.runtimeAuto then s.m.(runtime := AutoRuntime(s.m)) else s.m;
    s.(m := m, status := Derive(s.sim, m, r.shutdownDelay, r.remainTimeLimit, r.remnLimit), host := after)
  }

  /** `updateModel` and the report attempt behind it. */
  function TornCommit(s: State, force: bool, r: Reads, after: HostVars, env: Env): (t: State) {
    SendReports(TornUpdate(s, r, after), force, env)
  }

  function WithReads(h: HostVars, r: Reads): (t: HostVars) {
    h.(shutdownDelay := r.shutdownDelay, remainTimeLimit := r.remainTimeLimit, remnLimit := r.remnLimit)
  }

  /** The end of a command or of `loop`: as if the host had written what was read
      before the action, and the rest behind it. */
  lemma CommitIsInterleaved(s: State, force: bool, r: Reads, after: HostVars, env: Env)
    ensures TornCommit(s, force, r, after, env)
            == SendReports(Update(s.(host := WithReads(s.host, r))), force, env).(host := after)
  {}

  /** `setSafeState` writes the delays itself before they are read. What is read for
      the shutdown delay then makes no difference, since the device is disarmed. */
  lemma RestoreIsInterleaved(s: State, r: Reads, after: HostVars, env: Env)
    ensures TornCommit(SafeState(s), true, r, after, env)
            == Commit(SafeState(s.(host := WithReads(s.host, r))), env).(host := after)
  {}

  // ---------------------------------------------------------------- requests

  /** The two bytes of a signed word. */
  function BytesOf(x: i16): (b: seq<byte>)
    ensures |b| == 2 && Int16(b) == x
  {
    var v: int := x;
    var w: u16 := if v < 0 then v + TWO16 else v;
    WordRoundTrip(w);
    Bytes16(w)
  }

  function Request(id: byte, b: seq<byte>): (w: SetReport)
    requires |b| < 0xFFFF
  {
    SetReport(true, 3, id, |b| + 1, [id] + b)
  }

  lemma RequestStores(s: State, id: byte, b: seq<byte>)
    requires HidSetup.Writable(id).Some? && |b| == HidSetup.Writable(id).value.1
    ensures HostWrite(s, Request(id, b)) == Store(s, HidSetup.Writable(id).value.0, b)
  {
    var w := Request(id, b);
    assert Received(w) == [id] + b;
    assert Received(w)[1..] == b;
    HidSetup.AcceptedExactly(w);
  }

  /** The bytes of a delay are a two's complement word, low byte first. */
  lemma DelayIsLittleEndian(s: State, low: byte, high: byte)
    ensures var w: int := low + 256 * high;
            HostWrite(s, SetReport(true, 3, 0x21, 3, [0x21, low, high]))
            == s.(host := s.host.(startDelay := if w < 0x8000 then w else w - 0x1_0000))
  {
    RequestStores(s, 0x21, [low, high]);
    assert [0x21] + [low, high] == [0x21, low, high];
  }

  /** Seven requests that give the host variables any values. */
  function Settings(h: HostVars): (r: seq<SetReport>)
    ensures |r| == 7
  {
    [ Request(0x21, BytesOf(h.startDelay)), Request(0x13, BytesOf(h.rebootDelay)), Request(0x12, BytesOf(h.shutdownDelay)),
      Request(0x08, Bytes16(h.remainTimeLimit)), Request(0x0F, [h.warnLimit]), Request(0x11, [h.remnLimit]),
      Request(0x14, [h.audibleAlarm]) ]
  }

  function Writes(s: State, ws: seq<SetReport>): (r: State) {
    if ws == [] then s else HostWrite(Writes(s, ws[..|ws| - 1]), ws[|ws| - 1])
  }

  /** The host variables when the first `k` of them have been set. */
  function SetUpTo(was: HostVars, h: HostVars, k: nat): (r: HostVars) {
    HostVars(
      if k > 0 then h.startDelay else was.startDelay,
      if k > 1 then h.rebootDelay else was.rebootDelay,
      if k > 2 then h.shutdownDelay else was.shutdownDelay,
      if k > 3 then h.remainTimeLimit else was.remainTimeLimit,
      if k > 4 then h.warnLimit else was.warnLimit,
      if k > 5 then h.remnLimit else was.remnLimit,
      if k > 6 then h.audibleAlarm else was.audibleAlarm)
  }

  lemma StartDelaySet(s: State, h: HostVars)
    ensures HostWrite(s, Request(0x21, BytesOf(h.startDelay))) == s.(host := s.host.(startDelay := h.startDelay))
  {
    RequestStores(s, 0x21, BytesOf(h.startDelay));
  }

  lemma RebootDelaySet(s: State, h: HostVars)
    ensures HostWrite(s, Request(0x13, BytesOf(h.rebootDelay))) == s.(host := s.host.(rebootDelay := h.rebootDelay))
  {
    RequestStores(s, 0x13, BytesOf(h.rebootDelay));
  }

  lemma ShutdownDelaySet(s: State, h: HostVars)
    ensures HostWrite(s, Request(0x12, BytesOf(h.shutdownDelay))) == s.(host := s.host.(shutdownDelay := h.shutdownDelay))
  {
    RequestStores(s, 0x12, BytesOf(h.shutdownDelay));
  }

  lemma TimeLimitSet(s: State, h: HostVars)
    ensures HostWrite(s, Request(0x08, Bytes16(h.remainTimeLimit))) == s.(host := s.host.(remainTimeLimit := h.remainTimeLimit))
  {
    WordRoundTrip(h.remainTimeLimit);
    RequestStores(s, 0x08, Bytes16(h.remainTimeLimit));
  }

  lemma WarnLimitSet(s: State, h: HostVars)
    ensures HostWrite(s, Request(0x0F, [h.warnLimit])) == s.(host := s.host.(warnLimit := h.warnLimit))
  {
    RequestStores(s, 0x0F, [h.warnLimit]);
  }

  lemma RemnLimitSet(s: State, h: HostVars)
    ensures HostWrite(s, Request(0x11, [h.remnLimit])) == s.(host := s.host.(remnLimit := h.remnLimit))
  {
    RequestStores(s, 0x11, [h.remnLimit]);
  }

  lemma AlarmSet(s: State, h: HostVars)
    ensures HostWrite(s, Request(0x14, [h.audibleAlarm])) == s.(host := s.host.(audibleAlarm := h.audibleAlarm))
  {
    RequestStores(s, 0x14, [h.audibleAlarm]);
  }

  lemma OneSetting(s: State, was: HostVars, h: HostVars, k: nat)
    requires k < 7 && s.host == SetUpTo(was, h, k)
    ensures HostWrite(s, Settings(h)[k]) == s.(host := SetUpTo(was, h, k + 1))
  {
    match k
    case 0 => StartDelaySet(s, h);
    case 1 => RebootDelaySet(s, h);
    case 2 => ShutdownDelaySet(s, h);
    case 3 => TimeLimitSet(s, h);
    case 4 => WarnLimitSet(s, h);
    case 5 => RemnLimitSet(s, h);
    case _ => AlarmSet(s, h);
  }

  lemma {:induction false} SomeSettings(s: State, h: HostVars, k: nat)
    requires k <= 7
    ensures Writes(s, Settings(h)[..k]) == s.(host := SetUpTo(s.host, h, k))
  {
    if k == 0 {
      assert Settings(h)[..0] == [];
    } else {
      SomeSettings(s, h, k - 1);
      assert Settings(h)[..k][..k - 1] == Settings(h)[..k - 1];
      OneSetting(s.(host := SetUpTo(s.host, h, k - 1)), s.host, h, k - 1);
    }
  }

  lemma SettingsSet(s: State, h: HostVars)
    ensures Writes(s, Settings(h)) == s.(host := h)
  {
    SomeSettings(s, h, 7);
    assert Settings(h)[..7] == Settings(h);
  }

  // ---------------------------------------------------------------- runs

  /** The states of two systems that differ in their logs only. */
  ghost predicate Alike(y: Sys, z: Sys) { y.(log := []) == z.(log := []) }

  function AsActions(ws: seq<SetReport>): (r: seq<Action>)
    ensures |r| == |ws| && forall i :: 0 <= i < |r| ==> r[i] == HostRequest(ws[i])
  {
    seq(|ws|, i requires 0 <= i < |ws| => HostRequest(ws[i]))
  }

  lemma {:induction false} WritesRun(y: Sys, ws: seq<SetReport>)
    requires Framed(y)
    ensures Alike(Run(y, AsActions(ws)), y.(core := Writes(y.core, ws)))
  {
    if ws == [] {
    } else {
      WritesRun(y, ws[..|ws| - 1]);
      assert AsActions(ws)[..|ws| - 1] == AsActions(ws[..|ws| - 1]);
    }
  }

  /** An action with requests inside it: the host variables as its reads find them,
      and as its last request leaves them. */
  datatype Torn = Torn(action: Action, read: HostVars, after: HostVars)

  function TornStep(y: Sys, t: Torn): (r: Sys)
    requires Framed(y)
    ensures Framed(r)
  {
    var z := Step(y.(core := y.core.(host := t.read)), t.action);
    z.(core := z.core.(host := t.after))
  }

  function TornRun(y: Sys, torn: seq<Torn>): (r: Sys)
    requires Framed(y)
    ensures Framed(r)
  {
    if torn == [] then y else TornStep(TornRun(y, torn[..|torn| - 1]), torn[|torn| - 1])
  }

  lemma AlikeSteps(y: Sys, z: Sys, a: Action)
    requires Framed(y) && Framed(z) && Alike(y, z)
    ensures Alike(Step(y, a), Step(z, a))
  {}

  /** One torn action: the requests before it, the action, the requests behind it. */
  function Interleaved(t: Torn): (r: seq<Action>) {
    AsActions(Settings(t.read)) + [t.action] + AsActions(Settings(t.after))
  }

  lemma SettingsRun(y: Sys, h: HostVars)
    requires Framed(y)
    ensures Alike(Run(y, AsActions(Settings(h))), y.(core := y.core.(host := h)))
  {
    WritesRun(y, Settings(h));
    SettingsSet(y.core, h);
  }

  lemma TornStepIsInterleaved(y: Sys, z: Sys, t: Torn)
    requires Framed(y) && Framed(z) && Alike(y, z)
    ensures Alike(TornStep(y, t), Run(z, Interleaved(t)))
  {
    var before, behind := AsActions(Settings(t.read)), AsActions(Settings(t.after));
    var z1 := Run(z, before);
    var z2 := Step(z1, t.action);
    SettingsRun(z, t.read);
    AlikeSteps(y.(core := y.core.(host := t.read)), z1, t.action);
    RunAppend(z, before, [t.action]);
    RunOne(z1, t.action);
    SettingsRun(z2, t.after);
    RunAppend(z, before + [t.action], behind);
  }

  /** Every torn run ends as an ordinary run does. */
  lemma {:induction false} TornRunsAreRuns(y: Sys, torn: seq<Torn>) returns (actions: seq<Action>)
    requires Framed(y)
    ensures Alike(TornRun(y, torn), Run(y, actions))
  {
    actions := [];
    if torn != [] {
      var init, last := torn[..|torn| - 1], torn[|torn| - 1];
      var before := TornRunsAreRuns(y, init);
      TornStepIsInterleaved(TornRun(y, init), Run(y, before), last);
      RunAppend(y, before, Interleaved(last));
      actions := before + Interleaved(last);
    }
  }

  /** So a disarmed device is safe in every torn run, too. */
  lemma TornStartsSafe(net: Network, env: Env, torn: seq<Torn>)
    ensures Safety.SafeUnlessArmed(TornRun(PowerUp(net, env), torn).core)
  {
    var actions := TornRunsAreRuns(PowerUp(net, env), torn);
    Safety.StartsSafe(net, env, actions);
  }

  // ---------------------------------------------------------------- the status reply

  /** `printStatus` reads the three delays once more, one by one, while it prints:
      only their fields can differ from the state the reply is about. */
  lemma TornReply(s: State, printed: HostVars)
    ensures var fields, torn := StatusFields(s), StatusFields(s.(host := printed));
            && torn[..18] == fields[..18] && torn[21] == fields[21]
            && torn[18..21] == HostFields(s.(host := printed))[..3]
  {}
}
