/** `armed_session`: arm, run a body, restore the safe state, over a channel that
    may lose a command or its reply. */
module Session {
  import opened Ascii
  import opened Control
  import opened System
  import D = Driver
  import EndToEnd
  import Lease
  import Safety
  import Switching

  /** An exception: an error of the driver, the ValueError of a lease out of range,
      the RuntimeWarning of a failed cleanup once warnings are turned into errors,
      or anything else (KeyboardInterrupt,
      an OSError while closing, an exception of the caller's own). */
  datatype Raised = Simulator(text: string) | ValueError | RuntimeWarning | Foreign(id: nat)

  /** What becomes of one call: carried out and answered, or ended by an exception
      before or after the device carried it out. */
  datatype Fate = Delivered | Broken(carriedOut: bool, error: Raised)

  predicate Reached(fate: Fate) { fate.Broken? ==> fate.carriedOut }

  /** `raw_command` against the device: the state it leaves and what it raises. */
  function Call(s: State, line: string, fate: Fate, env: Env): (r: (State, Option<Raised>))
    ensures Reached(fate) ==> r.0 == Execute(s, line, env).s
    ensures !Reached(fate) ==> r.0 == s
  {
    match fate
    case Broken(carriedOut, error) => (if carriedOut then Execute(s, line, env).s else s, Some(error))
    case Delivered =>
      var done := Execute(s, line, env);
      if done.reply.None? then (done.s, Some(Simulator("timeout")))
      else if D.StripOk(done.reply.value).Err? then (done.s, Some(Simulator("rejected")))
      else (done.s, None)
  }

  /** A body: whatever happens to the device while it runs - its own commands,
      those of the other channel, loops, host requests - and how it ends. */
  datatype Body = Body(events: seq<Event>, raised: Option<Raised>)

  /** Which statement an exception left the context manager from. */
  datatype Origin = AtArm | InBody | InCleanup | AtWarning

  /** How a session ended: the device, the exception the caller sees and where it
      comes from, whether the body ran, and whether a warning was shown. */
  datatype Ended = Ended(s: State, raised: Option<(Origin, Raised)>, entered: bool, warned: bool)

  /** The arguments of `armed_session`, and whether the process turns a
      RuntimeWarning into an exception. */
  datatype Terms = Terms(resetOnExit: bool, lease: Option<int>, warningsAreErrors: bool)

  /** The surroundings of the two calls. */
  datatype Channel = Channel(arm: Fate, armEnv: Env, restore: Fate, restoreEnv: Env)

  function RestoreLine(resetOnExit: bool): (r: string) { if resetOnExit then "RESET" else "ARM OFF" }

  /** `_restore`. */
  function Restore(s: State, terms: Terms, ch: Channel): (r: (State, Option<Raised>)) {
    Call(s, RestoreLine(terms.resetOnExit), ch.restore, ch.restoreEnv)
  }

  /** The `except BaseException` block: clean up; a driver error in the cleanup is
      warned about, which may itself raise; anything else leaves the block as it
      is; and at the end the body's exception is raised again. */
  function Handle(s: State, caught: Raised, terms: Terms, ch: Channel): (r: Ended) {
    match Restore(s, terms, ch)
    case (t, Some(Simulator(_))) =>
      if terms.warningsAreErrors then Ended(t, Some((AtWarning, RuntimeWarning)), true, false)
      else Ended(t, Some((InBody, caught)), true, true)
    case (t, Some(other)) => Ended(t, Some((InCleanup, other)), true, false)
    case (t, None) => Ended(t, Some((InBody, caught)), true, false)
  }

  /** Leaving the body, by an exception or at its end. */
  function Leave(s: State, raised: Option<Raised>, terms: Terms, ch: Channel): (r: Ended) {
    if raised.Some? then Handle(s, raised.value, terms, ch)
    else
      match Restore(s, terms, ch)
      case (t, None) => Ended(t, None, true, false)
      case (t, Some(e)) => Ended(t, Some((InCleanup, e)), true, false)
  }

  /** The body, if arming raised nothing. */
  function Armed(arming: (State, Option<Raised>), terms: Terms, ch: Channel, body: Body): (r: Ended) {
    match arming.1
    case Some(e) => Ended(arming.0, Some((AtArm, e)), false, false)
    case None => Leave(Replay(arming.0, body.events), body.raised, terms, ch)
  }

  /** `armed_session` around a body. */
  function RunSession(s: State, terms: Terms, ch: Channel, body: Body): (r: Ended) {
    match D.ArmLine(true, terms.lease)
    case Err(_) => Ended(s, Some((AtArm, ValueError)), false, false)
    case Ok(line) =>
      Armed(Call(s, line, ch.arm, ch.armEnv), terms, ch, body)
  }

  // ---------------------------------------------------------------- facts

  lemma SafeReplyIsOk()
    ensures D.StripOk("OK safe") == D.Ok("safe")
  {
    ReplyIsOk("OK safe", "safe");
  }

  lemma ReplyIsOk(line: string, payload: string)
    requires line == "OK " + payload && payload != "" && Free(payload, PYTHON_SPACE)
    ensures D.StripOk(line) == D.Ok(payload)
  {
    assert line[|line| - 1] == payload[|payload| - 1];
    D.StripClean(line);
    assert line[3..] == payload;
    assert line[..3] == "OK " && line[0] == 'O';
  }

  /** Either cleanup command, from any state: if it reaches the device it is carried
      out as the safe state, and it raises exactly when the channel breaks. */
  lemma RestoreIsSafe(s: State, terms: Terms, ch: Channel)
    requires Safety.Calibrated(s)
    ensures var r := Restore(s, terms, ch);
            && (Reached(ch.restore) ==> Safety.Safe(r.0))
            && r.1 == if ch.restore.Delivered? then None else Some(ch.restore.error)
  {
    if terms.resetOnExit { EndToEnd.ResetTaken(s, ch.restoreEnv); } else { EndToEnd.DisarmTaken(s, ch.restoreEnv); }
    Safety.SafeStateIsSafe(Touch(s, ch.restoreEnv), ch.restoreEnv);
    SafeReplyIsOk();
  }

  lemma ArmReplyIsOk()
    ensures D.StripOk("OK armed") == D.Ok("armed")
  {
    ReplyIsOk("OK armed", "armed");
  }

  /** Arming with a lease the driver sends is granted whenever it gets through, and
      raises exactly when the channel breaks. */
  lemma ArmCall(s: State, lease: Option<int>, fate: Fate, env: Env)
    requires D.ArmLine(true, lease).Ok?
    ensures var r := Call(s, D.ArmLine(true, lease).value, fate, env);
            && r.0 == (if Reached(fate) then EndToEnd.ArmedAs(Touch(s, env), lease, env) else s)
            && r.1 == if fate.Delivered? then None else Some(fate.error)
  {
    EndToEnd.ArmTaken(s, lease, env);
    ArmReplyIsOk();
  }

  lemma {:induction false} ReplayKeepsSafe(s: State, events: seq<Event>)
    requires Safety.SafeUnlessArmed(s)
    ensures Safety.SafeUnlessArmed(Replay(s, events))
  {
    if events == [] {
    } else {
      ReplayKeepsSafe(s, events[..|events| - 1]);
      Safety.ReactKeepsSafe(Replay(s, events[..|events| - 1]), events[|events| - 1]);
    }
  }

  lemma CallKeepsSafe(s: State, line: string, fate: Fate, env: Env)
    requires Safety.SafeUnlessArmed(s)
    ensures Safety.SafeUnlessArmed(Call(s, line, fate, env).0)
  {
    Safety.ExecuteKeepsSafe(s, line, env);
  }

  // ---------------------------------------------------------------- theorems

  /** Whether the body is entered. */
  predicate Enters(terms: Terms, ch: Channel) { D.ArmLine(true, terms.lease).Ok? && ch.arm.Delivered? }

  /** The device when the body is over. */
  function BodyEnd(s: State, terms: Terms, ch: Channel, body: Body): (r: State)
    requires Enters(terms, ch)
  {
    Replay(Call(s, D.ArmLine(true, terms.lease).value, ch.arm, ch.armEnv).0, body.events)
  }

  lemma BodyEndsCalibrated(s: State, terms: Terms, ch: Channel, body: Body)
    requires Safety.SafeUnlessArmed(s) && Enters(terms, ch)
    ensures Safety.SafeUnlessArmed(BodyEnd(s, terms, ch, body))
    ensures Call(s, D.ArmLine(true, terms.lease).value, ch.arm, ch.armEnv).1 == None
  {
    var line := D.ArmLine(true, terms.lease).value;
    ArmCall(s, terms.lease, ch.arm, ch.armEnv);
    CallKeepsSafe(s, line, ch.arm, ch.armEnv);
    ReplayKeepsSafe(Call(s, line, ch.arm, ch.armEnv).0, body.events);
  }

  lemma LeavesByRestore(s: State, raised: Option<Raised>, terms: Terms, ch: Channel)
    ensures var e := Leave(s, raised, terms, ch);
            && e.s == Restore(s, terms, ch).0 && e.entered
  {}

  lemma ArmingDecides(arming: (State, Option<Raised>), terms: Terms, ch: Channel, body: Body)
    ensures arming.1.None? ==> Armed(arming, terms, ch, body) == Leave(Replay(arming.0, body.events), body.raised, terms, ch)
    ensures arming.1.Some? ==> Armed(arming, terms, ch, body) == Ended(arming.0, Some((AtArm, arming.1.value)), false, false)
  {}

  /** A session that is not entered: nothing was sent, or arming raised. */
  lemma NotEntered(s: State, terms: Terms, ch: Channel, body: Body)
    requires !Enters(terms, ch)
    ensures var e := RunSession(s, terms, ch, body);
            && !e.entered && !e.warned && e.raised.Some? && e.raised.value.0 == AtArm
            && e.s == if D.ArmLine(true, terms.lease).Ok? && Reached(ch.arm)
                      then EndToEnd.ArmedAs(Touch(s, ch.armEnv), terms.lease, ch.armEnv) else s
  {
    var line := D.ArmLine(true, terms.lease);
    if line.Ok? {
      ArmCall(s, terms.lease, ch.arm, ch.armEnv);
      ArmingDecides(Call(s, line.value, ch.arm, ch.armEnv), terms, ch, body);
    }
  }

  /** Whatever is raised on the way, an entered session ends with what its cleanup
      call leaves behind. */
  lemma EndsWithCleanup(s: State, terms: Terms, ch: Channel, body: Body)
    requires Safety.SafeUnlessArmed(s) && Enters(terms, ch)
    ensures RunSession(s, terms, ch, body) == Leave(BodyEnd(s, terms, ch, body), body.raised, terms, ch)
    ensures var e := RunSession(s, terms, ch, body);
            e.entered && e.s == Restore(BodyEnd(s, terms, ch, body), terms, ch).0
  {
    BodyEndsCalibrated(s, terms, ch, body);
    ArmingDecides(Call(s, D.ArmLine(true, terms.lease).value, ch.arm, ch.armEnv), terms, ch, body);
    LeavesByRestore(BodyEnd(s, terms, ch, body), body.raised, terms, ch);
  }

  /** For every body, however it ends: once the body is entered, a cleanup command
      that reaches the device leaves it safe, whatever becomes of its reply. */
  lemma SessionRestores(s: State, terms: Terms, ch: Channel, body: Body)
    requires Safety.SafeUnlessArmed(s)
    ensures var e := RunSession(s, terms, ch, body);
            && (e.entered <==> Enters(terms, ch))
            && (e.entered && Reached(ch.restore) ==> Safety.Safe(e.s))
  {
    if Enters(terms, ch) {
      BodyEndsCalibrated(s, terms, ch, body);
      EndsWithCleanup(s, terms, ch, body);
      RestoreIsSafe(BodyEnd(s, terms, ch, body), terms, ch);
    } else {
      NotEntered(s, terms, ch, body);
    }
  }

  /** When the body's own exception reaches the caller: exactly when the cleanup
      call succeeds, or ends with a driver error that is only warned about. A
      cleanup call succeeds exactly when it is delivered: the device never refuses
      either cleanup command. */
  lemma BodyExceptionSurvivesExactly(s: State, terms: Terms, ch: Channel, body: Body)
    requires Safety.SafeUnlessArmed(s) && Enters(terms, ch) && body.raised.Some?
    ensures var e := RunSession(s, terms, ch, body);
            && (e.raised == Some((InBody, body.raised.value)) <==>
                  ch.restore.Delivered? || (ch.restore.error.Simulator? && !terms.warningsAreErrors))
            && (e.warned <==> ch.restore.Broken? && ch.restore.error.Simulator? && !terms.warningsAreErrors)
            && e.raised.Some?
  {
    BodyEndsCalibrated(s, terms, ch, body);
    EndsWithCleanup(s, terms, ch, body);
    RestoreIsSafe(BodyEnd(s, terms, ch, body), terms, ch);
  }

  /** What the caller sees otherwise: after a body that ends normally the error of
      the cleanup itself, and before the body the error of the arming. */
  lemma SessionReports(s: State, terms: Terms, ch: Channel, body: Body)
    requires Safety.SafeUnlessArmed(s)
    ensures var e := RunSession(s, terms, ch, body);
            && (Enters(terms, ch) && body.raised.None? ==>
                  !e.warned && e.raised == if ch.restore.Delivered? then None else Some((InCleanup, ch.restore.error)))
            && (!Enters(terms, ch) ==> e.raised.Some? && e.raised.value.0 == AtArm && !e.warned)
  {
    if Enters(terms, ch) {
      BodyEndsCalibrated(s, terms, ch, body);
      EndsWithCleanup(s, terms, ch, body);
      RestoreIsSafe(BodyEnd(s, terms, ch, body), terms, ch);
    } else {
      NotEntered(s, terms, ch, body);
    }
  }

  /** Two ways in which the body's exception is lost: a KeyboardInterrupt during the
      cleanup, and a lost cleanup while warnings are errors. */
  lemma BodyExceptionLost(s: State, armEnv: Env, restoreEnv: Env)
    requires Safety.SafeUnlessArmed(s)
    ensures var body := Body([], Some(Foreign(1)));
            var interrupted := Channel(Delivered, armEnv, Broken(false, Foreign(2)), restoreEnv);
            var unplugged := Channel(Delivered, armEnv, Broken(false, Simulator("closed")), restoreEnv);
            && RunSession(s, Terms(true, None, false), interrupted, body).raised == Some((InCleanup, Foreign(2)))
            && RunSession(s, Terms(true, None, true), unplugged, body).raised == Some((AtWarning, RuntimeWarning))
  {
    ArmCall(s, None, Delivered, armEnv);
  }

  lemma LostCleanup(s: State, terms: Terms, ch: Channel, body: Body)
    requires Safety.SafeUnlessArmed(s) && Enters(terms, ch) && !Reached(ch.restore)
    ensures Restore(BodyEnd(s, terms, ch, body), terms, ch).0 == BodyEnd(s, terms, ch, body)
    ensures Safety.Safe(BodyEnd(s, terms, ch, body)) <==>
            !Switching.LeftArmed(EndToEnd.ArmedAs(Touch(s, ch.armEnv), terms.lease, ch.armEnv), body.events)
  {
    ArmCall(s, terms.lease, ch.arm, ch.armEnv);
    BodyEndsCalibrated(s, terms, ch, body);
    Switching.LeftArmedExactly(EndToEnd.ArmedAs(Touch(s, ch.armEnv), terms.lease, ch.armEnv), body.events);
  }

  /** Exactly which sessions on a disarmed device end with a safe one: if the cleanup
      is lost, those whose body ends with no line that armed after the last line that
      disarmed or check that found the lease expired. The gap:
      when only the reply to `arm` is lost the device is armed, no cleanup is
      tried, and the lease alone protects it. */
  lemma SessionEndsSafeExactly(s: State, terms: Terms, ch: Channel, body: Body)
    requires Safety.SafeUnlessArmed(s) && !s.sim.armed
    ensures Safety.Safe(RunSession(s, terms, ch, body).s) <==>
            if !Enters(terms, ch) then D.ArmLine(true, terms.lease).Err? || !Reached(ch.arm)
            else
              Reached(ch.restore)
              || !Switching.LeftArmed(EndToEnd.ArmedAs(Touch(s, ch.armEnv), terms.lease, ch.armEnv), body.events)
  {
    SessionRestores(s, terms, ch, body);
    if Enters(terms, ch) {
      if !Reached(ch.restore) {
        EndsWithCleanup(s, terms, ch, body);
        LostCleanup(s, terms, ch, body);
      }
    } else {
      NotEntered(s, terms, ch, body);
    }
  }

  /** The lease behind that gap: after an arming that went through, if no further
      command is completed, the device is safe once the granted lease and one
      loop gap have passed. */
  lemma AbandonedSessionExpires(s: State, lease: Option<int>, env: Env, y: Sys, actions: seq<Action>, gap: nat)
    requires D.ArmLine(true, lease).Ok? && EndToEnd.LeaseSeconds(lease) != 0
    requires Safety.SafeUnlessArmed(s) && Lease.LeaseInv(s)
    requires Framed(y) && y.core == Execute(s, D.ArmLine(true, lease).value, env).s
    requires Lease.GapsOk(y, actions) && Lease.Silent(y, actions)
    requires Run(y, actions).core.now - Run(y, actions).core.checkedAt <= gap
    requires Run(y, actions).core.now >= y.core.now + EndToEnd.LeaseSeconds(lease) * 1000 + gap
    ensures Safety.Safe(Run(y, actions).core)
  {
    EndToEnd.ArmTaken(s, lease, env);
    Safety.ExecuteKeepsSafe(s, D.ArmLine(true, lease).value, env);
    Lease.ExecuteKeepsLease(s, D.ArmLine(true, lease).value, env);
    Lease.VanishedControllerDisarms(y, actions, gap);
  }
}
