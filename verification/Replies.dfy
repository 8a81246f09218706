/** How the driver reads a reply: what it strips, when it raises and with what, and
    what a refusal of the device becomes. */
module Replies {
  import opened Ascii
  import opened Words
  import opened Control
  import D = Driver
  import EndToEnd
  import W = CommandWords

  // ---------------------------------------------------------------- white space

  /** A text with white space around it. */
  predicate Around(s: string, a: string, t: string, b: string, seps: set<char>) {
    && s == a + t + b && All(a, seps) && All(b, seps)
    && (t != "" ==> t[0] !in seps && t[|t| - 1] !in seps)
  }

  predicate Leads(s: string, a: string, t: string, seps: set<char>) {
    s == a + t && All(a, seps) && (t != "" ==> t[0] !in seps)
  }

  lemma OneMoreLeads(s: string, a: string, t: string, seps: set<char>)
    requires s != "" && s[0] in seps && Leads(s[1..], a, t, seps)
    ensures Leads(s, [s[0]] + a, t, seps)
  {
    assert s == [s[0]] + s[1..];
    Assoc([s[0]], a, t);
  }

  lemma {:induction false} LeftTrimmed(s: string, seps: set<char>) returns (a: string)
    ensures Leads(s, a, TrimLeft(s, seps), seps)
  {
    if s == "" || s[0] !in seps {
      a := "";
      NothingBefore(s);
    } else {
      var rest := LeftTrimmed(s[1..], seps);
      a := [s[0]] + rest;
      OneMoreLeads(s, rest, TrimLeft(s[1..], seps), seps);
    }
  }

  lemma {:induction false} RightTrimmed(s: string, seps: set<char>) returns (b: string)
    ensures s == TrimRight(s, seps) + b && All(b, seps)
  {
    b := "";
    if s != "" && s[|s| - 1] in seps {
      var rest := RightTrimmed(s[..|s| - 1], seps);
      b := rest + [s[|s| - 1]];
    }
  }

  /** `str.strip()` leaves exactly what is between the white space at both ends. */
  lemma StripExactly(s: string, a: string, t: string, b: string)
    requires Around(s, a, t, b, PYTHON_SPACE)
    ensures D.Strip(s) == t
  {
    if t == "" {
      assert s == a + b;
      AllGone(s, PYTHON_SPACE);
    } else {
      assert s == (a + t) + b;
      RightPassed(a + t, b, PYTHON_SPACE);
      LeftPassed(a, t, PYTHON_SPACE);
    }
  }

  lemma StripSplits(s: string) returns (a: string, b: string)
    ensures Around(s, a, D.Strip(s), b, PYTHON_SPACE)
  {
    b := RightTrimmed(s, PYTHON_SPACE);
    a := LeftTrimmed(TrimRight(s, PYTHON_SPACE), PYTHON_SPACE);
  }

  // ---------------------------------------------------------------- OK and ERR

  predicate StartsErr(t: string) { |t| >= 3 && t[0] == 'E' && t[1] == 'R' && t[2] == 'R' }

  predicate StartsOk(t: string) { |t| >= 3 && t[0] == 'O' && t[1] == 'K' && t[2] == ' ' }

  lemma ErrPrefix(t: string)
    ensures D.HasPrefix(t, "ERR") <==> StartsErr(t)
  {
    if StartsErr(t) { assert t[..3] == ['E', 'R', 'R']; }
  }

  lemma OkPrefix(t: string)
    ensures D.HasPrefix(t, "OK ") <==> StartsOk(t)
  {
    if StartsOk(t) { assert t[..3] == ['O', 'K', ' ']; }
  }

  /** Which of the three branches a reply takes. */
  lemma Branches(line: string)
    ensures var r, t := D.StripOk(line), D.Strip(line);
            && (StartsErr(t) ==> r.Err? && r.error.CommandError?)
            && (t == "OK" ==> r == D.Ok(""))
            && (StartsOk(t) ==> r == D.Ok(t[3..]))
            && (!StartsErr(t) && t != "OK" && !StartsOk(t) ==> r == D.Err(D.UnexpectedResponse(t)))
  {
    ErrPrefix(D.Strip(line));
    OkPrefix(D.Strip(line));
  }

  lemma OkSplits(t: string, payload: string)
    ensures t == "OK " + payload <==> StartsOk(t) && t[3..] == payload
  {
    if StartsOk(t) { assert t == t[..3] + t[3..] && t[..3] == ['O', 'K', ' ']; }
    if t == "OK " + payload { assert t[3..] == payload; }
  }

  /** A call returns exactly on `OK`, with nothing, and on `OK ` with a payload. */
  lemma ReturnsExactly(line: string, payload: string)
    ensures D.StripOk(line) == D.Ok(payload) <==>
            (D.Strip(line) == "OK" && payload == "") || D.Strip(line) == "OK " + payload
  {
    Branches(line);
    OkSplits(D.Strip(line), payload);
  }

  /** It raises CommandError exactly on what starts with ERR, and ProtocolError with
      the stripped reply on everything else. */
  lemma RaisesExactly(line: string)
    ensures var r, t := D.StripOk(line), D.Strip(line);
            && (r.Err? && r.error.CommandError? <==> StartsErr(t))
            && (r.Err? && !r.error.CommandError? <==> !StartsErr(t) && t != "OK" && !StartsOk(t))
            && (r.Err? && !r.error.CommandError? ==> r.error == D.UnexpectedResponse(t))
  {
    Branches(line);
  }

  /** The text behind ERR and its spaces and colons, or everything if nothing is left. */
  function Detail(t: string): (r: string)
    requires StartsErr(t)
  {
    var rest := TrimLeft(t[3..], {' ', ':'});
    if rest == "" then t else rest
  }

  lemma RaisesDetail(line: string)
    requires StartsErr(D.Strip(line))
    ensures D.StripOk(line) == D.Err(D.CommandError(Detail(D.Strip(line))))
  {
    ErrPrefix(D.Strip(line));
  }

  lemma ErrSplits(t: string, tail: string)
    requires t == "ERR" + tail
    ensures StartsErr(t) && t[3..] == tail
  {}

  /** What a refusal raises: ERR, then spaces and colons, then the detail; or the whole
      reply if there is no detail. */
  lemma RaisesWith(line: string, sep: string, rest: string)
    requires D.Strip(line) == "ERR" + (sep + rest) && All(sep, {' ', ':'}) && (rest != "" ==> rest[0] !in {' ', ':'})
    ensures D.StripOk(line) == D.Err(D.CommandError(if rest == "" then D.Strip(line) else rest))
  {
    ErrSplits(D.Strip(line), sep + rest);
    LeftPassed(sep, rest, {' ', ':'});
    RaisesDetail(line);
  }

  lemma ErrTail(t: string)
    requires StartsErr(t)
    ensures t == "ERR" + t[3..]
  {
    assert t == t[..3] + t[3..] && t[..3] == ['E', 'R', 'R'];
  }

  /** Every refusal is of that form. */
  lemma RefusalSplits(line: string) returns (sep: string, rest: string)
    requires StartsErr(D.Strip(line))
    ensures D.Strip(line) == "ERR" + (sep + rest) && All(sep, {' ', ':'}) && (rest != "" ==> rest[0] !in {' ', ':'})
  {
    var t := D.Strip(line);
    ErrTail(t);
    sep := LeftTrimmed(t[3..], {' ', ':'});
    rest := TrimLeft(t[3..], {' ', ':'});
  }

  // ---------------------------------------------------------------- refusals of the device

  lemma CleanRefusal(line: string, detail: string)
    requires line == "ERR " + detail && detail != "" && detail[0] !in {' ', ':'} && detail[|detail| - 1] !in PYTHON_SPACE
    ensures D.StripOk(line) == D.Err(D.CommandError(detail))
  {
    assert line[0] == 'E' && line[|line| - 1] == detail[|detail| - 1];
    D.StripClean(line);
    assert line == "ERR" + (" " + detail);
    RaisesWith(line, " ", detail);
  }

  lemma DisarmedRefusal()
    ensures D.StripOk("ERR disarmed") == D.Err(D.CommandError("disarmed")) && "ERR disarmed"[4..] == "disarmed"
  {
    CleanRefusal("ERR disarmed", "disarmed");
  }

  /** Every setter on a disarmed device: the device stays as it is, and the call raises
      CommandError with the text `disarmed`. */
  lemma DisarmedRaises(s: State, setter: D.Setter, env: Env)
    requires !s.sim.armed && D.CommandLine(setter).Ok?
    ensures var done := Execute(s, D.CommandLine(setter).value, env);
            && done.s == s && done.reply.Some?
            && D.StripOk(done.reply.value) == D.Err(D.CommandError("disarmed"))
  {
    EndToEnd.LineIs(setter);
    EndToEnd.WordIsVisible(setter);
    EndToEnd.ArgumentIsVisible(setter);
    EndToEnd.KeyIs(setter);
    EndToEnd.TwoWordCommand(s, EndToEnd.Word(setter), EndToEnd.Argument(setter), env);
    DisarmedGuard(s, EndToEnd.Key(setter), Some(EndToEnd.Argument(setter)), env);
    DisarmedRefusal();
  }

  lemma DisarmedGuard(s: State, k: Keyword, arg: Option<string>, env: Env)
    requires !s.sim.armed && (k.SetFlag? || k.SetNumber? || k.Charging? || k.LowBat? || k.Runtime?)
    ensures Perform(Touch(s, env), k, arg, None, env) == Outcome(s, Some("ERR disarmed"))
  {}

  // ---------------------------------------------------------------- every reply

  /** An answer that makes a call return. */
  predicate AnswersOk(r: string) { r == "OK" || (|r| >= 4 && StartsOk(r) && r[3] !in PYTHON_SPACE) }

  /** The answers that make it raise. */
  predicate Refuses(r: string) { r == "ERR disarmed" || r == "ERR mode" || r == "ERR range" || r == "ERR command" }

  lemma FirstField(s: State)
    ensures StatusFields(s)[..22] == StatusFields(s) && StatusFields(s)[0].key == "armed"
  {}

  lemma StatusAnswers(s: State)
    ensures AnswersOk(StatusLine(s))
  {
    FirstField(s);
    RenderStarts(StatusFields(s), 22);
    LetterIsNoSpace();
  }

  lemma LetterIsNoSpace()
    ensures 'a' !in PYTHON_SPACE && 'P' !in PYTHON_SPACE && 'N' !in PYTHON_SPACE
    ensures 'd' !in PYTHON_SPACE && 'i' !in PYTHON_SPACE && 's' !in PYTHON_SPACE
  {}

  lemma {:induction false} RenderStarts(fields: seq<Field>, k: nat)
    requires 1 <= k <= |fields| && fields[0].key != "" && fields[0].key[0] == 'a'
    ensures var r := Render(fields[..k]); |r| >= 4 && StartsOk(r) && r[3] == 'a'
  {
    assert fields[..k][..k - 1] == fields[..k - 1];
    if k == 1 {
      assert Render(fields[..0]) == "OK";
    } else {
      RenderStarts(fields, k - 1);
    }
  }

  lemma NetworkAnswers(n: Network)
    ensures AnswersOk(NetworkLine(n))
  {
    LetterIsNoSpace();
    var r := NetworkLine(n);
    assert r[0] == 'O' && r[1] == 'K' && r[2] == ' ' && r[3] == 'i';
  }

  lemma QueryAnswers(s: State, k: Keyword)
    requires IsQueryKind(k)
    ensures Query(s, k).reply.Some? && AnswersOk(Query(s, k).reply.value)
  {
    LetterIsNoSpace();
    if k.Status? {
      StatusAnswers(Update(s));
    } else if k.NetworkInfo? {
      NetworkAnswers(s.net);
    }
  }

  /** Every command but the queries answers `OK`, `OK armed`, `OK safe` or an error. */
  predicate Plain(r: Option<string>) {
    r.Some? && (r.value == "OK" || r.value == "OK armed" || r.value == "OK safe" || Refuses(r.value))
  }

  lemma GuardedAnswers(s: State, k: Keyword, arg: Option<string>, env: Env)
    ensures Plain(Guarded(s, k, arg, env).reply)
  {}

  lemma OthersAnswer(s: State, k: Keyword, arg: Option<string>, arg2: Option<string>, env: Env)
    requires !IsQueryKind(k)
    ensures Plain(Perform(s, k, arg, arg2, env).reply)
  {
    GuardedAnswers(s, k, arg, env);
  }

  lemma PlainAnswers(r: Option<string>)
    requires Plain(r)
    ensures AnswersOk(r.value) || Refuses(r.value)
  {
    LetterIsNoSpace();
  }

  lemma PerformAnswers(s: State, k: Keyword, arg: Option<string>, arg2: Option<string>, env: Env)
    ensures var r := Perform(s, k, arg, arg2, env).reply; r.Some? && (AnswersOk(r.value) || Refuses(r.value))
  {
    if IsQueryKind(k) {
      QueryAnswers(s, k);
    } else {
      OthersAnswer(s, k, arg, arg2, env);
      PlainAnswers(Perform(s, k, arg, arg2, env).reply);
    }
  }

  lemma NothingLeads(r: string, a: string, rest: string, seps: set<char>)
    requires r == a + rest && All(a, seps) && r != "" && r[0] !in seps
    ensures a == ""
  {}

  lemma FourthStays(r: string, t: string, b: string, seps: set<char>)
    requires r == t + b && All(b, seps) && |r| >= 4 && r[3] !in seps
    ensures |t| >= 4
  {}

  /** Between white space a text keeps its first four characters, if they begin and end
      with something else. */
  lemma StripKeeps(r: string)
    requires |r| >= 4 && r[0] !in PYTHON_SPACE && r[3] !in PYTHON_SPACE
    ensures var t := D.Strip(r); |t| >= 4 && t[..4] == r[..4]
  {
    var a, b := StripSplits(r);
    var t := D.Strip(r);
    Assoc(a, t, b);
    NothingLeads(r, a, t + b, PYTHON_SPACE);
    NothingBefore(t + b);
    FourthStays(r, t, b, PYTHON_SPACE);
  }

  lemma AnswerReturns(r: string)
    requires AnswersOk(r)
    ensures D.StripOk(r).Ok?
  {
    if r == "OK" {
      D.StripClean(r);
    } else {
      StripKeeps(r);
      var t := D.Strip(r);
      assert t[0] == r[..4][0] && t[1] == r[..4][1] && t[2] == r[..4][2];
    }
    Branches(r);
  }

  /** What the driver makes of a reply of the device: the call returns exactly on `OK`
      and `OK ...`, and otherwise raises CommandError with the text behind `ERR `. */
  predicate Understood(r: string) { UnderstoodAs(r, D.StripOk(r)) }

  predicate UnderstoodAs(r: string, x: D.Result<string>) {
    && (x.Ok? <==> r == "OK" || StartsOk(r))
    && (x.Err? ==> StartsErr(r) && |r| >= 4 && x == D.Err(D.CommandError(r[4..])))
  }

  /** The text of a refusal. */
  predicate Detailed(r: string, detail: string) {
    r == "ERR " + detail && detail != "" && 'a' <= detail[0] <= 'z' && 'a' <= detail[|detail| - 1] <= 'z'
  }

  lemma RefusalUnderstood(r: string, detail: string)
    requires Detailed(r, detail)
    ensures Understood(r)
  {
    D.NotASpace(detail[|detail| - 1]);
    CleanRefusal(r, detail);
    RefusalForm(r, detail, D.StripOk(r));
  }

  lemma RefusalForm(r: string, detail: string, x: D.Result<string>)
    requires Detailed(r, detail) && x == D.Err(D.CommandError(detail))
    ensures UnderstoodAs(r, x)
  {
    assert r[0] == 'E' && r[1] == 'R' && r[2] == 'R' && r[4..] == detail;
  }

  lemma RefusalDetail(r: string) returns (detail: string)
    requires Refuses(r)
    ensures Detailed(r, detail)
  {
    detail := if r == "ERR disarmed" then "disarmed" else if r == "ERR mode" then "mode"
              else if r == "ERR range" then "range" else "command";
  }

  lemma EitherUnderstood(r: string)
    requires AnswersOk(r) || Refuses(r)
    ensures Understood(r)
  {
    if AnswersOk(r) {
      AnswerReturns(r);
    } else {
      var detail := RefusalDetail(r);
      RefusalUnderstood(r, detail);
    }
  }

  /** Any line in any state, if the device answers at all. */
  lemma CallReturnsExactly(s: State, line: string, env: Env)
    ensures var reply := Execute(s, line, env).reply; reply.Some? ==> Understood(reply.value)
  {
    var tokens := Split(CString(line), DELIMS);
    if tokens != [] {
      Runs(s, line, tokens, env);
      PerformAnswers(Touch(s, env), KeywordOf(tokens[0]), Token(tokens, 1), Token(tokens, 2), env);
      EitherUnderstood(Perform(Touch(s, env), KeywordOf(tokens[0]), Token(tokens, 1), Token(tokens, 2), env).reply.value);
    }
  }

  lemma Runs(s: State, line: string, tokens: seq<string>, env: Env)
    requires tokens == Split(CString(line), DELIMS) && tokens != []
    ensures Execute(s, line, env) == Perform(Touch(s, env), KeywordOf(tokens[0]), Token(tokens, 1), Token(tokens, 2), env)
  {}
}
