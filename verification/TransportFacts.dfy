/** What the transport guarantees whatever the network does to the chunking. */
module TransportFacts {
  import opened Ascii
  import opened Transport

  /** The bytes still to come before the next failing `recv`. */
  function Ahead(incoming: seq<Recv>): (r: string) {
    if incoming == [] || incoming[0].Raise? || incoming[0].data == "" then ""
    else incoming[0].data + Ahead(incoming[1..])
  }

  /** Everything a link can still deliver, however it is cut into chunks. */
  function Stream(link: Link): (r: string) { link.rx + Ahead(link.incoming) }

  lemma LineEndIs(s: string, n: nat)
    requires n < |s| && s[n] == '\n' && '\n' !in s[..n]
    ensures LineEnd(s) == n
  {
    RunLengthIs(s, {'\n'}, n);
  }

  /** Reading a line depends on the stream alone: it consumes through the first
      line feed, and loses, repeats or reorders nothing. */
  lemma {:induction false} ReadIsStream(link: Link)
    ensures var s, n, r := Stream(link), LineEnd(Stream(link)), Read(link);
            && r.0.sends == link.sends && r.0.sent == link.sent
            && (n < |s| ==> r.1 == Decode(s[..n]) && Stream(r.0) == s[n + 1..])
            && (n == |s| ==> r.1 == Err(TransportError) && r.0.rx == s)
    decreases |link.incoming|
  {
    var s, n := Stream(link), LineEnd(link.rx);
    if n < |link.rx| {
      assert s[..n] == link.rx[..n] && s[n] == '\n';
      LineEndIs(s, n);
      assert s[n + 1..] == link.rx[n + 1..] + Ahead(link.incoming);
    } else if link.incoming == [] || link.incoming[0].Raise? || link.incoming[0].data == "" {
      assert s == link.rx;
    } else {
      var next := link.(incoming := link.incoming[1..], rx := link.rx + link.incoming[0].data);
      assert Stream(next) == s;
      ReadIsStream(next);
    }
  }

  // ---------------------------------------------------------------- synchronisation

  /** What `_sync` reads, told on the stream alone: the unread rest, the greeting,
      and the failure if there is one. */
  function AwaitText(stream: string, n: nat, seen: seq<string>): (r: (string, seq<string>, Option<Error>))
    decreases n
  {
    var e := LineEnd(stream);
    if n == 0 then (stream, seen, Some(ProtocolError))
    else if e == |stream| then (stream, seen, Some(TransportError))
    else if Decode(stream[..e]).Err? then (stream[e + 1..], seen, Some(ProtocolError))
    else
      var line := Decode(stream[..e]).value;
      if line == "OK PONG" then (stream[e + 1..], seen, None)
      else AwaitText(stream[e + 1..], n - 1, seen + [line])
  }

  /** How one more line changes the reading, on either side. */
  lemma AwaitStep(link: Link, n: nat, seen: seq<string>, line: string)
    requires n > 0 && Read(link).1 == Ok(line) && line != "OK PONG"
    ensures Await(link, n, seen) == Await(Read(link).0, n - 1, seen + [line])
  {}

  lemma TextStep(stream: string, n: nat, seen: seq<string>, line: string, rest: string)
    requires n > 0 && LineEnd(stream) < |stream| && Decode(stream[..LineEnd(stream)]) == Ok(line) && line != "OK PONG"
    requires rest == stream[LineEnd(stream) + 1..]
    ensures AwaitText(stream, n, seen) == AwaitText(rest, n - 1, seen + [line])
  {}

  lemma ReadMoves(link: Link, line: string)
    requires Read(link).1 == Ok(line)
    ensures var s, n := Stream(link), LineEnd(Stream(link));
            && n < |s| && Decode(s[..n]) == Ok(line) && Stream(Read(link).0) == s[n + 1..]
            && Read(link).0.sends == link.sends && Read(link).0.sent == link.sent
  {
    ReadIsStream(link);
  }

  ghost predicate SameReading(link: Link, n: nat, seen: seq<string>) {
    var a, t := Await(link, n, seen), AwaitText(Stream(link), n, seen);
    && a.1 == t.1 && a.2 == t.2 && a.0.sends == link.sends && a.0.sent == link.sent
    && (a.2.None? ==> Stream(a.0) == t.0)
  }

  lemma StopsAlike(link: Link, n: nat, seen: seq<string>)
    requires n == 0 || Read(link).1.Err? || Read(link).1 == Ok("OK PONG")
    ensures SameReading(link, n, seen)
  {
    ReadIsStream(link);
  }

  lemma GoesOnAlike(link: Link, after: Link, n: nat, seen: seq<string>, line: string)
    requires n > 0 && Read(link) == (after, Ok(line)) && line != "OK PONG"
    requires SameReading(after, n - 1, seen + [line])
    ensures SameReading(link, n, seen)
  {
    ReadMoves(link, line);
    AwaitStep(link, n, seen, line);
    TextStep(Stream(link), n, seen, line, Stream(after));
  }

  lemma OneMoreLine(link: Link, after: Link, n: nat, seen: seq<string>, line: string)
    requires n > 0 && Read(link) == (after, Ok(line))
    requires SameReading(after, n - 1, seen + [line])
    ensures SameReading(link, n, seen)
  {
    if line == "OK PONG" { StopsAlike(link, n, seen); } else { GoesOnAlike(link, after, n, seen, line); }
  }

  ghost predicate AllAlike(n: nat) { forall link: Link, seen: seq<string> :: SameReading(link, n, seen) }

  lemma OneMoreRead(link: Link, n: nat, seen: seq<string>)
    requires n > 0 && AllAlike(n - 1)
    ensures SameReading(link, n, seen)
  {
    match Read(link)
    case (after, Err(e)) => StopsAlike(link, n, seen);
    case (after, Ok(line)) => OneMoreLine(link, after, n, seen, line);
  }

  lemma {:induction false} AlwaysAlike(n: nat)
    ensures AllAlike(n)
  {
    if n == 0 {
      forall link: Link, seen: seq<string> ensures SameReading(link, n, seen) { StopsAlike(link, n, seen); }
    } else {
      AlwaysAlike(n - 1);
      forall link: Link, seen: seq<string> ensures SameReading(link, n, seen) { OneMoreRead(link, n, seen); }
    }
  }

  /** Synchronisation does not depend on the chunking either, in success and in
      failure. */
  lemma AwaitIsStream(link: Link, n: nat, seen: seq<string>)
    ensures SameReading(link, n, seen)
  {
    AlwaysAlike(n);
  }

  /** A printed line: `Serial.println` and `client.println` end it with CR LF. */
  function OnWire(lines: seq<string>): (r: string) {
    if lines == [] then "" else OnWire(lines[..|lines| - 1]) + lines[|lines| - 1] + "\r\n"
  }

  /** Text that survives printing and reading as one line. */
  predicate LineText(s: string) { IsAscii(s) && '\n' !in s && (s != "" ==> s[|s| - 1] != '\r') }

  lemma DecodePrinted(line: string)
    requires LineText(line)
    ensures Decode(line + "\r") == Ok(line)
  {
    var raw := line + "\r";
    assert raw[..|raw| - 1] == line;
    TrimmedOnce(line);
  }

  lemma TrimmedOnce(line: string)
    requires LineText(line)
    ensures TrimRight(line, {'\r'}) == line
  {}

  /** The first printed line of a stream. */
  lemma FirstLine(line: string, rest: string)
    requires LineText(line)
    ensures var s := line + "\r\n" + rest;
            var n := LineEnd(s);
            n < |s| && Decode(s[..n]) == Ok(line) && s[n + 1..] == rest
  {
    var s := line + "\r\n" + rest;
    assert s[..|line| + 1] == line + "\r";
    LineEndIs(s, |line| + 1);
    DecodePrinted(line);
  }

  lemma {:induction false} OnWireCons(line: string, lines: seq<string>)
    ensures OnWire([line] + lines) == line + "\r\n" + OnWire(lines)
  {
    var all := [line] + lines;
    if lines == [] {
      assert all[..0] == [];
      assert OnWire([]) == "";
    } else {
      OnWireCons(line, lines[..|lines| - 1]);
      assert all[..|all| - 1] == [line] + lines[..|lines| - 1];
    }
  }

  lemma PongStops(rest: string, n: nat, seen: seq<string>)
    requires n > 0
    ensures AwaitText("OK PONG" + "\r\n" + rest, n, seen) == (rest, seen, None)
  {
    FirstLine("OK PONG", rest);
  }

  lemma LineGoesOn(stream: string, line: string, tail: string, n: nat, seen: seq<string>)
    requires stream == line + "\r\n" + tail && LineText(line) && line != "OK PONG" && n > 0
    ensures AwaitText(stream, n, seen) == AwaitText(tail, n - 1, seen + [line])
  {
    FirstLine(line, tail);
    TextStep(stream, n, seen, line, tail);
  }

  /** Printed text after printed text, taken from the front. */
  lemma PrintedFront(greeting: seq<string>, tail: string)
    requires greeting != []
    ensures OnWire(greeting) + tail == greeting[0] + "\r\n" + (OnWire(greeting[1..]) + tail)
  {
    assert greeting == [greeting[0]] + greeting[1..];
    OnWireCons(greeting[0], greeting[1..]);
  }

  predicate Greets(greeting: seq<string>) {
    forall i :: 0 <= i < |greeting| ==> LineText(greeting[i]) && greeting[i] != "OK PONG"
  }

  lemma GreetsOn(greeting: seq<string>)
    requires Greets(greeting) && greeting != []
    ensures LineText(greeting[0]) && greeting[0] != "OK PONG" && Greets(greeting[1..])
  {}

  lemma SeenSoFar(seen: seq<string>, greeting: seq<string>)
    requires greeting != []
    ensures (seen + [greeting[0]]) + greeting[1..] == seen + greeting
  {}

  ghost predicate PassedOver(greeting: seq<string>, tail: string, n: nat, seen: seq<string>) {
    && |greeting| <= n
    && AwaitText(OnWire(greeting) + tail, n, seen) == AwaitText(tail, n - |greeting|, seen + greeting)
  }

  lemma NoneToPass(tail: string, n: nat, seen: seq<string>)
    ensures PassedOver([], tail, n, seen)
  {
    NothingAdded(tail, seen);
  }

  lemma NothingAdded(tail: string, seen: seq<string>)
    ensures OnWire([]) + tail == tail && seen + [] == seen
  {}

  lemma OneMorePassed(greeting: seq<string>, tail: string, n: nat, seen: seq<string>)
    requires greeting != [] && |greeting| <= n && Greets(greeting)
    requires PassedOver(greeting[1..], tail, n - 1, seen + [greeting[0]])
    ensures PassedOver(greeting, tail, n, seen)
  {
    SeenSoFar(seen, greeting);
    GreetsOn(greeting);
    PrintedFront(greeting, tail);
    LineGoesOn(OnWire(greeting) + tail, greeting[0], OnWire(greeting[1..]) + tail, n, seen);
  }

  /** Greeting lines are read one by one and collected. */
  lemma {:induction false} AwaitPrinted(greeting: seq<string>, tail: string, n: nat, seen: seq<string>)
    requires |greeting| <= n && Greets(greeting)
    ensures PassedOver(greeting, tail, n, seen)
    decreases |greeting|
  {
    if greeting == [] {
      NoneToPass(tail, n, seen);
    } else {
      GreetsOn(greeting);
      AwaitPrinted(greeting[1..], tail, n - 1, seen + [greeting[0]]);
      OneMorePassed(greeting, tail, n, seen);
    }
  }

  /** Any greeting of at most seven lines other than `OK PONG`, in any chunks:
      `_sync` records it and consumes exactly through the PONG line. */
  lemma SyncAligns(link: Link, greeting: seq<string>, rest: string)
    requires |greeting| <= 7 && Greets(greeting)
    requires Stream(link) == OnWire(greeting) + ("OK PONG" + "\r\n" + rest) && Send(link, "PING\n").1
    ensures var r := Sync(link); r.1 == greeting && r.2 == None && Stream(r.0) == rest
  {
    var sent := Send(link, "PING\n").0;
    assert Stream(sent) == Stream(link);
    AwaitIsStream(sent, SYNC_LINES, []);
    AwaitPrinted(greeting, "OK PONG" + "\r\n" + rest, SYNC_LINES, []);
    PongStops(rest, SYNC_LINES - |greeting|, [] + greeting);
    assert [] + greeting == greeting;
  }

  /** Seven is the limit: a greeting of eight lines is a protocol error, even if
      the PONG follows at once. */
  lemma EightLinesAreTooMany(link: Link, greeting: seq<string>, rest: string)
    requires |greeting| == 8 && Greets(greeting)
    requires Stream(link) == OnWire(greeting) + rest && Send(link, "PING\n").1
    ensures Sync(link).2 == Some(ProtocolError)
  {
    var sent := Send(link, "PING\n").0;
    assert Stream(sent) == Stream(link);
    AwaitIsStream(sent, SYNC_LINES, []);
    AwaitPrinted(greeting, rest, SYNC_LINES, []);
  }

  // ---------------------------------------------------------------- commands

  /** Calls of `command` one after the other, and their results. */
  function Exchange(s: State, texts: seq<string>): (r: (State, seq<Result<string>>)) {
    if texts == [] then (s, [])
    else
      var before := Exchange(s, texts[..|texts| - 1]);
      var r := Command(before.0, texts[|texts| - 1]);
      (r.0, before.1 + [r.1])
  }

  function SentText(texts: seq<string>): (r: string) {
    if texts == [] then "" else SentText(texts[..|texts| - 1]) + (texts[|texts| - 1] + "\n")
  }

  function AllOk(lines: seq<string>): (r: seq<Result<string>>)
    ensures |r| == |lines|
  {
    seq(|lines|, i requires 0 <= i < |lines| => Ok(lines[i]))
  }

  /** The first `n` calls of `sendall` succeed. */
  predicate SendsWork(sends: seq<bool>, n: nat) { forall i :: 0 <= i < n && i < |sends| ==> sends[i] }

  function SendsLeft(sends: seq<bool>, n: nat): (r: seq<bool>) { if n <= |sends| then sends[n..] else [] }

  /** One command on an open link whose stream starts with a printed line. */
  lemma CommandReads(s: State, text: string, reply: string, rest: string)
    requires s.link.Some? && Exchangeable(text, reply) && SendsWork(s.link.value.sends, 1)
    requires Stream(s.link.value) == reply + "\r\n" + rest
    ensures var r := Command(s, text);
            && r.1 == Ok(reply) && r.0.link.Some? && r.0.greeting == s.greeting
            && Stream(r.0.link.value) == rest && r.0.link.value.sends == SendsLeft(s.link.value.sends, 1)
            && r.0.link.value.sent == s.link.value.sent + (text + "\n")
  {
    var l := Send(s.link.value, text + "\n").0;
    assert Stream(l) == Stream(s.link.value);
    ReadIsStream(l);
    FirstLine(reply, rest);
  }

  /** The results of a sequence of calls on an open link, and what it leaves. */
  ghost predicate Aligned(s: State, texts: seq<string>, replies: seq<string>, rest: string) {
    var r := Exchange(s, texts);
    && s.link.Some? && r.1 == AllOk(replies) && r.0.link.Some? && r.0.greeting == s.greeting
    && Stream(r.0.link.value) == rest && r.0.link.value.sends == SendsLeft(s.link.value.sends, |texts|)
    && r.0.link.value.sent == s.link.value.sent + SentText(texts)
  }

  predicate Exchangeable(text: string, reply: string) { SingleLine(text) && IsAscii(text) && LineText(reply) }

  lemma NoReplies(s: State, rest: string)
    requires s.link.Some? && Stream(s.link.value) == rest
    ensures Aligned(s, [], [], rest)
  {
    assert s.link.value.sent + SentText([]) == s.link.value.sent;
  }

  lemma SendsLeftNext(sends: seq<bool>, n: nat)
    requires SendsWork(sends, n + 1)
    ensures SendsWork(SendsLeft(sends, n), 1) && SendsLeft(SendsLeft(sends, n), 1) == SendsLeft(sends, n + 1)
  {}

  lemma OneMoreReply(s: State, texts: seq<string>, replies: seq<string>, text: string, reply: string, rest: string)
    requires Aligned(s, texts, replies, reply + "\r\n" + rest) && Exchangeable(text, reply)
    requires SendsWork(s.link.value.sends, |texts| + 1)
    ensures Aligned(s, texts + [text], replies + [reply], rest)
  {
    var before := Exchange(s, texts).0;
    SendsLeftNext(s.link.value.sends, |texts|);
    CommandReads(before, text, reply, rest);
    assert (texts + [text])[..|texts|] == texts;
    assert AllOk(replies + [reply]) == AllOk(replies) + [Ok(reply)];
    assert SentText(texts + [text]) == SentText(texts) + (text + "\n");
    assert (s.link.value.sent + SentText(texts)) + (text + "\n") == s.link.value.sent + SentText(texts + [text]);
  }

  lemma LastPrinted(replies: seq<string>, rest: string)
    requires replies != []
    ensures var n := |replies| - 1; OnWire(replies) + rest == OnWire(replies[..n]) + (replies[n] + "\r\n" + rest)
  {
    var n := |replies| - 1;
    FourPieces(OnWire(replies[..n]), replies[n], "\r\n", rest);
  }

  lemma FourPieces(a: string, b: string, c: string, d: string)
    ensures ((a + b) + c) + d == a + ((b + c) + d)
  {}

  /** Texts a call can send, and replies it can read back, pair by pair. */
  predicate Matched(texts: seq<string>, replies: seq<string>) {
    |texts| == |replies| && forall i :: 0 <= i < |texts| ==> Exchangeable(texts[i], replies[i])
  }

  lemma MatchedBefore(texts: seq<string>, replies: seq<string>)
    requires Matched(texts, replies) && texts != []
    ensures var n := |texts| - 1; Matched(texts[..n], replies[..n]) && Exchangeable(texts[n], replies[n])
  {}

  lemma LastOf(texts: seq<string>)
    requires texts != []
    ensures texts == texts[..|texts| - 1] + [texts[|texts| - 1]]
  {}

  /** Reply alignment: if the peer prints one line per command, the k-th call
      returns the k-th line, whatever the chunking, and nothing else of the
      stream is touched. */
  lemma {:induction false} RepliesAlign(s: State, texts: seq<string>, replies: seq<string>, rest: string)
    requires s.link.Some? && SendsWork(s.link.value.sends, |texts|) && Matched(texts, replies)
    requires Stream(s.link.value) == OnWire(replies) + rest
    ensures Aligned(s, texts, replies, rest)
    decreases |texts|
  {
    if texts == [] {
      NothingAdded(rest, []);
      NoReplies(s, rest);
    } else {
      var n := |texts| - 1;
      MatchedBefore(texts, replies);
      LastPrinted(replies, rest);
      RepliesAlign(s, texts[..n], replies[..n], replies[n] + "\r\n" + rest);
      OneMoreReply(s, texts[..n], replies[..n], texts[n], replies[n], rest);
      LastOf(texts);
      LastOf(replies);
    }
  }

  // ---------------------------------------------------------------- failures

  /** How many of `n` calls of `sendall` succeed before the first that fails. */
  function Successes(sends: seq<bool>, n: nat): (k: nat)
    ensures k <= n && SendsWork(sends, k) && (k < n ==> k < |sends| && !sends[k])
  {
    if n == 0 || (sends != [] && !sends[0]) then 0
    else if sends == [] then n
    else
      var k := 1 + Successes(sends[1..], n - 1);
      assert forall i :: 0 < i < |sends| ==> sends[i] == sends[1..][i - 1];
      k
  }

  lemma {:induction false} ExchangePrefix(s: State, texts: seq<string>, k: nat)
    requires k < |texts|
    ensures |Exchange(s, texts).1| == |texts| && |Exchange(s, texts[..k]).1| == k
    ensures Exchange(s, texts).1[..k] == Exchange(s, texts[..k]).1
    ensures Exchange(s, texts).1[k] == Command(Exchange(s, texts[..k]).0, texts[k]).1
  {
    var n := |texts| - 1;
    ExchangeLength(s, texts);
    ExchangeLength(s, texts[..k]);
    ExchangeLength(s, texts[..n]);
    if k == n {
    } else {
      ExchangePrefix(s, texts[..n], k);
      assert texts[..n][..k] == texts[..k];
    }
  }

  lemma {:induction false} ExchangeLength(s: State, texts: seq<string>)
    ensures |Exchange(s, texts).1| == |texts|
  {
    if texts == [] {
    } else {
      ExchangeLength(s, texts[..|texts| - 1]);
    }
  }

  lemma CommandFails(s: State, text: string)
    requires s.link.Some? && SingleLine(text) && IsAscii(text)
    requires !SendsWork(s.link.value.sends, 1) || '\n' !in Stream(s.link.value)
    ensures Command(s, text).1 == Err(TransportError)
  {
    var l := Send(s.link.value, text + "\n").0;
    assert Stream(l) == Stream(s.link.value);
    ReadIsStream(l);
  }

  lemma AlignedPrefix(s: State, texts: seq<string>, replies: seq<string>, tail: string, rest: string)
    requires s.link.Some? && SendsWork(s.link.value.sends, |texts|) && Matched(texts, replies)
    requires Stream(s.link.value) == (OnWire(replies) + tail) + rest
    ensures Aligned(s, texts, replies, tail + rest)
  {
    Regrouped(OnWire(replies), tail, rest);
    RepliesAlign(s, texts, replies, tail + rest);
  }

  lemma Regrouped(a: string, b: string, c: string)
    ensures (a + b) + c == a + (b + c)
  {}

  lemma NextFails(s: State, texts: seq<string>, replies: seq<string>, tail: string, text: string)
    requires Aligned(s, texts, replies, tail) && SingleLine(text) && IsAscii(text)
    requires '\n' !in tail || (|texts| < |s.link.value.sends| && !s.link.value.sends[|texts|])
    ensures Command(Exchange(s, texts).0, text).1 == Err(TransportError)
  {
    CommandFails(Exchange(s, texts).0, text);
  }

  predicate AllLines(texts: seq<string>) { forall i :: 0 <= i < |texts| ==> SingleLine(texts[i]) && IsAscii(texts[i]) }

  lemma MatchedUpTo(texts: seq<string>, replies: seq<string>, k: nat)
    requires AllLines(texts) && k <= |replies| && k <= |texts| && forall i :: 0 <= i < |replies| ==> LineText(replies[i])
    ensures Matched(texts[..k], replies[..k])
  {}

  /** The calls before the first failure return their own replies. */
  lemma AlignedBefore(s: State, texts: seq<string>, replies: seq<string>, rest: string, k: nat)
    requires s.link.Some? && AllLines(texts) && k <= |replies| && k <= |texts| && SendsWork(s.link.value.sends, k)
    requires forall i :: 0 <= i < |replies| ==> LineText(replies[i])
    requires Stream(s.link.value) == OnWire(replies) + rest
    ensures Aligned(s, texts[..k], replies[..k], OnWire(replies[k..]) + rest)
  {
    WireSplits(replies, k);
    MatchedUpTo(texts, replies, k);
    AlignedPrefix(s, texts[..k], replies[..k], OnWire(replies[k..]), rest);
  }

  lemma NothingPrinted(replies: seq<string>, rest: string)
    ensures OnWire(replies[|replies|..]) + rest == rest
  {
    NothingAdded(rest, []);
  }

  /** Alignment up to the first failure: of the calls, those before the first
      failing send, and as many as there are complete lines on the stream, return
      their own reply, and the next one is a transport error. */
  lemma AlignedUntilFailure(s: State, texts: seq<string>, replies: seq<string>, rest: string)
    requires s.link.Some? && AllLines(texts) && |replies| <= |texts| && '\n' !in rest
    requires forall i :: 0 <= i < |replies| ==> LineText(replies[i])
    requires Stream(s.link.value) == OnWire(replies) + rest
    ensures var k, r := Successes(s.link.value.sends, |replies|), Exchange(s, texts).1;
            |r| == |texts| && r[..k] == AllOk(replies[..k]) && (k < |texts| ==> r[k] == Err(TransportError))
  {
    var k := Successes(s.link.value.sends, |replies|);
    ExchangeLength(s, texts);
    AlignedBefore(s, texts, replies, rest, k);
    if k == |texts| {
      assert texts[..k] == texts;
    } else {
      ExchangePrefix(s, texts, k);
      NothingPrinted(replies, rest);
      NextFails(s, texts[..k], replies[..k], OnWire(replies[k..]) + rest, texts[k]);
    }
  }

  lemma {:induction false} WireSplits(replies: seq<string>, k: nat)
    requires k <= |replies|
    ensures OnWire(replies) == OnWire(replies[..k]) + OnWire(replies[k..])
  {
    if k == |replies| {
      assert replies[..k] == replies && OnWire(replies[k..]) == "";
    } else {
      var n := |replies| - 1;
      WireSplits(replies[..n], k);
      assert replies[..n][..k] == replies[..k] && replies[..n][k..] == replies[k..][..n - k];
      assert replies[k..][n - k] == replies[n];
    }
  }

  // ---------------------------------------------------------------- what is raised

  /** A received line without the carriage returns at its end is the reply, if it is
      ASCII. */
  lemma DecodeExactly(line: string, returned: string)
    requires All(returned, {'\r'}) && (line != "" ==> line[|line| - 1] != '\r')
    ensures Decode(line + returned) ==
            if forall i :: 0 <= i < |line| ==> line[i] < '\U{80}' then Ok(line) else Err(ProtocolError)
  {
    RightPassed(line, returned, {'\r'});
  }

  /** What `command` raises on an open connection before anything is read, and what has
      happened by then. */
  lemma CommandRefusesExactly(s: State, text: string)
    requires s.link.Some?
    ensures ('\n' in text || '\r' in text) ==> Command(s, text) == (s, Err(ValueError))
    ensures '\n' !in text && '\r' !in text && (exists i :: 0 <= i < |text| && text[i] >= '\U{80}') ==>
              Command(s, text) == (s, Err(TransportError))
    ensures '\n' !in text && '\r' !in text && (forall i :: 0 <= i < |text| ==> text[i] < '\U{80}')
            && s.link.value.sends != [] && !s.link.value.sends[0] ==>
              Command(s, text) == (s.(link := Some(s.link.value.(sends := s.link.value.sends[1..]))), Err(TransportError))
  {}

  /** And otherwise: the line is sent, and the answer is the next line of the stream, or
      a transport error if the stream ends before one is complete. */
  lemma CommandReadsExactly(s: State, text: string)
    requires s.link.Some? && SingleLine(text) && IsAscii(text) && SendsWork(s.link.value.sends, 1)
    ensures var r, stream := Command(s, text), Stream(s.link.value);
            && r.0.link.Some? && r.0.link.value.sent == s.link.value.sent + (text + "\n") && r.0.greeting == s.greeting
            && ('\n' !in stream ==> r.1 == Err(TransportError))
            && (forall n :: 0 <= n < |stream| && stream[n] == '\n' && '\n' !in stream[..n] ==>
                  r.1 == Decode(stream[..n]) && Stream(r.0.link.value) == stream[n + 1..])
  {
    var l := Send(s.link.value, text + "\n").0;
    var stream := Stream(s.link.value);
    assert Stream(l) == stream;
    ReadIsStream(l);
    forall n | 0 <= n < |stream| && stream[n] == '\n' && '\n' !in stream[..n] ensures n == LineEnd(stream) {
      LineEndIs(stream, n);
    }
  }

  /** How connecting ends: a refused attempt leaves nothing open, an accepted one exactly
      if the synchronisation succeeds; an open connection is kept as it is. */
  lemma ConnectExactly(s: State)
    ensures s.link.Some? ==> Connect(s) == (s, None)
    ensures s.link.None? && (s.attempts == [] || s.attempts[0].Refused?) ==>
              Connect(s).1 == Some(TransportError) && Connect(s).0.link.None? && Connect(s).0.greeting == s.greeting
    ensures s.link.None? && s.attempts != [] && s.attempts[0].Accepted? ==>
              var r := Sync(Link("", s.attempts[0].incoming, s.attempts[0].sends, ""));
              && Connect(s).1 == r.2 && Connect(s).0.greeting == r.1
              && Connect(s).0.link == if r.2.None? then Some(r.0) else None
  {}
}
