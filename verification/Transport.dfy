/** The driver's TCP transport: reassembling lines from chunks, aligning the
    reply stream after connecting, and one reply per command. */
module Transport {
  import opened Ascii

  datatype Error = TransportError | ProtocolError | ValueError

  datatype Result<+T> = Ok(value: T) | Err(error: Error)

  /** What one `recv` does: hand over bytes (none at all when the peer has
      closed), or raise. */
  datatype Recv = Chunk(data: string) | Raise

  /** An open connection: bytes received but not consumed, what the coming
      `recv` and `sendall` calls will do, and everything sent so far. Calls past
      the end of `incoming` time out; calls past the end of `sends` succeed. */
  datatype Link = Link(rx: string, incoming: seq<Recv>, sends: seq<bool>, sent: string)

  /** What a connection attempt does. */
  datatype Attempt = Refused | Accepted(incoming: seq<Recv>, sends: seq<bool>)

  datatype State = State(link: Option<Link>, greeting: seq<string>, attempts: seq<Attempt>)

  const SYNC_LINES: nat := 8

  predicate IsAscii(s: string) { forall i :: 0 <= i < |s| ==> s[i] < '\U{80}' }

  /** `raw.rstrip(b"\r").decode("ascii")`. */
  function Decode(raw: string): (r: Result<string>) {
    var line := TrimRight(raw, {'\r'});
    if IsAscii(line) then Ok(line) else Err(ProtocolError)
  }

  /** Position of the first line feed, or the length. */
  function LineEnd(s: string): (n: nat)
    ensures n <= |s| && '\n' !in s[..n] && (n < |s| ==> s[n] == '\n')
  {
    RunLength(s, {'\n'})
  }

  function Read(link: Link): (r: (Link, Result<string>))
    decreases |link.incoming|
  {
    var n := LineEnd(link.rx);
    if n < |link.rx| then (link.(rx := link.rx[n + 1..]), Decode(link.rx[..n]))
    else if link.incoming == [] then (link, Err(TransportError))
    else
      var next := link.(incoming := link.incoming[1..]);
      match link.incoming[0]
      case Raise => (next, Err(TransportError))
      case Chunk(data) => if data == "" then (next, Err(TransportError)) else Read(next.(rx := link.rx + data))
  }

  function Send(link: Link, text: string): (r: (Link, bool)) {
    if link.sends == [] then (link.(sent := link.sent + text), true)
    else if link.sends[0] then (link.(sends := link.sends[1..], sent := link.sent + text), true)
    else (link.(sends := link.sends[1..]), false)
  }

  /** Read up to `n` more lines, stopping behind `OK PONG`; `seen` collects the
      lines before it. */
  function Await(link: Link, n: nat, seen: seq<string>): (r: (Link, seq<string>, Option<Error>))
    decreases n
  {
    if n == 0 then (link, seen, Some(ProtocolError))
    else
      match Read(link)
      case (after, Err(e)) => (after, seen, Some(e))
      case (after, Ok(line)) =>
        if line == "OK PONG" then (after, seen, None) else Await(after, n - 1, seen + [line])
  }

  function Sync(link: Link): (r: (Link, seq<string>, Option<Error>)) {
    var s := Send(link, "PING\n");
    if s.1 then Await(s.0, SYNC_LINES, []) else (s.0, [], Some(TransportError))
  }

  function Close(s: State): (r: State) { s.(link := None) }

  function Connect(s: State): (r: (State, Option<Error>)) {
    if s.link.Some? then (s, None)
    else if s.attempts == [] then (s, Some(TransportError))
    else
      var t := s.(attempts := s.attempts[1..]);
      match s.attempts[0]
      case Refused => (t, Some(TransportError))
      case Accepted(incoming, sends) =>
        var r := Sync(Link("", incoming, sends, ""));
        if r.2.None? then (t.(link := Some(r.0), greeting := r.1), None)
        else (t.(greeting := r.1), r.2)
  }

  predicate SingleLine(text: string) { '\n' !in text && '\r' !in text }

  function Command(s: State, text: string): (r: (State, Result<string>)) {
    match Connect(s)
    case (t, Some(e)) => (t, Err(e))
    case (t, None) =>
      if t.link.None? then (t, Err(TransportError))
      else if !SingleLine(text) then (t, Err(ValueError))
      else if !IsAscii(text) then (t, Err(TransportError))
      else
        var s := Send(t.link.value, text + "\n");
        if !s.1 then (t.(link := Some(s.0)), Err(TransportError))
        else
          var r := Read(s.0);
          (t.(link := Some(r.0)), r.1)
  }

  // ---------------------------------------------------------------- class

  class SocketLineTransport {
    var connected: bool
    var rx: string
    var greeting: seq<string>
    /** The surroundings of the object. */
    var incoming: seq<Recv>
    var sends: seq<bool>
    var sent: string
    var attempts: seq<Attempt>

    /** Nothing is left over from an earlier connection. */
    ghost predicate Valid() reads this { !connected ==> rx == "" }

    function Open(): (r: Link)
      reads this
    {
      Link(rx, incoming, sends, sent)
    }

    function Abstract(): (r: State)
      reads this
    {
      State(if connected then Some(Open()) else None, greeting, attempts)
    }

    constructor (attempts: seq<Attempt>)
      ensures Valid() && Abstract() == State(None, [], attempts)
    {
      this.connected, this.rx, this.greeting := false, "", [];
      this.incoming, this.sends, this.sent := [], [], "";
      this.attempts := attempts;
    }

    method CloseSocket()
      requires Valid()
      modifies this
      ensures Valid() && !connected && Abstract() == Close(old(Abstract()))
      ensures rx == "" && greeting == old(greeting) && attempts == old(attempts)
    {
      if connected {
        connected := false;
        rx := "";
      }
    }

    /** One `recv`. */
    method Recv() returns (r: Option<string>)
      modifies this`incoming
      ensures old(incoming) == [] ==> r.None? && incoming == []
      ensures old(incoming) != [] ==> incoming == old(incoming[1..])
      ensures r.Some? <==> old(incoming) != [] && old(incoming[0]).Chunk?
      ensures r.Some? ==> r.value == old(incoming[0]).data
    {
      r := None;
      if incoming != [] {
        if incoming[0].Chunk? { r := Some(incoming[0].data); }
        incoming := incoming[1..];
      }
    }

    method SendAll(text: string) returns (ok: bool)
      modifies this`sends, this`sent
      ensures (Open(), ok) == Send(old(Open()), text)
    {
      ok := sends == [] || sends[0];
      if ok { sent := sent + text; }
      if sends != [] { sends := sends[1..]; }
    }

    /** `_readline`. */
    method ReadLine() returns (r: Result<string>)
      requires Valid()
      modifies this`rx, this`incoming
      ensures Valid()
      ensures !connected ==> r == Err(TransportError) && Abstract() == old(Abstract())
      ensures connected ==> (Open(), r) == Read(old(Open()))
    {
      if !connected { return Err(TransportError); }
      while true
        invariant Read(Open()) == Read(old(Open()))
        decreases |incoming|
      {
        var newline := LineEnd(rx);
        if newline < |rx| {
          var raw := rx[..newline];
          rx := rx[newline + 1..];
          return Decode(raw);
        }
        var chunk := Recv();
        if chunk.None? || chunk.value == "" { return Err(TransportError); }
        rx := rx + chunk.value;
      }
    }

    /** The reading half of `_sync`. */
    method AwaitPong() returns (e: Option<Error>)
      requires Valid() && connected
      modifies this`rx, this`incoming, this`greeting
      ensures Valid()
      ensures (Open(), greeting, e) == Await(old(Open()), SYNC_LINES, old(greeting))
    {
      ghost var result := Await(Open(), SYNC_LINES, greeting);
      var left := SYNC_LINES;
      while left > 0
        invariant Await(Open(), left, greeting) == result
      {
        ghost var before := Open();
        var line := ReadLine();
        assert Read(before) == (Open(), line);
        if line.Err? { return Some(line.error); }
        if line.value == "OK PONG" { return None; }
        greeting := greeting + [line.value];
        left := left - 1;
      }
      e := Some(ProtocolError);
    }

    /** `_sync`. */
    method SyncStream() returns (e: Option<Error>)
      requires Valid() && connected
      modifies this`rx, this`incoming, this`sends, this`sent, this`greeting
      ensures Valid() && (Open(), greeting, e) == Sync(old(Open()))
    {
      greeting := [];
      var ok := SendAll("PING\n");
      if !ok { return Some(TransportError); }
      e := AwaitPong();
    }

    /** `connect`. */
    method ConnectSocket() returns (e: Option<Error>)
      requires Valid()
      modifies this
      ensures Valid() && (Abstract(), e) == Connect(old(Abstract()))
      ensures connected <==> e.None?
    {
      if connected { return None; }
      if attempts == [] { return Some(TransportError); }
      var attempt := attempts[0];
      attempts := attempts[1..];
      if attempt.Refused? { return Some(TransportError); }
      connected, incoming, sends, sent := true, attempt.incoming, attempt.sends, "";
      e := SyncStream();
      if e.Some? { CloseSocket(); }
    }

    /** `command`. */
    method RunCommand(text: string) returns (r: Result<string>)
      requires Valid()
      modifies this
      ensures Valid() && (Abstract(), r) == Command(old(Abstract()), text)
    {
      var e := ConnectSocket();
      if e.Some? { return Err(e.value); }
      if '\n' in text || '\r' in text { return Err(ValueError); }
      if !IsAscii(text) { return Err(TransportError); }
      var ok := SendAll(text + "\n");
      if !ok { return Err(TransportError); }
      r := ReadLine();
    }
  }
}
