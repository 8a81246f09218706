/** Line framing: the byte automaton of `pollStream`, and what it means for a
    whole byte stream. */
module Framing {
  import opened Ascii

  const CAPACITY: nat := 96

  /** What a byte can complete: a line handed to `handleCommand`, or an overrun. */
  datatype Frame = Line(text: string) | TooLong

  datatype Fed = Fed(buffer: string, frame: Option<Frame>)

  /** One iteration of the loop in `pollStream`. */
  function Feed(buffer: string, c: char): (r: Fed)
    requires |buffer| < CAPACITY
    ensures |r.buffer| < CAPACITY
  {
    if c == '\r' then Fed(buffer, None)
    else if c == '\n' then Fed("", Some(Line(buffer)))
    else if |buffer| + 1 < CAPACITY then Fed(buffer + [c], None)
    else Fed("", Some(TooLong))
  }

  function Emit(f: Option<Frame>): (r: seq<Frame>) { if f.Some? then [f.value] else [] }

  /** Buffer left behind by a stream that started on an empty buffer. */
  function Pending(bytes: string): (r: string)
    ensures |r| < CAPACITY
  {
    if bytes == "" then "" else Feed(Pending(bytes[..|bytes| - 1]), bytes[|bytes| - 1]).buffer
  }

  /** Frames completed by a stream that started on an empty buffer. */
  function Frames(bytes: string): (r: seq<Frame>) {
    if bytes == "" then []
    else
      var init := bytes[..|bytes| - 1];
      Frames(init) + Emit(Feed(Pending(init), bytes[|bytes| - 1]).frame)
  }

  lemma StreamSnoc(bytes: string, c: char)
    ensures Frames(bytes + [c]) == Frames(bytes) + Emit(Feed(Pending(bytes), c).frame)
    ensures Pending(bytes + [c]) == Feed(Pending(bytes), c).buffer
  {
    assert (bytes + [c])[..|bytes|] == bytes;
  }

  // ------------------------------------------------- declarative reading

  /** Carriage returns do not take part in framing. */
  function WithoutCR(bytes: string): (r: string) {
    if bytes == "" then ""
    else WithoutCR(bytes[..|bytes| - 1]) + if bytes[|bytes| - 1] == '\r' then "" else [bytes[|bytes| - 1]]
  }

  /** The text between line feeds; the last segment is still open. */
  function Segments(text: string): (r: seq<string>)
    ensures r != []
  {
    if text == "" then [""]
    else
      var r, c := Segments(text[..|text| - 1]), text[|text| - 1];
      if c == '\n' then r + [""] else r[..|r| - 1] + [r[|r| - 1] + [c]]
  }

  function Repeat(n: nat): (r: seq<Frame>) { if n == 0 then [] else Repeat(n - 1) + [TooLong] }

  /** The last `n mod 96` characters of a segment of length `n`. */
  function Remainder(segment: string): (r: string)
    ensures |r| == |segment| % 96
  {
    Last(segment, |segment| % 96)
  }

  /** A finished segment of n characters: n / 96 overruns, then a line holding
      its last n mod 96 characters. */
  function Finished(segment: string): (r: seq<Frame>) {
    Repeat(|segment| / 96) + [Line(Remainder(segment))]
  }

  function AllFinished(segments: seq<string>): (r: seq<Frame>) {
    if segments == [] then []
    else AllFinished(segments[..|segments| - 1]) + Finished(segments[|segments| - 1])
  }

  lemma OneLonger(n: nat)
    ensures n % 96 + 1 < 96 ==> (n + 1) % 96 == n % 96 + 1 && (n + 1) / 96 == n / 96
    ensures n % 96 + 1 == 96 ==> (n + 1) % 96 == 0 && (n + 1) / 96 == n / 96 + 1
  {}

  /** The last `k` characters. */
  function Last(s: string, k: nat): (r: string)
    requires k <= |s|
    ensures |r| == k
  {
    s[|s| - k..]
  }

  lemma LastNext(s: string, c: char, k: nat)
    requires k <= |s|
    ensures Last(s + [c], k + 1) == Last(s, k) + [c]
  {}

  lemma SegmentStep(segment: string, c: char)
    requires c != '\r' && c != '\n'
    ensures var f := Feed(Remainder(segment), c);
            && f.buffer == Remainder(segment + [c])
            && Repeat(|segment| / 96) + Emit(f.frame) == Repeat(|segment + [c]| / 96)
  {
    var n := |segment|;
    OneLonger(n);
    LastNext(segment, c, n % 96);
  }

  /** What the segments of a text without carriage returns stand for. */
  function RuleFrames(text: string): (r: seq<Frame>) {
    var s := Segments(text);
    AllFinished(s[..|s| - 1]) + Repeat(|s[|s| - 1]| / 96)
  }

  function RuleBuffer(text: string): (r: string)
    ensures |r| < 96
  {
    var s := Segments(text);
    Remainder(s[|s| - 1])
  }

  lemma SegmentsSnoc(text: string, c: char)
    ensures var r := Segments(text);
            Segments(text + [c]) == if c == '\n' then r + [""] else r[..|r| - 1] + [r[|r| - 1] + [c]]
  {
    assert (text + [c])[..|text + [c]| - 1] == text;
  }

  lemma AllFinishedSnoc(done: seq<string>, last: string)
    ensures AllFinished(done + [last]) == AllFinished(done) + Finished(last)
  {
    assert (done + [last])[..|done|] == done;
  }

  lemma WithoutCRSnoc(bytes: string, c: char)
    ensures WithoutCR(bytes + [c]) == if c == '\r' then WithoutCR(bytes) else WithoutCR(bytes) + [c]
  {
    assert (bytes + [c])[..|bytes + [c]| - 1] == bytes;
  }

  /** A line feed finishes the open segment. */
  lemma RuleLineFeed(text: string)
    ensures RuleBuffer(text + ['\n']) == ""
    ensures RuleFrames(text + ['\n']) == RuleFrames(text) + [Line(RuleBuffer(text))]
  {
    var before := Segments(text);
    var done, open := before[..|before| - 1], before[|before| - 1];
    SegmentsSnoc(text, '\n');
    var after := before + [""];
    assert after[..|after| - 1] == before == done + [open] && after[|after| - 1] == "";
    assert |""| / CAPACITY == 0 && Repeat(0) == [];
    AllFinishedSnoc(done, open);
    Regroup(AllFinished(done), Repeat(|open| / CAPACITY), Line(Remainder(open)));
  }

  lemma Regroup(done: seq<Frame>, overruns: seq<Frame>, line: Frame)
    ensures (done + (overruns + [line])) + [] == (done + overruns) + [line]
  {}

  /** Any other character extends it. */
  lemma RuleCharacter(text: string, c: char)
    requires c != '\r' && c != '\n'
    ensures var f := Feed(RuleBuffer(text), c);
            && RuleBuffer(text + [c]) == f.buffer
            && RuleFrames(text + [c]) == RuleFrames(text) + Emit(f.frame)
  {
    var before := Segments(text);
    var done, open := before[..|before| - 1], before[|before| - 1];
    SegmentsSnoc(text, c);
    var after := done + [open + [c]];
    assert after[..|after| - 1] == done && after[|after| - 1] == open + [c];
    SegmentStep(open, c);
    RepeatAppend(AllFinished(done), open, c);
  }

  lemma RuleStep(text: string, c: char)
    requires c != '\r'
    ensures var f := Feed(RuleBuffer(text), c);
            && RuleBuffer(text + [c]) == f.buffer
            && RuleFrames(text + [c]) == RuleFrames(text) + Emit(f.frame)
  {
    if c == '\n' { RuleLineFeed(text); } else { RuleCharacter(text, c); }
  }

  lemma RepeatAppend(done: seq<Frame>, open: string, c: char)
    requires var f := Feed(Remainder(open), c);
             Repeat(|open| / CAPACITY) + Emit(f.frame) == Repeat(|open + [c]| / CAPACITY)
    ensures var f := Feed(Remainder(open), c);
            done + Repeat(|open + [c]| / CAPACITY) == (done + Repeat(|open| / CAPACITY)) + Emit(f.frame)
  {}

  /** The framing rule: cut the stream at line feeds after dropping carriage
      returns; every finished segment gives its overruns and its line, and the
      open one gives its overruns so far and stays in the buffer. */
  lemma {:induction false} FramingRule(bytes: string)
    ensures Frames(bytes) == RuleFrames(WithoutCR(bytes))
    ensures Pending(bytes) == RuleBuffer(WithoutCR(bytes))
  {
    if bytes != "" {
      var init, c := bytes[..|bytes| - 1], bytes[|bytes| - 1];
      FramingRule(init);
      WithoutCRSnoc(init, c);
      assert init + [c] == bytes;
      if c != '\r' { RuleStep(WithoutCR(init), c); }
    } else {
      assert Repeat(0) == [];
    }
  }

  /** How a stream is cut into deliveries makes no difference. */
  function FeedAll(buffer: string, bytes: string): (r: (string, seq<Frame>))
    requires |buffer| < CAPACITY
    ensures |r.0| < CAPACITY
    decreases |bytes|
  {
    if bytes == "" then (buffer, [])
    else
      var f := Feed(buffer, bytes[0]);
      var rest := FeedAll(f.buffer, bytes[1..]);
      (rest.0, Emit(f.frame) + rest.1)
  }

  lemma {:induction false} FeedAllChunks(buffer: string, a: string, b: string)
    requires |buffer| < CAPACITY
    ensures var first := FeedAll(buffer, a);
            var second := FeedAll(first.0, b);
            FeedAll(buffer, a + b) == (second.0, first.1 + second.1)
    decreases |a|
  {
    if a == "" {
      assert a + b == b;
      assert [] + FeedAll(buffer, b).1 == FeedAll(buffer, b).1;
    } else {
      var f := Feed(buffer, a[0]);
      FeedAllChunks(f.buffer, a[1..], b);
      assert (a + b)[0] == a[0] && (a + b)[1..] == a[1..] + b;
      var first := FeedAll(f.buffer, a[1..]);
      assert Emit(f.frame) + (first.1 + FeedAll(first.0, b).1) == (Emit(f.frame) + first.1) + FeedAll(first.0, b).1;
    }
  }

  lemma FeedAllOne(buffer: string, c: char)
    requires |buffer| < CAPACITY
    ensures FeedAll(buffer, [c]) == (Feed(buffer, c).buffer, Emit(Feed(buffer, c).frame))
  {
    var f := Feed(buffer, c);
    assert [c][1..] == "";
    assert FeedAll(f.buffer, "") == (f.buffer, []);
    assert Emit(f.frame) + [] == Emit(f.frame);
  }

  /** The delivery-by-delivery reading equals the whole-stream reading. */
  lemma {:induction false} FeedAllIsFrames(bytes: string)
    ensures FeedAll("", bytes) == (Pending(bytes), Frames(bytes))
  {
    if bytes == "" {
    } else {
      var init, c := bytes[..|bytes| - 1], bytes[|bytes| - 1];
      FeedAllIsFrames(init);
      FeedAllChunks("", init, [c]);
      FeedAllOne(Pending(init), c);
      assert init + [c] == bytes;
    }
  }

  /** A line of n ordinary characters on an empty buffer, ended by LF or CR LF:
      n / 96 overruns, then its last n mod 96 characters as a line. */
  lemma LongLine(text: string, tail: string)
    requires forall i :: 0 <= i < |text| ==> text[i] != '\r' && text[i] != '\n'
    requires tail == "\n" || tail == "\r\n"
    ensures FeedAll("", text + tail) == ("", Finished(text))
  {
    PlainText(text);
    FeedAllIsFrames(text + tail);
    FramingRule(text + tail);
    EndOfLine(text, tail);
    RuleOfLine(text);
  }

  lemma EndOfLine(text: string, tail: string)
    requires WithoutCR(text) == text
    requires tail == "\n" || tail == "\r\n"
    ensures WithoutCR(text + tail) == text + "\n"
  {
    if tail == "\n" {
      WithoutCRSnoc(text, '\n');
    } else {
      WithoutCRSnoc(text, '\r');
      WithoutCRSnoc(text + ['\r'], '\n');
      assert text + tail == text + ['\r'] + ['\n'];
    }
  }

  lemma OneFinished(text: string)
    ensures AllFinished([text]) == Finished(text)
  {
    assert AllFinished([text][..0]) == [];
  }

  lemma NothingOpen()
    ensures Repeat(|""| / 96) == [] && Remainder("") == ""
  {}

  lemma RuleOfLine(text: string)
    requires Segments(text) == [text]
    ensures RuleFrames(text + "\n") == Finished(text) && RuleBuffer(text + "\n") == ""
  {
    SegmentsSnoc(text, '\n');
    RuleIs(text + "\n", [text], "");
    OneFinished(text);
    NothingOpen();
  }

  lemma RuleIs(text: string, done: seq<string>, last: string)
    requires Segments(text) == done + [last]
    ensures RuleFrames(text) == AllFinished(done) + Repeat(|last| / 96) && RuleBuffer(text) == Remainder(last)
  {
    assert (done + [last])[..|done|] == done;
  }

  lemma {:induction false} PlainText(text: string)
    requires forall i :: 0 <= i < |text| ==> text[i] != '\r' && text[i] != '\n'
    ensures WithoutCR(text) == text && Segments(text) == [text]
  {
    if text == "" {
    } else {
      var init, c := text[..|text| - 1], text[|text| - 1];
      assert forall i :: 0 <= i < |init| ==> init[i] == text[i];
      PlainText(init);
      WithoutCRSnoc(init, c);
      SegmentsSnoc(init, c);
      assert text == init + [c] && [init][..0] == [];
    }
  }
}
