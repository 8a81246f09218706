/** The self-test's reader of the advertised report-descriptor length, and the
    descriptor block the firmware advertises it in (section 6.2.1 of the USB HID
    Device Class Definition 1.11). */
module ReportLength {
  import opened Ascii
  import opened Words

  const HID_DESCRIPTOR: byte := 0x21
  const REPORT_DESCRIPTOR: byte := 0x22

  /** The first report entry among `left` three-byte entries from `pos` on. */
  function EntryLength(block: seq<byte>, pos: nat, left: nat): (r: Option<u16>)
    decreases left
  {
    if left == 0 || pos + 3 > |block| then None
    else if block[pos] == REPORT_DESCRIPTOR then Some(Word16(block[pos + 1..pos + 3]))
    else EntryLength(block, pos + 3, left - 1)
  }

  function BlockLength(block: seq<byte>): (r: Option<u16>) {
    if |block| >= 9 && block[1] == HID_DESCRIPTOR then EntryLength(block, 6, block[5]) else None
  }

  predicate HoldsBlock(extra: seq<byte>) { |extra| >= 2 && 2 <= extra[0] <= |extra| }

  /** The length found in a text made of blocks that start with their own size. */
  function Advertised(extra: seq<byte>): (r: Option<u16>)
    decreases |extra|
  {
    if !HoldsBlock(extra) then None
    else
      var found := BlockLength(extra[..extra[0]]);
      if found.Some? then found else Advertised(extra[extra[0]..])
  }

  /** The inner loop of `_hid_report_length`. */
  method ReadEntries(block: seq<byte>) returns (r: Option<u16>)
    requires |block| >= 9
    ensures r == EntryLength(block, 6, block[5])
  {
    var pos := 6;
    for i := 0 to block[5]
      invariant pos == 6 + 3 * i
      invariant EntryLength(block, 6, block[5]) == EntryLength(block, pos, block[5] - i)
    {
      if pos + 3 > |block| { return None; }
      var lo: int, hi: int := block[pos + 1], block[pos + 2];
      assert block[pos + 1..pos + 3] == [block[pos + 1], block[pos + 2]];
      if block[pos] == REPORT_DESCRIPTOR { return Some(lo + 0x100 * hi); }
      pos := pos + 3;
    }
    r := None;
  }

  /** `_hid_report_length`. */
  method HidReportLength(extra: seq<byte>) returns (r: Option<u16>)
    ensures r == Advertised(extra)
  {
    var offset := 0;
    assert extra[0..] == extra;
    while offset + 2 <= |extra|
      invariant 0 <= offset <= |extra|
      invariant Advertised(extra) == Advertised(extra[offset..])
      decreases |extra| - offset
    {
      var length: int := extra[offset];
      if length < 2 || offset + length > |extra| { return None; }
      var block := extra[offset..offset + length];
      assert extra[offset..][..length] == block && extra[offset..][length..] == extra[offset + length..];
      if |block| >= 9 && block[1] == HID_DESCRIPTOR {
        var found := ReadEntries(block);
        if found.Some? { return found; }
      }
      offset := offset + length;
    }
    r := None;
  }

  // ---------------------------------------------------------------- what the firmware emits

  /** `D_HIDREPORT(size)`. */
  function HidReport(size: u16): (r: seq<byte>) {
    [9, HID_DESCRIPTOR, 0x01, 0x01, 0x21, 1, REPORT_DESCRIPTOR] + Bytes16(size)
  }

  /** A block that says its own size and is no HID descriptor, or one too short
      to hold an entry. */
  predicate OtherBlock(block: seq<byte>) {
    |block| >= 2 && block[0] == |block| && (block[1] != HID_DESCRIPTOR || |block| < 9)
  }

  predicate OtherBlocks(blocks: seq<seq<byte>>) { forall i :: 0 <= i < |blocks| ==> OtherBlock(blocks[i]) }

  lemma OwnBlock(size: u16, rest: seq<byte>)
    ensures Advertised(HidReport(size) + rest) == Some(size)
  {
    var text := HidReport(size) + rest;
    var block := HidReport(size);
    assert text[0] == 9 && text[..9] == block;
    assert block[7..9] == Bytes16(size);
    assert EntryLength(block, 6, 1) == Some(Word16(block[7..9]));
    WordRoundTrip(size);
  }

  lemma SkipBlock(block: seq<byte>, rest: seq<byte>)
    requires OtherBlock(block)
    ensures Advertised(block + rest) == Advertised(rest)
  {
    var text := block + rest;
    assert text[0] == |block| && text[..|block|] == block && text[|block|..] == rest;
  }

  lemma {:induction false} FindsTheReport(before: seq<seq<byte>>, size: u16, rest: seq<byte>)
    requires OtherBlocks(before)
    ensures Advertised(Flatten(before) + (HidReport(size) + rest)) == Some(size)
  {
    var tail := HidReport(size) + rest;
    if before == [] {
      assert Flatten(before) + tail == tail;
      OwnBlock(size, rest);
    } else {
      FindsTheReport(before[1..], size, rest);
      assert Flatten(before) + tail == before[0] + (Flatten(before[1..]) + tail);
      SkipBlock(before[0], Flatten(before[1..]) + tail);
    }
  }

  /** A block that says its own size and is of another type, or is too short to hold an
      entry. */
  predicate Others(blocks: seq<seq<byte>>) {
    forall i :: 0 <= i < |blocks| ==>
      |blocks[i]| >= 2 && blocks[i][0] == |blocks[i]| && (blocks[i][1] != 0x21 || |blocks[i]| < 9)
  }

  /** Behind any number of other blocks the reader recovers the emitted size, and
      whatever follows does not matter. What is emitted are nine bytes: the block's
      length and type, the HID version 1.01, the country, one entry, and its type and
      length, low byte first. */
  lemma ReadsWhatIsEmitted(before: seq<seq<byte>>, size: u16, rest: seq<byte>)
    requires Others(before)
    ensures HidReport(size) == [9, 0x21, 0x01, 0x01, 0x21, 1, 0x22, size % 0x100, size / 0x100]
    ensures Advertised(Flatten(before) + (HidReport(size) + rest)) == Some(size)
  {
    FindsTheReport(before, size, rest);
  }

  /** Where a block is malformed the reader gives up. */
  lemma {:induction false} StopsAtMalformed(before: seq<seq<byte>>, rest: seq<byte>)
    requires Others(before) && (|rest| < 2 || rest[0] < 2 || rest[0] > |rest|)
    ensures Advertised(Flatten(before) + rest) == None
  {
    if before == [] {
      NothingBefore(rest);
    } else {
      StopsAtMalformed(before[1..], rest);
      Assoc(before[0], Flatten(before[1..]), rest);
      SkipBlock(before[0], Flatten(before[1..]) + rest);
    }
  }

  /** Inside a HID block the first report entry counts, and entries of other types are
      passed over. */
  lemma {:induction false} EntryExactly(block: seq<byte>, pos: nat, left: nat, k: nat)
    requires k < left && pos + 3 * k + 3 <= |block| && block[pos + 3 * k] == 0x22
    requires forall j :: 0 <= j < k ==> block[pos + 3 * j] != 0x22
    ensures var low: int, high: int := block[pos + 3 * k + 1], block[pos + 3 * k + 2];
            EntryLength(block, pos, left) == Some(low + 0x100 * high)
    decreases k
  {
    if k == 0 {
      assert block[pos + 1..pos + 3] == [block[pos + 1], block[pos + 2]];
    } else {
      assert block[pos + 3 * 0] != 0x22;
      forall j | 0 <= j < k - 1 ensures block[pos + 3 + 3 * j] != 0x22 { assert block[pos + 3 * (j + 1)] != 0x22; }
      EntryExactly(block, pos + 3, left - 1, k - 1);
    }
  }

  /** The size field has 16 bits: the reader learns how many bytes the device
      really sends exactly when they are fewer than 65536. */
  lemma LengthRoundTripExactly(before: seq<seq<byte>>, sent: seq<byte>, rest: seq<byte>)
    requires OtherBlocks(before)
    ensures Advertised(Flatten(before) + (HidReport(U16(|sent|)) + rest)) == Some(|sent|) <==> |sent| < 0x1_0000
  {
    ReadsWhatIsEmitted(before, U16(|sent|), rest);
  }
}
