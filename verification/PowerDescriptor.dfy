/** The descriptor bytes of the power device and of its NUT extension, one short
    item per entry, and the proof that they may be composed. The three string
    indices come from the Arduino core and are parameters. */
module PowerDescriptor {
  import opened Ascii
  import opened Words
  import opened Descriptor

  /** Usage page Power Device, usage UPS. */
  const PREAMBLE: seq<seq<byte>> := [
    [0x05, 0x84], [0x09, 0x04]
  ]

  /** One-byte fields; string indices of product, serial number and manufacturer. */
  function Identity(product: byte, serial: byte, manufacturer: byte): (r: seq<seq<byte>>) {
    [
      [0x75, 0x08], [0x95, 0x01], [0x15, 0x00], [0x26, 0xFF, 0x00], [0x85, 0x01], [0x09, 0xFE], [0x79, product],
      [0xB1, 0x23], [0x85, 0x02], [0x09, 0xFF], [0x79, serial], [0xB1, 0x23], [0x85, 0x03], [0x09, 0xFD],
      [0x79, manufacturer], [0xB1, 0x23]
    ]
  }

  /** Rechargeable, chemistry, OEM information and capacity mode. */
  const KIND: seq<seq<byte>> := [
    [0x05, 0x85], [0x85, 0x06], [0x09, 0x8B], [0xB1, 0x23], [0x85, 0x1F], [0x09, 0x89], [0x79, 0x04],
    [0xB1, 0x23], [0x85, 0x20], [0x09, 0x8F], [0x79, 0x05], [0xB1, 0x23], [0x85, 0x16], [0x09, 0x2C],
    [0xB1, 0x23]
  ]

  /** Granularities, capacities and capacity limits. */
  const CAPACITY: seq<seq<byte>> := [
    [0x85, 0x10], [0x09, 0x8D], [0x26, 0x64, 0x00], [0xB1, 0x22], [0x85, 0x18], [0x09, 0x8E], [0xB1, 0x23],
    [0x85, 0x0E], [0x09, 0x67], [0xB1, 0x83], [0x85, 0x17], [0x09, 0x83], [0xB1, 0x83], [0x85, 0x0C],
    [0x09, 0x66], [0x81, 0xA3], [0x09, 0x66], [0xB1, 0xA3], [0x85, 0x0F], [0x09, 0x8C], [0xB1, 0xA2],
    [0x85, 0x11], [0x09, 0x29], [0xB1, 0xA2]
  ]

  /** Manufacture date and times to full and to empty. */
  const TIMES: seq<seq<byte>> := [
    [0x85, 0x09], [0x09, 0x85], [0x75, 0x10], [0x27, 0xFF, 0xFF, 0x00, 0x00], [0xB1, 0xA3], [0x85, 0x1A],
    [0x09, 0x6A], [0x27, 0xFF, 0xFF, 0x00, 0x00], [0x66, 0x01, 0x10], [0x55, 0x00], [0xB1, 0xA3],
    [0x85, 0x1C], [0x09, 0x69], [0x81, 0xA3], [0x09, 0x69], [0xB1, 0xA3], [0x85, 0x0D], [0x09, 0x68],
    [0x81, 0xA3], [0x09, 0x68], [0xB1, 0xA3]
  ]

  /** Remaining time limit, shutdown and reboot delays. */
  const DELAYS: seq<seq<byte>> := [
    [0x85, 0x08], [0x09, 0x2A], [0x75, 0x10], [0x27, 0x64, 0x05, 0x00, 0x00], [0x16, 0x78, 0x00],
    [0x81, 0x22], [0x09, 0x2A], [0xB1, 0xA2], [0x05, 0x84], [0x85, 0x12], [0x09, 0x57], [0x16, 0x00, 0x80],
    [0x27, 0xFF, 0x7F, 0x00, 0x00], [0xB1, 0xA2], [0x85, 0x13], [0x09, 0x55], [0xB1, 0xA2]
  ]

  /** Configured and actual battery voltage. */
  const VOLTAGES: seq<seq<byte>> := [
    [0x85, 0x0A], [0x09, 0x40], [0x15, 0x00], [0x27, 0xFF, 0xFF, 0x00, 0x00], [0x67, 0x21, 0xD1, 0xF0, 0x00],
    [0x55, 0x05], [0xB1, 0x23], [0x85, 0x0B], [0x09, 0x30], [0x81, 0xA3], [0x09, 0x30], [0xB1, 0xA3]
  ]

  /** Audible alarm control; usage PresentStatus. */
  const ALARM: seq<seq<byte>> := [
    [0x85, 0x14], [0x09, 0x5A], [0x75, 0x08], [0x15, 0x01], [0x25, 0x03], [0x65, 0x00], [0x55, 0x00],
    [0x81, 0x22], [0x09, 0x5A], [0xB1, 0xA2], [0x09, 0x02]
  ]

  /** PresentStatus, bit by bit. */
  const STATUS_BITS_1: seq<seq<byte>> := [
    [0x85, 0x07], [0x05, 0x85], [0x09, 0x44], [0x75, 0x01], [0x15, 0x00], [0x25, 0x01], [0x81, 0xA3],
    [0x09, 0x44], [0xB1, 0xA3], [0x09, 0x45], [0x81, 0xA3], [0x09, 0x45], [0xB1, 0xA3], [0x09, 0xD0],
    [0x81, 0xA3], [0x09, 0xD0], [0xB1, 0xA3], [0x09, 0xD1], [0x81, 0xA3], [0x09, 0xD1], [0xB1, 0xA3]
  ]

  const STATUS_BITS_2: seq<seq<byte>> := [
    [0x09, 0x42], [0x81, 0xA3], [0x09, 0x42], [0xB1, 0xA3], [0x09, 0x43], [0x81, 0xA2], [0x09, 0x43],
    [0xB1, 0xA2], [0x09, 0x4B], [0x81, 0xA3], [0x09, 0x4B], [0xB1, 0xA3], [0x09, 0xDB], [0x81, 0xA3],
    [0x09, 0xDB], [0xB1, 0xA3], [0x09, 0x46], [0x81, 0xA3], [0x09, 0x46], [0xB1, 0xA3], [0x09, 0x47],
    [0x81, 0xA3], [0x09, 0x47], [0xB1, 0xA3]
  ]

  const STATUS_BITS_3: seq<seq<byte>> := [
    [0x05, 0x84], [0x09, 0x68], [0x81, 0xA2], [0x09, 0x68], [0xB1, 0xA2], [0x09, 0x69], [0x81, 0xA3],
    [0x09, 0x69], [0xB1, 0xA3], [0x09, 0x73], [0x81, 0xA3], [0x09, 0x73], [0xB1, 0xA3], [0x09, 0x65],
    [0x81, 0xA3], [0x09, 0x65], [0xB1, 0xA3], [0x95, 0x02], [0x81, 0x01], [0xB1, 0x01]
  ]

  /** Startup delay and load. */
  const STARTUP_AND_LOAD: seq<seq<byte>> := [
    [0x75, 0x10], [0x95, 0x01], [0x16, 0x00, 0x80], [0x27, 0xFF, 0x7F, 0x00, 0x00], [0x66, 0x01, 0x10],
    [0x55, 0x00], [0x85, 0x21], [0x09, 0x56], [0xB1, 0xA2], [0x75, 0x08], [0x15, 0x00], [0x25, 0x64],
    [0x65, 0x00], [0x85, 0x22], [0x09, 0x35], [0x81, 0xA2], [0x09, 0x35], [0xB1, 0xA2]
  ]

  const INPUT_VOLTAGE: seq<seq<byte>> := [
    [0x75, 0x10], [0x95, 0x01], [0x15, 0x00], [0x27, 0xFF, 0xFF, 0x00, 0x00], [0x67, 0x21, 0xD1, 0xF0, 0x00],
    [0x55, 0x05], [0x85, 0x23], [0x09, 0x30], [0x81, 0xA2], [0x09, 0x30], [0xB1, 0xA2]
  ]

  const OUTPUT_VOLTAGE: seq<seq<byte>> := [
    [0x85, 0x24], [0x09, 0x30], [0x81, 0xA2], [0x09, 0x30], [0xB1, 0xA2]
  ]

  /** The application and its summary, opened. */
  function Head(page: seq<seq<byte>>, usage: seq<seq<byte>>): (r: seq<Part>) {
    [ Flat(page), Open(0x01), Flat(usage), Open(0x02) ]
  }

  function Flats(runs: seq<seq<seq<byte>>>): (r: seq<Part>)
    ensures |r| == |runs| && forall i :: 0 <= i < |runs| ==> r[i] == Flat(runs[i])
  {
    seq(|runs|, i requires 0 <= i < |runs| => Flat(runs[i]))
  }

  /** The status collection at the end of the summary; both are closed. */
  function Tail(a: seq<seq<byte>>, b: seq<seq<byte>>, c: seq<seq<byte>>): (r: seq<Part>) {
    [ Open(0x02), Flat(a), Flat(b), Flat(c), Close, Close ]
  }

  /** `_hidReportDescriptor`: an application holding a summary holding the status;
      the application stays open. */
  function Base(product: byte, serial: byte, manufacturer: byte): (r: seq<Part>) {
    Head(PREAMBLE, [[0x09, 0x24]])
    + Flats([ Identity(product, serial, manufacturer), KIND, CAPACITY, TIMES, DELAYS, VOLTAGES, ALARM ])
    + Tail(STATUS_BITS_1, STATUS_BITS_2, STATUS_BITS_3)
  }

  /** A collection of its own. */
  function Group(usage: seq<seq<byte>>, kind: byte, items: seq<seq<byte>>): (r: seq<Part>) {
    [ Flat(usage), Open(kind), Flat(items), Close ]
  }

  /** `hidPowerDeviceNutFragment`: a summary, and a converter with an indexed input
      and an output. */
  function NutFragment(): (r: seq<Part>) {
    Group([[0x05, 0x84], [0x09, 0x24]], 0x02, STARTUP_AND_LOAD)
    + [ Flat([[0x09, 0x16]]), Open(0x02) ]
    + Group([[0x09, 0x1A]], 0x81, INPUT_VOLTAGE) + Group([[0x09, 0x1C]], 0x02, OUTPUT_VOLTAGE)
    + [ Close ]
  }

  // ---------------------------------------------------------------- whole items

  lemma IdentityPlain(product: byte, serial: byte, manufacturer: byte)
    ensures PlainLines(Identity(product, serial, manufacturer))
  {}

  lemma PreamblePlain()
    ensures PlainLines(PREAMBLE)
  {}

  lemma KindPlain()
    ensures PlainLines(KIND)
  {}

  lemma CapacityLine(i: nat)
    requires i < |CAPACITY|
    ensures PlainLine(CAPACITY[i])
  {}

  lemma CapacityPlain()
    ensures PlainLines(CAPACITY)
  {
    forall i | 0 <= i < |CAPACITY| ensures PlainLine(CAPACITY[i]) { CapacityLine(i); }
  }

  lemma TimesLine(i: nat)
    requires i < |TIMES|
    ensures PlainLine(TIMES[i])
  {}

  lemma TimesPlain()
    ensures PlainLines(TIMES)
  {
    forall i | 0 <= i < |TIMES| ensures PlainLine(TIMES[i]) { TimesLine(i); }
  }

  lemma DelaysLine(i: nat)
    requires i < |DELAYS|
    ensures PlainLine(DELAYS[i])
  {}

  lemma DelaysPlain()
    ensures PlainLines(DELAYS)
  {
    forall i | 0 <= i < |DELAYS| ensures PlainLine(DELAYS[i]) { DelaysLine(i); }
  }

  lemma VoltagesPlain()
    ensures PlainLines(VOLTAGES)
  {}

  lemma AlarmPlain()
    ensures PlainLines(ALARM)
  {}

  lemma StatusBits1Line(i: nat)
    requires i < |STATUS_BITS_1|
    ensures PlainLine(STATUS_BITS_1[i])
  {}

  lemma StatusBits1Plain()
    ensures PlainLines(STATUS_BITS_1)
  {
    forall i | 0 <= i < |STATUS_BITS_1| ensures PlainLine(STATUS_BITS_1[i]) { StatusBits1Line(i); }
  }

  lemma StatusBits2Line(i: nat)
    requires i < |STATUS_BITS_2|
    ensures PlainLine(STATUS_BITS_2[i])
  {}

  lemma StatusBits2Plain()
    ensures PlainLines(STATUS_BITS_2)
  {
    forall i | 0 <= i < |STATUS_BITS_2| ensures PlainLine(STATUS_BITS_2[i]) { StatusBits2Line(i); }
  }

  lemma StatusBits3Line(i: nat)
    requires i < |STATUS_BITS_3|
    ensures PlainLine(STATUS_BITS_3[i])
  {}

  lemma StatusBits3Plain()
    ensures PlainLines(STATUS_BITS_3)
  {
    forall i | 0 <= i < |STATUS_BITS_3| ensures PlainLine(STATUS_BITS_3[i]) { StatusBits3Line(i); }
  }

  lemma StartupAndLoadLine(i: nat)
    requires i < |STARTUP_AND_LOAD|
    ensures PlainLine(STARTUP_AND_LOAD[i])
  {}

  lemma StartupAndLoadPlain()
    ensures PlainLines(STARTUP_AND_LOAD)
  {
    forall i | 0 <= i < |STARTUP_AND_LOAD| ensures PlainLine(STARTUP_AND_LOAD[i]) { StartupAndLoadLine(i); }
  }

  lemma InputVoltagePlain()
    ensures PlainLines(INPUT_VOLTAGE)
  {}

  lemma OutputVoltagePlain()
    ensures PlainLines(OUTPUT_VOLTAGE)
  {}

  lemma BasePlain(product: byte, serial: byte, manufacturer: byte)
    ensures PlainParts(Base(product, serial, manufacturer))
  {
    PreamblePlain();
    IdentityPlain(product, serial, manufacturer);
    KindPlain();
    CapacityPlain();
    TimesPlain();
    DelaysPlain();
    VoltagesPlain();
    AlarmPlain();
    StatusBits1Plain();
    StatusBits2Plain();
    StatusBits3Plain();
  }

  lemma FragmentPlain()
    ensures PlainParts(NutFragment())
  {
    StartupAndLoadPlain();
    InputVoltagePlain();
    OutputVoltagePlain();
  }

  // ---------------------------------------------------------------- sizes

  /** A run of lines of equal width. */
  predicate Run(lines: seq<seq<byte>>, from: nat, to: nat, width: nat) {
    from <= to <= |lines| && forall i :: from <= i < to ==> |lines[i]| == width
  }

  lemma {:induction false} Span(lines: seq<seq<byte>>, from: nat, to: nat, width: nat)
    requires Run(lines, from, to, width)
    ensures |Flatten(lines[from..])| == width * (to - from) + |Flatten(lines[to..])|
    decreases |lines| - from
  {
    if from == to {
    } else {
      Span(lines, from + 1, to, width);
      assert lines[from..][0] == lines[from] && lines[from..][1..] == lines[from + 1..];
      var w: int, n: int := width, to - from;
      assert w * n == w + w * (n - 1);
    }
  }

  lemma Whole(lines: seq<seq<byte>>)
    ensures lines[0..] == lines && Flatten(lines[|lines|..]) == []
  {}

  lemma PreambleSize()
    ensures Sized(PREAMBLE, 4)
  {
    Span(PREAMBLE, 0, 2, 2);
    Whole(PREAMBLE);
  }

  lemma IdentityRuns(lines: seq<seq<byte>>)
    requires |lines| == 16
    requires Run(lines, 0, 3, 2)
    requires Run(lines, 3, 4, 3)
    requires Run(lines, 4, 16, 2)
    ensures Sized(lines, 33)
  {
    Span(lines, 0, 3, 2);
    Span(lines, 3, 4, 3);
    Span(lines, 4, 16, 2);
    Whole(lines);
  }

  lemma IdentitySize(product: byte, serial: byte, manufacturer: byte)
    ensures Sized(Identity(product, serial, manufacturer), 33)
  {
    IdentityRuns(Identity(product, serial, manufacturer));
  }

  lemma KindSize()
    ensures Sized(KIND, 30)
  {
    Span(KIND, 0, 15, 2);
    Whole(KIND);
  }

  lemma CapacityRuns(lines: seq<seq<byte>>)
    requires |lines| == 24
    requires Run(lines, 0, 2, 2)
    requires Run(lines, 2, 3, 3)
    requires Run(lines, 3, 24, 2)
    ensures Sized(lines, 49)
  {
    Span(lines, 0, 2, 2);
    Span(lines, 2, 3, 3);
    Span(lines, 3, 24, 2);
    Whole(lines);
  }

  lemma CapacitySize()
    ensures Sized(CAPACITY, 49)
  {
    CapacityRuns(CAPACITY);
  }

  lemma TimesRuns(lines: seq<seq<byte>>)
    requires |lines| == 21
    requires Run(lines, 0, 3, 2)
    requires Run(lines, 3, 4, 5)
    requires Run(lines, 4, 7, 2)
    requires Run(lines, 7, 8, 5)
    requires Run(lines, 8, 9, 3)
    requires Run(lines, 9, 21, 2)
    ensures Sized(lines, 49)
  {
    Span(lines, 0, 3, 2);
    Span(lines, 3, 4, 5);
    Span(lines, 4, 7, 2);
    Span(lines, 7, 8, 5);
    Span(lines, 8, 9, 3);
    Span(lines, 9, 21, 2);
    Whole(lines);
  }

  lemma TimesSize()
    ensures Sized(TIMES, 49)
  {
    TimesRuns(TIMES);
  }

  lemma DelaysRuns(lines: seq<seq<byte>>)
    requires |lines| == 17
    requires Run(lines, 0, 3, 2)
    requires Run(lines, 3, 4, 5)
    requires Run(lines, 4, 5, 3)
    requires Run(lines, 5, 11, 2)
    requires Run(lines, 11, 12, 3)
    requires Run(lines, 12, 13, 5)
    requires Run(lines, 13, 17, 2)
    ensures Sized(lines, 42)
  {
    Span(lines, 0, 3, 2);
    Span(lines, 3, 4, 5);
    Span(lines, 4, 5, 3);
    Span(lines, 5, 11, 2);
    Span(lines, 11, 12, 3);
    Span(lines, 12, 13, 5);
    Span(lines, 13, 17, 2);
    Whole(lines);
  }

  lemma DelaysSize()
    ensures Sized(DELAYS, 42)
  {
    DelaysRuns(DELAYS);
  }

  lemma VoltagesRuns(lines: seq<seq<byte>>)
    requires |lines| == 12
    requires Run(lines, 0, 3, 2)
    requires Run(lines, 3, 5, 5)
    requires Run(lines, 5, 12, 2)
    ensures Sized(lines, 30)
  {
    Span(lines, 0, 3, 2);
    Span(lines, 3, 5, 5);
    Span(lines, 5, 12, 2);
    Whole(lines);
  }

  lemma VoltagesSize()
    ensures Sized(VOLTAGES, 30)
  {
    VoltagesRuns(VOLTAGES);
  }

  lemma AlarmSize()
    ensures Sized(ALARM, 22)
  {
    Span(ALARM, 0, 11, 2);
    Whole(ALARM);
  }

  lemma StatusBits1Size()
    ensures Sized(STATUS_BITS_1, 42)
  {
    Span(STATUS_BITS_1, 0, 21, 2);
    Whole(STATUS_BITS_1);
  }

  lemma StatusBits2Size()
    ensures Sized(STATUS_BITS_2, 48)
  {
    Span(STATUS_BITS_2, 0, 24, 2);
    Whole(STATUS_BITS_2);
  }

  lemma StatusBits3Size()
    ensures Sized(STATUS_BITS_3, 40)
  {
    Span(STATUS_BITS_3, 0, 20, 2);
    Whole(STATUS_BITS_3);
  }

  lemma StartupAndLoadRuns(lines: seq<seq<byte>>)
    requires |lines| == 18
    requires Run(lines, 0, 2, 2)
    requires Run(lines, 2, 3, 3)
    requires Run(lines, 3, 4, 5)
    requires Run(lines, 4, 5, 3)
    requires Run(lines, 5, 18, 2)
    ensures Sized(lines, 41)
  {
    Span(lines, 0, 2, 2);
    Span(lines, 2, 3, 3);
    Span(lines, 3, 4, 5);
    Span(lines, 4, 5, 3);
    Span(lines, 5, 18, 2);
    Whole(lines);
  }

  lemma StartupAndLoadSize()
    ensures Sized(STARTUP_AND_LOAD, 41)
  {
    StartupAndLoadRuns(STARTUP_AND_LOAD);
  }

  lemma InputVoltageRuns(lines: seq<seq<byte>>)
    requires |lines| == 11
    requires Run(lines, 0, 3, 2)
    requires Run(lines, 3, 5, 5)
    requires Run(lines, 5, 11, 2)
    ensures Sized(lines, 28)
  {
    Span(lines, 0, 3, 2);
    Span(lines, 3, 5, 5);
    Span(lines, 5, 11, 2);
    Whole(lines);
  }

  lemma InputVoltageSize()
    ensures Sized(INPUT_VOLTAGE, 28)
  {
    InputVoltageRuns(INPUT_VOLTAGE);
  }

  lemma OutputVoltageSize()
    ensures Sized(OUTPUT_VOLTAGE, 10)
  {
    Span(OUTPUT_VOLTAGE, 0, 5, 2);
    Whole(OUTPUT_VOLTAGE);
  }

  // ---------------------------------------------------------------- shapes

  lemma FirstOpen(page: seq<seq<byte>>, m: nat)
    requires Sized(page, m)
    ensures Shows([Flat(page)] + [Open(0x01)], 0, 1, [APPLICATION], m + 2)
  {
    assert Same(page, page);
    ShowsOne(Flat(page), 0);
    ShowsOne(Open(0x01), 0);
    ShowsAppend([Flat(page)], [Open(0x01)], 0, 0, 1, [], [APPLICATION], m, 2);
    NothingBefore([APPLICATION]);
  }

  lemma HeadShape(page: seq<seq<byte>>, usage: seq<seq<byte>>, m: nat, n: nat)
    requires Sized(page, m) && Sized(usage, n)
    ensures Shows(Head(page, usage), 0, 2, [APPLICATION], m + n + 4)
  {
    FirstOpen(page, m);
    WithFlat([Flat(page)] + [Open(0x01)], usage, 0, 1, [APPLICATION], m + 2, n);
    WithOpen([Flat(page)] + [Open(0x01)] + [Flat(usage)], 0x02, 0, 1, [APPLICATION], m + 2 + n);
    HeadInSteps(page, usage);
  }

  lemma HeadInSteps(page: seq<seq<byte>>, usage: seq<seq<byte>>)
    ensures [Flat(page)] + [Open(0x01)] + [Flat(usage)] + [Open(0x02)] == Head(page, usage)
  {}

  function Sum(sizes: seq<nat>, k: nat): (r: nat)
    requires k <= |sizes|
  {
    if k == 0 then 0 else Sum(sizes, k - 1) + sizes[k - 1]
  }

  /** Flat runs behind a text. */
  lemma {:induction false} FlatsShape(t: seq<Part>, runs: seq<seq<seq<byte>>>, sizes: seq<nat>, e: nat, top: seq<Item>, m: nat)
    requires Shows(t, 0, e, top, m)
    requires |sizes| == |runs| && forall i :: 0 <= i < |runs| ==> Sized(runs[i], sizes[i])
    ensures Shows(t + Flats(runs), 0, e, top, m + Sum(sizes, |sizes|))
  {
    if runs == [] {
      assert t + Flats(runs) == t;
    } else {
      var n := |runs| - 1;
      FlatsShape(t, runs[..n], sizes[..n], e, top, m);
      SumOfPrefix(sizes, n);
      WithFlat(t + Flats(runs[..n]), runs[n], 0, e, top, m + Sum(sizes, n), sizes[n]);
      assert t + Flats(runs[..n]) + [Flat(runs[n])] == t + Flats(runs);
    }
  }

  lemma {:induction false} SumOfPrefix(sizes: seq<nat>, k: nat)
    requires k < |sizes|
    ensures Sum(sizes[..|sizes| - 1], k) == Sum(sizes, k)
  {
    if k == 0 {
    } else {
      SumOfPrefix(sizes, k - 1);
    }
  }

  lemma StatusShape(t: seq<Part>, a: seq<seq<byte>>, b: seq<seq<byte>>, c: seq<seq<byte>>, m: nat, i: nat, j: nat, k: nat)
    requires Shows(t, 0, 3, [APPLICATION], m) && Sized(a, i) && Sized(b, j) && Sized(c, k)
    ensures Shows(t + [Flat(a)] + [Flat(b)] + [Flat(c)], 0, 3, [APPLICATION], m + i + j + k)
  {
    var top := [APPLICATION];
    WithFlat(t, a, 0, 3, top, m, i);
    WithFlat(t + [Flat(a)], b, 0, 3, top, m + i, j);
    WithFlat(t + [Flat(a)] + [Flat(b)], c, 0, 3, top, m + i + j, k);
  }

  lemma TailShape(t: seq<Part>, a: seq<seq<byte>>, b: seq<seq<byte>>, c: seq<seq<byte>>, m: nat, i: nat, j: nat, k: nat)
    requires Shows(t, 0, 2, [APPLICATION], m) && Sized(a, i) && Sized(b, j) && Sized(c, k)
    ensures Shows(t + Tail(a, b, c), 0, 1, [APPLICATION], m + i + j + k + 4)
  {
    var top := [APPLICATION];
    var u := t + [Open(0x02)];
    WithOpen(t, 0x02, 0, 2, top, m);
    StatusShape(u, a, b, c, m + 2, i, j, k);
    var v := u + [Flat(a)] + [Flat(b)] + [Flat(c)];
    WithClose(v, 0, 3, top, m + 2 + i + j + k);
    WithClose(v + [Close], 0, 2, top, m + 3 + i + j + k);
    TailParts(t, a, b, c);
  }

  lemma TailParts(t: seq<Part>, a: seq<seq<byte>>, b: seq<seq<byte>>, c: seq<seq<byte>>)
    ensures t + [Open(0x02)] + [Flat(a)] + [Flat(b)] + [Flat(c)] + [Close] + [Close] == t + Tail(a, b, c)
  {}

  lemma BaseFrom(page: seq<seq<byte>>, usage: seq<seq<byte>>, runs: seq<seq<seq<byte>>>, a: seq<seq<byte>>,
                 b: seq<seq<byte>>, c: seq<seq<byte>>)
    requires Sized(page, 4) && Sized(usage, 2) && |runs| == 7
    requires Sized(runs[0], 33) && Sized(runs[1], 30) && Sized(runs[2], 49) && Sized(runs[3], 49)
    requires Sized(runs[4], 42) && Sized(runs[5], 30) && Sized(runs[6], 22)
    requires Sized(a, 42) && Sized(b, 48) && Sized(c, 40)
    ensures Shows(Head(page, usage) + Flats(runs) + Tail(a, b, c), 0, 1, [APPLICATION], 399)
  {
    HeadShape(page, usage, 4, 2);
    var sizes: seq<nat> := [33, 30, 49, 49, 42, 30, 22];
    FlatsShape(Head(page, usage), runs, sizes, 2, [APPLICATION], 10);
    SevenSizes(sizes);
    TailShape(Head(page, usage) + Flats(runs), a, b, c, 265, 42, 48, 40);
  }

  lemma SevenSizes(sizes: seq<nat>)
    requires sizes == [33, 30, 49, 49, 42, 30, 22]
    ensures Sum(sizes, 7) == 255
  {
    assert Sum(sizes, 1) == 33;
    assert Sum(sizes, 2) == 63;
    assert Sum(sizes, 3) == 112;
    assert Sum(sizes, 4) == 161;
    assert Sum(sizes, 5) == 203;
    assert Sum(sizes, 6) == 233;
  }

  /** The base: one application, left open, in 399 bytes. */
  lemma BaseShape(product: byte, serial: byte, manufacturer: byte)
    ensures Shows(Base(product, serial, manufacturer), 0, 1, [APPLICATION], 399)
  {
    PreambleSize();
    UsageSize(0x24);
    IdentitySize(product, serial, manufacturer);
    KindSize();
    CapacitySize();
    TimesSize();
    DelaysSize();
    VoltagesSize();
    AlarmSize();
    StatusBits1Size();
    StatusBits2Size();
    StatusBits3Size();
    BaseFrom(PREAMBLE, [[0x09, 0x24]],
             [Identity(product, serial, manufacturer), KIND, CAPACITY, TIMES, DELAYS, VOLTAGES, ALARM],
             STATUS_BITS_1, STATUS_BITS_2, STATUS_BITS_3);
  }

  lemma GroupShape(t: seq<Part>, usage: seq<seq<byte>>, kind: byte, items: seq<seq<byte>>, e: nat, m: nat, i: nat, j: nat)
    requires Shows(t, 1, e, [], m) && e > 0 && Sized(usage, i) && Sized(items, j)
    ensures Shows(t + Group(usage, kind, items), 1, e, [], m + i + j + 3)
  {
    WithFlat(t, usage, 1, e, [], m, i);
    WithOpen(t + [Flat(usage)], kind, 1, e, [], m + i);
    WithFlat(t + [Flat(usage)] + [Open(kind)], items, 1, e + 1, [], m + i + 2, j);
    WithClose(t + [Flat(usage)] + [Open(kind)] + [Flat(items)], 1, e + 1, [], m + i + 2 + j);
    assert t + [Flat(usage)] + [Open(kind)] + [Flat(items)] + [Close] == t + Group(usage, kind, items);
  }

  lemma UsageSize(usage: byte)
    ensures Sized([[0x09, usage]], 2)
  {
    var lines: seq<seq<byte>> := [[0x09, usage]];
    Span(lines, 0, 1, 2);
    Whole(lines);
  }

  lemma PageSize()
    ensures Sized([[0x05, 0x84], [0x09, 0x24]], 4)
  {
    var page: seq<seq<byte>> := [[0x05, 0x84], [0x09, 0x24]];
    Span(page, 0, 2, 2);
    Whole(page);
  }

  /** The fragment, one level down: balanced, in 101 bytes. */
  lemma FragmentShape()
    ensures Shows(NutFragment(), 1, 1, [], 101)
  {
    StartupAndLoadSize();
    InputVoltageSize();
    OutputVoltageSize();
    UsageSize(0x16);
    UsageSize(0x1A);
    UsageSize(0x1C);
    PageSize();
    FragmentFrom([[0x05, 0x84], [0x09, 0x24]], STARTUP_AND_LOAD, [[0x09, 0x16]], [[0x09, 0x1A]], INPUT_VOLTAGE,
                 [[0x09, 0x1C]], OUTPUT_VOLTAGE);
  }

  lemma FragmentFrom(page: seq<seq<byte>>, a: seq<seq<byte>>, u: seq<seq<byte>>, v: seq<seq<byte>>, b: seq<seq<byte>>,
                     w: seq<seq<byte>>, c: seq<seq<byte>>)
    requires Sized(page, 4) && Sized(a, 41) && Sized(u, 2) && Sized(v, 2) && Sized(w, 2) && Sized(b, 28) && Sized(c, 10)
    ensures Shows(Group(page, 0x02, a) + [Flat(u), Open(0x02)] + Group(v, 0x81, b) + Group(w, 0x02, c) + [Close],
                  1, 1, [], 101)
  {
    assert Level([], 1) == Some(1) && Tops([], 1) == [] && Size([]) == 0;
    GroupShape([], page, 0x02, a, 1, 0, 4, 41);
    assert [] + Group(page, 0x02, a) == Group(page, 0x02, a);
    var t := Group(page, 0x02, a);
    WithFlat(t, u, 1, 1, [], 48, 2);
    WithOpen(t + [Flat(u)], 0x02, 1, 1, [], 50);
    var t2 := t + [Flat(u), Open(0x02)];
    assert t + [Flat(u)] + [Open(0x02)] == t2;
    GroupShape(t2, v, 0x81, b, 2, 52, 2, 28);
    GroupShape(t2 + Group(v, 0x81, b), w, 0x02, c, 2, 85, 2, 10);
    WithClose(t2 + Group(v, 0x81, b) + Group(w, 0x02, c), 1, 2, [], 100);
  }

  // ---------------------------------------------------------------- the two texts

  /** The base opens the application, and closes all but that. */
  lemma BaseIsBase(product: byte, serial: byte, manufacturer: byte)
    ensures IsBase(Bytes(Base(product, serial, manufacturer))) && |Bytes(Base(product, serial, manufacturer))| == 399
  {
    BasePlain(product, serial, manufacturer);
    BaseShape(product, serial, manufacturer);
    PartsAreBase(Base(product, serial, manufacturer), 399);
  }

  /** The shipped NUT fragment is made of whole short items with balanced
      collections. */
  lemma FragmentIsBalanced()
    ensures IsFragment(Bytes(NutFragment())) && |Bytes(NutFragment())| == 101
  {
    FragmentPlain();
    FragmentShape();
    PartsAreFragment(NutFragment(), 101);
  }

  /** What the constructor of `HIDPowerDevice_` puts together from the shipped texts:
      one application collection, in 501 bytes with the NUT extension linked in and
      in 400 without. */
  lemma Shipped(product: byte, serial: byte, manufacturer: byte)
    ensures var b := Bytes(Base(product, serial, manufacturer)) + Bytes(NutFragment()) + END;
            OneApplication(b) && |b| == 501
    ensures var b := Bytes(Base(product, serial, manufacturer)) + END;
            OneApplication(b) && |b| == 400
  {
    BasePlain(product, serial, manufacturer);
    BaseShape(product, serial, manufacturer);
    FragmentPlain();
    FragmentShape();
    PartsCompose(Base(product, serial, manufacturer), NutFragment(), 399, 101);
  }
}
