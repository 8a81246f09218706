/** The input and feature fields that the shipped report descriptor declares. */
module ReportFields {
  import opened Words
  import opened Descriptor
  import opened PowerDescriptor
  import opened ItemFields

  // ---------------------------------------------------------------- the texts

  function PreambleLines(): (r: seq<seq<byte>>) {
    [] + [[0x05, 0x84]] + [[0x09, 0x04]]
  }

  lemma PreambleWalksThrough()
    ensures Walks(PreambleLines(), Globals(0x00, 0, 0, 0x00, 0x00, []), Globals(0x84, 0, 0, 0x00, 0x04, []), [])
  {
    var g := Globals(0x00, 0, 0, 0x00, 0x00, []);
    var lines: seq<seq<byte>>, now, fields: seq<Field> := [], g, [];
    WalksNothing(g);
    lines, now, fields := AddPage(lines, g, now, fields, 0x84);
    lines, now, fields := AddUsage(lines, g, now, fields, 0x04);
  }

  lemma PreambleGroups()
    ensures PREAMBLE == PreambleLines()
  {}

  lemma PreambleWalks()
    ensures Walks(PREAMBLE, Globals(0x00, 0, 0, 0x00, 0x00, []), Globals(0x84, 0, 0, 0x00, 0x04, []), [])
  {
    PreambleWalksThrough();
    PreambleGroups();
  }

  function SummaryUsageLines(): (r: seq<seq<byte>>) {
    [] + [[0x09, 0x24]]
  }

  lemma SummaryUsageWalksThrough()
    ensures Walks(SummaryUsageLines(), Globals(0x84, 0, 0, 0x00, 0x00, [0x04]),
            Globals(0x84, 0, 0, 0x00, 0x24, [0x04]), [])
  {
    var g := Globals(0x84, 0, 0, 0x00, 0x00, [0x04]);
    var lines: seq<seq<byte>>, now, fields: seq<Field> := [], g, [];
    WalksNothing(g);
    lines, now, fields := AddUsage(lines, g, now, fields, 0x24);
  }

  lemma SummaryUsageGroups()
    ensures [[0x09, 0x24]] == SummaryUsageLines()
  {}

  lemma SummaryUsageWalks()
    ensures Walks([[0x09, 0x24]], Globals(0x84, 0, 0, 0x00, 0x00, [0x04]), Globals(0x84, 0, 0, 0x00, 0x24, [0x04]), [])
  {
    SummaryUsageWalksThrough();
    SummaryUsageGroups();
  }

  const IDENTITY_FIELDS_1: seq<Field> := [
    Field(Feature, 0x01, 0x84, 0xFE, 0x24, 8),
    Field(Feature, 0x02, 0x84, 0xFF, 0x24, 8)
  ]

  function IdentityLines1(product: byte, serial: byte, manufacturer: byte): (r: seq<seq<byte>>) {
    [] + [[0x75, 0x08]] + [[0x95, 0x01]] + [[0x15, 0x00]] + [[0x26, 0xFF, 0x00]] + [[0x85, 0x01]]
    + Named(0xFE, product, 0x23) + [[0x85, 0x02]] + Named(0xFF, serial, 0x23) + [[0x85, 0x03]]
  }

  lemma IdentityWalks1(product: byte, serial: byte, manufacturer: byte)
    ensures Walks(IdentityLines1(product, serial, manufacturer), Globals(0x84, 0, 0, 0x00, 0x00, [0x04, 0x24]),
            Globals(0x84, 8, 1, 0x03, 0x00, [0x04, 0x24]), IDENTITY_FIELDS_1)
  {
    var g := Globals(0x84, 0, 0, 0x00, 0x00, [0x04, 0x24]);
    var lines: seq<seq<byte>>, now, fields: seq<Field> := [], g, [];
    WalksNothing(g);
    lines, now, fields := AddSize(lines, g, now, fields, 0x08);
    lines, now, fields := AddCount(lines, g, now, fields, 0x01);
    lines, now, fields := AddOther(lines, g, now, fields, [0x15, 0x00]);
    lines, now, fields := AddOther(lines, g, now, fields, [0x26, 0xFF, 0x00]);
    lines, now, fields := AddId(lines, g, now, fields, 0x01);
    lines, now, fields := AddNamed(lines, g, now, fields, 0xFE, product, 0x23);
    lines, now, fields := AddId(lines, g, now, fields, 0x02);
    lines, now, fields := AddNamed(lines, g, now, fields, 0xFF, serial, 0x23);
    lines, now, fields := AddId(lines, g, now, fields, 0x03);
  }

  const IDENTITY_FIELDS_2: seq<Field> := [
    Field(Feature, 0x03, 0x84, 0xFD, 0x24, 8)
  ]

  function IdentityLines2(product: byte, serial: byte, manufacturer: byte): (r: seq<seq<byte>>) {
    [] + Named(0xFD, manufacturer, 0x23)
  }

  lemma IdentityWalks2(product: byte, serial: byte, manufacturer: byte)
    ensures Walks(IdentityLines2(product, serial, manufacturer), Globals(0x84, 8, 1, 0x03, 0x00, [0x04, 0x24]),
            Globals(0x84, 8, 1, 0x03, 0x00, [0x04, 0x24]), IDENTITY_FIELDS_2)
  {
    var g := Globals(0x84, 8, 1, 0x03, 0x00, [0x04, 0x24]);
    var lines: seq<seq<byte>>, now, fields: seq<Field> := [], g, [];
    WalksNothing(g);
    lines, now, fields := AddNamed(lines, g, now, fields, 0xFD, manufacturer, 0x23);
  }

  const IDENTITY_FIELDS: seq<Field> := IDENTITY_FIELDS_1 + IDENTITY_FIELDS_2

  lemma IdentityGroups(product: byte, serial: byte, manufacturer: byte)
    ensures Identity(product, serial, manufacturer) == IdentityLines1(product, serial, manufacturer)
            + IdentityLines2(product, serial, manufacturer)
  {}

  lemma IdentityWalks(product: byte, serial: byte, manufacturer: byte)
    ensures Walks(Identity(product, serial, manufacturer), Globals(0x84, 0, 0, 0x00, 0x00, [0x04, 0x24]),
            Globals(0x84, 8, 1, 0x03, 0x00, [0x04, 0x24]), IDENTITY_FIELDS)
  {
    IdentityWalks1(product, serial, manufacturer);
    IdentityWalks2(product, serial, manufacturer);
    WalksAppend(IdentityLines1(product, serial, manufacturer), IdentityLines2(product, serial, manufacturer),
        Globals(0x84, 0, 0, 0x00, 0x00, [0x04, 0x24]),
                Globals(0x84, 8, 1, 0x03, 0x00, [0x04, 0x24]), Globals(0x84, 8, 1, 0x03, 0x00, [0x04, 0x24]),
                IDENTITY_FIELDS_1, IDENTITY_FIELDS_2);
    IdentityGroups(product, serial, manufacturer);
  }

  const KIND_FIELDS: seq<Field> := [
    Field(Feature, 0x06, 0x85, 0x8B, 0x24, 8),
    Field(Feature, 0x1F, 0x85, 0x89, 0x24, 8),
    Field(Feature, 0x20, 0x85, 0x8F, 0x24, 8),
    Field(Feature, 0x16, 0x85, 0x2C, 0x24, 8)
  ]

  function KindLines(): (r: seq<seq<byte>>) {
    [] + [[0x05, 0x85]] + [[0x85, 0x06]] + Only(0x8B, 0x23) + [[0x85, 0x1F]] + Named(0x89, 0x04, 0x23)
    + [[0x85, 0x20]] + Named(0x8F, 0x05, 0x23) + [[0x85, 0x16]] + Only(0x2C, 0x23)
  }

  lemma KindWalksThrough()
    ensures Walks(KindLines(), Globals(0x84, 8, 1, 0x03, 0x00, [0x04, 0x24]),
            Globals(0x85, 8, 1, 0x16, 0x00, [0x04, 0x24]), KIND_FIELDS)
  {
    var g := Globals(0x84, 8, 1, 0x03, 0x00, [0x04, 0x24]);
    var lines: seq<seq<byte>>, now, fields: seq<Field> := [], g, [];
    WalksNothing(g);
    lines, now, fields := AddPage(lines, g, now, fields, 0x85);
    lines, now, fields := AddId(lines, g, now, fields, 0x06);
    lines, now, fields := AddOnly(lines, g, now, fields, 0x8B, 0x23);
    lines, now, fields := AddId(lines, g, now, fields, 0x1F);
    lines, now, fields := AddNamed(lines, g, now, fields, 0x89, 0x04, 0x23);
    lines, now, fields := AddId(lines, g, now, fields, 0x20);
    lines, now, fields := AddNamed(lines, g, now, fields, 0x8F, 0x05, 0x23);
    lines, now, fields := AddId(lines, g, now, fields, 0x16);
    lines, now, fields := AddOnly(lines, g, now, fields, 0x2C, 0x23);
  }

  lemma KindGroups()
    ensures KIND == KindLines()
  {}

  lemma KindWalks()
    ensures Walks(KIND, Globals(0x84, 8, 1, 0x03, 0x00, [0x04, 0x24]),
            Globals(0x85, 8, 1, 0x16, 0x00, [0x04, 0x24]), KIND_FIELDS)
  {
    KindWalksThrough();
    KindGroups();
  }

  const CAPACITY_FIELDS_1: seq<Field> := [
    Field(Feature, 0x10, 0x85, 0x8D, 0x24, 8),
    Field(Feature, 0x18, 0x85, 0x8E, 0x24, 8),
    Field(Feature, 0x0E, 0x85, 0x67, 0x24, 8)
  ]

  function CapacityLines1(): (r: seq<seq<byte>>) {
    [] + [[0x85, 0x10]] + [[0x09, 0x8D]] + [[0x26, 0x64, 0x00]] + [[0xB1, 0x22]] + [[0x85, 0x18]]
    + Only(0x8E, 0x23) + [[0x85, 0x0E]] + Only(0x67, 0x83) + [[0x85, 0x17]]
  }

  lemma CapacityWalks1()
    ensures Walks(CapacityLines1(), Globals(0x85, 8, 1, 0x16, 0x00, [0x04, 0x24]),
            Globals(0x85, 8, 1, 0x17, 0x00, [0x04, 0x24]), CAPACITY_FIELDS_1)
  {
    var g := Globals(0x85, 8, 1, 0x16, 0x00, [0x04, 0x24]);
    var lines: seq<seq<byte>>, now, fields: seq<Field> := [], g, [];
    WalksNothing(g);
    lines, now, fields := AddId(lines, g, now, fields, 0x10);
    lines, now, fields := AddUsage(lines, g, now, fields, 0x8D);
    lines, now, fields := AddOther(lines, g, now, fields, [0x26, 0x64, 0x00]);
    lines, now, fields := AddFeature(lines, g, now, fields, 0x22);
    lines, now, fields := AddId(lines, g, now, fields, 0x18);
    lines, now, fields := AddOnly(lines, g, now, fields, 0x8E, 0x23);
    lines, now, fields := AddId(lines, g, now, fields, 0x0E);
    lines, now, fields := AddOnly(lines, g, now, fields, 0x67, 0x83);
    lines, now, fields := AddId(lines, g, now, fields, 0x17);
  }

  const CAPACITY_FIELDS_2: seq<Field> := [
    Field(Feature, 0x17, 0x85, 0x83, 0x24, 8),
    Field(Input, 0x0C, 0x85, 0x66, 0x24, 8),
    Field(Feature, 0x0C, 0x85, 0x66, 0x24, 8),
    Field(Feature, 0x0F, 0x85, 0x8C, 0x24, 8),
    Field(Feature, 0x11, 0x85, 0x29, 0x24, 8)
  ]

  function CapacityLines2(): (r: seq<seq<byte>>) {
    [] + Only(0x83, 0x83) + [[0x85, 0x0C]] + Both(0x66, 0xA3, 0xA3) + [[0x85, 0x0F]] + Only(0x8C, 0xA2)
    + [[0x85, 0x11]] + Only(0x29, 0xA2)
  }

  lemma CapacityWalks2()
    ensures Walks(CapacityLines2(), Globals(0x85, 8, 1, 0x17, 0x00, [0x04, 0x24]),
            Globals(0x85, 8, 1, 0x11, 0x00, [0x04, 0x24]), CAPACITY_FIELDS_2)
  {
    var g := Globals(0x85, 8, 1, 0x17, 0x00, [0x04, 0x24]);
    var lines: seq<seq<byte>>, now, fields: seq<Field> := [], g, [];
    WalksNothing(g);
    lines, now, fields := AddOnly(lines, g, now, fields, 0x83, 0x83);
    lines, now, fields := AddId(lines, g, now, fields, 0x0C);
    lines, now, fields := AddBoth(lines, g, now, fields, 0x66, 0xA3, 0xA3);
    lines, now, fields := AddId(lines, g, now, fields, 0x0F);
    lines, now, fields := AddOnly(lines, g, now, fields, 0x8C, 0xA2);
    lines, now, fields := AddId(lines, g, now, fields, 0x11);
    lines, now, fields := AddOnly(lines, g, now, fields, 0x29, 0xA2);
  }

  const CAPACITY_FIELDS: seq<Field> := CAPACITY_FIELDS_1 + CAPACITY_FIELDS_2

  lemma CapacitySlice1()
    ensures CAPACITY[0..11] == CapacityLines1()
  {}

  lemma CapacitySlice2()
    ensures CAPACITY[11..24] == CapacityLines2()
  {}

  lemma CapacityGroups()
    ensures CAPACITY == CapacityLines1() + CapacityLines2()
  {
    CapacitySlice1();
    CapacitySlice2();
    var all := CAPACITY;
    assert all == all[0..11] + all[11..24];
  }

  lemma CapacityWalks()
    ensures Walks(CAPACITY, Globals(0x85, 8, 1, 0x16, 0x00, [0x04, 0x24]),
            Globals(0x85, 8, 1, 0x11, 0x00, [0x04, 0x24]), CAPACITY_FIELDS)
  {
    CapacityWalks1();
    CapacityWalks2();
    WalksAppend(CapacityLines1(), CapacityLines2(), Globals(0x85, 8, 1, 0x16, 0x00, [0x04, 0x24]),
                Globals(0x85, 8, 1, 0x17, 0x00, [0x04, 0x24]), Globals(0x85, 8, 1, 0x11, 0x00, [0x04, 0x24]),
                CAPACITY_FIELDS_1, CAPACITY_FIELDS_2);
    CapacityGroups();
  }

  const TIMES_FIELDS_1: seq<Field> := [
    Field(Feature, 0x09, 0x85, 0x85, 0x24, 16)
  ]

  function TimesLines1(): (r: seq<seq<byte>>) {
    [] + [[0x85, 0x09]] + [[0x09, 0x85]] + [[0x75, 0x10]] + [[0x27, 0xFF, 0xFF, 0x00, 0x00]]
    + [[0xB1, 0xA3]] + [[0x85, 0x1A]] + [[0x09, 0x6A]] + [[0x27, 0xFF, 0xFF, 0x00, 0x00]]
    + [[0x66, 0x01, 0x10]]
  }

  lemma TimesWalks1()
    ensures Walks(TimesLines1(), Globals(0x85, 8, 1, 0x11, 0x00, [0x04, 0x24]),
            Globals(0x85, 16, 1, 0x1A, 0x6A, [0x04, 0x24]), TIMES_FIELDS_1)
  {
    var g := Globals(0x85, 8, 1, 0x11, 0x00, [0x04, 0x24]);
    var lines: seq<seq<byte>>, now, fields: seq<Field> := [], g, [];
    WalksNothing(g);
    lines, now, fields := AddId(lines, g, now, fields, 0x09);
    lines, now, fields := AddUsage(lines, g, now, fields, 0x85);
    lines, now, fields := AddSize(lines, g, now, fields, 0x10);
    lines, now, fields := AddOther(lines, g, now, fields, [0x27, 0xFF, 0xFF, 0x00, 0x00]);
    lines, now, fields := AddFeature(lines, g, now, fields, 0xA3);
    lines, now, fields := AddId(lines, g, now, fields, 0x1A);
    lines, now, fields := AddUsage(lines, g, now, fields, 0x6A);
    lines, now, fields := AddOther(lines, g, now, fields, [0x27, 0xFF, 0xFF, 0x00, 0x00]);
    lines, now, fields := AddOther(lines, g, now, fields, [0x66, 0x01, 0x10]);
  }

  const TIMES_FIELDS_2: seq<Field> := [
    Field(Feature, 0x1A, 0x85, 0x6A, 0x24, 16),
    Field(Input, 0x1C, 0x85, 0x69, 0x24, 16),
    Field(Feature, 0x1C, 0x85, 0x69, 0x24, 16),
    Field(Input, 0x0D, 0x85, 0x68, 0x24, 16),
    Field(Feature, 0x0D, 0x85, 0x68, 0x24, 16)
  ]

  function TimesLines2(): (r: seq<seq<byte>>) {
    [] + [[0x55, 0x00]] + [[0xB1, 0xA3]] + [[0x85, 0x1C]] + Both(0x69, 0xA3, 0xA3) + [[0x85, 0x0D]]
    + Both(0x68, 0xA3, 0xA3)
  }

  lemma TimesWalks2()
    ensures Walks(TimesLines2(), Globals(0x85, 16, 1, 0x1A, 0x6A, [0x04, 0x24]),
            Globals(0x85, 16, 1, 0x0D, 0x00, [0x04, 0x24]), TIMES_FIELDS_2)
  {
    var g := Globals(0x85, 16, 1, 0x1A, 0x6A, [0x04, 0x24]);
    var lines: seq<seq<byte>>, now, fields: seq<Field> := [], g, [];
    WalksNothing(g);
    lines, now, fields := AddOther(lines, g, now, fields, [0x55, 0x00]);
    lines, now, fields := AddFeature(lines, g, now, fields, 0xA3);
    lines, now, fields := AddId(lines, g, now, fields, 0x1C);
    lines, now, fields := AddBoth(lines, g, now, fields, 0x69, 0xA3, 0xA3);
    lines, now, fields := AddId(lines, g, now, fields, 0x0D);
    lines, now, fields := AddBoth(lines, g, now, fields, 0x68, 0xA3, 0xA3);
  }

  const TIMES_FIELDS: seq<Field> := TIMES_FIELDS_1 + TIMES_FIELDS_2

  lemma TimesSlice1()
    ensures TIMES[0..9] == TimesLines1()
  {}

  lemma TimesSlice2()
    ensures TIMES[9..21] == TimesLines2()
  {}

  lemma TimesGroups()
    ensures TIMES == TimesLines1() + TimesLines2()
  {
    TimesSlice1();
    TimesSlice2();
    var all := TIMES;
    assert all == all[0..9] + all[9..21];
  }

  lemma TimesWalks()
    ensures Walks(TIMES, Globals(0x85, 8, 1, 0x11, 0x00, [0x04, 0x24]),
            Globals(0x85, 16, 1, 0x0D, 0x00, [0x04, 0x24]), TIMES_FIELDS)
  {
    TimesWalks1();
    TimesWalks2();
    WalksAppend(TimesLines1(), TimesLines2(), Globals(0x85, 8, 1, 0x11, 0x00, [0x04, 0x24]),
                Globals(0x85, 16, 1, 0x1A, 0x6A, [0x04, 0x24]), Globals(0x85, 16, 1, 0x0D, 0x00, [0x04, 0x24]),
                TIMES_FIELDS_1, TIMES_FIELDS_2);
    TimesGroups();
  }

  const DELAYS_FIELDS_1: seq<Field> := [
    Field(Input, 0x08, 0x85, 0x2A, 0x24, 16),
    Field(Feature, 0x08, 0x85, 0x2A, 0x24, 16)
  ]

  function DelaysLines1(): (r: seq<seq<byte>>) {
    [] + [[0x85, 0x08]] + [[0x09, 0x2A]] + [[0x75, 0x10]] + [[0x27, 0x64, 0x05, 0x00, 0x00]]
    + [[0x16, 0x78, 0x00]] + [[0x81, 0x22]] + Only(0x2A, 0xA2) + [[0x05, 0x84]] + [[0x85, 0x12]]
  }

  lemma DelaysWalks1()
    ensures Walks(DelaysLines1(), Globals(0x85, 16, 1, 0x0D, 0x00, [0x04, 0x24]),
            Globals(0x84, 16, 1, 0x12, 0x00, [0x04, 0x24]), DELAYS_FIELDS_1)
  {
    var g := Globals(0x85, 16, 1, 0x0D, 0x00, [0x04, 0x24]);
    var lines: seq<seq<byte>>, now, fields: seq<Field> := [], g, [];
    WalksNothing(g);
    lines, now, fields := AddId(lines, g, now, fields, 0x08);
    lines, now, fields := AddUsage(lines, g, now, fields, 0x2A);
    lines, now, fields := AddSize(lines, g, now, fields, 0x10);
    lines, now, fields := AddOther(lines, g, now, fields, [0x27, 0x64, 0x05, 0x00, 0x00]);
    lines, now, fields := AddOther(lines, g, now, fields, [0x16, 0x78, 0x00]);
    lines, now, fields := AddInput(lines, g, now, fields, 0x22);
    lines, now, fields := AddOnly(lines, g, now, fields, 0x2A, 0xA2);
    lines, now, fields := AddPage(lines, g, now, fields, 0x84);
    lines, now, fields := AddId(lines, g, now, fields, 0x12);
  }

  const DELAYS_FIELDS_2: seq<Field> := [
    Field(Feature, 0x12, 0x84, 0x57, 0x24, 16),
    Field(Feature, 0x13, 0x84, 0x55, 0x24, 16)
  ]

  function DelaysLines2(): (r: seq<seq<byte>>) {
    [] + [[0x09, 0x57]] + [[0x16, 0x00, 0x80]] + [[0x27, 0xFF, 0x7F, 0x00, 0x00]] + [[0xB1, 0xA2]]
    + [[0x85, 0x13]] + Only(0x55, 0xA2)
  }

  lemma DelaysWalks2()
    ensures Walks(DelaysLines2(), Globals(0x84, 16, 1, 0x12, 0x00, [0x04, 0x24]),
            Globals(0x84, 16, 1, 0x13, 0x00, [0x04, 0x24]), DELAYS_FIELDS_2)
  {
    var g := Globals(0x84, 16, 1, 0x12, 0x00, [0x04, 0x24]);
    var lines: seq<seq<byte>>, now, fields: seq<Field> := [], g, [];
    WalksNothing(g);
    lines, now, fields := AddUsage(lines, g, now, fields, 0x57);
    lines, now, fields := AddOther(lines, g, now, fields, [0x16, 0x00, 0x80]);
    lines, now, fields := AddOther(lines, g, now, fields, [0x27, 0xFF, 0x7F, 0x00, 0x00]);
    lines, now, fields := AddFeature(lines, g, now, fields, 0xA2);
    lines, now, fields := AddId(lines, g, now, fields, 0x13);
    lines, now, fields := AddOnly(lines, g, now, fields, 0x55, 0xA2);
  }

  const DELAYS_FIELDS: seq<Field> := DELAYS_FIELDS_1 + DELAYS_FIELDS_2

  lemma DelaysGroups()
    ensures DELAYS == DelaysLines1() + DelaysLines2()
  {}

  lemma DelaysWalks()
    ensures Walks(DELAYS, Globals(0x85, 16, 1, 0x0D, 0x00, [0x04, 0x24]),
            Globals(0x84, 16, 1, 0x13, 0x00, [0x04, 0x24]), DELAYS_FIELDS)
  {
    DelaysWalks1();
    DelaysWalks2();
    WalksAppend(DelaysLines1(), DelaysLines2(), Globals(0x85, 16, 1, 0x0D, 0x00, [0x04, 0x24]),
                Globals(0x84, 16, 1, 0x12, 0x00, [0x04, 0x24]), Globals(0x84, 16, 1, 0x13, 0x00, [0x04, 0x24]),
                DELAYS_FIELDS_1, DELAYS_FIELDS_2);
    DelaysGroups();
  }

  const VOLTAGES_FIELDS: seq<Field> := [
    Field(Feature, 0x0A, 0x84, 0x40, 0x24, 16),
    Field(Input, 0x0B, 0x84, 0x30, 0x24, 16),
    Field(Feature, 0x0B, 0x84, 0x30, 0x24, 16)
  ]

  function VoltagesLines(): (r: seq<seq<byte>>) {
    [] + [[0x85, 0x0A]] + [[0x09, 0x40]] + [[0x15, 0x00]] + [[0x27, 0xFF, 0xFF, 0x00, 0x00]]
    + [[0x67, 0x21, 0xD1, 0xF0, 0x00]] + [[0x55, 0x05]] + [[0xB1, 0x23]] + [[0x85, 0x0B]]
    + Both(0x30, 0xA3, 0xA3)
  }

  lemma VoltagesWalksThrough()
    ensures Walks(VoltagesLines(), Globals(0x84, 16, 1, 0x13, 0x00, [0x04, 0x24]),
            Globals(0x84, 16, 1, 0x0B, 0x00, [0x04, 0x24]), VOLTAGES_FIELDS)
  {
    var g := Globals(0x84, 16, 1, 0x13, 0x00, [0x04, 0x24]);
    var lines: seq<seq<byte>>, now, fields: seq<Field> := [], g, [];
    WalksNothing(g);
    lines, now, fields := AddId(lines, g, now, fields, 0x0A);
    lines, now, fields := AddUsage(lines, g, now, fields, 0x40);
    lines, now, fields := AddOther(lines, g, now, fields, [0x15, 0x00]);
    lines, now, fields := AddOther(lines, g, now, fields, [0x27, 0xFF, 0xFF, 0x00, 0x00]);
    lines, now, fields := AddOther(lines, g, now, fields, [0x67, 0x21, 0xD1, 0xF0, 0x00]);
    lines, now, fields := AddOther(lines, g, now, fields, [0x55, 0x05]);
    lines, now, fields := AddFeature(lines, g, now, fields, 0x23);
    lines, now, fields := AddId(lines, g, now, fields, 0x0B);
    lines, now, fields := AddBoth(lines, g, now, fields, 0x30, 0xA3, 0xA3);
  }

  lemma VoltagesGroups()
    ensures VOLTAGES == VoltagesLines()
  {}

  lemma VoltagesWalks()
    ensures Walks(VOLTAGES, Globals(0x84, 16, 1, 0x13, 0x00, [0x04, 0x24]),
            Globals(0x84, 16, 1, 0x0B, 0x00, [0x04, 0x24]), VOLTAGES_FIELDS)
  {
    VoltagesWalksThrough();
    VoltagesGroups();
  }

  const ALARM_FIELDS_1: seq<Field> := [
    Field(Input, 0x14, 0x84, 0x5A, 0x24, 8),
    Field(Feature, 0x14, 0x84, 0x5A, 0x24, 8)
  ]

  function AlarmLines1(): (r: seq<seq<byte>>) {
    [] + [[0x85, 0x14]] + [[0x09, 0x5A]] + [[0x75, 0x08]] + [[0x15, 0x01]] + [[0x25, 0x03]] + [[0x65, 0x00]]
    + [[0x55, 0x00]] + [[0x81, 0x22]] + Only(0x5A, 0xA2)
  }

  lemma AlarmWalks1()
    ensures Walks(AlarmLines1(), Globals(0x84, 16, 1, 0x0B, 0x00, [0x04, 0x24]),
            Globals(0x84, 8, 1, 0x14, 0x00, [0x04, 0x24]), ALARM_FIELDS_1)
  {
    var g := Globals(0x84, 16, 1, 0x0B, 0x00, [0x04, 0x24]);
    var lines: seq<seq<byte>>, now, fields: seq<Field> := [], g, [];
    WalksNothing(g);
    lines, now, fields := AddId(lines, g, now, fields, 0x14);
    lines, now, fields := AddUsage(lines, g, now, fields, 0x5A);
    lines, now, fields := AddSize(lines, g, now, fields, 0x08);
    lines, now, fields := AddOther(lines, g, now, fields, [0x15, 0x01]);
    lines, now, fields := AddOther(lines, g, now, fields, [0x25, 0x03]);
    lines, now, fields := AddOther(lines, g, now, fields, [0x65, 0x00]);
    lines, now, fields := AddOther(lines, g, now, fields, [0x55, 0x00]);
    lines, now, fields := AddInput(lines, g, now, fields, 0x22);
    lines, now, fields := AddOnly(lines, g, now, fields, 0x5A, 0xA2);
  }

  function AlarmLines2(): (r: seq<seq<byte>>) {
    [] + [[0x09, 0x02]]
  }

  lemma AlarmWalks2()
    ensures Walks(AlarmLines2(), Globals(0x84, 8, 1, 0x14, 0x00, [0x04, 0x24]),
            Globals(0x84, 8, 1, 0x14, 0x02, [0x04, 0x24]), [])
  {
    var g := Globals(0x84, 8, 1, 0x14, 0x00, [0x04, 0x24]);
    var lines: seq<seq<byte>>, now, fields: seq<Field> := [], g, [];
    WalksNothing(g);
    lines, now, fields := AddUsage(lines, g, now, fields, 0x02);
  }

  const ALARM_FIELDS: seq<Field> := ALARM_FIELDS_1

  lemma AlarmGroups()
    ensures ALARM == AlarmLines1() + AlarmLines2()
  {}

  lemma AlarmWalks()
    ensures Walks(ALARM, Globals(0x84, 16, 1, 0x0B, 0x00, [0x04, 0x24]),
            Globals(0x84, 8, 1, 0x14, 0x02, [0x04, 0x24]), ALARM_FIELDS)
  {
    AlarmWalks1();
    AlarmWalks2();
    WalksAppend(AlarmLines1(), AlarmLines2(), Globals(0x84, 16, 1, 0x0B, 0x00, [0x04, 0x24]),
                Globals(0x84, 8, 1, 0x14, 0x00, [0x04, 0x24]), Globals(0x84, 8, 1, 0x14, 0x02, [0x04, 0x24]),
                ALARM_FIELDS_1, []);
    AlarmGroups();
  }

  const STATUS_BITS_1_FIELDS_1: seq<Field> := [
    Field(Input, 0x07, 0x85, 0x44, 0x02, 1),
    Field(Feature, 0x07, 0x85, 0x44, 0x02, 1),
    Field(Input, 0x07, 0x85, 0x45, 0x02, 1),
    Field(Feature, 0x07, 0x85, 0x45, 0x02, 1)
  ]

  function StatusBits1Lines1(): (r: seq<seq<byte>>) {
    [] + [[0x85, 0x07]] + [[0x05, 0x85]] + [[0x09, 0x44]] + [[0x75, 0x01]] + [[0x15, 0x00]] + [[0x25, 0x01]]
    + [[0x81, 0xA3]] + Only(0x44, 0xA3) + Both(0x45, 0xA3, 0xA3)
  }

  lemma StatusBits1Walks1()
    ensures Walks(StatusBits1Lines1(), Globals(0x84, 8, 1, 0x14, 0x00, [0x04, 0x24, 0x02]),
            Globals(0x85, 1, 1, 0x07, 0x00, [0x04, 0x24, 0x02]), STATUS_BITS_1_FIELDS_1)
  {
    var g := Globals(0x84, 8, 1, 0x14, 0x00, [0x04, 0x24, 0x02]);
    var lines: seq<seq<byte>>, now, fields: seq<Field> := [], g, [];
    WalksNothing(g);
    lines, now, fields := AddId(lines, g, now, fields, 0x07);
    lines, now, fields := AddPage(lines, g, now, fields, 0x85);
    lines, now, fields := AddUsage(lines, g, now, fields, 0x44);
    lines, now, fields := AddSize(lines, g, now, fields, 0x01);
    lines, now, fields := AddOther(lines, g, now, fields, [0x15, 0x00]);
    lines, now, fields := AddOther(lines, g, now, fields, [0x25, 0x01]);
    lines, now, fields := AddInput(lines, g, now, fields, 0xA3);
    lines, now, fields := AddOnly(lines, g, now, fields, 0x44, 0xA3);
    lines, now, fields := AddBoth(lines, g, now, fields, 0x45, 0xA3, 0xA3);
  }

  const STATUS_BITS_1_FIELDS_2: seq<Field> := [
    Field(Input, 0x07, 0x85, 0xD0, 0x02, 1),
    Field(Feature, 0x07, 0x85, 0xD0, 0x02, 1),
    Field(Input, 0x07, 0x85, 0xD1, 0x02, 1),
    Field(Feature, 0x07, 0x85, 0xD1, 0x02, 1)
  ]

  function StatusBits1Lines2(): (r: seq<seq<byte>>) {
    [] + Both(0xD0, 0xA3, 0xA3) + Both(0xD1, 0xA3, 0xA3)
  }

  lemma StatusBits1Walks2()
    ensures Walks(StatusBits1Lines2(), Globals(0x85, 1, 1, 0x07, 0x00, [0x04, 0x24, 0x02]),
            Globals(0x85, 1, 1, 0x07, 0x00, [0x04, 0x24, 0x02]), STATUS_BITS_1_FIELDS_2)
  {
    var g := Globals(0x85, 1, 1, 0x07, 0x00, [0x04, 0x24, 0x02]);
    var lines: seq<seq<byte>>, now, fields: seq<Field> := [], g, [];
    WalksNothing(g);
    lines, now, fields := AddBoth(lines, g, now, fields, 0xD0, 0xA3, 0xA3);
    lines, now, fields := AddBoth(lines, g, now, fields, 0xD1, 0xA3, 0xA3);
  }

  const STATUS_BITS_1_FIELDS: seq<Field> := STATUS_BITS_1_FIELDS_1 + STATUS_BITS_1_FIELDS_2

  lemma StatusBits1Slice1()
    ensures STATUS_BITS_1[0..13] == StatusBits1Lines1()
  {}

  lemma StatusBits1Slice2()
    ensures STATUS_BITS_1[13..21] == StatusBits1Lines2()
  {}

  lemma StatusBits1Groups()
    ensures STATUS_BITS_1 == StatusBits1Lines1() + StatusBits1Lines2()
  {
    StatusBits1Slice1();
    StatusBits1Slice2();
    var all := STATUS_BITS_1;
    assert all == all[0..13] + all[13..21];
  }

  lemma StatusBits1Walks()
    ensures Walks(STATUS_BITS_1, Globals(0x84, 8, 1, 0x14, 0x00, [0x04, 0x24, 0x02]),
            Globals(0x85, 1, 1, 0x07, 0x00, [0x04, 0x24, 0x02]), STATUS_BITS_1_FIELDS)
  {
    StatusBits1Walks1();
    StatusBits1Walks2();
    WalksAppend(StatusBits1Lines1(), StatusBits1Lines2(), Globals(0x84, 8, 1, 0x14, 0x00, [0x04, 0x24, 0x02]),
                Globals(0x85, 1, 1, 0x07, 0x00, [0x04, 0x24, 0x02]),
                Globals(0x85, 1, 1, 0x07, 0x00, [0x04, 0x24, 0x02]), STATUS_BITS_1_FIELDS_1, STATUS_BITS_1_FIELDS_2);
    StatusBits1Groups();
  }

  const STATUS_BITS_2_FIELDS_1: seq<Field> := [
    Field(Input, 0x07, 0x85, 0x42, 0x02, 1),
    Field(Feature, 0x07, 0x85, 0x42, 0x02, 1),
    Field(Input, 0x07, 0x85, 0x43, 0x02, 1),
    Field(Feature, 0x07, 0x85, 0x43, 0x02, 1)
  ]

  function StatusBits2Lines1(): (r: seq<seq<byte>>) {
    [] + Both(0x42, 0xA3, 0xA3) + Both(0x43, 0xA2, 0xA2)
  }

  lemma StatusBits2Walks1()
    ensures Walks(StatusBits2Lines1(), Globals(0x85, 1, 1, 0x07, 0x00, [0x04, 0x24, 0x02]),
            Globals(0x85, 1, 1, 0x07, 0x00, [0x04, 0x24, 0x02]), STATUS_BITS_2_FIELDS_1)
  {
    var g := Globals(0x85, 1, 1, 0x07, 0x00, [0x04, 0x24, 0x02]);
    var lines: seq<seq<byte>>, now, fields: seq<Field> := [], g, [];
    WalksNothing(g);
    lines, now, fields := AddBoth(lines, g, now, fields, 0x42, 0xA3, 0xA3);
    lines, now, fields := AddBoth(lines, g, now, fields, 0x43, 0xA2, 0xA2);
  }

  const STATUS_BITS_2_FIELDS_2: seq<Field> := [
    Field(Input, 0x07, 0x85, 0x4B, 0x02, 1),
    Field(Feature, 0x07, 0x85, 0x4B, 0x02, 1),
    Field(Input, 0x07, 0x85, 0xDB, 0x02, 1),
    Field(Feature, 0x07, 0x85, 0xDB, 0x02, 1)
  ]

  function StatusBits2Lines2(): (r: seq<seq<byte>>) {
    [] + Both(0x4B, 0xA3, 0xA3) + Both(0xDB, 0xA3, 0xA3)
  }

  lemma StatusBits2Walks2()
    ensures Walks(StatusBits2Lines2(), Globals(0x85, 1, 1, 0x07, 0x00, [0x04, 0x24, 0x02]),
            Globals(0x85, 1, 1, 0x07, 0x00, [0x04, 0x24, 0x02]), STATUS_BITS_2_FIELDS_2)
  {
    var g := Globals(0x85, 1, 1, 0x07, 0x00, [0x04, 0x24, 0x02]);
    var lines: seq<seq<byte>>, now, fields: seq<Field> := [], g, [];
    WalksNothing(g);
    lines, now, fields := AddBoth(lines, g, now, fields, 0x4B, 0xA3, 0xA3);
    lines, now, fields := AddBoth(lines, g, now, fields, 0xDB, 0xA3, 0xA3);
  }

  const STATUS_BITS_2_FIELDS_3: seq<Field> := [
    Field(Input, 0x07, 0x85, 0x46, 0x02, 1),
    Field(Feature, 0x07, 0x85, 0x46, 0x02, 1),
    Field(Input, 0x07, 0x85, 0x47, 0x02, 1),
    Field(Feature, 0x07, 0x85, 0x47, 0x02, 1)
  ]

  function StatusBits2Lines3(): (r: seq<seq<byte>>) {
    [] + Both(0x46, 0xA3, 0xA3) + Both(0x47, 0xA3, 0xA3)
  }

  lemma StatusBits2Walks3()
    ensures Walks(StatusBits2Lines3(), Globals(0x85, 1, 1, 0x07, 0x00, [0x04, 0x24, 0x02]),
            Globals(0x85, 1, 1, 0x07, 0x00, [0x04, 0x24, 0x02]), STATUS_BITS_2_FIELDS_3)
  {
    var g := Globals(0x85, 1, 1, 0x07, 0x00, [0x04, 0x24, 0x02]);
    var lines: seq<seq<byte>>, now, fields: seq<Field> := [], g, [];
    WalksNothing(g);
    lines, now, fields := AddBoth(lines, g, now, fields, 0x46, 0xA3, 0xA3);
    lines, now, fields := AddBoth(lines, g, now, fields, 0x47, 0xA3, 0xA3);
  }

  const STATUS_BITS_2_FIELDS: seq<Field> := STATUS_BITS_2_FIELDS_1 + STATUS_BITS_2_FIELDS_2 + STATUS_BITS_2_FIELDS_3

  lemma StatusBits2Slice1()
    ensures STATUS_BITS_2[0..8] == StatusBits2Lines1()
  {}

  lemma StatusBits2Slice2()
    ensures STATUS_BITS_2[8..16] == StatusBits2Lines2()
  {}

  lemma StatusBits2Slice3()
    ensures STATUS_BITS_2[16..24] == StatusBits2Lines3()
  {}

  lemma StatusBits2Groups()
    ensures STATUS_BITS_2 == StatusBits2Lines1() + StatusBits2Lines2() + StatusBits2Lines3()
  {
    StatusBits2Slice1();
    StatusBits2Slice2();
    StatusBits2Slice3();
    var all := STATUS_BITS_2;
    assert all == all[0..8] + all[8..16] + all[16..24];
  }

  lemma StatusBits2Walks()
    ensures Walks(STATUS_BITS_2, Globals(0x85, 1, 1, 0x07, 0x00, [0x04, 0x24, 0x02]),
            Globals(0x85, 1, 1, 0x07, 0x00, [0x04, 0x24, 0x02]), STATUS_BITS_2_FIELDS)
  {
    StatusBits2Walks1();
    StatusBits2Walks2();
    StatusBits2Walks3();
    WalksAppend(StatusBits2Lines1(), StatusBits2Lines2(), Globals(0x85, 1, 1, 0x07, 0x00, [0x04, 0x24, 0x02]),
                Globals(0x85, 1, 1, 0x07, 0x00, [0x04, 0x24, 0x02]),
                Globals(0x85, 1, 1, 0x07, 0x00, [0x04, 0x24, 0x02]), STATUS_BITS_2_FIELDS_1, STATUS_BITS_2_FIELDS_2);
    WalksAppend(StatusBits2Lines1() + StatusBits2Lines2(), StatusBits2Lines3(),
        Globals(0x85, 1, 1, 0x07, 0x00, [0x04, 0x24, 0x02]),
                Globals(0x85, 1, 1, 0x07, 0x00, [0x04, 0x24, 0x02]),
                Globals(0x85, 1, 1, 0x07, 0x00, [0x04, 0x24, 0x02]), STATUS_BITS_2_FIELDS_1
                + STATUS_BITS_2_FIELDS_2, STATUS_BITS_2_FIELDS_3);
    StatusBits2Groups();
  }

  const STATUS_BITS_3_FIELDS_1: seq<Field> := [
    Field(Input, 0x07, 0x84, 0x68, 0x02, 1),
    Field(Feature, 0x07, 0x84, 0x68, 0x02, 1),
    Field(Input, 0x07, 0x84, 0x69, 0x02, 1),
    Field(Feature, 0x07, 0x84, 0x69, 0x02, 1)
  ]

  function StatusBits3Lines1(): (r: seq<seq<byte>>) {
    [] + [[0x05, 0x84]] + Both(0x68, 0xA2, 0xA2) + Both(0x69, 0xA3, 0xA3)
  }

  lemma StatusBits3Walks1()
    ensures Walks(StatusBits3Lines1(), Globals(0x85, 1, 1, 0x07, 0x00, [0x04, 0x24, 0x02]),
            Globals(0x84, 1, 1, 0x07, 0x00, [0x04, 0x24, 0x02]), STATUS_BITS_3_FIELDS_1)
  {
    var g := Globals(0x85, 1, 1, 0x07, 0x00, [0x04, 0x24, 0x02]);
    var lines: seq<seq<byte>>, now, fields: seq<Field> := [], g, [];
    WalksNothing(g);
    lines, now, fields := AddPage(lines, g, now, fields, 0x84);
    lines, now, fields := AddBoth(lines, g, now, fields, 0x68, 0xA2, 0xA2);
    lines, now, fields := AddBoth(lines, g, now, fields, 0x69, 0xA3, 0xA3);
  }

  const STATUS_BITS_3_FIELDS_2: seq<Field> := [
    Field(Input, 0x07, 0x84, 0x73, 0x02, 1),
    Field(Feature, 0x07, 0x84, 0x73, 0x02, 1),
    Field(Input, 0x07, 0x84, 0x65, 0x02, 1),
    Field(Feature, 0x07, 0x84, 0x65, 0x02, 1),
    Field(Input, 0x07, 0x84, 0x00, 0x02, 2)
  ]

  function StatusBits3Lines2(): (r: seq<seq<byte>>) {
    [] + Both(0x73, 0xA3, 0xA3) + Both(0x65, 0xA3, 0xA3) + [[0x95, 0x02]] + [[0x81, 0x01]]
  }

  lemma StatusBits3Walks2()
    ensures Walks(StatusBits3Lines2(), Globals(0x84, 1, 1, 0x07, 0x00, [0x04, 0x24, 0x02]),
            Globals(0x84, 1, 2, 0x07, 0x00, [0x04, 0x24, 0x02]), STATUS_BITS_3_FIELDS_2)
  {
    var g := Globals(0x84, 1, 1, 0x07, 0x00, [0x04, 0x24, 0x02]);
    var lines: seq<seq<byte>>, now, fields: seq<Field> := [], g, [];
    WalksNothing(g);
    lines, now, fields := AddBoth(lines, g, now, fields, 0x73, 0xA3, 0xA3);
    lines, now, fields := AddBoth(lines, g, now, fields, 0x65, 0xA3, 0xA3);
    lines, now, fields := AddCount(lines, g, now, fields, 0x02);
    lines, now, fields := AddInput(lines, g, now, fields, 0x01);
  }

  const STATUS_BITS_3_FIELDS_3: seq<Field> := [
    Field(Feature, 0x07, 0x84, 0x00, 0x02, 2)
  ]

  function StatusBits3Lines3(): (r: seq<seq<byte>>) {
    [] + [[0xB1, 0x01]]
  }

  lemma StatusBits3Walks3()
    ensures Walks(StatusBits3Lines3(), Globals(0x84, 1, 2, 0x07, 0x00, [0x04, 0x24, 0x02]),
            Globals(0x84, 1, 2, 0x07, 0x00, [0x04, 0x24, 0x02]), STATUS_BITS_3_FIELDS_3)
  {
    var g := Globals(0x84, 1, 2, 0x07, 0x00, [0x04, 0x24, 0x02]);
    var lines: seq<seq<byte>>, now, fields: seq<Field> := [], g, [];
    WalksNothing(g);
    lines, now, fields := AddFeature(lines, g, now, fields, 0x01);
  }

  const STATUS_BITS_3_FIELDS: seq<Field> := STATUS_BITS_3_FIELDS_1 + STATUS_BITS_3_FIELDS_2 + STATUS_BITS_3_FIELDS_3

  lemma StatusBits3Slice1()
    ensures STATUS_BITS_3[0..9] == StatusBits3Lines1()
  {}

  lemma StatusBits3Slice2()
    ensures STATUS_BITS_3[9..19] == StatusBits3Lines2()
  {}

  lemma StatusBits3Slice3()
    ensures STATUS_BITS_3[19..20] == StatusBits3Lines3()
  {}

  lemma StatusBits3Groups()
    ensures STATUS_BITS_3 == StatusBits3Lines1() + StatusBits3Lines2() + StatusBits3Lines3()
  {
    StatusBits3Slice1();
    StatusBits3Slice2();
    StatusBits3Slice3();
    var all := STATUS_BITS_3;
    assert all == all[0..9] + all[9..19] + all[19..20];
  }

  lemma StatusBits3Walks()
    ensures Walks(STATUS_BITS_3, Globals(0x85, 1, 1, 0x07, 0x00, [0x04, 0x24, 0x02]),
            Globals(0x84, 1, 2, 0x07, 0x00, [0x04, 0x24, 0x02]), STATUS_BITS_3_FIELDS)
  {
    StatusBits3Walks1();
    StatusBits3Walks2();
    StatusBits3Walks3();
    WalksAppend(StatusBits3Lines1(), StatusBits3Lines2(), Globals(0x85, 1, 1, 0x07, 0x00, [0x04, 0x24, 0x02]),
                Globals(0x84, 1, 1, 0x07, 0x00, [0x04, 0x24, 0x02]),
                Globals(0x84, 1, 2, 0x07, 0x00, [0x04, 0x24, 0x02]), STATUS_BITS_3_FIELDS_1, STATUS_BITS_3_FIELDS_2);
    WalksAppend(StatusBits3Lines1() + StatusBits3Lines2(), StatusBits3Lines3(),
        Globals(0x85, 1, 1, 0x07, 0x00, [0x04, 0x24, 0x02]),
                Globals(0x84, 1, 2, 0x07, 0x00, [0x04, 0x24, 0x02]),
                Globals(0x84, 1, 2, 0x07, 0x00, [0x04, 0x24, 0x02]), STATUS_BITS_3_FIELDS_1
                + STATUS_BITS_3_FIELDS_2, STATUS_BITS_3_FIELDS_3);
    StatusBits3Groups();
  }

  function NutPageLines(): (r: seq<seq<byte>>) {
    [] + [[0x05, 0x84]] + [[0x09, 0x24]]
  }

  lemma NutPageWalksThrough()
    ensures Walks(NutPageLines(), Globals(0x84, 1, 2, 0x07, 0x00, [0x04]), Globals(0x84, 1, 2, 0x07, 0x24, [0x04]), [])
  {
    var g := Globals(0x84, 1, 2, 0x07, 0x00, [0x04]);
    var lines: seq<seq<byte>>, now, fields: seq<Field> := [], g, [];
    WalksNothing(g);
    lines, now, fields := AddPage(lines, g, now, fields, 0x84);
    lines, now, fields := AddUsage(lines, g, now, fields, 0x24);
  }

  lemma NutPageGroups()
    ensures [[0x05, 0x84], [0x09, 0x24]] == NutPageLines()
  {}

  lemma NutPageWalks()
    ensures Walks([[0x05, 0x84], [0x09, 0x24]], Globals(0x84, 1, 2, 0x07, 0x00, [0x04]),
            Globals(0x84, 1, 2, 0x07, 0x24, [0x04]), [])
  {
    NutPageWalksThrough();
    NutPageGroups();
  }

  const STARTUP_AND_LOAD_FIELDS_1: seq<Field> := [
    Field(Feature, 0x21, 0x84, 0x56, 0x24, 16)
  ]

  function StartupAndLoadLines1(): (r: seq<seq<byte>>) {
    [] + [[0x75, 0x10]] + [[0x95, 0x01]] + [[0x16, 0x00, 0x80]] + [[0x27, 0xFF, 0x7F, 0x00, 0x00]]
    + [[0x66, 0x01, 0x10]] + [[0x55, 0x00]] + [[0x85, 0x21]] + Only(0x56, 0xA2) + [[0x75, 0x08]]
  }

  lemma StartupAndLoadWalks1()
    ensures Walks(StartupAndLoadLines1(), Globals(0x84, 1, 2, 0x07, 0x00, [0x04, 0x24]),
            Globals(0x84, 8, 1, 0x21, 0x00, [0x04, 0x24]), STARTUP_AND_LOAD_FIELDS_1)
  {
    var g := Globals(0x84, 1, 2, 0x07, 0x00, [0x04, 0x24]);
    var lines: seq<seq<byte>>, now, fields: seq<Field> := [], g, [];
    WalksNothing(g);
    lines, now, fields := AddSize(lines, g, now, fields, 0x10);
    lines, now, fields := AddCount(lines, g, now, fields, 0x01);
    lines, now, fields := AddOther(lines, g, now, fields, [0x16, 0x00, 0x80]);
    lines, now, fields := AddOther(lines, g, now, fields, [0x27, 0xFF, 0x7F, 0x00, 0x00]);
    lines, now, fields := AddOther(lines, g, now, fields, [0x66, 0x01, 0x10]);
    lines, now, fields := AddOther(lines, g, now, fields, [0x55, 0x00]);
    lines, now, fields := AddId(lines, g, now, fields, 0x21);
    lines, now, fields := AddOnly(lines, g, now, fields, 0x56, 0xA2);
    lines, now, fields := AddSize(lines, g, now, fields, 0x08);
  }

  const STARTUP_AND_LOAD_FIELDS_2: seq<Field> := [
    Field(Input, 0x22, 0x84, 0x35, 0x24, 8),
    Field(Feature, 0x22, 0x84, 0x35, 0x24, 8)
  ]

  function StartupAndLoadLines2(): (r: seq<seq<byte>>) {
    [] + [[0x15, 0x00]] + [[0x25, 0x64]] + [[0x65, 0x00]] + [[0x85, 0x22]] + Both(0x35, 0xA2, 0xA2)
  }

  lemma StartupAndLoadWalks2()
    ensures Walks(StartupAndLoadLines2(), Globals(0x84, 8, 1, 0x21, 0x00, [0x04, 0x24]),
            Globals(0x84, 8, 1, 0x22, 0x00, [0x04, 0x24]), STARTUP_AND_LOAD_FIELDS_2)
  {
    var g := Globals(0x84, 8, 1, 0x21, 0x00, [0x04, 0x24]);
    var lines: seq<seq<byte>>, now, fields: seq<Field> := [], g, [];
    WalksNothing(g);
    lines, now, fields := AddOther(lines, g, now, fields, [0x15, 0x00]);
    lines, now, fields := AddOther(lines, g, now, fields, [0x25, 0x64]);
    lines, now, fields := AddOther(lines, g, now, fields, [0x65, 0x00]);
    lines, now, fields := AddId(lines, g, now, fields, 0x22);
    lines, now, fields := AddBoth(lines, g, now, fields, 0x35, 0xA2, 0xA2);
  }

  const STARTUP_AND_LOAD_FIELDS: seq<Field> := STARTUP_AND_LOAD_FIELDS_1 + STARTUP_AND_LOAD_FIELDS_2

  lemma StartupAndLoadGroups()
    ensures STARTUP_AND_LOAD == StartupAndLoadLines1() + StartupAndLoadLines2()
  {}

  lemma StartupAndLoadWalks()
    ensures Walks(STARTUP_AND_LOAD, Globals(0x84, 1, 2, 0x07, 0x00, [0x04, 0x24]),
            Globals(0x84, 8, 1, 0x22, 0x00, [0x04, 0x24]), STARTUP_AND_LOAD_FIELDS)
  {
    StartupAndLoadWalks1();
    StartupAndLoadWalks2();
    WalksAppend(StartupAndLoadLines1(), StartupAndLoadLines2(), Globals(0x84, 1, 2, 0x07, 0x00, [0x04, 0x24]),
                Globals(0x84, 8, 1, 0x21, 0x00, [0x04, 0x24]), Globals(0x84, 8, 1, 0x22, 0x00, [0x04, 0x24]),
                STARTUP_AND_LOAD_FIELDS_1, STARTUP_AND_LOAD_FIELDS_2);
    StartupAndLoadGroups();
  }

  function ConverterUsageLines(): (r: seq<seq<byte>>) {
    [] + [[0x09, 0x16]]
  }

  lemma ConverterUsageWalksThrough()
    ensures Walks(ConverterUsageLines(), Globals(0x84, 8, 1, 0x22, 0x00, [0x04]),
            Globals(0x84, 8, 1, 0x22, 0x16, [0x04]), [])
  {
    var g := Globals(0x84, 8, 1, 0x22, 0x00, [0x04]);
    var lines: seq<seq<byte>>, now, fields: seq<Field> := [], g, [];
    WalksNothing(g);
    lines, now, fields := AddUsage(lines, g, now, fields, 0x16);
  }

  lemma ConverterUsageGroups()
    ensures [[0x09, 0x16]] == ConverterUsageLines()
  {}

  lemma ConverterUsageWalks()
    ensures Walks([[0x09, 0x16]], Globals(0x84, 8, 1, 0x22, 0x00, [0x04]), Globals(0x84, 8, 1, 0x22, 0x16, [0x04]), [])
  {
    ConverterUsageWalksThrough();
    ConverterUsageGroups();
  }

  function InputUsageLines(): (r: seq<seq<byte>>) {
    [] + [[0x09, 0x1A]]
  }

  lemma InputUsageWalksThrough()
    ensures Walks(InputUsageLines(), Globals(0x84, 8, 1, 0x22, 0x00, [0x04, 0x16]),
            Globals(0x84, 8, 1, 0x22, 0x1A, [0x04, 0x16]), [])
  {
    var g := Globals(0x84, 8, 1, 0x22, 0x00, [0x04, 0x16]);
    var lines: seq<seq<byte>>, now, fields: seq<Field> := [], g, [];
    WalksNothing(g);
    lines, now, fields := AddUsage(lines, g, now, fields, 0x1A);
  }

  lemma InputUsageGroups()
    ensures [[0x09, 0x1A]] == InputUsageLines()
  {}

  lemma InputUsageWalks()
    ensures Walks([[0x09, 0x1A]], Globals(0x84, 8, 1, 0x22, 0x00, [0x04, 0x16]),
            Globals(0x84, 8, 1, 0x22, 0x1A, [0x04, 0x16]), [])
  {
    InputUsageWalksThrough();
    InputUsageGroups();
  }

  const INPUT_VOLTAGE_FIELDS: seq<Field> := [
    Field(Input, 0x23, 0x84, 0x30, 0x1A, 16),
    Field(Feature, 0x23, 0x84, 0x30, 0x1A, 16)
  ]

  function InputVoltageLines(): (r: seq<seq<byte>>) {
    [] + [[0x75, 0x10]] + [[0x95, 0x01]] + [[0x15, 0x00]] + [[0x27, 0xFF, 0xFF, 0x00, 0x00]]
    + [[0x67, 0x21, 0xD1, 0xF0, 0x00]] + [[0x55, 0x05]] + [[0x85, 0x23]] + Both(0x30, 0xA2, 0xA2)
  }

  lemma InputVoltageWalksThrough()
    ensures Walks(InputVoltageLines(), Globals(0x84, 8, 1, 0x22, 0x00, [0x04, 0x16, 0x1A]),
            Globals(0x84, 16, 1, 0x23, 0x00, [0x04, 0x16, 0x1A]), INPUT_VOLTAGE_FIELDS)
  {
    var g := Globals(0x84, 8, 1, 0x22, 0x00, [0x04, 0x16, 0x1A]);
    var lines: seq<seq<byte>>, now, fields: seq<Field> := [], g, [];
    WalksNothing(g);
    lines, now, fields := AddSize(lines, g, now, fields, 0x10);
    lines, now, fields := AddCount(lines, g, now, fields, 0x01);
    lines, now, fields := AddOther(lines, g, now, fields, [0x15, 0x00]);
    lines, now, fields := AddOther(lines, g, now, fields, [0x27, 0xFF, 0xFF, 0x00, 0x00]);
    lines, now, fields := AddOther(lines, g, now, fields, [0x67, 0x21, 0xD1, 0xF0, 0x00]);
    lines, now, fields := AddOther(lines, g, now, fields, [0x55, 0x05]);
    lines, now, fields := AddId(lines, g, now, fields, 0x23);
    lines, now, fields := AddBoth(lines, g, now, fields, 0x30, 0xA2, 0xA2);
  }

  lemma InputVoltageGroups()
    ensures INPUT_VOLTAGE == InputVoltageLines()
  {}

  lemma InputVoltageWalks()
    ensures Walks(INPUT_VOLTAGE, Globals(0x84, 8, 1, 0x22, 0x00, [0x04, 0x16, 0x1A]),
            Globals(0x84, 16, 1, 0x23, 0x00, [0x04, 0x16, 0x1A]), INPUT_VOLTAGE_FIELDS)
  {
    InputVoltageWalksThrough();
    InputVoltageGroups();
  }

  function OutputUsageLines(): (r: seq<seq<byte>>) {
    [] + [[0x09, 0x1C]]
  }

  lemma OutputUsageWalksThrough()
    ensures Walks(OutputUsageLines(), Globals(0x84, 16, 1, 0x23, 0x00, [0x04, 0x16]),
            Globals(0x84, 16, 1, 0x23, 0x1C, [0x04, 0x16]), [])
  {
    var g := Globals(0x84, 16, 1, 0x23, 0x00, [0x04, 0x16]);
    var lines: seq<seq<byte>>, now, fields: seq<Field> := [], g, [];
    WalksNothing(g);
    lines, now, fields := AddUsage(lines, g, now, fields, 0x1C);
  }

  lemma OutputUsageGroups()
    ensures [[0x09, 0x1C]] == OutputUsageLines()
  {}

  lemma OutputUsageWalks()
    ensures Walks([[0x09, 0x1C]], Globals(0x84, 16, 1, 0x23, 0x00, [0x04, 0x16]),
            Globals(0x84, 16, 1, 0x23, 0x1C, [0x04, 0x16]), [])
  {
    OutputUsageWalksThrough();
    OutputUsageGroups();
  }

  const OUTPUT_VOLTAGE_FIELDS: seq<Field> := [
    Field(Input, 0x24, 0x84, 0x30, 0x1C, 16),
    Field(Feature, 0x24, 0x84, 0x30, 0x1C, 16)
  ]

  function OutputVoltageLines(): (r: seq<seq<byte>>) {
    [] + [[0x85, 0x24]] + Both(0x30, 0xA2, 0xA2)
  }

  lemma OutputVoltageWalksThrough()
    ensures Walks(OutputVoltageLines(), Globals(0x84, 16, 1, 0x23, 0x00, [0x04, 0x16, 0x1C]),
            Globals(0x84, 16, 1, 0x24, 0x00, [0x04, 0x16, 0x1C]), OUTPUT_VOLTAGE_FIELDS)
  {
    var g := Globals(0x84, 16, 1, 0x23, 0x00, [0x04, 0x16, 0x1C]);
    var lines: seq<seq<byte>>, now, fields: seq<Field> := [], g, [];
    WalksNothing(g);
    lines, now, fields := AddId(lines, g, now, fields, 0x24);
    lines, now, fields := AddBoth(lines, g, now, fields, 0x30, 0xA2, 0xA2);
  }

  lemma OutputVoltageGroups()
    ensures OUTPUT_VOLTAGE == OutputVoltageLines()
  {}

  lemma OutputVoltageWalks()
    ensures Walks(OUTPUT_VOLTAGE, Globals(0x84, 16, 1, 0x23, 0x00, [0x04, 0x16, 0x1C]),
            Globals(0x84, 16, 1, 0x24, 0x00, [0x04, 0x16, 0x1C]), OUTPUT_VOLTAGE_FIELDS)
  {
    OutputVoltageWalksThrough();
    OutputVoltageGroups();
  }

  const NOTHING := Globals(0x00, 0, 0, 0x00, 0x00, [])

  lemma PartsInSteps4(a: Part, b: Part, c: Part, d: Part)
    ensures [a, b, c, d] == [a] + [b] + [c] + [d]
  {}

  lemma StacksAre()
    ensures [] + [0x04] == [0x04] && [0x04] + [0x24] == [0x04, 0x24] && [0x04, 0x24] + [0x02] == [0x04, 0x24, 0x02]
    ensures [0x04] + [0x16] == [0x04, 0x16]
    ensures [0x04, 0x16] + [0x1A] == [0x04, 0x16, 0x1A] && [0x04, 0x16] + [0x1C] == [0x04, 0x16, 0x1C]
    ensures [0x04, 0x24, 0x02][..2] == [0x04, 0x24] && [0x04, 0x24][..1] == [0x04] && [0x04][..0] == []
    ensures [0x04, 0x16, 0x1A][..2] == [0x04, 0x16] && [0x04, 0x16, 0x1C][..2] == [0x04, 0x16]
            && [0x04, 0x16][..1] == [0x04]
  {}

  lemma HeadReads()
    ensures Reads(Head(PREAMBLE, [[0x09, 0x24]]), NOTHING, Globals(0x84, 0, 0, 0x00, 0x00, [0x04, 0x24]), [])
  {
    var page, usage: seq<seq<byte>> := PREAMBLE, [[0x09, 0x24]];
    var a, b := Globals(0x84, 0, 0, 0x00, 0x04, []), Globals(0x84, 0, 0, 0x00, 0x24, [0x04]);
    StacksAre();
    PreambleWalks();
    SummaryUsageWalks();
    LinesRead(page, NOTHING, a, []);
    AddOpening([Flat(page)], 0x01, NOTHING, a, []);
    AddLines([Flat(page)] + [Open(0x01)], usage, NOTHING, Globals(0x84, 0, 0, 0x00, 0x00, [0x04]), b, [], []);
    NothingAfter<Field>([]);
    AddOpening([Flat(page)] + [Open(0x01)] + [Flat(usage)], 0x02, NOTHING, b, []);
    PartsInSteps4(Flat(page), Open(0x01), Flat(usage), Open(0x02));
  }

  lemma FlatsInSteps(a: seq<seq<byte>>, b: seq<seq<byte>>, c: seq<seq<byte>>, d: seq<seq<byte>>, e: seq<seq<byte>>,
                     f: seq<seq<byte>>, g: seq<seq<byte>>)
    ensures Flats([a, b, c, d, e, f, g])
            == [Flat(a)] + [Flat(b)] + [Flat(c)] + [Flat(d)] + [Flat(e)] + [Flat(f)] + [Flat(g)]
  {}

  const SUMMARY_FIELDS: seq<Field> :=
    IDENTITY_FIELDS + KIND_FIELDS + CAPACITY_FIELDS + TIMES_FIELDS + DELAYS_FIELDS + VOLTAGES_FIELDS + ALARM_FIELDS

  /** The runs of the summary, each from the state in which the one before it ends. */
  lemma FourRead(a: seq<seq<byte>>, b: seq<seq<byte>>, c: seq<seq<byte>>, d: seq<seq<byte>>,
                 g0: Globals, g1: Globals, g2: Globals, g3: Globals, g4: Globals,
                 fa: seq<Field>, fb: seq<Field>, fc: seq<Field>, fd: seq<Field>)
    requires Walks(a, g0, g1, fa) && Walks(b, g1, g2, fb) && Walks(c, g2, g3, fc) && Walks(d, g3, g4, fd)
    ensures Reads([Flat(a)] + [Flat(b)] + [Flat(c)] + [Flat(d)], g0, g4, fa + fb + fc + fd)
  {
    LinesRead(a, g0, g1, fa);
    AddLines([Flat(a)], b, g0, g1, g2, fa, fb);
    AddLines([Flat(a)] + [Flat(b)], c, g0, g2, g3, fa + fb, fc);
    AddLines([Flat(a)] + [Flat(b)] + [Flat(c)], d, g0, g3, g4, fa + fb + fc, fd);
  }

  lemma ThreeMoreRead(parts: seq<Part>, a: seq<seq<byte>>, b: seq<seq<byte>>, c: seq<seq<byte>>,
                      g0: Globals, g1: Globals, g2: Globals, g3: Globals, g4: Globals,
                      fields: seq<Field>, fa: seq<Field>, fb: seq<Field>, fc: seq<Field>)
    requires Reads(parts, g0, g1, fields) && Walks(a, g1, g2, fa) && Walks(b, g2, g3, fb) && Walks(c, g3, g4, fc)
    ensures Reads(parts + [Flat(a)] + [Flat(b)] + [Flat(c)], g0, g4, fields + fa + fb + fc)
  {
    AddLines(parts, a, g0, g1, g2, fields, fa);
    AddLines(parts + [Flat(a)], b, g0, g2, g3, fields + fa, fb);
    AddLines(parts + [Flat(a)] + [Flat(b)], c, g0, g3, g4, fields + fa + fb, fc);
  }

  lemma SummaryReads(product: byte, serial: byte, manufacturer: byte)
    ensures Reads(Flats([ Identity(product, serial, manufacturer), KIND, CAPACITY, TIMES, DELAYS, VOLTAGES, ALARM ]),
                  Globals(0x84, 0, 0, 0x00, 0x00, [0x04, 0x24]), Globals(0x84, 8, 1, 0x14, 0x02, [0x04, 0x24]),
                  SUMMARY_FIELDS)
  {
    IdentityWalks(product, serial, manufacturer);
    KindWalks();
    CapacityWalks();
    TimesWalks();
    DelaysWalks();
    VoltagesWalks();
    AlarmWalks();
    var a := Identity(product, serial, manufacturer);
    var g0, g1 := Globals(0x84, 0, 0, 0x00, 0x00, [0x04, 0x24]), Globals(0x84, 8, 1, 0x03, 0x00, [0x04, 0x24]);
    var g2, g3 := Globals(0x85, 8, 1, 0x16, 0x00, [0x04, 0x24]), Globals(0x85, 8, 1, 0x11, 0x00, [0x04, 0x24]);
    var g4, g5 := Globals(0x85, 16, 1, 0x0D, 0x00, [0x04, 0x24]), Globals(0x84, 16, 1, 0x13, 0x00, [0x04, 0x24]);
    var g6, g7 := Globals(0x84, 16, 1, 0x0B, 0x00, [0x04, 0x24]), Globals(0x84, 8, 1, 0x14, 0x02, [0x04, 0x24]);
    FourRead(a, KIND, CAPACITY, TIMES, g0, g1, g2, g3, g4, IDENTITY_FIELDS, KIND_FIELDS, CAPACITY_FIELDS, TIMES_FIELDS);
    ThreeMoreRead([Flat(a)] + [Flat(KIND)] + [Flat(CAPACITY)] + [Flat(TIMES)], DELAYS, VOLTAGES, ALARM, g0, g4, g5,
        g6, g7,
                  IDENTITY_FIELDS + KIND_FIELDS + CAPACITY_FIELDS + TIMES_FIELDS, DELAYS_FIELDS, VOLTAGES_FIELDS,
                  ALARM_FIELDS);
    FlatsInSteps(a, KIND, CAPACITY, TIMES, DELAYS, VOLTAGES, ALARM);
  }

  const STATUS_FIELDS: seq<Field> := STATUS_BITS_1_FIELDS + STATUS_BITS_2_FIELDS + STATUS_BITS_3_FIELDS

  lemma TailInSteps(a: seq<seq<byte>>, b: seq<seq<byte>>, c: seq<seq<byte>>)
    ensures Tail(a, b, c) == [Open(0x02)] + [Flat(a)] + [Flat(b)] + [Flat(c)] + [Close] + [Close]
  {}

  lemma TailReads()
    ensures Reads(Tail(STATUS_BITS_1, STATUS_BITS_2, STATUS_BITS_3), Globals(0x84, 8, 1, 0x14, 0x02, [0x04, 0x24]),
            Globals(0x84, 1, 2, 0x07, 0x00, [0x04]), STATUS_FIELDS)
  {
    StacksAre();
    var g := Globals(0x84, 8, 1, 0x14, 0x02, [0x04, 0x24]);
    var a, b, c := STATUS_BITS_1, STATUS_BITS_2, STATUS_BITS_3;
    var h, k, l, m := Globals(0x84, 8, 1, 0x14, 0x00, [0x04, 0x24, 0x02]),
        Globals(0x85, 1, 1, 0x07, 0x00, [0x04, 0x24, 0x02]),
                      Globals(0x85, 1, 1, 0x07, 0x00, [0x04, 0x24, 0x02]),
                      Globals(0x84, 1, 2, 0x07, 0x00, [0x04, 0x24, 0x02]);
    var parts := [Open(0x02)] + [Flat(a)] + [Flat(b)] + [Flat(c)];
    StatusBits1Walks();
    StatusBits2Walks();
    StatusBits3Walks();
    OpeningReads(0x02, g);
    AddLines([Open(0x02)], a, g, h, k, [], STATUS_BITS_1_FIELDS);
    NothingBefore(STATUS_BITS_1_FIELDS);
    AddLines([Open(0x02)] + [Flat(a)], b, g, k, l, STATUS_BITS_1_FIELDS, STATUS_BITS_2_FIELDS);
    AddLines([Open(0x02)] + [Flat(a)] + [Flat(b)], c, g, l, m, STATUS_BITS_1_FIELDS + STATUS_BITS_2_FIELDS,
        STATUS_BITS_3_FIELDS);
    AddClosing(parts, g, m, STATUS_FIELDS);
    AddClosing(parts + [Close], g, Globals(0x84, 1, 2, 0x07, 0x00, [0x04, 0x24]), STATUS_FIELDS);
    TailInSteps(a, b, c);
  }

  lemma BaseReads(product: byte, serial: byte, manufacturer: byte)
    ensures Reads(Base(product, serial, manufacturer), NOTHING, Globals(0x84, 1, 2, 0x07, 0x00, [0x04]),
            SUMMARY_FIELDS + STATUS_FIELDS)
  {
    var runs := [ Identity(product, serial, manufacturer), KIND, CAPACITY, TIMES, DELAYS, VOLTAGES, ALARM ];
    HeadReads();
    SummaryReads(product, serial, manufacturer);
    TailReads();
    ReadsAppend(Head(PREAMBLE, [[0x09, 0x24]]), Flats(runs), NOTHING,
        Globals(0x84, 0, 0, 0x00, 0x00, [0x04, 0x24]), Globals(0x84, 8, 1, 0x14, 0x02, [0x04, 0x24]), [],
        SUMMARY_FIELDS);
    NothingBefore(SUMMARY_FIELDS);
    ReadsAppend(Head(PREAMBLE, [[0x09, 0x24]]) + Flats(runs), Tail(STATUS_BITS_1, STATUS_BITS_2, STATUS_BITS_3),
        NOTHING,
                Globals(0x84, 8, 1, 0x14, 0x02, [0x04, 0x24]), Globals(0x84, 1, 2, 0x07, 0x00, [0x04]),
                SUMMARY_FIELDS, STATUS_FIELDS);
  }

  lemma GroupInSteps(usage: seq<seq<byte>>, kind: byte, items: seq<seq<byte>>)
    ensures Group(usage, kind, items) == [Flat(usage)] + [Open(kind)] + [Flat(items)] + [Close]
  {}

  /** A collection of its own. */
  lemma GroupReads(usage: seq<seq<byte>>, kind: byte, items: seq<seq<byte>>, g: Globals, h: Globals, k: Globals,
        fields: seq<Field>)
    requires Walks(usage, g, h, []) && Walks(items, Entered(h), k, fields) && k.stack != []
    ensures Reads(Group(usage, kind, items), g, Left(k), fields)
  {
    LinesRead(usage, g, h, []);
    AddOpening([Flat(usage)], kind, g, h, []);
    AddLines([Flat(usage)] + [Open(kind)], items, g, Entered(h), k, [], fields);
    NothingBefore(fields);
    AddClosing([Flat(usage)] + [Open(kind)] + [Flat(items)], g, k, fields);
    GroupInSteps(usage, kind, items);
  }

  const FRAGMENT_FIELDS: seq<Field> := STARTUP_AND_LOAD_FIELDS + (INPUT_VOLTAGE_FIELDS + OUTPUT_VOLTAGE_FIELDS)

  lemma ConverterReads()
    ensures Reads([ Flat([[0x09, 0x16]]), Open(0x02) ], Globals(0x84, 8, 1, 0x22, 0x00, [0x04]),
            Globals(0x84, 8, 1, 0x22, 0x00, [0x04, 0x16]), [])
  {
    StacksAre();
    ConverterUsageWalks();
    LinesRead([[0x09, 0x16]], Globals(0x84, 8, 1, 0x22, 0x00, [0x04]), Globals(0x84, 8, 1, 0x22, 0x16, [0x04]), []);
    AddOpening([Flat([[0x09, 0x16]])], 0x02, Globals(0x84, 8, 1, 0x22, 0x00, [0x04]),
        Globals(0x84, 8, 1, 0x22, 0x16, [0x04]), []);
  }

  lemma SidesRead()
    ensures Reads(Group([[0x09, 0x1A]], 0x81, INPUT_VOLTAGE) + Group([[0x09, 0x1C]], 0x02, OUTPUT_VOLTAGE),
                  Globals(0x84, 8, 1, 0x22, 0x00, [0x04, 0x16]), Globals(0x84, 16, 1, 0x24, 0x00, [0x04, 0x16]),
                  INPUT_VOLTAGE_FIELDS + OUTPUT_VOLTAGE_FIELDS)
  {
    StacksAre();
    InputUsageWalks();
    InputVoltageWalks();
    OutputUsageWalks();
    OutputVoltageWalks();
    GroupReads([[0x09, 0x1A]], 0x81, INPUT_VOLTAGE, Globals(0x84, 8, 1, 0x22, 0x00, [0x04, 0x16]),
        Globals(0x84, 8, 1, 0x22, 0x1A, [0x04, 0x16]), Globals(0x84, 16, 1, 0x23, 0x00, [0x04, 0x16, 0x1A]),
        INPUT_VOLTAGE_FIELDS);
    GroupReads([[0x09, 0x1C]], 0x02, OUTPUT_VOLTAGE, Globals(0x84, 16, 1, 0x23, 0x00, [0x04, 0x16]),
        Globals(0x84, 16, 1, 0x23, 0x1C, [0x04, 0x16]), Globals(0x84, 16, 1, 0x24, 0x00, [0x04, 0x16, 0x1C]),
        OUTPUT_VOLTAGE_FIELDS);
    ReadsAppend(Group([[0x09, 0x1A]], 0x81, INPUT_VOLTAGE), Group([[0x09, 0x1C]], 0x02, OUTPUT_VOLTAGE),
                Globals(0x84, 8, 1, 0x22, 0x00, [0x04, 0x16]), Globals(0x84, 16, 1, 0x23, 0x00, [0x04, 0x16]),
                Globals(0x84, 16, 1, 0x24, 0x00, [0x04, 0x16]), INPUT_VOLTAGE_FIELDS, OUTPUT_VOLTAGE_FIELDS);
  }

  lemma FragmentInSteps(a: seq<Part>, b: seq<Part>, c: seq<Part>, d: seq<Part>, e: seq<Part>)
    ensures a + b + c + d + e == a + (b + (c + d) + e)
  {}

  lemma FragmentReads()
    ensures Reads(NutFragment(), Globals(0x84, 1, 2, 0x07, 0x00, [0x04]), Globals(0x84, 16, 1, 0x24, 0x00, [0x04]),
            FRAGMENT_FIELDS)
  {
    StacksAre();
    var summary := Group([[0x05, 0x84], [0x09, 0x24]], 0x02, STARTUP_AND_LOAD);
    var converter := [ Flat([[0x09, 0x16]]), Open(0x02) ];
    var input, output := Group([[0x09, 0x1A]], 0x81, INPUT_VOLTAGE), Group([[0x09, 0x1C]], 0x02, OUTPUT_VOLTAGE);
    var sides := INPUT_VOLTAGE_FIELDS + OUTPUT_VOLTAGE_FIELDS;
    var g, h, k, l := Globals(0x84, 1, 2, 0x07, 0x00, [0x04]), Globals(0x84, 8, 1, 0x22, 0x00, [0x04]),
                      Globals(0x84, 8, 1, 0x22, 0x00, [0x04, 0x16]), Globals(0x84, 16, 1, 0x24, 0x00, [0x04, 0x16]);
    NutPageWalks();
    StartupAndLoadWalks();
    GroupReads([[0x05, 0x84], [0x09, 0x24]], 0x02, STARTUP_AND_LOAD, g, Globals(0x84, 1, 2, 0x07, 0x24, [0x04]),
        Globals(0x84, 8, 1, 0x22, 0x00, [0x04, 0x24]), STARTUP_AND_LOAD_FIELDS);
    ConverterReads();
    SidesRead();
    ReadsAppend(converter, input + output, h, k, l, [], sides);
    NothingBefore(sides);
    AddClosing(converter + (input + output), h, l, sides);
    ReadsAppend(summary, converter + (input + output) + [Close], g, h, Globals(0x84, 16, 1, 0x24, 0x00, [0x04]),
        STARTUP_AND_LOAD_FIELDS, sides);
    FragmentInSteps(summary, converter, input, output, [Close]);
  }

  /** All fields, in the order of the descriptor. */
  const ALL_FIELDS: seq<Field> := SUMMARY_FIELDS + STATUS_FIELDS + FRAGMENT_FIELDS

  lemma AllRead(product: byte, serial: byte, manufacturer: byte)
    ensures Reads(Base(product, serial, manufacturer) + NutFragment() + [Close], NOTHING,
                  Globals(0x84, 16, 1, 0x24, 0x00, []), ALL_FIELDS)
  {
    StacksAre();
    BaseReads(product, serial, manufacturer);
    FragmentReads();
    ReadsAppend(Base(product, serial, manufacturer), NutFragment(), NOTHING,
        Globals(0x84, 1, 2, 0x07, 0x00, [0x04]), Globals(0x84, 16, 1, 0x24, 0x00, [0x04]),
                SUMMARY_FIELDS + STATUS_FIELDS, FRAGMENT_FIELDS);
    AddClosing(Base(product, serial, manufacturer) + NutFragment(), NOTHING,
        Globals(0x84, 16, 1, 0x24, 0x00, [0x04]), ALL_FIELDS);
  }

  lemma PartsDeclare(a: seq<Part>, b: seq<Part>, h: Globals, fields: seq<Field>)
    requires Reads(a + b + [Close], NOTHING, h, fields)
    ensures var bytes := Bytes(a) + Bytes(b) + END;
            Parse(bytes).Some? && FieldsOf(Parse(bytes).value, NOTHING) == fields
  {
    ReadsDeclares(a + b + [Close], NOTHING, h, fields);
    PartsParse(a + b + [Close]);
    BytesAppend(a, b);
    BytesNext(a + b, Close);
  }

  /** What the bytes of the device declare: its descriptor parses, and these are its
      fields. */
  lemma DescriptorDeclares(product: byte, serial: byte, manufacturer: byte)
    ensures var b := Bytes(Base(product, serial, manufacturer)) + Bytes(NutFragment()) + END;
            Parse(b).Some? && FieldsOf(Parse(b).value, NOTHING) == ALL_FIELDS
  {
    AllRead(product, serial, manufacturer);
    PartsDeclare(Base(product, serial, manufacturer), NutFragment(), Globals(0x84, 16, 1, 0x24, 0x00, []), ALL_FIELDS);
  }
}
