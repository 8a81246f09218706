/** The descriptor against the rest of the device: what it declares is what `setup`
    registers and what is sent, field by field and bit by bit. */
module FeatureFields {
  import opened Words
  import opened HidSetup
  import opened ItemFields
  import opened ReportFields
  import C = Control
  import ReportLog

  // ---------------------------------------------------------------- bits of a report

  function BitsIn(f: Field, kind: Kind, id: nat): (n: nat) { if f.kind == kind && f.id == id then f.bits else 0 }

  /** How many bits the fields give to a report. */
  function Bits(fields: seq<Field>, kind: Kind, id: nat): (n: nat) {
    if fields == [] then 0 else Bits(fields[..|fields| - 1], kind, id) + BitsIn(fields[|fields| - 1], kind, id)
  }

  lemma {:induction false} BitsAppend(a: seq<Field>, b: seq<Field>, kind: Kind, id: nat)
    ensures Bits(a + b, kind, id) == Bits(a, kind, id) + Bits(b, kind, id)
    decreases |b|
  {
    if b == [] {
      NothingAfter(a);
    } else {
      var init, f := b[..|b| - 1], b[|b| - 1];
      assert b == init + [f];
      BitsAppend(a, init, kind, id);
      Assoc(a, init, [f]);
      assert (a + b)[..|a + b| - 1] == a + init;
    }
  }

  lemma BitsOne(a: Field, kind: Kind, id: nat)
    ensures Bits([a], kind, id) == BitsIn(a, kind, id)
  {
    assert [a][..0] == [];
  }

  lemma BitsTwo(a: Field, b: Field, kind: Kind, id: nat)
    ensures Bits([a, b], kind, id) == BitsIn(a, kind, id) + BitsIn(b, kind, id)
  {
    assert [a, b] == [a] + [b];
    BitsOne(a, kind, id);
    BitsOne(b, kind, id);
    BitsAppend([a], [b], kind, id);
  }

  lemma BitsThree(a: Field, b: Field, c: Field, kind: Kind, id: nat)
    ensures Bits([a, b, c], kind, id) == BitsIn(a, kind, id) + BitsIn(b, kind, id) + BitsIn(c, kind, id)
  {
    assert [a, b, c] == [a, b] + [c];
    BitsTwo(a, b, kind, id);
    BitsOne(c, kind, id);
    BitsAppend([a, b], [c], kind, id);
  }

  lemma BitsFour(a: Field, b: Field, c: Field, d: Field, kind: Kind, id: nat)
    ensures Bits([a, b, c, d], kind, id) ==
            BitsIn(a, kind, id) + BitsIn(b, kind, id) + BitsIn(c, kind, id) + BitsIn(d, kind, id)
  {
    assert [a, b, c, d] == [a, b] + [c, d];
    BitsTwo(a, b, kind, id);
    BitsTwo(c, d, kind, id);
    BitsAppend([a, b], [c, d], kind, id);
  }

  lemma BitsFive(a: Field, b: Field, c: Field, d: Field, e: Field, kind: Kind, id: nat)
    ensures Bits([a, b, c, d, e], kind, id) ==
            BitsIn(a, kind, id) + BitsIn(b, kind, id) + BitsIn(c, kind, id) + BitsIn(d, kind, id) + BitsIn(e, kind, id)
  {
    assert [a, b, c, d, e] == [a, b, c] + [d, e];
    BitsThree(a, b, c, kind, id);
    BitsTwo(d, e, kind, id);
    BitsAppend([a, b, c], [d, e], kind, id);
  }

  function When(c: bool, n: nat): (r: nat) { if c then n else 0 }

  lemma Identity1PartBits(kind: Kind, id: nat)
    ensures Bits(IDENTITY_FIELDS_1, kind, id) ==
            if kind == Feature
            then When(id == 0x01, 8) + When(id == 0x02, 8)
            else 0
  {
    var s := IDENTITY_FIELDS_1;
    BitsTwo(s[0], s[1], kind, id);
  }

  lemma Identity2PartBits(kind: Kind, id: nat)
    ensures Bits(IDENTITY_FIELDS_2, kind, id) == if kind == Feature then When(id == 0x03, 8) else 0
  {
    var s := IDENTITY_FIELDS_2;
    BitsOne(s[0], kind, id);
  }

  lemma IdentityBits(kind: Kind, id: nat)
    ensures Bits(IDENTITY_FIELDS, kind, id) ==
            if kind == Feature
            then When(id == 0x01, 8) + When(id == 0x02, 8) + When(id == 0x03, 8)
            else 0
  {
    Identity1PartBits(kind, id);
    Identity2PartBits(kind, id);
    BitsAppend(IDENTITY_FIELDS_1, IDENTITY_FIELDS_2, kind, id);
  }

  lemma KindBits(kind: Kind, id: nat)
    ensures Bits(KIND_FIELDS, kind, id) ==
            if kind == Feature
            then When(id == 0x06, 8) + When(id == 0x1F, 8) + When(id == 0x20, 8) + When(id == 0x16, 8)
            else 0
  {
    var s := KIND_FIELDS;
    BitsFour(s[0], s[1], s[2], s[3], kind, id);
  }

  lemma Capacity1PartBits(kind: Kind, id: nat)
    ensures Bits(CAPACITY_FIELDS_1, kind, id) ==
            if kind == Feature
            then When(id == 0x10, 8) + When(id == 0x18, 8) + When(id == 0x0E, 8)
            else 0
  {
    var s := CAPACITY_FIELDS_1;
    BitsThree(s[0], s[1], s[2], kind, id);
  }

  lemma Capacity2PartBits(kind: Kind, id: nat)
    ensures Bits(CAPACITY_FIELDS_2, kind, id) ==
            if kind == Feature
            then When(id == 0x17, 8) + When(id == 0x0C, 8) + When(id == 0x0F, 8) + When(id == 0x11, 8)
            else When(id == 0x0C, 8)
  {
    var s := CAPACITY_FIELDS_2;
    BitsFive(s[0], s[1], s[2], s[3], s[4], kind, id);
  }

  lemma CapacityBits(kind: Kind, id: nat)
    ensures Bits(CAPACITY_FIELDS, kind, id) ==
            if kind == Feature
            then When(id == 0x10, 8) + When(id == 0x18, 8) + When(id == 0x0E, 8) + When(id == 0x17, 8)
            + When(id == 0x0C, 8) + When(id == 0x0F, 8) + When(id == 0x11, 8)
            else When(id == 0x0C, 8)
  {
    Capacity1PartBits(kind, id);
    Capacity2PartBits(kind, id);
    BitsAppend(CAPACITY_FIELDS_1, CAPACITY_FIELDS_2, kind, id);
  }

  lemma Times1PartBits(kind: Kind, id: nat)
    ensures Bits(TIMES_FIELDS_1, kind, id) == if kind == Feature then When(id == 0x09, 16) else 0
  {
    var s := TIMES_FIELDS_1;
    BitsOne(s[0], kind, id);
  }

  lemma Times2PartBits(kind: Kind, id: nat)
    ensures Bits(TIMES_FIELDS_2, kind, id) ==
            if kind == Feature
            then When(id == 0x1A, 16) + When(id == 0x1C, 16) + When(id == 0x0D, 16)
            else When(id == 0x1C, 16) + When(id == 0x0D, 16)
  {
    var s := TIMES_FIELDS_2;
    BitsFive(s[0], s[1], s[2], s[3], s[4], kind, id);
  }

  lemma TimesBits(kind: Kind, id: nat)
    ensures Bits(TIMES_FIELDS, kind, id) ==
            if kind == Feature
            then When(id == 0x09, 16) + When(id == 0x1A, 16) + When(id == 0x1C, 16) + When(id == 0x0D, 16)
            else When(id == 0x1C, 16) + When(id == 0x0D, 16)
  {
    Times1PartBits(kind, id);
    Times2PartBits(kind, id);
    BitsAppend(TIMES_FIELDS_1, TIMES_FIELDS_2, kind, id);
  }

  lemma Delays1PartBits(kind: Kind, id: nat)
    ensures Bits(DELAYS_FIELDS_1, kind, id) == if kind == Feature then When(id == 0x08, 16) else When(id == 0x08, 16)
  {
    var s := DELAYS_FIELDS_1;
    BitsTwo(s[0], s[1], kind, id);
  }

  lemma Delays2PartBits(kind: Kind, id: nat)
    ensures Bits(DELAYS_FIELDS_2, kind, id) ==
            if kind == Feature
            then When(id == 0x12, 16) + When(id == 0x13, 16)
            else 0
  {
    var s := DELAYS_FIELDS_2;
    BitsTwo(s[0], s[1], kind, id);
  }

  lemma DelaysBits(kind: Kind, id: nat)
    ensures Bits(DELAYS_FIELDS, kind, id) ==
            if kind == Feature
            then When(id == 0x08, 16) + When(id == 0x12, 16) + When(id == 0x13, 16)
            else When(id == 0x08, 16)
  {
    Delays1PartBits(kind, id);
    Delays2PartBits(kind, id);
    BitsAppend(DELAYS_FIELDS_1, DELAYS_FIELDS_2, kind, id);
  }

  lemma VoltagesBits(kind: Kind, id: nat)
    ensures Bits(VOLTAGES_FIELDS, kind, id) ==
            if kind == Feature
            then When(id == 0x0A, 16) + When(id == 0x0B, 16)
            else When(id == 0x0B, 16)
  {
    var s := VOLTAGES_FIELDS;
    BitsThree(s[0], s[1], s[2], kind, id);
  }

  lemma Alarm1PartBits(kind: Kind, id: nat)
    ensures Bits(ALARM_FIELDS_1, kind, id) == if kind == Feature then When(id == 0x14, 8) else When(id == 0x14, 8)
  {
    var s := ALARM_FIELDS_1;
    BitsTwo(s[0], s[1], kind, id);
  }

  lemma AlarmBits(kind: Kind, id: nat)
    ensures Bits(ALARM_FIELDS, kind, id) == if kind == Feature then When(id == 0x14, 8) else When(id == 0x14, 8)
  {
    Alarm1PartBits(kind, id);
  }

  lemma StatusBits11PartBits(kind: Kind, id: nat)
    ensures Bits(STATUS_BITS_1_FIELDS_1, kind, id) ==
            if kind == Feature
            then When(id == 0x07, 2)
            else When(id == 0x07, 2)
  {
    var s := STATUS_BITS_1_FIELDS_1;
    BitsFour(s[0], s[1], s[2], s[3], kind, id);
  }

  lemma StatusBits12PartBits(kind: Kind, id: nat)
    ensures Bits(STATUS_BITS_1_FIELDS_2, kind, id) ==
            if kind == Feature
            then When(id == 0x07, 2)
            else When(id == 0x07, 2)
  {
    var s := STATUS_BITS_1_FIELDS_2;
    BitsFour(s[0], s[1], s[2], s[3], kind, id);
  }

  lemma StatusBits1Bits(kind: Kind, id: nat)
    ensures Bits(STATUS_BITS_1_FIELDS, kind, id) == if kind == Feature then When(id == 0x07, 4) else When(id == 0x07, 4)
  {
    StatusBits11PartBits(kind, id);
    StatusBits12PartBits(kind, id);
    BitsAppend(STATUS_BITS_1_FIELDS_1, STATUS_BITS_1_FIELDS_2, kind, id);
  }

  lemma StatusBits21PartBits(kind: Kind, id: nat)
    ensures Bits(STATUS_BITS_2_FIELDS_1, kind, id) ==
            if kind == Feature
            then When(id == 0x07, 2)
            else When(id == 0x07, 2)
  {
    var s := STATUS_BITS_2_FIELDS_1;
    BitsFour(s[0], s[1], s[2], s[3], kind, id);
  }

  lemma StatusBits22PartBits(kind: Kind, id: nat)
    ensures Bits(STATUS_BITS_2_FIELDS_2, kind, id) ==
            if kind == Feature
            then When(id == 0x07, 2)
            else When(id == 0x07, 2)
  {
    var s := STATUS_BITS_2_FIELDS_2;
    BitsFour(s[0], s[1], s[2], s[3], kind, id);
  }

  lemma StatusBits23PartBits(kind: Kind, id: nat)
    ensures Bits(STATUS_BITS_2_FIELDS_3, kind, id) ==
            if kind == Feature
            then When(id == 0x07, 2)
            else When(id == 0x07, 2)
  {
    var s := STATUS_BITS_2_FIELDS_3;
    BitsFour(s[0], s[1], s[2], s[3], kind, id);
  }

  lemma StatusBits2Bits(kind: Kind, id: nat)
    ensures Bits(STATUS_BITS_2_FIELDS, kind, id) == if kind == Feature then When(id == 0x07, 6) else When(id == 0x07, 6)
  {
    StatusBits21PartBits(kind, id);
    StatusBits22PartBits(kind, id);
    StatusBits23PartBits(kind, id);
    BitsAppend(STATUS_BITS_2_FIELDS_1, STATUS_BITS_2_FIELDS_2, kind, id);
    BitsAppend(STATUS_BITS_2_FIELDS_1 + STATUS_BITS_2_FIELDS_2, STATUS_BITS_2_FIELDS_3, kind, id);
  }

  lemma StatusBits31PartBits(kind: Kind, id: nat)
    ensures Bits(STATUS_BITS_3_FIELDS_1, kind, id) ==
            if kind == Feature
            then When(id == 0x07, 2)
            else When(id == 0x07, 2)
  {
    var s := STATUS_BITS_3_FIELDS_1;
    BitsFour(s[0], s[1], s[2], s[3], kind, id);
  }

  lemma StatusBits32PartBits(kind: Kind, id: nat)
    ensures Bits(STATUS_BITS_3_FIELDS_2, kind, id) ==
            if kind == Feature
            then When(id == 0x07, 2)
            else When(id == 0x07, 4)
  {
    var s := STATUS_BITS_3_FIELDS_2;
    BitsFive(s[0], s[1], s[2], s[3], s[4], kind, id);
  }

  lemma StatusBits33PartBits(kind: Kind, id: nat)
    ensures Bits(STATUS_BITS_3_FIELDS_3, kind, id) == if kind == Feature then When(id == 0x07, 2) else 0
  {
    var s := STATUS_BITS_3_FIELDS_3;
    BitsOne(s[0], kind, id);
  }

  lemma StatusBits3Bits(kind: Kind, id: nat)
    ensures Bits(STATUS_BITS_3_FIELDS, kind, id) == if kind == Feature then When(id == 0x07, 6) else When(id == 0x07, 6)
  {
    StatusBits31PartBits(kind, id);
    StatusBits32PartBits(kind, id);
    StatusBits33PartBits(kind, id);
    BitsAppend(STATUS_BITS_3_FIELDS_1, STATUS_BITS_3_FIELDS_2, kind, id);
    BitsAppend(STATUS_BITS_3_FIELDS_1 + STATUS_BITS_3_FIELDS_2, STATUS_BITS_3_FIELDS_3, kind, id);
  }

  lemma StartupAndLoad1PartBits(kind: Kind, id: nat)
    ensures Bits(STARTUP_AND_LOAD_FIELDS_1, kind, id) == if kind == Feature then When(id == 0x21, 16) else 0
  {
    var s := STARTUP_AND_LOAD_FIELDS_1;
    BitsOne(s[0], kind, id);
  }

  lemma StartupAndLoad2PartBits(kind: Kind, id: nat)
    ensures Bits(STARTUP_AND_LOAD_FIELDS_2, kind, id) ==
            if kind == Feature
            then When(id == 0x22, 8)
            else When(id == 0x22, 8)
  {
    var s := STARTUP_AND_LOAD_FIELDS_2;
    BitsTwo(s[0], s[1], kind, id);
  }

  lemma StartupAndLoadBits(kind: Kind, id: nat)
    ensures Bits(STARTUP_AND_LOAD_FIELDS, kind, id) ==
            if kind == Feature
            then When(id == 0x21, 16) + When(id == 0x22, 8)
            else When(id == 0x22, 8)
  {
    StartupAndLoad1PartBits(kind, id);
    StartupAndLoad2PartBits(kind, id);
    BitsAppend(STARTUP_AND_LOAD_FIELDS_1, STARTUP_AND_LOAD_FIELDS_2, kind, id);
  }

  lemma InputVoltageBits(kind: Kind, id: nat)
    ensures Bits(INPUT_VOLTAGE_FIELDS, kind, id) ==
            if kind == Feature
            then When(id == 0x23, 16)
            else When(id == 0x23, 16)
  {
    var s := INPUT_VOLTAGE_FIELDS;
    BitsTwo(s[0], s[1], kind, id);
  }

  lemma OutputVoltageBits(kind: Kind, id: nat)
    ensures Bits(OUTPUT_VOLTAGE_FIELDS, kind, id) ==
            if kind == Feature
            then When(id == 0x24, 16)
            else When(id == 0x24, 16)
  {
    var s := OUTPUT_VOLTAGE_FIELDS;
    BitsTwo(s[0], s[1], kind, id);
  }

  lemma SummaryBits(kind: Kind, id: nat)
    ensures Bits(SUMMARY_FIELDS, kind, id) ==
            if kind == Feature
            then When(id == 0x01, 8) + When(id == 0x02, 8) + When(id == 0x03, 8) + When(id == 0x06, 8)
                 + When(id == 0x1F, 8) + When(id == 0x20, 8) + When(id == 0x16, 8) + When(id == 0x10, 8)
                 + When(id == 0x18, 8) + When(id == 0x0E, 8) + When(id == 0x17, 8) + When(id == 0x0C, 8)
                 + When(id == 0x0F, 8) + When(id == 0x11, 8) + When(id == 0x09, 16) + When(id == 0x1A, 16)
                 + When(id == 0x1C, 16) + When(id == 0x0D, 16) + When(id == 0x08, 16) + When(id == 0x12, 16)
                 + When(id == 0x13, 16) + When(id == 0x0A, 16) + When(id == 0x0B, 16) + When(id == 0x14, 8)
            else When(id == 0x0C, 8) + When(id == 0x1C, 16) + When(id == 0x0D, 16) + When(id == 0x08, 16)
                 + When(id == 0x0B, 16) + When(id == 0x14, 8)
  {
    IdentityBits(kind, id);
    KindBits(kind, id);
    CapacityBits(kind, id);
    TimesBits(kind, id);
    DelaysBits(kind, id);
    VoltagesBits(kind, id);
    AlarmBits(kind, id);
    BitsAppend(IDENTITY_FIELDS, KIND_FIELDS, kind, id);
    BitsAppend(IDENTITY_FIELDS + KIND_FIELDS, CAPACITY_FIELDS, kind, id);
    BitsAppend(IDENTITY_FIELDS + KIND_FIELDS + CAPACITY_FIELDS, TIMES_FIELDS, kind, id);
    BitsAppend(IDENTITY_FIELDS + KIND_FIELDS + CAPACITY_FIELDS + TIMES_FIELDS, DELAYS_FIELDS, kind, id);
    BitsAppend(IDENTITY_FIELDS + KIND_FIELDS + CAPACITY_FIELDS + TIMES_FIELDS + DELAYS_FIELDS, VOLTAGES_FIELDS,
        kind, id);
    BitsAppend(IDENTITY_FIELDS + KIND_FIELDS + CAPACITY_FIELDS + TIMES_FIELDS + DELAYS_FIELDS + VOLTAGES_FIELDS,
        ALARM_FIELDS, kind, id);
  }

  lemma StatusBits(kind: Kind, id: nat)
    ensures Bits(STATUS_FIELDS, kind, id) ==
            if kind == Feature
            then When(id == 0x07, 16)
            else When(id == 0x07, 16)
  {
    StatusBits1Bits(kind, id);
    StatusBits2Bits(kind, id);
    StatusBits3Bits(kind, id);
    BitsAppend(STATUS_BITS_1_FIELDS, STATUS_BITS_2_FIELDS, kind, id);
    BitsAppend(STATUS_BITS_1_FIELDS + STATUS_BITS_2_FIELDS, STATUS_BITS_3_FIELDS, kind, id);
  }

  lemma FragmentBits(kind: Kind, id: nat)
    ensures Bits(FRAGMENT_FIELDS, kind, id) ==
            if kind == Feature
            then When(id == 0x21, 16) + When(id == 0x22, 8) + When(id == 0x23, 16) + When(id == 0x24, 16)
            else When(id == 0x22, 8) + When(id == 0x23, 16) + When(id == 0x24, 16)
  {
    StartupAndLoadBits(kind, id);
    InputVoltageBits(kind, id);
    OutputVoltageBits(kind, id);
    BitsAppend(INPUT_VOLTAGE_FIELDS, OUTPUT_VOLTAGE_FIELDS, kind, id);
    BitsAppend(STARTUP_AND_LOAD_FIELDS, INPUT_VOLTAGE_FIELDS + OUTPUT_VOLTAGE_FIELDS, kind, id);
  }

  lemma AllBits(kind: Kind, id: nat)
    ensures Bits(ALL_FIELDS, kind, id) == Bits(SUMMARY_FIELDS, kind, id) + Bits(STATUS_FIELDS, kind, id)
            + Bits(FRAGMENT_FIELDS, kind, id)
  {
    BitsAppend(SUMMARY_FIELDS, STATUS_FIELDS, kind, id);
    BitsAppend(SUMMARY_FIELDS + STATUS_FIELDS, FRAGMENT_FIELDS, kind, id);
  }

  /** The bits a registered feature needs. */
  function RegisteredBits(id: u16): (n: nat) {
    match FeatureOf(id)
    case None => 0
    case Some((_, length, _)) =>
      var bytes: nat := length;
      8 * bytes
  }

  /** For every report id the descriptor declares as many feature bits as the registered
      variable has, and none for an id that is not registered. */
  lemma FeaturesAreRegistered(id: byte)
    ensures Bits(ALL_FIELDS, Feature, id) == RegisteredBits(id)
  {
    AllBits(Feature, id);
    SummaryBits(Feature, id);
    StatusBits(Feature, id);
    FragmentBits(Feature, id);
  }

  /** Every report that is sent is declared as an input of its length. */
  lemma ReportsAreInputs(s: C.State, k: nat)
    requires k < 7
    ensures var r := C.Reports(s)[k]; Bits(ALL_FIELDS, Input, r[0]) == 8 * (|r| - 1)
  {
    var id := C.Reports(s)[k][0];
    AllBits(Input, id);
    SummaryBits(Input, id);
    StatusBits(Input, id);
    FragmentBits(Input, id);
  }

  // ---------------------------------------------------------------- usages

  /** What a variable is in the terms of the usage tables for power devices: usage page,
      usage, and the collection it belongs in. */
  function UsageOf(v: Var): (r: (nat, nat, nat)) {
    match v
    case Product => (0x84, 0xFE, 0x24)
    case Serial => (0x84, 0xFF, 0x24)
    case Manufacturer => (0x84, 0xFD, 0x24)
    case Rechargeable => (0x85, 0x8B, 0x24)
    case ChemistryIndex => (0x85, 0x89, 0x24)
    case VendorIndex => (0x85, 0x8F, 0x24)
    case CapacityMode => (0x85, 0x2C, 0x24)
    case Granularity1 => (0x85, 0x8D, 0x24)
    case Granularity2 => (0x85, 0x8E, 0x24)
    case FullChargeCapacity => (0x85, 0x67, 0x24)
    case DesignCapacity => (0x85, 0x83, 0x24)
    case Remaining => (0x85, 0x66, 0x24)
    case WarnLimit => (0x85, 0x8C, 0x24)
    case RemnLimit => (0x85, 0x29, 0x24)
    case ManufactureDate => (0x85, 0x85, 0x24)
    case AvgTimeToFull => (0x85, 0x6A, 0x24)
    case AvgTimeToEmpty => (0x85, 0x69, 0x24)
    case RunTimeToEmpty => (0x85, 0x68, 0x24)
    case RemainTimeLimit => (0x85, 0x2A, 0x24)
    case DelayShutdown => (0x84, 0x57, 0x24)
    case DelayReboot => (0x84, 0x55, 0x24)
    case DelayStartup => (0x84, 0x56, 0x24)
    case ConfigVoltage => (0x84, 0x40, 0x24)
    case Voltage => (0x84, 0x30, 0x24)
    case InputVoltage => (0x84, 0x30, 0x1A)
    case OutputVoltage => (0x84, 0x30, 0x1C)
    case AudibleAlarm => (0x84, 0x5A, 0x24)
    case PercentLoad => (0x84, 0x35, 0x24)
    case _ => (0, 0, 0)
  }

  /** A field other than those of the status carries the usage of the variable that is
      registered under its report id. */
  predicate RightlyNamed(f: Field) {
    f.id != 0x07 ==>
      f.id < 0x100 && FeatureOf(f.id).Some? && UsageOf(FeatureOf(f.id).value.0) == (f.page, f.usage, f.inside)
  }

  predicate AllNamed(fields: seq<Field>) { forall i :: 0 <= i < |fields| ==> RightlyNamed(fields[i]) }

  lemma NamedAppend(a: seq<Field>, b: seq<Field>)
    requires AllNamed(a) && AllNamed(b)
    ensures AllNamed(a + b)
  {}

  lemma Identity1PartNamed()
    ensures AllNamed(IDENTITY_FIELDS_1)
  {
    forall i | 0 <= i < |IDENTITY_FIELDS_1| ensures RightlyNamed(IDENTITY_FIELDS_1[i]) {}
  }

  lemma Identity2PartNamed()
    ensures AllNamed(IDENTITY_FIELDS_2)
  {
    forall i | 0 <= i < |IDENTITY_FIELDS_2| ensures RightlyNamed(IDENTITY_FIELDS_2[i]) {}
  }

  lemma IdentityNamed()
    ensures AllNamed(IDENTITY_FIELDS)
  {
    Identity1PartNamed();
    Identity2PartNamed();
    NamedAppend(IDENTITY_FIELDS_1, IDENTITY_FIELDS_2);
  }

  lemma KindNamed()
    ensures AllNamed(KIND_FIELDS)
  {
    forall i | 0 <= i < |KIND_FIELDS| ensures RightlyNamed(KIND_FIELDS[i]) {}
  }

  lemma Capacity1PartNamed()
    ensures AllNamed(CAPACITY_FIELDS_1)
  {
    forall i | 0 <= i < |CAPACITY_FIELDS_1| ensures RightlyNamed(CAPACITY_FIELDS_1[i]) {}
  }

  lemma Capacity2PartNamed()
    ensures AllNamed(CAPACITY_FIELDS_2)
  {
    forall i | 0 <= i < |CAPACITY_FIELDS_2| ensures RightlyNamed(CAPACITY_FIELDS_2[i]) {}
  }

  lemma CapacityNamed()
    ensures AllNamed(CAPACITY_FIELDS)
  {
    Capacity1PartNamed();
    Capacity2PartNamed();
    NamedAppend(CAPACITY_FIELDS_1, CAPACITY_FIELDS_2);
  }

  lemma Times1PartNamed()
    ensures AllNamed(TIMES_FIELDS_1)
  {
    forall i | 0 <= i < |TIMES_FIELDS_1| ensures RightlyNamed(TIMES_FIELDS_1[i]) {}
  }

  lemma Times2PartNamed()
    ensures AllNamed(TIMES_FIELDS_2)
  {
    forall i | 0 <= i < |TIMES_FIELDS_2| ensures RightlyNamed(TIMES_FIELDS_2[i]) {}
  }

  lemma TimesNamed()
    ensures AllNamed(TIMES_FIELDS)
  {
    Times1PartNamed();
    Times2PartNamed();
    NamedAppend(TIMES_FIELDS_1, TIMES_FIELDS_2);
  }

  lemma Delays1PartNamed()
    ensures AllNamed(DELAYS_FIELDS_1)
  {
    forall i | 0 <= i < |DELAYS_FIELDS_1| ensures RightlyNamed(DELAYS_FIELDS_1[i]) {}
  }

  lemma Delays2PartNamed()
    ensures AllNamed(DELAYS_FIELDS_2)
  {
    forall i | 0 <= i < |DELAYS_FIELDS_2| ensures RightlyNamed(DELAYS_FIELDS_2[i]) {}
  }

  lemma DelaysNamed()
    ensures AllNamed(DELAYS_FIELDS)
  {
    Delays1PartNamed();
    Delays2PartNamed();
    NamedAppend(DELAYS_FIELDS_1, DELAYS_FIELDS_2);
  }

  lemma VoltagesNamed()
    ensures AllNamed(VOLTAGES_FIELDS)
  {
    forall i | 0 <= i < |VOLTAGES_FIELDS| ensures RightlyNamed(VOLTAGES_FIELDS[i]) {}
  }

  lemma Alarm1PartNamed()
    ensures AllNamed(ALARM_FIELDS_1)
  {
    forall i | 0 <= i < |ALARM_FIELDS_1| ensures RightlyNamed(ALARM_FIELDS_1[i]) {}
  }

  lemma AlarmNamed()
    ensures AllNamed(ALARM_FIELDS)
  {
    Alarm1PartNamed();
  }

  lemma StartupAndLoad1PartNamed()
    ensures AllNamed(STARTUP_AND_LOAD_FIELDS_1)
  {
    forall i | 0 <= i < |STARTUP_AND_LOAD_FIELDS_1| ensures RightlyNamed(STARTUP_AND_LOAD_FIELDS_1[i]) {}
  }

  lemma StartupAndLoad2PartNamed()
    ensures AllNamed(STARTUP_AND_LOAD_FIELDS_2)
  {
    forall i | 0 <= i < |STARTUP_AND_LOAD_FIELDS_2| ensures RightlyNamed(STARTUP_AND_LOAD_FIELDS_2[i]) {}
  }

  lemma StartupAndLoadNamed()
    ensures AllNamed(STARTUP_AND_LOAD_FIELDS)
  {
    StartupAndLoad1PartNamed();
    StartupAndLoad2PartNamed();
    NamedAppend(STARTUP_AND_LOAD_FIELDS_1, STARTUP_AND_LOAD_FIELDS_2);
  }

  lemma InputVoltageNamed()
    ensures AllNamed(INPUT_VOLTAGE_FIELDS)
  {
    forall i | 0 <= i < |INPUT_VOLTAGE_FIELDS| ensures RightlyNamed(INPUT_VOLTAGE_FIELDS[i]) {}
  }

  lemma OutputVoltageNamed()
    ensures AllNamed(OUTPUT_VOLTAGE_FIELDS)
  {
    forall i | 0 <= i < |OUTPUT_VOLTAGE_FIELDS| ensures RightlyNamed(OUTPUT_VOLTAGE_FIELDS[i]) {}
  }

  lemma SummaryNamed()
    ensures AllNamed(SUMMARY_FIELDS)
  {
    IdentityNamed();
    KindNamed();
    CapacityNamed();
    TimesNamed();
    DelaysNamed();
    VoltagesNamed();
    AlarmNamed();
    NamedAppend(IDENTITY_FIELDS, KIND_FIELDS);
    NamedAppend(IDENTITY_FIELDS + KIND_FIELDS, CAPACITY_FIELDS);
    NamedAppend(IDENTITY_FIELDS + KIND_FIELDS + CAPACITY_FIELDS, TIMES_FIELDS);
    NamedAppend(IDENTITY_FIELDS + KIND_FIELDS + CAPACITY_FIELDS + TIMES_FIELDS, DELAYS_FIELDS);
    NamedAppend(IDENTITY_FIELDS + KIND_FIELDS + CAPACITY_FIELDS + TIMES_FIELDS + DELAYS_FIELDS, VOLTAGES_FIELDS);
    NamedAppend(IDENTITY_FIELDS + KIND_FIELDS + CAPACITY_FIELDS + TIMES_FIELDS + DELAYS_FIELDS + VOLTAGES_FIELDS,
        ALARM_FIELDS);
  }

  lemma FragmentNamed()
    ensures AllNamed(FRAGMENT_FIELDS)
  {
    StartupAndLoadNamed();
    InputVoltageNamed();
    OutputVoltageNamed();
    NamedAppend(INPUT_VOLTAGE_FIELDS, OUTPUT_VOLTAGE_FIELDS);
    NamedAppend(STARTUP_AND_LOAD_FIELDS, INPUT_VOLTAGE_FIELDS + OUTPUT_VOLTAGE_FIELDS);
  }

  // ---------------------------------------------------------------- the status word

  /** The usages of the status bits, from the lowest bit up. */
  function StatusUsage(k: nat): (r: (nat, nat)) {
    match k
    case 0 => (0x85, 0x44)
    case 1 => (0x85, 0x45)
    case 2 => (0x85, 0xD0)
    case 3 => (0x85, 0xD1)
    case 4 => (0x85, 0x42)
    case 5 => (0x85, 0x43)
    case 6 => (0x85, 0x4B)
    case 7 => (0x85, 0xDB)
    case 8 => (0x85, 0x46)
    case 9 => (0x85, 0x47)
    case 10 => (0x84, 0x68)
    case 11 => (0x84, 0x69)
    case 12 => (0x84, 0x73)
    case 13 => (0x84, 0x65)
    case _ => (0, 0)
  }

  function StatusField(kind: Kind, k: nat): (f: Field) {
    Field(kind, 0x07, StatusUsage(k).0, StatusUsage(k).1, 0x02, 1)
  }

  /** The fields of one bit: an input and a feature. */
  function StatusPair(k: nat): (r: seq<Field>) { [StatusField(Input, k), StatusField(Feature, k)] }

  function StatusPairs(n: nat): (r: seq<Field>)
    ensures |r| == 2 * n
  {
    if n == 0 then [] else StatusPairs(n - 1) + StatusPair(n - 1)
  }

  lemma StatusBits11PartPairs()
    ensures STATUS_BITS_1_FIELDS_1 == StatusPair(0) + StatusPair(1)
  {}

  lemma StatusBits12PartPairs()
    ensures STATUS_BITS_1_FIELDS_2 == StatusPair(2) + StatusPair(3)
  {}

  lemma StatusBits21PartPairs()
    ensures STATUS_BITS_2_FIELDS_1 == StatusPair(4) + StatusPair(5)
  {}

  lemma StatusBits22PartPairs()
    ensures STATUS_BITS_2_FIELDS_2 == StatusPair(6) + StatusPair(7)
  {}

  lemma StatusBits23PartPairs()
    ensures STATUS_BITS_2_FIELDS_3 == StatusPair(8) + StatusPair(9)
  {}

  lemma StatusBits31PartPairs()
    ensures STATUS_BITS_3_FIELDS_1 == StatusPair(10) + StatusPair(11)
  {}

  lemma StatusBits32PartPairs()
    ensures STATUS_BITS_3_FIELDS_2 == StatusPair(12) + StatusPair(13) + [Field(Input, 0x07, 0x84, 0x00, 0x02, 2)]
  {}

  lemma FourPairs(a: seq<Field>, b: seq<Field>, k: nat)
    requires a == StatusPair(k) + StatusPair(k + 1) && b == StatusPair(k + 2) + StatusPair(k + 3)
    ensures StatusPairs(k) + (a + b) == StatusPairs(k + 4)
  {
    assert StatusPairs(k + 2) == StatusPairs(k + 1) + StatusPair(k + 1);
    assert StatusPairs(k + 4) == StatusPairs(k + 3) + StatusPair(k + 3);
  }

  lemma TwoPairs(a: seq<Field>, k: nat)
    requires a == StatusPair(k) + StatusPair(k + 1)
    ensures StatusPairs(k) + a == StatusPairs(k + 2)
  {
    assert StatusPairs(k + 2) == StatusPairs(k + 1) + StatusPair(k + 1);
  }

  const PADDING: seq<Field> := [Field(Input, 0x07, 0x84, 0x00, 0x02, 2), Field(Feature, 0x07, 0x84, 0x00, 0x02, 2)]

  /** The status report is declared bit by bit in that order, and padded to two bytes. */
  lemma StatusIsDeclared()
    ensures STATUS_FIELDS == StatusPairs(14) + PADDING
  {
    StatusBits11PartPairs();
    StatusBits12PartPairs();
    StatusBits21PartPairs();
    StatusBits22PartPairs();
    StatusBits23PartPairs();
    StatusBits31PartPairs();
    StatusBits32PartPairs();
    var a, b := STATUS_BITS_1_FIELDS_1, STATUS_BITS_1_FIELDS_2;
    var c, d, e := STATUS_BITS_2_FIELDS_1, STATUS_BITS_2_FIELDS_2, STATUS_BITS_2_FIELDS_3;
    var f, last := STATUS_BITS_3_FIELDS_1, StatusPair(12) + StatusPair(13);
    FourPairs(a, b, 0);
    FourPairs(c, d, 4);
    FourPairs(e, f, 8);
    TwoPairs(last, 12);
    StatusInSteps(StatusPairs(0), a, b, c, d, e, f, last, STATUS_BITS_3_FIELDS_2, STATUS_BITS_3_FIELDS_3);
  }

  lemma StatusInSteps(o: seq<Field>, a: seq<Field>, b: seq<Field>, c: seq<Field>, d: seq<Field>, e: seq<Field>,
        f: seq<Field>,
                      last: seq<Field>, g: seq<Field>, h: seq<Field>)
    requires o == [] && h == [Field(Feature, 0x07, 0x84, 0x00, 0x02, 2)]
    requires g == last + [Field(Input, 0x07, 0x84, 0x00, 0x02, 2)]
    ensures (a + b) + (c + d + e) + (f + g + h) == (((o + (a + b)) + (c + d)) + (e + f)) + last + PADDING
  {}

  /** The flag a usage names. */
  predicate FlagOf(p: C.PresentStatus, usage: (nat, nat)) {
    match usage
    case (0x85, 0x44) => p.charging
    case (0x85, 0x45) => p.discharging
    case (0x85, 0xD0) => p.acPresent
    case (0x85, 0xD1) => p.batteryPresent
    case (0x85, 0x42) => p.belowRemainingCapacityLimit
    case (0x85, 0x43) => p.remainingTimeLimitExpired
    case (0x85, 0x4B) => p.needReplacement
    case (0x85, 0xDB) => p.voltageNotRegulated
    case (0x85, 0x46) => p.fullyCharged
    case (0x85, 0x47) => p.fullyDischarged
    case (0x84, 0x68) => p.shutdownRequested
    case (0x84, 0x69) => p.shutdownImminent
    case (0x84, 0x73) => p.communicationLost
    case (0x84, 0x65) => p.overload
    case _ => false
  }

  function Weight(k: nat): (w: nat)
    ensures w > 0
  {
    match k
    case 0 => 1
    case 1 => 2
    case 2 => 4
    case 3 => 8
    case 4 => 16
    case 5 => 32
    case 6 => 64
    case _ => 128
  }

  /** Bit `k` of the status word, byte by byte. */
  predicate BitAt(b: seq<byte>, k: nat)
    requires |b| == 2 && k < 16
  {
    var x: int := b[k / 8];
    (x / Weight(k % 8)) % 2 == 1
  }

  /** The eight bits of a byte, by their weights. */
  predicate BitIs(b: byte, k: nat, flag: bool) {
    var x: int := b;
    ((x / Weight(k)) % 2 == 1) == flag
  }

  lemma LowBits(p: C.PresentStatus, k: nat)
    requires k < 8
    ensures BitAt(C.StatusBytes(p), k) <==> FlagOf(p, StatusUsage(k))
  {
    ReportLog.BitsOfByte(p.charging, p.discharging, p.acPresent, p.batteryPresent,
                         p.belowRemainingCapacityLimit, p.remainingTimeLimitExpired, p.needReplacement,
                         p.voltageNotRegulated);
    LowFlags(p, C.StatusBytes(p)[0], k);
  }

  lemma LowFlags(p: C.PresentStatus, b: byte, k: nat)
    requires k < 8
    requires C.BitOf(b, 1) == p.charging && C.BitOf(b, 2) == p.discharging && C.BitOf(b, 4) == p.acPresent
    requires C.BitOf(b, 8) == p.batteryPresent && C.BitOf(b, 16) == p.belowRemainingCapacityLimit
    requires C.BitOf(b, 32) == p.remainingTimeLimitExpired && C.BitOf(b, 64) == p.needReplacement
    requires C.BitOf(b, 128) == p.voltageNotRegulated
    ensures BitIs(b, k, FlagOf(p, StatusUsage(k)))
  {}

  lemma HighBits(p: C.PresentStatus, k: nat)
    requires 8 <= k < 14
    ensures BitAt(C.StatusBytes(p), k) <==> FlagOf(p, StatusUsage(k))
  {
    ReportLog.BitsOfByte(p.fullyCharged, p.fullyDischarged, p.shutdownRequested, p.shutdownImminent,
                         p.communicationLost, p.overload, false, false);
  }

  /** Every bit of the status word is the flag that the descriptor declares for it: the
      field of usage u starts at bit k, and bit k is the flag that u names. */
  lemma StatusBitsAreDeclared(p: C.PresentStatus, k: nat)
    requires k < 14
    ensures STATUS_FIELDS[2 * k + 1] == StatusField(Feature, k) && Bits(STATUS_FIELDS[..2 * k + 1], Feature, 0x07) == k
    ensures BitAt(C.StatusBytes(p), k) <==> FlagOf(p, (STATUS_FIELDS[2 * k + 1].page, STATUS_FIELDS[2 * k + 1].usage))
  {
    StatusIsDeclared();
    PairsBefore(14, k);
    assert STATUS_FIELDS[..2 * k + 1] == StatusPairs(14)[..2 * k + 1];
    if k < 8 { LowBits(p, k); } else { HighBits(p, k); }
  }

  lemma {:induction false} PairsBefore(n: nat, k: nat)
    requires k < n
    ensures StatusPairs(n)[2 * k + 1] == StatusField(Feature, k)
    ensures Bits(StatusPairs(n)[..2 * k + 1], Feature, 0x07) == k
  {
    if k == n - 1 {
      assert StatusPairs(n)[..2 * k + 1] == StatusPairs(k) + [StatusField(Input, k)];
      BitsOfPairs(k);
      BitsOne(StatusField(Input, k), Feature, 0x07);
      BitsAppend(StatusPairs(k), [StatusField(Input, k)], Feature, 0x07);
    } else {
      PairsBefore(n - 1, k);
      assert StatusPairs(n)[..2 * k + 1] == StatusPairs(n - 1)[..2 * k + 1];
    }
  }

  lemma {:induction false} BitsOfPairs(n: nat)
    ensures Bits(StatusPairs(n), Feature, 0x07) == n
  {
    if n == 0 {
    } else {
      BitsOfPairs(n - 1);
      BitsTwo(StatusField(Input, n - 1), StatusField(Feature, n - 1), Feature, 0x07);
      BitsAppend(StatusPairs(n - 1), StatusPair(n - 1), Feature, 0x07);
    }
  }

  lemma {:induction false} PairsNamed(n: nat)
    ensures AllNamed(StatusPairs(n))
  {
    if n == 0 {
    } else {
      PairsNamed(n - 1);
      NamedAppend(StatusPairs(n - 1), StatusPair(n - 1));
    }
  }

  /** Every declared field, input or feature, carries the usage of the variable that is
      registered under its report id. */
  lemma FieldsAreNamed()
    ensures AllNamed(ALL_FIELDS)
  {
    SummaryNamed();
    PairsNamed(14);
    StatusIsDeclared();
    NamedAppend(StatusPairs(14), PADDING);
    FragmentNamed();
    NamedAppend(SUMMARY_FIELDS, STATUS_FIELDS);
    NamedAppend(SUMMARY_FIELDS + STATUS_FIELDS, FRAGMENT_FIELDS);
  }
}
