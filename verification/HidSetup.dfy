/** The feature table the sketch builds at start-up, and which of the sketch's
    variables a USB host can write once it is built. */
module HidSetup {
  import opened Ascii
  import opened Words
  import opened Registry

  /** The variables whose addresses are registered as feature storage. */
  datatype Var =
    | Product | Serial | Manufacturer
    | PresentStatusVar | RunTimeToEmpty | AvgTimeToFull | AvgTimeToEmpty
    | RemainTimeLimit | DelayStartup | DelayReboot | DelayShutdown
    | Rechargeable | CapacityMode | ConfigVoltage | Voltage
    | PercentLoad | InputVoltage | OutputVoltage
    | ChemistryIndex | ChemistryText | VendorIndex | VendorText
    | AudibleAlarm | DesignCapacity | FullChargeCapacity | Remaining
    | WarnLimit | RemnLimit | Granularity1 | Granularity2 | ManufactureDate

  /** `HIDPowerDevice_::begin`. */
  const BEGIN_OPS: seq<Op<Var>> := [
    Set(0x01, Product, 1), Set(0x02, Serial, 1), Set(0x03, Manufacturer, 1),
    Lock(0x01, true), Lock(0x02, true), Lock(0x03, true)
  ]

  const MEASUREMENT_OPS: seq<Op<Var>> := [
    Set(0x07, PresentStatusVar, 2), Set(0x0D, RunTimeToEmpty, 2),
    Set(0x1A, AvgTimeToFull, 2), Set(0x1C, AvgTimeToEmpty, 2),
    Set(0x08, RemainTimeLimit, 2), Set(0x21, DelayStartup, 2),
    Set(0x13, DelayReboot, 2), Set(0x12, DelayShutdown, 2),
    Set(0x06, Rechargeable, 1), Set(0x16, CapacityMode, 1),
    Set(0x0A, ConfigVoltage, 2), Set(0x0B, Voltage, 2),
    Set(0x22, PercentLoad, 1), Set(0x23, InputVoltage, 2), Set(0x24, OutputVoltage, 2)
  ]

  /** Two calls of `setStringFeature`: index byte, lock, then the text under an
      id above 0xFF00. */
  const STRING_OPS: seq<Op<Var>> := [
    Set(0x1F, ChemistryIndex, 1), Lock(0x1F, true), Set(0xFF04, ChemistryText, 4),
    Set(0x20, VendorIndex, 1), Lock(0x20, true), Set(0xFF05, VendorText, 16)
  ]

  const CAPACITY_OPS: seq<Op<Var>> := [
    Set(0x14, AudibleAlarm, 1), Set(0x17, DesignCapacity, 1),
    Set(0x0E, FullChargeCapacity, 1), Set(0x0C, Remaining, 1),
    Set(0x0F, WarnLimit, 1), Set(0x11, RemnLimit, 1),
    Set(0x10, Granularity1, 1), Set(0x18, Granularity2, 1),
    Set(0x09, ManufactureDate, 2)
  ]

  /** `kReadOnlyFeatures`, in order. */
  const READ_ONLY: seq<u16> := [
    0x01, 0x02, 0x03, 0x07, 0x0D, 0x1A, 0x1C, 0x06, 0x16, 0x0A, 0x0B,
    0x22, 0x23, 0x24, 0x1F, 0x20, 0x17, 0x0E, 0x0C, 0x10, 0x18, 0x09
  ]

  function LockAll(ids: seq<u16>): (ops: seq<Op<Var>>)
    ensures |ops| == |ids|
    ensures forall i :: 0 <= i < |ids| ==> ops[i] == Lock(ids[i], true)
  {
    seq(|ids|, i requires 0 <= i < |ids| => Lock(ids[i], true))
  }

  const REGISTER_OPS: seq<Op<Var>> := BEGIN_OPS + MEASUREMENT_OPS + STRING_OPS + CAPACITY_OPS

  /** Everything `setupHid` does to the registry. */
  const SETUP_OPS: seq<Op<Var>> := REGISTER_OPS + LockAll(READ_ONLY)

  /** The registry after `setup`. */
  function Table(): (r: seq<Entry<Var>>) { Apply([], SETUP_OPS) }

  /** The seven features meant to be host-writable, as id, storage and length. */
  function Writable(id: u16): (r: Option<(Var, u16)>) {
    if id == 0x08 then Some((RemainTimeLimit, 2))
    else if id == 0x21 then Some((DelayStartup, 2))
    else if id == 0x13 then Some((DelayReboot, 2))
    else if id == 0x12 then Some((DelayShutdown, 2))
    else if id == 0x14 then Some((AudibleAlarm, 1))
    else if id == 0x0F then Some((WarnLimit, 1))
    else if id == 0x11 then Some((RemnLimit, 1))
    else None
  }

  // ------------------------------------------------------- reading a history

  lemma {:induction false} SetIsFound<A>(ops: seq<Op<A>>, i: nat)
    requires i < |ops| && ops[i].Set?
    ensures FirstSet(ops, ops[i].id).Some?
  {
    if i < |ops| - 1 { SetIsFound(ops[..|ops| - 1], i); }
  }

  lemma {:induction false} FoundIsSet<A>(ops: seq<Op<A>>, id: u16) returns (i: nat)
    requires FirstSet(ops, id).Some?
    ensures i < |ops| && ops[i] == FirstSet(ops, id).value
    ensures forall j :: 0 <= j < i ==> !(ops[j].Set? && ops[j].id == id)
  {
    var init := ops[..|ops| - 1];
    if FirstSet(init, id).Some? {
      i := FoundIsSet(init, id);
      assert forall j :: 0 <= j < i ==> init[j] == ops[j];
    } else {
      i := |ops| - 1;
      forall j | 0 <= j < i ensures !(ops[j].Set? && ops[j].id == id) {
        if ops[j].Set? && ops[j].id == id {
          assert init[j] == ops[j];
          SetIsFound(init, j);
        }
      }
    }
  }

  lemma {:induction false} NoUnlockKeepsLock<A>(ops: seq<Op<A>>, k: nat)
    requires k < |ops| && ops[k] == Lock(ops[k].id, true)
    requires FirstSet(ops[..k], ops[k].id).Some?
    requires forall j :: 0 <= j < |ops| && ops[j].Lock? ==> ops[j].flag
    ensures LastLock(ops, ops[k].id)
  {
    var init := ops[..|ops| - 1];
    if k < |init| {
      assert init[..k] == ops[..k];
      assert forall j :: 0 <= j < |init| ==> init[j] == ops[j];
      NoUnlockKeepsLock(init, k);
    } else {
      assert init == ops[..k];
    }
  }

  lemma {:induction false} NeverNamedNeverLocked<A>(ops: seq<Op<A>>, id: u16)
    requires forall j :: 0 <= j < |ops| && ops[j].Lock? ==> ops[j].id != id
    ensures !LastLock(ops, id)
  {
    if ops == [] {
    } else {
      assert forall j :: 0 <= j < |ops| - 1 ==> ops[..|ops| - 1][j] == ops[j];
      NeverNamedNeverLocked(ops[..|ops| - 1], id);
    }
  }

  lemma {:induction false} FirstSetAppend<A>(a: seq<Op<A>>, b: seq<Op<A>>, id: u16)
    requires FirstSet(a, id).Some?
    ensures FirstSet(a + b, id) == FirstSet(a, id)
  {
    if b == [] {
      assert a + b == a;
    } else {
      assert (a + b)[..|a + b| - 1] == a + b[..|b| - 1];
      FirstSetAppend(a, b[..|b| - 1], id);
    }
  }

  lemma {:induction false} FirstSetSkip<A>(a: seq<Op<A>>, b: seq<Op<A>>, id: u16)
    requires forall j :: 0 <= j < |b| && b[j].Set? ==> b[j].id != id
    ensures FirstSet(a + b, id) == FirstSet(a, id)
  {
    if b == [] {
      assert a + b == a;
    } else {
      assert (a + b)[..|a + b| - 1] == a + b[..|b| - 1];
      assert (a + b)[|a + b| - 1] == b[|b| - 1];
      FirstSetSkip(a, b[..|b| - 1], id);
    }
  }

  // ------------------------------------------------------- the table itself

  lemma LocksOnly(j: nat)
    requires j < |SETUP_OPS| && SETUP_OPS[j].Lock?
    ensures SETUP_OPS[j].flag && SETUP_OPS[j].id in READ_ONLY
  {
    var n := |REGISTER_OPS|;
    if j >= n {
      assert SETUP_OPS[j] == LockAll(READ_ONLY)[j - n];
    } else {
      assert SETUP_OPS[j] == REGISTER_OPS[j];
    }
  }

  lemma ReadOnlyLocked(r: nat)
    requires r < |READ_ONLY| && FirstSet(REGISTER_OPS, READ_ONLY[r]).Some?
    ensures LastLock(SETUP_OPS, READ_ONLY[r])
  {
    var locks := LockAll(READ_ONLY);
    var k := |REGISTER_OPS| + r;
    assert SETUP_OPS[k] == locks[r];
    assert SETUP_OPS[..k] == REGISTER_OPS + locks[..r];
    FirstSetAppend(REGISTER_OPS, locks[..r], READ_ONLY[r]);
    forall j | 0 <= j < |SETUP_OPS| && SETUP_OPS[j].Lock? ensures SETUP_OPS[j].flag { LocksOnly(j); }
    NoUnlockKeepsLock(SETUP_OPS, k);
  }

  lemma RegisteredEarly(id: u16)
    ensures FirstSet(SETUP_OPS, id) == FirstSet(REGISTER_OPS, id)
  {
    var locks := LockAll(READ_ONLY);
    assert forall j :: 0 <= j < |locks| ==> locks[j].Lock?;
    FirstSetSkip(REGISTER_OPS, locks, id);
  }

  // ------------------------------------------------------- all features

  /** Every feature of the device by its id: the variable behind it, its length, and
      whether it is read-only. The texts have no 8-bit id and need no lock. */
  function FeatureOf(id: u16): (r: Option<(Var, u16, bool)>) {
    match id
    case 0x01 => Some((Product, 1, true))
    case 0x02 => Some((Serial, 1, true))
    case 0x03 => Some((Manufacturer, 1, true))
    case 0x06 => Some((Rechargeable, 1, true))
    case 0x07 => Some((PresentStatusVar, 2, true))
    case 0x08 => Some((RemainTimeLimit, 2, false))
    case 0x09 => Some((ManufactureDate, 2, true))
    case 0x0A => Some((ConfigVoltage, 2, true))
    case 0x0B => Some((Voltage, 2, true))
    case 0x0C => Some((Remaining, 1, true))
    case 0x0D => Some((RunTimeToEmpty, 2, true))
    case 0x0E => Some((FullChargeCapacity, 1, true))
    case 0x0F => Some((WarnLimit, 1, false))
    case 0x10 => Some((Granularity1, 1, true))
    case 0x11 => Some((RemnLimit, 1, false))
    case 0x12 => Some((DelayShutdown, 2, false))
    case 0x13 => Some((DelayReboot, 2, false))
    case 0x14 => Some((AudibleAlarm, 1, false))
    case 0x16 => Some((CapacityMode, 1, true))
    case 0x17 => Some((DesignCapacity, 1, true))
    case 0x18 => Some((Granularity2, 1, true))
    case 0x1A => Some((AvgTimeToFull, 2, true))
    case 0x1C => Some((AvgTimeToEmpty, 2, true))
    case 0x1F => Some((ChemistryIndex, 1, true))
    case 0x20 => Some((VendorIndex, 1, true))
    case 0x21 => Some((DelayStartup, 2, false))
    case 0x22 => Some((PercentLoad, 1, true))
    case 0x23 => Some((InputVoltage, 2, true))
    case 0x24 => Some((OutputVoltage, 2, true))
    case 0xFF04 => Some((ChemistryText, 4, false))
    case 0xFF05 => Some((VendorText, 16, false))
    case _ => None
  }

  /** The operation registers a feature as the list above says. */
  predicate RegistersAs(op: Op<Var>) {
    op.Set? ==> FeatureOf(op.id).Some? && FeatureOf(op.id).value.0 == op.data && FeatureOf(op.id).value.1 == op.length
  }

  lemma BeginFeature(j: nat)
    requires j < |BEGIN_OPS| && BEGIN_OPS[j].Set?
    ensures RegistersAs(BEGIN_OPS[j])
  {}

  lemma MeasurementFeature(j: nat)
    requires j < |MEASUREMENT_OPS| && MEASUREMENT_OPS[j].Set?
    ensures RegistersAs(MEASUREMENT_OPS[j])
  {}

  lemma StringFeature(j: nat)
    requires j < |STRING_OPS| && STRING_OPS[j].Set?
    ensures RegistersAs(STRING_OPS[j])
  {}

  lemma CapacityFeature(j: nat)
    requires j < |CAPACITY_OPS| && CAPACITY_OPS[j].Set?
    ensures RegistersAs(CAPACITY_OPS[j])
  {}

  lemma RegistersFeature(j: nat)
    requires j < |REGISTER_OPS| && REGISTER_OPS[j].Set?
    ensures RegistersAs(REGISTER_OPS[j])
  {
    var a, b, c := |BEGIN_OPS|, |MEASUREMENT_OPS|, |STRING_OPS|;
    if j < a {
      BeginFeature(j);
    } else if j < a + b {
      MeasurementFeature(j - a);
    } else if j < a + b + c {
      StringFeature(j - a - b);
    } else {
      CapacityFeature(j - a - b - c);
    }
  }

  lemma ReadOnlyFeature(r: nat)
    requires r < |READ_ONLY|
    ensures FeatureOf(READ_ONLY[r]).Some? && FeatureOf(READ_ONLY[r]).value.2
  {}

  /** The position of a read-only feature in `kReadOnlyFeatures`. */
  function LockPosition(id: u16): (r: nat) {
    match id
    case 0x01 => 0
    case 0x02 => 1
    case 0x03 => 2
    case 0x07 => 3
    case 0x0D => 4
    case 0x1A => 5
    case 0x1C => 6
    case 0x06 => 7
    case 0x16 => 8
    case 0x0A => 9
    case 0x0B => 10
    case 0x22 => 11
    case 0x23 => 12
    case 0x24 => 13
    case 0x1F => 14
    case 0x20 => 15
    case 0x17 => 16
    case 0x0E => 17
    case 0x0C => 18
    case 0x10 => 19
    case 0x18 => 20
    case 0x09 => 21
    case _ => 0
  }

  lemma ReadOnlyIsListed(id: u16)
    requires FeatureOf(id).Some? && FeatureOf(id).value.2
    ensures LockPosition(id) < |READ_ONLY| && READ_ONLY[LockPosition(id)] == id
  {}

  lemma ReadOnlyExactly(id: u16)
    requires FeatureOf(id).Some?
    ensures FeatureOf(id).value.2 <==> id in READ_ONLY
  {
    if FeatureOf(id).value.2 { ReadOnlyIsListed(id); }
    if id in READ_ONLY {
      var r :| 0 <= r < |READ_ONLY| && READ_ONLY[r] == id;
      ReadOnlyFeature(r);
    }
  }

  /** Where a feature is registered. */
  function IndexOfFeature(id: u16): (k: nat) {
    match id
    case 0x01 => 0
    case 0x02 => 1
    case 0x03 => 2
    case 0x06 => 14
    case 0x07 => 6
    case 0x08 => 10
    case 0x09 => 35
    case 0x0A => 16
    case 0x0B => 17
    case 0x0C => 30
    case 0x0D => 7
    case 0x0E => 29
    case 0x0F => 31
    case 0x10 => 33
    case 0x11 => 32
    case 0x12 => 13
    case 0x13 => 12
    case 0x14 => 27
    case 0x16 => 15
    case 0x17 => 28
    case 0x18 => 34
    case 0x1A => 8
    case 0x1C => 9
    case 0x1F => 21
    case 0x20 => 24
    case 0x21 => 11
    case 0x22 => 18
    case 0x23 => 19
    case 0x24 => 20
    case 0xFF04 => 23
    case 0xFF05 => 26
    case _ => 0
  }

  lemma FeatureIsRegistered(id: u16)
    requires FeatureOf(id).Some?
    ensures var k := IndexOfFeature(id); k < |REGISTER_OPS| && REGISTER_OPS[k].Set? && REGISTER_OPS[k].id == id
  {}

  lemma LockedExactly(id: u16)
    requires FirstSet(REGISTER_OPS, id).Some?
    ensures LastLock(SETUP_OPS, id) <==> id in READ_ONLY
  {
    if id in READ_ONLY {
      var r :| 0 <= r < |READ_ONLY| && READ_ONLY[r] == id;
      ReadOnlyLocked(r);
    } else {
      forall j | 0 <= j < |SETUP_OPS| && SETUP_OPS[j].Lock? ensures SETUP_OPS[j].id != id { LocksOnly(j); }
      NeverNamedNeverLocked(SETUP_OPS, id);
    }
  }

  /** What `setup` leaves in the feature list, id by id: exactly these features, each
      with its own variable, length and lock. */
  lemma TableExactly(id: u16)
    ensures Find(Table(), id) ==
            match FeatureOf(id)
            case None => None
            case Some((v, length, locked)) => Some(Entry(id, v, length, locked))
  {
    ListIsMap(SETUP_OPS, id);
    RegisteredEarly(id);
    if FirstSet(REGISTER_OPS, id).Some? {
      var i := FoundIsSet(REGISTER_OPS, id);
      RegistersFeature(i);
      LockedExactly(id);
      ReadOnlyExactly(id);
    } else if FeatureOf(id).Some? {
      FeatureIsRegistered(id);
      SetIsFound(REGISTER_OPS, IndexOfFeature(id));
    }
  }

  /** The features a host can write are the seven that are not read-only. */
  lemma WritableExactly(id: byte)
    ensures Writable(id) == match FeatureOf(id)
                            case None => None
                            case Some((v, length, locked)) => if locked then None else Some((v, length))
  {}

  // ------------------------------------------------------- requests

  /** What a request does after `setup`: it is accepted exactly when it is a
      well-formed Feature report for one of the seven writable ids, and then it
      replaces that variable's bytes and nothing else. */
  lemma AcceptedExactly(w: SetReport)
    ensures Target(Table(), w).Some? <==>
            && w.interfaceOk && w.reportType == 3
            && Writable(w.id).Some? && w.wLength == Writable(w.id).value.1 + 1
            && Received(w)[0] == w.id
    ensures Target(Table(), w).Some? ==>
            Target(Table(), w).value.data == Writable(w.id).value.0 &&
            |Received(w)[1..]| == Writable(w.id).value.1
  {
    TableExactly(w.id);
    WritableExactly(w.id);
  }

  /** After `setup`, no sequence of SET_REPORT requests changes a variable other
      than the seven, and each of those seven always keeps its own length. */
  lemma {:induction false} OnlySevenChange(mem: map<Var, seq<byte>>, ws: seq<SetReport>, v: Var)
    requires v in mem
    ensures v in HandleSetReports(Table(), mem, ws)
    ensures HandleSetReports(Table(), mem, ws)[v] == mem[v] ||
            exists id: byte :: Writable(id).Some? && Writable(id).value.0 == v &&
                               |HandleSetReports(Table(), mem, ws)[v]| == Writable(id).value.1
  {
    if ws == [] {
    } else {
      var w := ws[|ws| - 1];
      OnlySevenChange(mem, ws[..|ws| - 1], v);
      AcceptedExactly(w);
    }
  }
}
