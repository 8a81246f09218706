/** Start-up: what the power device and the sketch do to the HID object. */
module PowerDevice {
  import opened Ascii
  import opened Words
  import opened Registry
  import opened HidSetup
  import opened HidList
  import opened Descriptor
  import opened PowerDescriptor
  import opened ReportLength

  method RunCall(hid: HID, op: Op<Var>) returns (r: u16)
    requires hid.ValidReports()
    modifies hid`rootReport, hid`reportCount, hid`reports, hid`contents, hid`repr, hid.repr
    ensures hid.ValidReports() && fresh(hid.repr - old(hid.repr))
    ensures hid.contents == ApplyOp(old(hid.contents), op)
    ensures op.Set? ==> (r == 0 <==> TakenForFailure(old(hid.contents), op.id))
  {
    match op
    case Set(id, data, length) =>
      r := RunSet(hid, id, data, length);
    case Lock(id, flag) =>
      r := RunLock(hid, id, flag);
  }

  method RunSet(hid: HID, id: u16, data: Var, length: u16) returns (r: u16)
    requires hid.ValidReports()
    modifies hid`rootReport, hid`reportCount, hid`reports, hid`contents, hid`repr, hid.repr
    ensures hid.ValidReports() && fresh(hid.repr - old(hid.repr))
    ensures hid.contents == Register(old(hid.contents), id, data, length)
    ensures r == 0 <==> TakenForFailure(old(hid.contents), id)
  {
    r := hid.SetFeature(id, data, length);
  }

  method RunLock(hid: HID, id: u16, flag: bool) returns (r: u16)
    requires hid.ValidReports()
    modifies hid`rootReport, hid`reportCount, hid`reports, hid`contents, hid`repr, hid.repr
    ensures hid.ValidReports() && fresh(hid.repr - old(hid.repr))
    ensures hid.contents == ApplyOp(old(hid.contents), Lock(id, flag))
  {
    var found := hid.LockFeature(id, flag);
    r := Bit(found);
  }

  /** Feature calls in a row, as a table lists them. */
  method RunCalls(hid: HID, ops: seq<Op<Var>>)
    requires hid.ValidReports()
    modifies hid`rootReport, hid`reportCount, hid`reports, hid`contents, hid`repr, hid.repr
    ensures hid.ValidReports() && fresh(hid.repr - old(hid.repr))
    ensures hid.contents == Apply(old(hid.contents), ops)
  {
    if ops != [] {
      RunCalls(hid, ops[..|ops| - 1]);
      var _ := RunCall(hid, ops[|ops| - 1]);
    }
  }

  /** `HIDPowerDevice_::begin`. */
  method Begin(hid: HID)
    requires hid.ValidReports()
    modifies hid`rootReport, hid`reportCount, hid`reports, hid`contents, hid`repr, hid.repr
    ensures hid.ValidReports() && fresh(hid.repr - old(hid.repr))
    ensures hid.contents == Apply(old(hid.contents), BEGIN_OPS)
  {
    RunCalls(hid, BEGIN_OPS);
  }

  /** What `setStringFeature` asks for: the index byte under `id`, locked, and the
      text under the string descriptor's id. */
  function StringCalls(id: byte, index: Var, number: byte, text: Var, length: u16): (r: seq<Op<Var>>) {
    [Set(id, index, 1), Lock(id, true), Set(StringId(number), text, length)]
  }

  /** `0xFF00 | number`. */
  function StringId(number: byte): (r: u16) {
    var n: int := number;
    0xFF00 + n
  }

  /** The answer of `SetFeature` that `setStringFeature` takes for a failure: the
      id is known already as the very first one (or the counter has wrapped). */
  predicate TakenForFailure(reg: seq<Entry<Var>>, id: u16) {
    var k := IndexOf(reg, id);
    U16(if k < |reg| then k else |reg| + 1) == 0
  }

  /** `setStringFeature`: all three calls, unless the first answers zero. */
  method SetStringFeature(hid: HID, id: byte, index: Var, number: byte, text: Var, length: u16) returns (r: u16)
    requires hid.ValidReports()
    modifies hid`rootReport, hid`reportCount, hid`reports, hid`contents, hid`repr, hid.repr
    ensures hid.ValidReports() && fresh(hid.repr - old(hid.repr))
    ensures TakenForFailure(old(hid.contents), id) ==>
              r == 0 && hid.contents == Register(old(hid.contents), id, index, 1)
    ensures !TakenForFailure(old(hid.contents), id) ==>
              hid.contents == Apply(old(hid.contents), StringCalls(id, index, number, text, length))
  {
    ghost var before := hid.contents;
    r := RunCall(hid, Set(id, index, 1));
    if r != 0 {
      var more := FinishString(hid, id, number, text, length);
      ApplyThree(before, Set(id, index, 1), Lock(id, true), Set(StringId(number), text, length));
      r := U16(r + more);
    }
  }

  method FinishString(hid: HID, id: byte, number: byte, text: Var, length: u16) returns (r: u16)
    requires hid.ValidReports()
    modifies hid`rootReport, hid`reportCount, hid`reports, hid`contents, hid`repr, hid.repr
    ensures hid.ValidReports() && fresh(hid.repr - old(hid.repr))
    ensures hid.contents == ApplyOp(ApplyOp(old(hid.contents), Lock(id, true)), Set(StringId(number), text, length))
  {
    var _ := RunCall(hid, Lock(id, true));
    r := RunCall(hid, Set(StringId(number), text, length));
  }

  lemma ApplyThree(reg: seq<Entry<Var>>, a: Op<Var>, b: Op<Var>, c: Op<Var>)
    ensures Apply(reg, [a, b, c]) == ApplyOp(ApplyOp(ApplyOp(reg, a), b), c)
  {
    assert [a, b, c][..2] == [a, b] && [a, b][..1] == [a] && [a][..0] == [];
    assert Apply(reg, [a]) == ApplyOp(Apply(reg, []), a);
  }

  /** The constructor of `HIDPowerDevice_`: base, optional extension, end. */
  method BuildDescriptor(hid: HID, base: HIDSubDescriptor, extension: HIDSubDescriptor?, end: HIDSubDescriptor)
    requires hid.ValidNodes() && hid.nodes == []
    requires base.next == null && end.next == null && base != end
    requires extension != null ==> extension.next == null && extension != base && extension != end
    modifies hid`rootNode, hid`descriptorSize, hid`nodes, base`next, end`next,
             (if extension == null then {} else {extension})`next
    ensures hid.ValidNodes() && hid.nodes == [base] + (if extension == null then [] else [extension]) + [end]
    ensures hid.Bytes() == base.data + (if extension == null then [] else extension.data) + end.data
  {
    AppendNew(hid, base);
    if extension != null {
      AppendNew(hid, extension);
    }
    AppendNew(hid, end);
  }

  method AppendNew(hid: HID, node: HIDSubDescriptor)
    requires hid.ValidNodes() && node !in hid.nodes && node.next == null
    modifies hid`rootNode, hid`descriptorSize, hid`nodes, hid.nodes`next
    ensures hid.ValidNodes() && hid.nodes == old(hid.nodes) + [node] && hid.Bytes() == old(hid.Bytes()) + node.data
  {
    hid.AppendDescriptor(node);
  }

  /** The constructor with the library's own texts, on a fresh object: the device
      sends one application collection and advertises its true length, which the
      self-test's reader finds behind any other descriptor blocks. */
  method ConstructPowerDevice(hid: HID, product: byte, serial: byte, manufacturer: byte, withExtension: bool)
    requires hid.ValidNodes() && hid.nodes == []
    modifies hid`rootNode, hid`descriptorSize, hid`nodes
    ensures hid.ValidNodes() && fresh(hid.nodes)
    ensures hid.Bytes() == Bytes(Base(product, serial, manufacturer))
                           + (if withExtension then Bytes(NutFragment()) else []) + END
    ensures OneApplication(hid.Bytes())
    ensures hid.descriptorSize == |hid.Bytes()| == if withExtension then 501 else 400
    ensures forall before, rest :: OtherBlocks(before) ==>
              Advertised(Flatten(before) + (HidReport(hid.descriptorSize) + rest)) == Some(|hid.Bytes()|)
  {
    var base := new HIDSubDescriptor(Bytes(Base(product, serial, manufacturer)));
    var end := new HIDSubDescriptor(END);
    var extension: HIDSubDescriptor? := null;
    if withExtension {
      extension := new HIDSubDescriptor(Bytes(NutFragment()));
    }
    BuildDescriptor(hid, base, extension, end);
    Composed(hid.Bytes(), product, serial, manufacturer, withExtension);
    AlwaysAdvertised(hid.Bytes());
  }

  lemma AlwaysAdvertised(bytes: seq<byte>)
    requires |bytes| < 0x1_0000
    ensures forall before, rest :: OtherBlocks(before) ==>
              Advertised(Flatten(before) + (HidReport(|bytes|) + rest)) == Some(|bytes|)
  {
    forall before, rest | OtherBlocks(before)
      ensures Advertised(Flatten(before) + (HidReport(|bytes|) + rest)) == Some(|bytes|)
    {
      LengthRoundTripExactly(before, bytes, rest);
    }
  }

  lemma Composed(bytes: seq<byte>, product: byte, serial: byte, manufacturer: byte, withExtension: bool)
    requires bytes == Bytes(Base(product, serial, manufacturer))
                      + (if withExtension then Bytes(NutFragment()) else []) + END
    ensures OneApplication(bytes) && |bytes| == if withExtension then 501 else 400
  {
    Shipped(product, serial, manufacturer);
    assert Bytes(Base(product, serial, manufacturer)) + [] == Bytes(Base(product, serial, manufacturer));
  }

  // ---------------------------------------------------------------- setupHid

  /** The first call of a history stays the first entry, and no call adds more
      than one. */
  lemma {:induction false} HeadStays(ops: seq<Op<Var>>)
    requires ops != [] && ops[0].Set?
    ensures var r := Apply([], ops);
            r != [] && r[0].id == ops[0].id && |r| <= |ops|
  {
    var init := ops[..|ops| - 1];
    if init != [] {
      HeadStays(init);
    } else {
      assert Apply([], init) == [];
    }
  }

  lemma {:induction false} LengthsStay(ops: seq<Op<Var>>, most: nat)
    requires forall j :: 0 <= j < |ops| && ops[j].Set? ==> ops[j].length <= most
    ensures var r := Apply([], ops);
            |r| <= |ops| && forall i :: 0 <= i < |r| ==> r[i].length <= most
  {
    if ops == [] {
    } else {
      var init := ops[..|ops| - 1];
      assert forall j :: 0 <= j < |init| ==> init[j] == ops[j];
      LengthsStay(init, most);
    }
  }

  lemma StringTaken(ops: seq<Op<Var>>, id: u16)
    requires 0 < |ops| < 100 && ops[0].Set? && id != ops[0].id
    ensures !TakenForFailure(Apply([], ops), id)
  {
    HeadStays(ops);
    var reg := Apply([], ops);
    var k := IndexOf(reg, id);
    assert 0 < k <= |reg| < 100;
  }

  lemma StringCallsAre()
    ensures StringCalls(0x1F, ChemistryIndex, 4, ChemistryText, 4) + StringCalls(0x20, VendorIndex, 5, VendorText, 16)
            == STRING_OPS
  {}

  /** The feature part of `setupHid` on a fresh object: the feature table. */
  method SetupHid(hid: HID)
    requires hid.ValidReports() && hid.contents == []
    modifies hid`rootReport, hid`reportCount, hid`reports, hid`contents, hid`repr, hid.repr
    ensures hid.ValidReports() && fresh(hid.repr - old(hid.repr)) && hid.contents == Table()
  {
    RegisterFeatures(hid);
    LockReadOnly(hid);
    ApplyAppend([], REGISTER_OPS, LockAll(READ_ONLY));
  }

  method RegisterFeatures(hid: HID)
    requires hid.ValidReports() && hid.contents == []
    modifies hid`rootReport, hid`reportCount, hid`reports, hid`contents, hid`repr, hid.repr
    ensures hid.ValidReports() && fresh(hid.repr - old(hid.repr)) && hid.contents == Apply([], REGISTER_OPS)
  {
    RegisterMeasurements(hid);
    RegisterStrings(hid);
    RunCalls(hid, CAPACITY_OPS);
    RegisteredAll(hid.contents);
  }

  method RegisterMeasurements(hid: HID)
    requires hid.ValidReports()
    modifies hid`rootReport, hid`reportCount, hid`reports, hid`contents, hid`repr, hid.repr
    ensures hid.ValidReports() && fresh(hid.repr - old(hid.repr))
    ensures hid.contents == Apply(Apply(old(hid.contents), BEGIN_OPS), MEASUREMENT_OPS)
  {
    Begin(hid);
    RunCalls(hid, MEASUREMENT_OPS);
  }

  lemma RegisteredAll(reg: seq<Entry<Var>>)
    requires reg == Apply(Apply(Apply(Apply([], BEGIN_OPS), MEASUREMENT_OPS), STRING_OPS), CAPACITY_OPS)
    ensures reg == Apply([], REGISTER_OPS)
  {
    ApplyAppend([], BEGIN_OPS, MEASUREMENT_OPS);
    ApplyAppend([], BEGIN_OPS + MEASUREMENT_OPS, STRING_OPS);
    ApplyAppend([], BEGIN_OPS + MEASUREMENT_OPS + STRING_OPS, CAPACITY_OPS);
  }

  method RegisterStrings(hid: HID)
    requires hid.ValidReports() && hid.contents == Apply(Apply([], BEGIN_OPS), MEASUREMENT_OPS)
    modifies hid`rootReport, hid`reportCount, hid`reports, hid`contents, hid`repr, hid.repr
    ensures hid.ValidReports() && fresh(hid.repr - old(hid.repr))
    ensures hid.contents == Apply(old(hid.contents), STRING_OPS)
  {
    ghost var before := hid.contents;
    ghost var early := BEGIN_OPS + MEASUREMENT_OPS;
    ghost var chemistry := StringCalls(0x1F, ChemistryIndex, 4, ChemistryText, 4);
    ghost var vendor := StringCalls(0x20, VendorIndex, 5, VendorText, 16);
    ApplyAppend([], BEGIN_OPS, MEASUREMENT_OPS);
    ApplyAppend([], early, chemistry);
    StringTaken(early, 0x1F);
    StringTaken(early + chemistry, 0x20);
    var _ := SetStringFeature(hid, 0x1F, ChemistryIndex, 4, ChemistryText, 4);
    var _ := SetStringFeature(hid, 0x20, VendorIndex, 5, VendorText, 16);
    ApplyAppend(before, chemistry, vendor);
    StringCallsAre();
  }

  /** The loop over `kReadOnlyFeatures`. */
  method LockReadOnly(hid: HID)
    requires hid.ValidReports()
    modifies hid`contents, hid.repr
    ensures hid.ValidReports() && hid.contents == Apply(old(hid.contents), LockAll(READ_ONLY))
  {
    ghost var before := hid.contents;
    ghost var locks := LockAll(READ_ONLY);
    for i := 0 to |READ_ONLY|
      invariant hid.ValidReports() && hid.contents == Apply(before, locks[..i])
    {
      assert locks[..i + 1][..i] == locks[..i];
      var _ := hid.LockFeature(READ_ONLY[i], true);
    }
    assert locks[..|READ_ONLY|] == locks;
  }

  /** Any number of SET_REPORT requests after start-up: memory changes exactly as
      the registry says, and so only the seven writable variables can change. */
  method ServeHost(hid: HID, requests: seq<SetReport>)
    requires hid.ValidReports() && hid.contents == Table()
    modifies hid`memory
    ensures hid.memory == HandleSetReports(Table(), old(hid.memory), requests)
    ensures forall v :: v in old(hid.memory) && !HostMayWrite(v) ==>
              v in hid.memory && hid.memory[v] == old(hid.memory)[v]
  {
    TableIsSmall();
    for i := 0 to |requests|
      invariant hid.ValidReports() && hid.contents == Table()
      invariant hid.memory == HandleSetReports(Table(), old(hid.memory), requests[..i])
    {
      assert requests[..i + 1][..i] == requests[..i];
      assert forall k :: 0 <= k < |hid.reports| ==> hid.contents[k] == EntryOf(hid.reports[k]);
      var _ := hid.SetReportRequest(requests[i]);
    }
    assert requests[..|requests|] == requests;
    forall v | v in old(hid.memory) && !HostMayWrite(v)
      ensures v in hid.memory && hid.memory[v] == old(hid.memory)[v]
    {
      OnlySevenChange(old(hid.memory), requests, v);
    }
  }

  /** The storage of one of the seven writable features. */
  ghost predicate HostMayWrite(v: Var) { exists id: byte :: Writable(id).Some? && Writable(id).value.0 == v }

  lemma TableIsSmall()
    ensures |Table()| < 0x1_0000 && forall i :: 0 <= i < |Table()| ==> Table()[i].length < 0xFFFF
  {
    var locks := LockAll(READ_ONLY);
    assert forall j :: 0 <= j < |locks| ==> locks[j].Lock?;
    forall j | 0 <= j < |REGISTER_OPS| && REGISTER_OPS[j].Set? ensures REGISTER_OPS[j].length <= 16 { ShortSet(j); }
    ShortLocks(REGISTER_OPS, locks);
    LengthsStay(SETUP_OPS, 16);
  }

  lemma ShortLocks(a: seq<Op<Var>>, b: seq<Op<Var>>)
    requires forall j :: 0 <= j < |a| && a[j].Set? ==> a[j].length <= 16
    requires forall j :: 0 <= j < |b| ==> b[j].Lock?
    ensures forall j :: 0 <= j < |a + b| && (a + b)[j].Set? ==> (a + b)[j].length <= 16
  {}

  lemma ShortSet(j: nat)
    requires j < |REGISTER_OPS| && REGISTER_OPS[j].Set?
    ensures REGISTER_OPS[j].length <= 16
  {}
}
