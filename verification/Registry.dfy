/** The HID feature registry of `HID.cpp` as a value: the list of registered
    features in registration order, and what the list means. */
module Registry {
  import opened Ascii
  import opened Words

  /** One `HIDReport` node; `data` is the address of the registered storage. */
  datatype Entry<A> = Entry(id: u16, data: A, length: u16, lock: bool)

  datatype Op<A> = Set(id: u16, data: A, length: u16) | Lock(id: u16, flag: bool)

  /** Position of the first entry with this id, or the length of the list. */
  function IndexOf<A>(reg: seq<Entry<A>>, id: u16): (k: nat)
    ensures k <= |reg|
    ensures k < |reg| ==> reg[k].id == id
    ensures forall i :: 0 <= i < k ==> reg[i].id != id
  {
    if reg == [] || reg[0].id == id then 0 else 1 + IndexOf(reg[1..], id)
  }

  function Register<A>(reg: seq<Entry<A>>, id: u16, data: A, length: u16): (r: seq<Entry<A>>) {
    if IndexOf(reg, id) < |reg| then reg else reg + [Entry(id, data, length, false)]
  }

  function SetLock<A>(reg: seq<Entry<A>>, id: u16, flag: bool): (r: seq<Entry<A>>) {
    var k := IndexOf(reg, id);
    if k < |reg| then reg[k := reg[k].(lock := flag)] else reg
  }

  function Find<A>(reg: seq<Entry<A>>, id: u16): (r: Option<Entry<A>>) {
    var k := IndexOf(reg, id);
    if k < |reg| then Some(reg[k]) else None
  }

  function ApplyOp<A>(reg: seq<Entry<A>>, op: Op<A>): (r: seq<Entry<A>>) {
    match op
    case Set(id, data, length) => Register(reg, id, data, length)
    case Lock(id, flag) => SetLock(reg, id, flag)
  }

  function Apply<A>(reg: seq<Entry<A>>, ops: seq<Op<A>>): (r: seq<Entry<A>>) {
    if ops == [] then reg else ApplyOp(Apply(reg, ops[..|ops| - 1]), ops[|ops| - 1])
  }

  lemma {:induction false} ApplyAppend<A>(reg: seq<Entry<A>>, a: seq<Op<A>>, b: seq<Op<A>>)
    ensures Apply(reg, a + b) == Apply(Apply(reg, a), b)
  {
    if b == [] {
      assert a + b == a;
    } else {
      ApplyAppend(reg, a, b[..|b| - 1]);
      assert (a + b)[..|a + b| - 1] == a + b[..|b| - 1];
    }
  }

  // ------------------------------------------------------- reference meaning

  /** The registration that counts for an id: the first `Set` naming it. */
  function FirstSet<A>(ops: seq<Op<A>>, id: u16): (r: Option<Op<A>>)
    ensures r.Some? ==> r.value.Set? && r.value.id == id
  {
    if ops == [] then None
    else
      var before := FirstSet(ops[..|ops| - 1], id);
      var op := ops[|ops| - 1];
      if before.Some? then before else if op.Set? && op.id == id then Some(op) else None
  }

  /** The lock flag that counts: the last `Lock` naming a registered id. */
  predicate LastLock<A>(ops: seq<Op<A>>, id: u16) {
    if ops == [] then false
    else
      var op := ops[|ops| - 1];
      if op.Lock? && op.id == id && FirstSet(ops[..|ops| - 1], id).Some? then op.flag
      else LastLock(ops[..|ops| - 1], id)
  }

  predicate Distinct<A>(reg: seq<Entry<A>>) {
    forall i, j :: 0 <= i < j < |reg| ==> reg[i].id != reg[j].id
  }

  lemma IndexOfAppend<A>(reg: seq<Entry<A>>, e: Entry<A>, id: u16)
    ensures IndexOf(reg + [e], id) ==
            if IndexOf(reg, id) < |reg| then IndexOf(reg, id)
            else if e.id == id then |reg| else |reg| + 1
  {
    var k := IndexOf(reg + [e], id);
    var j := IndexOf(reg, id);
    if j < |reg| {
      assert (reg + [e])[j].id == id;
      assert k < |reg + [e]| ==> (reg + [e])[k].id == id;
      assert k <= j;
      assert (reg + [e])[k] == reg[k];
    } else {
      assert forall i :: 0 <= i < |reg| ==> (reg + [e])[i] == reg[i];
      assert (reg + [e])[|reg|] == e;
    }
  }

  lemma IndexOfUpdate<A>(reg: seq<Entry<A>>, k: nat, e: Entry<A>, id: u16)
    requires k < |reg| && e.id == reg[k].id
    ensures IndexOf(reg[k := e], id) == IndexOf(reg, id)
  {
    var a := IndexOf(reg[k := e], id);
    var b := IndexOf(reg, id);
    assert forall i :: 0 <= i < |reg| ==> reg[k := e][i].id == reg[i].id;
  }

  /** After any sequence of registrations and lock changes the list behaves as
      a map: looking an id up gives the first registration with the last lock
      flag, and ids never repeat. */
  lemma {:induction false} ListIsMap<A>(ops: seq<Op<A>>, id: u16)
    ensures Distinct(Apply([], ops))
    ensures Find(Apply([], ops), id) ==
            match FirstSet(ops, id)
            case None => None
            case Some(op) => Some(Entry(id, op.data, op.length, LastLock(ops, id)))
    decreases |ops|
  {
    if ops == [] {
    } else {
      var init, op := ops[..|ops| - 1], ops[|ops| - 1];
      ListIsMap(init, id);
      ListIsMap(init, op.id);
      MapStep(init, op, id);
      assert ops == init + [op];
    }
  }

  ghost predicate ActsAsMap<A>(r: seq<Entry<A>>, ops: seq<Op<A>>, id: u16) {
    && Distinct(r)
    && Find(r, id) == match FirstSet(ops, id)
                      case None => None
                      case Some(op) => Some(Entry(id, op.data, op.length, LastLock(ops, id)))
  }

  /** One more operation. */
  lemma MapStep<A>(ops: seq<Op<A>>, op: Op<A>, id: u16)
    requires ActsAsMap(Apply([], ops), ops, id) && ActsAsMap(Apply([], ops), ops, op.id)
    ensures ActsAsMap(Apply([], ops + [op]), ops + [op], id)
  {
    var r := Apply([], ops);
    assert (ops + [op])[..|ops|] == ops;
    match op
    case Set(oid, data, length) =>
      if IndexOf(r, oid) == |r| {
        IndexOfAppend(r, Entry(oid, data, length, false), id);
        NeverLockedBefore(ops, oid);
      }
    case Lock(oid, flag) =>
      var k := IndexOf(r, oid);
      if k < |r| { IndexOfUpdate(r, k, r[k].(lock := flag), id); }
  }

  lemma {:induction false} NeverLockedBefore<A>(ops: seq<Op<A>>, id: u16)
    requires FirstSet(ops, id).None?
    ensures !LastLock(ops, id)
  {
    if ops != [] { NeverLockedBefore(ops[..|ops| - 1], id); }
  }

  /** Locking an id nobody registered is a no-op. */
  lemma LockUnknown<A>(ops: seq<Op<A>>, id: u16, flag: bool)
    requires FirstSet(ops, id).None?
    ensures Apply([], ops + [Lock(id, flag)]) == Apply([], ops)
  {
    ListIsMap(ops, id);
    var all := ops + [Lock(id, flag)];
    assert all[..|all| - 1] == ops;
  }

  // ------------------------------------------------------- SET_REPORT

  /** A class request SET_REPORT as the device sees it (section 7.2.2 of the
      USB HID Device Class Definition 1.11): the two bytes of wValue, wLength,
      and the bytes the host sends. */
  datatype SetReport = SetReport(interfaceOk: bool, reportType: byte, id: byte, wLength: u16, data: seq<byte>)

  const REPORT_TYPE_FEATURE: byte := 3
  const FEATURE_RX_MAX: nat := 9

  /** `USB_RecvControl` into the 9-byte buffer: the first `wLength` bytes that
      arrive, with whatever the host leaves out read as zero. */
  function Received(w: SetReport): (r: seq<byte>)
    ensures |r| == w.wLength
  {
    seq(w.wLength, i requires 0 <= i < w.wLength => if i < |w.data| then w.data[i] else 0)
  }

  /** The entry a request writes to, when the device accepts it. */
  function Target<A>(reg: seq<Entry<A>>, w: SetReport): (r: Option<Entry<A>>) {
    if !w.interfaceOk || w.reportType != REPORT_TYPE_FEATURE then None
    else
      match Find(reg, w.id)
      case None => None
      case Some(e) =>
        if e.lock || w.wLength != e.length + 1 || w.wLength > FEATURE_RX_MAX then None
        else if Received(w)[0] != e.id then None
        else Some(e)
  }

  function HandleSetReport<A>(reg: seq<Entry<A>>, mem: map<A, seq<byte>>, w: SetReport): (r: map<A, seq<byte>>) {
    match Target(reg, w)
    case None => mem
    case Some(e) => mem[e.data := Received(w)[1..]]
  }

  function HandleSetReports<A>(reg: seq<Entry<A>>, mem: map<A, seq<byte>>, ws: seq<SetReport>): (r: map<A, seq<byte>>) {
    if ws == [] then mem else HandleSetReport(reg, HandleSetReports(reg, mem, ws[..|ws| - 1]), ws[|ws| - 1])
  }

  /** Storage a host can reach: data of an unlocked entry with an 8-bit id. */
  ghost predicate Reachable<A>(reg: seq<Entry<A>>, a: A) {
    exists id: byte :: Find(reg, id).Some? && !Find(reg, id).value.lock && Find(reg, id).value.data == a
  }

  /** However many requests the host sends, storage it cannot reach is untouched,
      and storage it can reach keeps the registered length. */
  lemma {:induction false} HostWritesConfined<A>(reg: seq<Entry<A>>, mem: map<A, seq<byte>>, ws: seq<SetReport>, a: A)
    requires a in mem
    ensures a in HandleSetReports(reg, mem, ws)
    ensures !Reachable(reg, a) ==> HandleSetReports(reg, mem, ws)[a] == mem[a]
    ensures HandleSetReports(reg, mem, ws)[a] == mem[a] ||
            exists e :: e in reg && e.data == a && |HandleSetReports(reg, mem, ws)[a]| == e.length
  {
    if ws == [] {
    } else {
      var w := ws[|ws| - 1];
      HostWritesConfined(reg, mem, ws[..|ws| - 1], a);
      var t := Target(reg, w);
      if t.Some? && t.value.data == a {
        var id: byte := w.id;
        assert Find(reg, id) == t;
        assert t.value == reg[IndexOf(reg, w.id)];
      }
    }
  }
}
