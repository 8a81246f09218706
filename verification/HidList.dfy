/** The object of HID.cpp: two singly linked lists changed in place. The feature
    list is proved to be the registry of Registry.dfy, and the descriptor list to
    be a concatenation of bytes. */
module HidList {
  import opened Ascii
  import opened Words
  import opened Registry
  import opened HidSetup

  class HIDReport {
    var next: HIDReport?
    const id: u16
    const data: Var
    const length: u16
    var lock: bool
    /** Where on the list the node belongs. */
    ghost const place: nat

    constructor (id: u16, data: Var, length: u16, ghost place: nat)
      ensures next == null && this.id == id && this.data == data && this.length == length && !lock
      ensures this.place == place
    {
      this.next, this.id, this.data, this.length, this.lock := null, id, data, length, false;
      this.place := place;
    }
  }

  class HIDSubDescriptor {
    var next: HIDSubDescriptor?
    const data: seq<byte>

    constructor (data: seq<byte>)
      ensures next == null && this.data == data
    {
      this.next, this.data := null, data;
    }
  }

  function EntryOf(r: HIDReport): (result: Entry<Var>)
    reads r`lock
  {
    Entry(r.id, r.data, r.length, r.lock)
  }

  /** The element behind position `i`, or null at the end. */
  function After(list: seq<HIDReport>, i: nat): (r: HIDReport?) { if i + 1 < |list| then list[i + 1] else null }

  /** The node behind position `i`, or what the list ends in. */
  function NodeAfter(list: seq<HIDSubDescriptor>, i: nat, end: HIDSubDescriptor?): (r: HIDSubDescriptor?) {
    if i + 1 < |list| then list[i + 1] else end
  }

  function Concat(list: seq<HIDSubDescriptor>): (r: seq<byte>) {
    if list == [] then [] else Concat(list[..|list| - 1]) + list[|list| - 1].data
  }

  lemma ConcatSnoc(list: seq<HIDSubDescriptor>, node: HIDSubDescriptor)
    ensures Concat(list + [node]) == Concat(list) + node.data
  {
    assert (list + [node])[..|list|] == list;
  }

  lemma U16Sum(a: nat, b: nat)
    ensures U16(U16(a) + b) == U16(a + b)
  {}

  /** What `GetFeature` finds: it stops after `reportCount` nodes. */
  function Get(reg: seq<Entry<Var>>, count: nat, id: u16): (r: Option<Entry<Var>>) {
    var k := IndexOf(reg, id);
    if k < |reg| && k < count then Some(reg[k]) else None
  }

  /** `reportCount` has 16 bits. `GetFeature` finds what is registered for every
      id exactly as long as there are fewer than 65536 registrations. */
  lemma GetIsFindExactly(reg: seq<Entry<Var>>)
    requires Distinct(reg)
    ensures (forall id :: Get(reg, U16(|reg|), id) == Find(reg, id)) <==> |reg| < 0x1_0000
  {
    if |reg| >= 0x1_0000 {
      var k: nat := U16(|reg|);
      var id := reg[k].id;
      assert IndexOf(reg, id) == k;
      assert Get(reg, U16(|reg|), id) != Find(reg, id);
    }
  }

  /** The list that `GetFeature` loses: all 65536 ids registered once. */
  lemma FullListIsLost(reg: seq<Entry<Var>>)
    requires |reg| == 0x1_0000 && forall i :: 0 <= i < |reg| ==> reg[i] == Entry(i, Product, 1, false)
    ensures Distinct(reg) && forall id: u16 :: Find(reg, id) == Some(reg[id]) && Get(reg, U16(|reg|), id) == None
  {
    forall id: u16 ensures Find(reg, id) == Some(reg[id]) {
      var k := IndexOf(reg, id);
      assert reg[id].id == id;
      if k < |reg| { assert reg[k].id == k; }
    }
  }

  class HID {
    var rootReport: HIDReport?
    var reportCount: u16
    /** The nodes on the feature list, in list order. */
    ghost var reports: seq<HIDReport>
    ghost var repr: set<HIDReport>
    /** The feature list as a value. */
    ghost var contents: seq<Entry<Var>>

    var rootNode: HIDSubDescriptor?
    var descriptorSize: u16
    ghost var nodes: seq<HIDSubDescriptor>

    /** The registered variables' bytes, by address. */
    var memory: map<Var, seq<byte>>

    /** The pointers spell out exactly `reports`: no cycle, no sharing, no tail;
        and the nodes hold exactly `contents`. */
    ghost predicate Chained()
      reads this`rootReport, this`reports, this`contents, this`repr, repr`next, repr`lock
    {
      && |contents| == |reports|
      && (forall i :: 0 <= i < |reports| ==> reports[i] in repr)
      && (forall i :: 0 <= i < |reports| ==> contents[i] == EntryOf(reports[i]))
      && rootReport == (if reports == [] then null else reports[0])
      && (forall i :: 0 <= i < |reports| ==> reports[i].place == i)
      && (forall i :: 0 <= i < |reports| ==> reports[i].next == After(reports, i))
    }

    ghost predicate ValidReports()
      reads this`rootReport, this`reportCount, this`reports, this`contents, this`repr, repr`next, repr`lock
    {
      Chained() && reportCount == U16(|reports|)
    }

    constructor (memory: map<Var, seq<byte>>)
      ensures ValidReports() && contents == [] && fresh(repr)
      ensures ValidNodes() && nodes == [] && this.memory == memory
    {
      rootReport, reportCount, reports, repr, contents := null, 0, [], {}, [];
      rootNode, descriptorSize, nodes := null, 0, [];
      this.memory := memory;
    }

    /** `SetFeature`. Answers the position of an id that was registered before, or
        the number of registrations. */
    method SetFeature(id: u16, data: Var, len: int) returns (r: u16)
      requires ValidReports()
      modifies this`rootReport, this`reportCount, this`reports, this`contents, this`repr, repr`next
      ensures ValidReports() && fresh(repr - old(repr))
      ensures contents == Register(old(contents), id, data, U16(len))
      ensures var k := IndexOf(old(contents), id);
              r == U16(if k < |old(reports)| then k else |old(reports)| + 1)
    {
      var known := Insert(id, data, len);
      if known.Some? { return known.value; }
      CountReport();
      r := reportCount;
    }

    method CountReport()
      requires Chained() && reports != [] && reportCount == U16(|reports| - 1)
      modifies this`reportCount
      ensures ValidReports()
    {
      U16Sum(|reports| - 1, 1);
      reportCount := U16(reportCount + 1);
    }

    method Insert(id: u16, data: Var, len: int) returns (known: Option<u16>)
      requires Chained()
      modifies this`rootReport, this`reports, this`contents, this`repr, repr`next
      ensures Chained() && fresh(repr - old(repr))
      ensures contents == Register(old(contents), id, data, U16(len))
      ensures var k := IndexOf(old(contents), id);
              if k < |old(reports)| then known == Some(U16(k)) && reports == old(reports)
              else known == None && |reports| == |old(reports)| + 1
    {
      if rootReport == null {
        StartList(id, data, len);
        known := None;
      } else {
        known := AppendReport(id, data, len);
      }
    }

    /** The first registration. */
    method StartList(id: u16, data: Var, len: int)
      requires Chained() && rootReport == null
      modifies this`rootReport, this`reports, this`contents, this`repr
      ensures Chained() && |reports| == 1 && fresh(repr)
      ensures old(contents) == [] && contents == Register([], id, data, U16(len))
    {
      var node := new HIDReport(id, data, U16(len), |reports|);
      rootReport := node;
      reports := [node];
      contents := [EntryOf(node)];
      repr := {node};
    }

    /** Every later registration: the position of the id if it is known already,
        and otherwise one more node. */
    method AppendReport(id: u16, data: Var, len: int) returns (known: Option<u16>)
      requires Chained() && rootReport != null
      modifies this`reports, this`contents, this`repr, repr`next
      ensures Chained() && fresh(repr - old(repr))
      ensures contents == Register(old(contents), id, data, U16(len))
      ensures var k := IndexOf(old(contents), id);
              if k < |old(reports)| then known == Some(U16(k)) && reports == old(reports)
              else known == None && |reports| == |old(reports)| + 1
    {
      var current, i, k := FindOrLast(id);
      if current.id == id {
        FoundAt(reports, contents, id, k);
        return Some(i);
      }
      var node := new HIDReport(id, data, U16(len), |reports|);
      Link(current, node);
      known := None;
    }

    /** Where a walk stopped is where the registry finds the id. */
    lemma FoundAt(list: seq<HIDReport>, entries: seq<Entry<Var>>, id: u16, k: nat)
      requires |entries| == |list| && forall i :: 0 <= i < |list| ==> entries[i] == EntryOf(list[i])
      requires k < |list| && list[k].id == id && forall j :: 0 <= j < k ==> list[j].id != id
      ensures IndexOf(entries, id) == k
    {
      assert entries[k].id == id;
      assert forall j :: 0 <= j < k ==> entries[j].id != id;
    }

    /** The walk of `SetFeature`: stop at the id, or at the last node. */
    method FindOrLast(id: u16) returns (current: HIDReport, i: u16, ghost k: nat)
      requires Chained() && rootReport != null
      ensures k < |reports| && current == reports[k] && i == U16(k)
      ensures forall j :: 0 <= j < k ==> reports[j].id != id
      ensures current.id == id || k + 1 == |reports|
    {
      current, i, k := rootReport, 0, 0;
      while current.id != id && current.next != null
        invariant k < |reports| && current == reports[k] && i == U16(k)
        invariant forall j :: 0 <= j < k ==> reports[j].id != id
        decreases |reports| - k
      {
        U16Sum(k, 1);
        current, i, k := current.next, U16(i + 1), k + 1;
      }
    }

    /** Hang a new node behind the last one. */
    method Link(last: HIDReport, node: HIDReport)
      requires Chained() && reports != [] && last == reports[|reports| - 1]
      requires node.place == |reports| && node.next == null
      modifies this`reports, this`contents, this`repr, last`next
      ensures Chained() && reports == old(reports) + [node] && repr == old(repr) + {node}
      ensures contents == old(contents) + [EntryOf(node)]
    {
      last.next := node;
      reports := reports + [node];
      contents := contents + [EntryOf(node)];
      repr := repr + {node};
    }

    // ---------------------------------------------------------------- reading and locking

    /** `LockFeature`. */
    method LockFeature(id: u16, flag: bool) returns (ok: bool)
      requires ValidReports()
      modifies this`contents, repr`lock
      ensures ValidReports() && contents == SetLock(old(contents), id, flag)
      ensures ok <==> IndexOf(old(contents), id) < |reports|
    {
      ghost var k := 0;
      var current := rootReport;
      while current != null
        invariant 0 <= k <= |reports| && current == (if k < |reports| then reports[k] else null)
        invariant forall j :: 0 <= j < k ==> reports[j].id != id
        decreases |reports| - k
      {
        if current.id == id {
          FoundAt(reports, contents, id, k);
          MarkReport(current, k, flag);
          return true;
        }
        current, k := current.next, k + 1;
      }
      NotFound(reports, contents, id);
      ok := false;
    }

    method MarkReport(node: HIDReport, ghost k: nat, flag: bool)
      requires ValidReports() && k < |reports| && node == reports[k]
      modifies this`contents, node`lock
      ensures ValidReports() && contents == old(contents)[k := old(contents)[k].(lock := flag)]
    {
      node.lock := flag;
      contents := contents[k := EntryOf(node)];
    }

    lemma NotFound(list: seq<HIDReport>, entries: seq<Entry<Var>>, id: u16)
      requires |entries| == |list| && forall i :: 0 <= i < |list| ==> entries[i] == EntryOf(list[i])
      requires forall j :: 0 <= j < |list| ==> list[j].id != id
      ensures IndexOf(entries, id) == |list|
    {}

    /** `GetFeature`. */
    method GetFeature(id: u16) returns (r: HIDReport?)
      requires ValidReports()
      ensures var g := Get(contents, reportCount, id);
              if r == null then g == None else r in reports && g == Some(EntryOf(r))
    {
      var i := 0;
      r := rootReport;
      while r != null && i < reportCount
        invariant 0 <= i <= |reports| && r == (if i < |reports| then reports[i] else null)
        invariant i <= reportCount && forall j :: 0 <= j < i ==> reports[j].id != id
        decreases |reports| - i
      {
        if r.id == id {
          FoundAt(reports, contents, id, i);
          return;
        }
        r, i := r.next, i + 1;
      }
      BeyondCount(reports, contents, id, i);
      r := null;
    }

    lemma BeyondCount(list: seq<HIDReport>, entries: seq<Entry<Var>>, id: u16, count: nat)
      requires |entries| == |list| && forall i :: 0 <= i < |list| ==> entries[i] == EntryOf(list[i])
      requires count <= |list| && forall j :: 0 <= j < count ==> list[j].id != id
      ensures IndexOf(entries, id) >= count
    {}

    /** The SET_REPORT branch of `setup`. */
    method SetReportRequest(w: SetReport) returns (ok: bool)
      requires ValidReports() && forall i :: 0 <= i < |reports| ==> reports[i].length < 0xFFFF
      modifies this`memory
      ensures |reports| < 0x1_0000 ==>
                (ok <==> Target(contents, w).Some?)
                && memory == HandleSetReport(contents, old(memory), w)
      ensures !ok ==> memory == old(memory)
    {
      if !w.interfaceOk || w.reportType != REPORT_TYPE_FEATURE { return false; }
      var current := GetFeature(w.id);
      if current == null || current.lock { return false; }
      if w.wLength != current.length + 1 || w.wLength > FEATURE_RX_MAX { return false; }
      var data := Received(w);
      if data[0] != current.id { return false; }
      memory := memory[current.data := data[1..]];
      ok := true;
    }

    // ---------------------------------------------------------------- descriptors

    /** The pointers spell out exactly `nodes`, and behind the last one comes `end`. */
    ghost predicate LinkedTo(end: HIDSubDescriptor?)
      reads this`rootNode, this`nodes, nodes`next
    {
      && rootNode == (if nodes == [] then end else nodes[0])
      && (forall i, j :: 0 <= i < j < |nodes| ==> nodes[i] != nodes[j])
      && (forall i :: 0 <= i < |nodes| ==> nodes[i].next == NodeAfter(nodes, i, end))
    }

    /** The report descriptor: the nodes' bytes one after the other. */
    ghost function Bytes(): (r: seq<byte>)
      reads this`nodes
    {
      Concat(nodes)
    }

    ghost predicate ValidNodes()
      reads this`rootNode, this`descriptorSize, this`nodes, nodes`next
    {
      LinkedTo(null) && descriptorSize == U16(|Bytes()|)
    }

    /** `AppendDescriptor`. A node that is not on the list and has none behind it becomes
        the last one; any other is what the list ends in, and if it is on the list
        already that closes a circle (`CircleNeverEnds`). */
    method AppendDescriptor(node: HIDSubDescriptor)
      requires ValidNodes()
      modifies this`rootNode, this`descriptorSize, this`nodes, nodes`next
      ensures node !in old(nodes) && old(node.next) == null ==>
                ValidNodes() && nodes == old(nodes) + [node] && Bytes() == old(Bytes()) + node.data
      ensures node in old(nodes) || old(node.next) != null ==>
                nodes == old(nodes) && LinkedTo(node) && descriptorSize == U16(|Bytes()| + |node.data|)
    {
      ghost var fits := node !in nodes && node.next == null;
      LinkNode(node);
      GrowSize(node.data, |Bytes()|);
      if fits { Adopt(node); }
    }

    method GrowSize(data: seq<byte>, ghost size: nat)
      requires descriptorSize == U16(size)
      modifies this`descriptorSize
      ensures descriptorSize == U16(size + |data|)
    {
      U16Sum(size, |data|);
      descriptorSize := U16(descriptorSize + |data|);
    }

    /** A node behind the last one belongs to the list. */
    ghost method Adopt(node: HIDSubDescriptor)
      requires LinkedTo(node) && node !in nodes && node.next == null
      requires descriptorSize == U16(|Bytes()| + |node.data|)
      modifies this`nodes
      ensures ValidNodes() && nodes == old(nodes) + [node] && Bytes() == old(Bytes()) + node.data
    {
      ConcatSnoc(nodes, node);
      nodes := nodes + [node];
    }

    /** The pointers: the last node, or the root of an empty list, points to `node`. */
    method LinkNode(node: HIDSubDescriptor)
      requires LinkedTo(null)
      modifies this`rootNode, nodes`next
      ensures LinkedTo(node) && (node !in nodes ==> node.next == old(node.next))
    {
      if rootNode == null {
        rootNode := node;
      } else {
        var last := LastNode();
        last.next := node;
      }
    }

    /** Where `k` steps along the list lead. */
    ghost function Walk(k: nat): (r: HIDSubDescriptor?)
      reads this`rootNode, this`nodes, nodes`next
    {
      if k == 0 then rootNode
      else
        var before := Walk(k - 1);
        if before == null || before !in nodes then null else before.next
    }

    /** From a closed circle no walk comes to an end. */
    lemma {:induction false} CircleNeverEnds(node: HIDSubDescriptor, k: nat)
      requires node in nodes && LinkedTo(node)
      ensures Walk(k) != null && Walk(k) in nodes
    {
      if k == 0 {
      } else {
        CircleNeverEnds(node, k - 1);
        var i :| 0 <= i < |nodes| && nodes[i] == Walk(k - 1);
        if i == |nodes| - 1 { assert Walk(k) == node; } else { assert Walk(k) == nodes[i + 1]; }
      }
    }

    method LastNode() returns (current: HIDSubDescriptor)
      requires LinkedTo(null) && rootNode != null
      ensures nodes != [] && current == nodes[|nodes| - 1]
    {
      ghost var k := 0;
      current := rootNode;
      while current.next != null
        invariant 0 <= k < |nodes| && current == nodes[k]
        decreases |nodes| - k
      {
        current, k := current.next, k + 1;
      }
    }

    /** The node walk of `getDescriptor`. `accepts` says which `USB_SendControl` calls
        succeed; a failing one ends the walk. The total is a 16-bit `int` of the board. */
    method SendDescriptor(accepts: seq<bool>) returns (total: i16, ghost sent: seq<byte>)
      requires ValidNodes() && |accepts| == |nodes|
      ensures (exists i :: 0 <= i < |accepts| && !accepts[i]) ==> total == -1
      ensures (forall i :: 0 <= i < |accepts| ==> accepts[i]) ==> sent == Bytes() && total == I16(|Bytes()|)
      ensures total == -1 <==> (exists i :: 0 <= i < |accepts| && !accepts[i]) || |Bytes()| % TWO16 == 0xFFFF
      ensures total != -1 ==> U16(total) == descriptorSize
      ensures total != -1 && |Bytes()| < 0x8000 ==> total == descriptorSize == |Bytes()|
    {
      total, sent := 0, [];
      ghost var k := 0;
      var node := rootNode;
      var left := accepts;
      while node != null
        invariant 0 <= k <= |nodes| && node == (if k < |nodes| then nodes[k] else null)
        invariant left == accepts[k..] && forall i :: 0 <= i < k ==> accepts[i]
        invariant sent == Concat(nodes[..k]) && total == I16(|sent|)
        decreases |nodes| - k
      {
        if !left[0] {
          assert !accepts[k];
          return -1, sent;
        }
        assert nodes[..k + 1] == nodes[..k] + [nodes[k]];
        ConcatSnoc(nodes[..k], node);
        I16Sum(|sent|, |node.data|);
        total, sent := I16(total + |node.data|), sent + node.data;
        node, left, k := node.next, left[1..], k + 1;
      }
      assert nodes[..k] == nodes;
      WrappedTotal(|sent|);
    }

    lemma WrappedTotal(n: nat)
      ensures I16(n) == -1 <==> n % TWO16 == 0xFFFF
      ensures U16(I16(n)) == U16(n) && (n < 0x8000 ==> I16(n) == n)
    {}
  }
}
