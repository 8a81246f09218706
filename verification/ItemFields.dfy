/** What the items of a report descriptor declare (sections 6.2.2.4 to 6.2.2.8 of the USB
    HID Device Class Definition 1.11): input and feature fields with their report ids,
    usages and sizes, read item by item, line by line and part by part. */
module ItemFields {
  import opened Ascii
  import opened Words
  import opened Descriptor

  // ---------------------------------------------------------------- reading items

  datatype Kind = Input | Feature

  /** One field: its report, its usage, the usage of the collection around it, and how
      many bits it has. */
  datatype Field = Field(kind: Kind, id: nat, page: nat, usage: nat, inside: nat, bits: nat)

  /** The item state: usage page, report size, report count, report id, the usage that
      was named last, and the usages of the open collections. */
  datatype Globals = Globals(page: nat, size: nat, count: nat, id: nat, usage: nat, stack: seq<nat>)

  /** The little-endian data of an item. */
  function DataOf(data: seq<byte>): (n: nat) {
    if data == [] then 0
    else
      var low: nat := data[0];
      low + 0x100 * DataOf(data[1..])
  }

  function Innermost(g: Globals): (r: nat) { if g.stack == [] then 0 else g.stack[|g.stack| - 1] }

  function Apply(g: Globals, i: Item): (r: Globals) {
    match i.prefix / 4
    case 0x01 => g.(page := DataOf(i.data))
    case 0x02 => g.(usage := DataOf(i.data))
    case 0x1D => g.(size := DataOf(i.data))
    case 0x25 => g.(count := DataOf(i.data))
    case 0x21 => g.(id := DataOf(i.data))
    case 0x20 => g.(usage := 0)
    case 0x2C => g.(usage := 0)
    case 0x28 => g.(usage := 0, stack := g.stack + [g.usage])
    case 0x30 => g.(usage := 0, stack := if g.stack == [] then [] else g.stack[..|g.stack| - 1])
    case _ => g
  }

  function Declared(g: Globals, i: Item): (r: seq<Field>) {
    match i.prefix / 4
    case 0x20 => [Field(Input, g.id, g.page, g.usage, Innermost(g), g.size * g.count)]
    case 0x2C => [Field(Feature, g.id, g.page, g.usage, Innermost(g), g.size * g.count)]
    case _ => []
  }

  function StateOf(items: seq<Item>, g: Globals): (r: Globals) {
    if items == [] then g else Apply(StateOf(items[..|items| - 1], g), items[|items| - 1])
  }

  function FieldsOf(items: seq<Item>, g: Globals): (r: seq<Field>) {
    if items == [] then []
    else
      var init, last := items[..|items| - 1], items[|items| - 1];
      FieldsOf(init, g) + Declared(StateOf(init, g), last)
  }

  /** The items lead from one state to another and declare these fields. */
  ghost predicate Declares(items: seq<Item>, g: Globals, h: Globals, fields: seq<Field>) {
    StateOf(items, g) == h && FieldsOf(items, g) == fields
  }

  lemma DeclaresNext(items: seq<Item>, i: Item, g: Globals)
    ensures StateOf(items + [i], g) == Apply(StateOf(items, g), i)
    ensures FieldsOf(items + [i], g) == FieldsOf(items, g) + Declared(StateOf(items, g), i)
  {
    assert (items + [i])[..|items|] == items;
  }

  lemma {:induction false} StateAppend(a: seq<Item>, b: seq<Item>, g: Globals)
    ensures StateOf(a + b, g) == StateOf(b, StateOf(a, g))
    decreases |b|
  {
    if b == [] {
      assert a + b == a;
    } else {
      StateAppend(a, b[..|b| - 1], g);
      assert (a + b)[..|a + b| - 1] == a + b[..|b| - 1];
    }
  }

  lemma {:induction false} FieldsAppend(a: seq<Item>, b: seq<Item>, g: Globals)
    ensures FieldsOf(a + b, g) == FieldsOf(a, g) + FieldsOf(b, StateOf(a, g))
    decreases |b|
  {
    if b == [] {
      NothingAfter(a);
      NothingAfter(FieldsOf(a, g));
    } else {
      var init := b[..|b| - 1];
      FieldsAppend(a, init, g);
      StateAppend(a, init, g);
      assert (a + b)[..|a + b| - 1] == a + init;
      Assoc(FieldsOf(a, g), FieldsOf(init, StateOf(a, g)), Declared(StateOf(init, StateOf(a, g)), b[|b| - 1]));
    }
  }

  lemma DeclaresAppend(a: seq<Item>, b: seq<Item>, g: Globals, h: Globals, k: Globals, fa: seq<Field>, fb: seq<Field>)
    requires Declares(a, g, h, fa) && Declares(b, h, k, fb)
    ensures Declares(a + b, g, k, fa + fb)
  {
    StateAppend(a, b, g);
    FieldsAppend(a, b, g);
  }

  // ---------------------------------------------------------------- lines and parts

  function LineItem(line: seq<byte>): (r: Item)
    requires line != []
  {
    Item(line[0], line[1..])
  }

  function LineItems(lines: seq<seq<byte>>): (r: seq<Item>)
    requires PlainLines(lines)
    ensures |r| == |lines| && forall k :: 0 <= k < |r| ==> r[k] == LineItem(lines[k])
  {
    seq(|lines|, k requires 0 <= k < |lines| => LineItem(lines[k]))
  }

  function PartItems(p: Part): (r: seq<Item>)
    requires p.Flat? ==> PlainLines(p.lines)
  {
    match p
    case Flat(lines) => LineItems(lines)
    case Open(kind) => [Item(0xA1, [kind])]
    case Close => [Item(0xC0, [])]
  }

  function Items(parts: seq<Part>): (r: seq<Item>)
    requires PlainParts(parts)
  {
    if parts == [] then []
    else
      var init := parts[..|parts| - 1];
      Items(init) + PartItems(parts[|parts| - 1])
  }

  lemma ItemsNext(parts: seq<Part>, p: Part)
    requires PlainParts(parts) && (p.Flat? ==> PlainLines(p.lines))
    ensures PlainParts(parts + [p]) && Items(parts + [p]) == Items(parts) + PartItems(p)
  {
    assert (parts + [p])[..|parts|] == parts;
  }

  lemma {:induction false} LinesParse(lines: seq<seq<byte>>)
    requires PlainLines(lines)
    ensures Parse(Flatten(lines)) == Some(LineItems(lines))
  {
    if lines == [] {
      assert LineItems(lines) == [];
    } else {
      var rest := lines[1..];
      LinesParse(rest);
      OneItem(lines[0]);
      ParseAppend(lines[0], Flatten(rest));
      assert LineItems(lines) == [LineItem(lines[0])] + LineItems(rest);
    }
  }

  lemma PartParse(p: Part)
    requires p.Flat? ==> PlainLines(p.lines)
    ensures Parse(PartBytes(p)) == Some(PartItems(p))
  {
    match p
    case Flat(lines) => LinesParse(lines);
    case Open(kind) =>
      OneItem([0xA1, kind]);
      assert [0xA1, kind][1..] == [kind];
    case Close => EndParses();
  }

  lemma BytesNext(parts: seq<Part>, p: Part)
    ensures Bytes(parts + [p]) == Bytes(parts) + PartBytes(p)
  {
    BytesAppend(parts, [p]);
    assert [p][1..] == [];
    assert PartBytes(p) + [] == PartBytes(p);
  }

  /** The bytes of parts parse to their items. */
  lemma {:induction false} PartsParse(parts: seq<Part>)
    requires PlainParts(parts)
    ensures Parse(Bytes(parts)) == Some(Items(parts))
  {
    if parts == [] {
    } else {
      var init, p := parts[..|parts| - 1], parts[|parts| - 1];
      assert parts == init + [p];
      PartsParse(init);
      PartParse(p);
      BytesNext(init, p);
      ParseAppend(Bytes(init), PartBytes(p));
    }
  }

  // ---------------------------------------------------------------- groups of lines

  predicate SameLines(a: seq<seq<byte>>, b: seq<seq<byte>>) { a == b }

  /** The lines lead from one state to another and declare these fields. */
  ghost predicate Walks(lines: seq<seq<byte>>, g: Globals, h: Globals, fields: seq<Field>) {
    forall ls :: SameLines(ls, lines) ==> PlainLines(ls) && Declares(LineItems(ls), g, h, fields)
  }

  lemma WalksDeclares(lines: seq<seq<byte>>, g: Globals, h: Globals, fields: seq<Field>)
    requires Walks(lines, g, h, fields)
    ensures PlainLines(lines) && Declares(LineItems(lines), g, h, fields)
  {
    assert SameLines(lines, lines);
  }

  lemma WalksNothing(g: Globals)
    ensures Walks([], g, g, [])
  {
    assert LineItems([]) == [];
  }

  lemma LineItemsAppend(a: seq<seq<byte>>, b: seq<seq<byte>>)
    requires PlainLines(a) && PlainLines(b)
    ensures PlainLines(a + b) && LineItems(a + b) == LineItems(a) + LineItems(b)
  {}

  lemma WalksAppend(a: seq<seq<byte>>, b: seq<seq<byte>>, g: Globals, h: Globals, k: Globals, fa: seq<Field>,
        fb: seq<Field>)
    requires Walks(a, g, h, fa) && Walks(b, h, k, fb)
    ensures Walks(a + b, g, k, fa + fb)
  {
    WalksDeclares(a, g, h, fa);
    WalksDeclares(b, h, k, fb);
    LineItemsAppend(a, b);
    DeclaresAppend(LineItems(a), LineItems(b), g, h, k, fa, fb);
  }

  lemma OneLine(line: seq<byte>, g: Globals)
    requires PlainLine(line)
    ensures Walks([line], g, Apply(g, LineItem(line)), Declared(g, LineItem(line)))
  {
    var i := LineItem(line);
    OneItemDeclares(i, g);
    forall ls | SameLines(ls, [line]) ensures PlainLines(ls) && LineItems(ls) == [i] {}
  }

  lemma OneItemDeclares(i: Item, g: Globals)
    ensures Declares([i], g, Apply(g, i), Declared(g, i))
  {
    DeclaresNext([], i, g);
    NothingBefore(Declared(g, i));
    NothingBefore([i]);
  }

  /** A line of two bytes. */
  lemma TwoBytes(line: seq<byte>, p: byte, v: byte)
    requires line == [p, v]
    ensures LineItem(line) == Item(p, [v]) && DataOf([v]) == v
  {
    assert line[1..] == [v];
    assert [v][1..] == [];
    assert DataOf([]) == 0;
  }

  lemma PageLine(v: byte, g: Globals)
    ensures Walks([[0x05, v]], g, g.(page := v), [])
  {
    TwoBytes([0x05, v], 0x05, v);
    OneLine([0x05, v], g);
  }

  lemma UsageLine(v: byte, g: Globals)
    ensures Walks([[0x09, v]], g, g.(usage := v), [])
  {
    TwoBytes([0x09, v], 0x09, v);
    OneLine([0x09, v], g);
  }

  lemma SizeLine(v: byte, g: Globals)
    ensures Walks([[0x75, v]], g, g.(size := v), [])
  {
    TwoBytes([0x75, v], 0x75, v);
    OneLine([0x75, v], g);
  }

  lemma CountLine(v: byte, g: Globals)
    ensures Walks([[0x95, v]], g, g.(count := v), [])
  {
    TwoBytes([0x95, v], 0x95, v);
    OneLine([0x95, v], g);
  }

  lemma IdLine(v: byte, g: Globals)
    ensures Walks([[0x85, v]], g, g.(id := v), [])
  {
    TwoBytes([0x85, v], 0x85, v);
    OneLine([0x85, v], g);
  }

  lemma InputLine(flags: byte, g: Globals)
    ensures Walks([[0x81, flags]], g, g.(usage := 0), [FieldHere(Input, g, g.usage)])
  {
    TwoBytes([0x81, flags], 0x81, flags);
    OneLine([0x81, flags], g);
  }

  lemma FeatureLine(flags: byte, g: Globals)
    ensures Walks([[0xB1, flags]], g, g.(usage := 0), [FieldHere(Feature, g, g.usage)])
  {
    TwoBytes([0xB1, flags], 0xB1, flags);
    OneLine([0xB1, flags], g);
  }

  function FieldHere(kind: Kind, g: Globals, u: nat): (f: Field) {
    Field(kind, g.id, g.page, u, Innermost(g), g.size * g.count)
  }

  /** A line that changes nothing that is read here: bounds, units, string indices. */
  lemma OtherLine(line: seq<byte>, g: Globals)
    requires PlainLine(line) && line[0] / 4 !in {0x01, 0x02, 0x1D, 0x25, 0x21, 0x20, 0x2C, 0x28, 0x30}
    ensures Walks([line], g, g, [])
  {
    OneLine(line, g);
  }

  /** A usage and the feature it names. */
  function Only(u: byte, flags: byte): (r: seq<seq<byte>>) { [[0x09, u]] + [[0xB1, flags]] }

  lemma OnlyWalks(u: byte, flags: byte, g: Globals)
    ensures Walks(Only(u, flags), g, g.(usage := 0), [FieldHere(Feature, g, u)])
  {
    var h := g.(usage := u);
    UsageLine(u, g);
    FeatureLine(flags, h);
    WalksAppend([[0x09, u]], [[0xB1, flags]], g, h, g.(usage := 0), [], [FieldHere(Feature, g, u)]);
    NothingBefore([FieldHere(Feature, g, u)]);
  }

  /** The same with a string index in between. */
  function Named(u: byte, index: byte, flags: byte): (r: seq<seq<byte>>) {
    [[0x09, u]] + [[0x79, index]] + [[0xB1, flags]]
  }

  lemma NamedWalks(u: byte, index: byte, flags: byte, g: Globals)
    ensures Walks(Named(u, index, flags), g, g.(usage := 0), [FieldHere(Feature, g, u)])
  {
    var h := g.(usage := u);
    UsageLine(u, g);
    OtherLine([0x79, index], h);
    FeatureLine(flags, h);
    WalksAppend([[0x09, u]], [[0x79, index]], g, h, h, [], []);
    NothingBefore<Field>([]);
    WalksAppend([[0x09, u]] + [[0x79, index]], [[0xB1, flags]], g, h, g.(usage := 0), [], [FieldHere(Feature, g, u)]);
    NothingBefore([FieldHere(Feature, g, u)]);
  }

  /** An input and a feature of the same usage. */
  function Both(u: byte, input: byte, feature: byte): (r: seq<seq<byte>>) {
    [[0x09, u]] + [[0x81, input]] + Only(u, feature)
  }

  lemma BothWalks(u: byte, input: byte, feature: byte, g: Globals)
    ensures Walks(Both(u, input, feature), g, g.(usage := 0), [FieldHere(Input, g, u)] + [FieldHere(Feature, g, u)])
  {
    var h, k := g.(usage := u), g.(usage := 0);
    UsageLine(u, g);
    InputLine(input, h);
    OnlyWalks(u, feature, k);
    WalksAppend([[0x09, u]], [[0x81, input]], g, h, k, [], [FieldHere(Input, g, u)]);
    NothingBefore([FieldHere(Input, g, u)]);
    WalksAppend([[0x09, u]] + [[0x81, input]], Only(u, feature), g, k, k, [FieldHere(Input, g, u)],
        [FieldHere(Feature, g, u)]);
  }

  // ---------------------------------------------------------------- one more group

  lemma NothingDeclared(fields: seq<Field>)
    ensures fields + [] == fields
  {}

  lemma AddPage(lines: seq<seq<byte>>, g: Globals, now: Globals, fields: seq<Field>, v: byte)
    returns (all: seq<seq<byte>>, next: Globals, more: seq<Field>)
    requires Walks(lines, g, now, fields)
    ensures all == lines + [[0x05, v]] && next == now.(page := v) && more == fields && Walks(all, g, next, more)
  {
    all, next, more := lines + [[0x05, v]], now.(page := v), fields;
    PageLine(v, now);
    WalksAppend(lines, [[0x05, v]], g, now, next, fields, []);
    NothingDeclared(fields);
  }

  lemma AddUsage(lines: seq<seq<byte>>, g: Globals, now: Globals, fields: seq<Field>, v: byte)
    returns (all: seq<seq<byte>>, next: Globals, more: seq<Field>)
    requires Walks(lines, g, now, fields)
    ensures all == lines + [[0x09, v]] && next == now.(usage := v) && more == fields && Walks(all, g, next, more)
  {
    all, next, more := lines + [[0x09, v]], now.(usage := v), fields;
    UsageLine(v, now);
    WalksAppend(lines, [[0x09, v]], g, now, next, fields, []);
    NothingDeclared(fields);
  }

  lemma AddSize(lines: seq<seq<byte>>, g: Globals, now: Globals, fields: seq<Field>, v: byte)
    returns (all: seq<seq<byte>>, next: Globals, more: seq<Field>)
    requires Walks(lines, g, now, fields)
    ensures all == lines + [[0x75, v]] && next == now.(size := v) && more == fields && Walks(all, g, next, more)
  {
    all, next, more := lines + [[0x75, v]], now.(size := v), fields;
    SizeLine(v, now);
    WalksAppend(lines, [[0x75, v]], g, now, next, fields, []);
    NothingDeclared(fields);
  }

  lemma AddCount(lines: seq<seq<byte>>, g: Globals, now: Globals, fields: seq<Field>, v: byte)
    returns (all: seq<seq<byte>>, next: Globals, more: seq<Field>)
    requires Walks(lines, g, now, fields)
    ensures all == lines + [[0x95, v]] && next == now.(count := v) && more == fields && Walks(all, g, next, more)
  {
    all, next, more := lines + [[0x95, v]], now.(count := v), fields;
    CountLine(v, now);
    WalksAppend(lines, [[0x95, v]], g, now, next, fields, []);
    NothingDeclared(fields);
  }

  lemma AddId(lines: seq<seq<byte>>, g: Globals, now: Globals, fields: seq<Field>, v: byte)
    returns (all: seq<seq<byte>>, next: Globals, more: seq<Field>)
    requires Walks(lines, g, now, fields)
    ensures all == lines + [[0x85, v]] && next == now.(id := v) && more == fields && Walks(all, g, next, more)
  {
    all, next, more := lines + [[0x85, v]], now.(id := v), fields;
    IdLine(v, now);
    WalksAppend(lines, [[0x85, v]], g, now, next, fields, []);
    NothingDeclared(fields);
  }

  lemma AddInput(lines: seq<seq<byte>>, g: Globals, now: Globals, fields: seq<Field>, flags: byte)
    returns (all: seq<seq<byte>>, next: Globals, more: seq<Field>)
    requires Walks(lines, g, now, fields)
    ensures all == lines + [[0x81, flags]] && next == now.(usage := 0) && more == fields
            + [FieldHere(Input, now, now.usage)] && Walks(all, g, next, more)
  {
    all, next, more := lines + [[0x81, flags]], now.(usage := 0), fields + [FieldHere(Input, now, now.usage)];
    InputLine(flags, now);
    WalksAppend(lines, [[0x81, flags]], g, now, next, fields, [FieldHere(Input, now, now.usage)]);
  }

  lemma AddFeature(lines: seq<seq<byte>>, g: Globals, now: Globals, fields: seq<Field>, flags: byte)
    returns (all: seq<seq<byte>>, next: Globals, more: seq<Field>)
    requires Walks(lines, g, now, fields)
    ensures all == lines + [[0xB1, flags]] && next == now.(usage := 0) && more == fields
            + [FieldHere(Feature, now, now.usage)] && Walks(all, g, next, more)
  {
    all, next, more := lines + [[0xB1, flags]], now.(usage := 0), fields + [FieldHere(Feature, now, now.usage)];
    FeatureLine(flags, now);
    WalksAppend(lines, [[0xB1, flags]], g, now, next, fields, [FieldHere(Feature, now, now.usage)]);
  }

  lemma AddOther(lines: seq<seq<byte>>, g: Globals, now: Globals, fields: seq<Field>, line: seq<byte>)
    returns (all: seq<seq<byte>>, next: Globals, more: seq<Field>)
    requires Walks(lines, g, now, fields) && PlainLine(line)
    requires line[0] / 4 !in {0x01, 0x02, 0x1D, 0x25, 0x21, 0x20, 0x2C, 0x28, 0x30}
    ensures all == lines + [line] && next == now && more == fields && Walks(all, g, next, more)
  {
    all, next, more := lines + [line], now, fields;
    OtherLine(line, now);
    WalksAppend(lines, [line], g, now, next, fields, []);
    NothingDeclared(fields);
  }

  lemma AddOnly(lines: seq<seq<byte>>, g: Globals, now: Globals, fields: seq<Field>, u: byte, flags: byte)
    returns (all: seq<seq<byte>>, next: Globals, more: seq<Field>)
    requires Walks(lines, g, now, fields)
    ensures all == lines + Only(u, flags) && next == now.(usage := 0) && more == fields
            + [FieldHere(Feature, now, u)] && Walks(all, g, next, more)
  {
    all, next, more := lines + Only(u, flags), now.(usage := 0), fields + [FieldHere(Feature, now, u)];
    OnlyWalks(u, flags, now);
    WalksAppend(lines, Only(u, flags), g, now, next, fields, [FieldHere(Feature, now, u)]);
  }

  lemma AddNamed(lines: seq<seq<byte>>, g: Globals, now: Globals, fields: seq<Field>, u: byte, index: byte, flags: byte)
    returns (all: seq<seq<byte>>, next: Globals, more: seq<Field>)
    requires Walks(lines, g, now, fields)
    ensures all == lines + Named(u, index, flags) && next == now.(usage := 0) && more == fields
            + [FieldHere(Feature, now, u)] && Walks(all, g, next, more)
  {
    all, next, more := lines + Named(u, index, flags), now.(usage := 0), fields + [FieldHere(Feature, now, u)];
    NamedWalks(u, index, flags, now);
    WalksAppend(lines, Named(u, index, flags), g, now, next, fields, [FieldHere(Feature, now, u)]);
  }

  lemma AddBoth(lines: seq<seq<byte>>, g: Globals, now: Globals, fields: seq<Field>, u: byte, input: byte,
        feature: byte)
    returns (all: seq<seq<byte>>, next: Globals, more: seq<Field>)
    requires Walks(lines, g, now, fields)
    ensures all == lines + Both(u, input, feature) && next == now.(usage := 0) && more == fields
            + ([FieldHere(Input, now, u)] + [FieldHere(Feature, now, u)]) && Walks(all, g, next, more)
  {
    all, next, more := lines + Both(u, input, feature), now.(usage := 0), fields
        + ([FieldHere(Input, now, u)] + [FieldHere(Feature, now, u)]);
    BothWalks(u, input, feature, now);
    WalksAppend(lines, Both(u, input, feature), g, now, next, fields,
        ([FieldHere(Input, now, u)] + [FieldHere(Feature, now, u)]));
  }

  // ---------------------------------------------------------------- parts

  predicate SameParts(a: seq<Part>, b: seq<Part>) { a == b }

  /** Parts lead from one state to another and declare these fields. */
  ghost predicate Reads(parts: seq<Part>, g: Globals, h: Globals, fields: seq<Field>) {
    forall ps :: SameParts(ps, parts) ==> PlainParts(ps) && Declares(Items(ps), g, h, fields)
  }

  lemma ReadsDeclares(parts: seq<Part>, g: Globals, h: Globals, fields: seq<Field>)
    requires Reads(parts, g, h, fields)
    ensures PlainParts(parts) && Declares(Items(parts), g, h, fields)
  {
    assert SameParts(parts, parts);
  }

  /** Inside a new collection, and behind its end. */
  function Entered(g: Globals): (r: Globals) { g.(usage := 0, stack := g.stack + [g.usage]) }

  function Left(g: Globals): (r: Globals)
    requires g.stack != []
  {
    g.(usage := 0, stack := g.stack[..|g.stack| - 1])
  }

  lemma {:induction false} ItemsAppend(a: seq<Part>, b: seq<Part>)
    requires PlainParts(a) && PlainParts(b)
    ensures PlainParts(a + b) && Items(a + b) == Items(a) + Items(b)
    decreases |b|
  {
    if b == [] {
      assert a + b == a;
      NothingAfter(Items(a));
    } else {
      var init, p := b[..|b| - 1], b[|b| - 1];
      assert b == init + [p];
      ItemsAppend(a, init);
      Assoc(a, init, [p]);
      ItemsNext(a + init, p);
      Assoc(Items(a), Items(init), PartItems(p));
    }
  }

  lemma NothingAfter<T>(s: seq<T>)
    ensures s + [] == s
  {}

  lemma ReadsAppend(a: seq<Part>, b: seq<Part>, g: Globals, h: Globals, k: Globals, fa: seq<Field>, fb: seq<Field>)
    requires Reads(a, g, h, fa) && Reads(b, h, k, fb)
    ensures Reads(a + b, g, k, fa + fb)
  {
    ReadsDeclares(a, g, h, fa);
    ReadsDeclares(b, h, k, fb);
    ItemsAppend(a, b);
    DeclaresAppend(Items(a), Items(b), g, h, k, fa, fb);
  }

  lemma OnePart(p: Part)
    requires p.Flat? ==> PlainLines(p.lines)
    ensures PlainParts([p]) && Items([p]) == PartItems(p)
  {
    ItemsNext([], p);
    NothingBefore([p]);
    NothingBefore(PartItems(p));
  }

  lemma LinesRead(lines: seq<seq<byte>>, g: Globals, h: Globals, fields: seq<Field>)
    requires Walks(lines, g, h, fields)
    ensures Reads([Flat(lines)], g, h, fields)
  {
    WalksDeclares(lines, g, h, fields);
    OnePart(Flat(lines));
  }

  lemma OpeningReads(kind: byte, g: Globals)
    ensures Reads([Open(kind)], g, Entered(g), [])
  {
    OnePart(Open(kind));
    DeclaresNext([], Item(0xA1, [kind]), g);
    NothingBefore([Item(0xA1, [kind])]);
  }

  lemma ClosingReads(g: Globals)
    requires g.stack != []
    ensures Reads([Close], g, Left(g), [])
  {
    OnePart(Close);
    DeclaresNext([], Item(0xC0, []), g);
    NothingBefore([Item(0xC0, [])]);
  }

  lemma AddLines(parts: seq<Part>, lines: seq<seq<byte>>, g: Globals, h: Globals, k: Globals, fields: seq<Field>,
        more: seq<Field>)
    requires Reads(parts, g, h, fields) && Walks(lines, h, k, more)
    ensures Reads(parts + [Flat(lines)], g, k, fields + more)
  {
    LinesRead(lines, h, k, more);
    ReadsAppend(parts, [Flat(lines)], g, h, k, fields, more);
  }

  lemma AddOpening(parts: seq<Part>, kind: byte, g: Globals, h: Globals, fields: seq<Field>)
    requires Reads(parts, g, h, fields)
    ensures Reads(parts + [Open(kind)], g, Entered(h), fields)
  {
    OpeningReads(kind, h);
    ReadsAppend(parts, [Open(kind)], g, h, Entered(h), fields, []);
    NothingAfter(fields);
  }

  lemma AddClosing(parts: seq<Part>, g: Globals, h: Globals, fields: seq<Field>)
    requires Reads(parts, g, h, fields) && h.stack != []
    ensures Reads(parts + [Close], g, Left(h), fields)
  {
    ClosingReads(h);
    ReadsAppend(parts, [Close], g, h, Left(h), fields, []);
    NothingAfter(fields);
  }
}
