/** HID report descriptors as sequences of short items (section 6.2.2.2 of the USB
    HID Device Class Definition 1.11), and when an extension fragment may be put
    between the base and the end of the power device's descriptor. */
module Descriptor {
  import opened Ascii
  import opened Words

  datatype Item = Item(prefix: byte, data: seq<byte>)

  const LONG_ITEM: byte := 0xFE

  /** The two low bits of a prefix: 0, 1, 2 or 4 data bytes. */
  function DataSize(prefix: byte): (n: nat)
    ensures n <= 4
  {
    var size := prefix % 4;
    if size == 3 then 4 else size
  }

  /** Main items Collection and End Collection, whatever their data size. */
  predicate Opens(i: Item) { i.prefix / 4 == 0x28 }

  predicate Closes(i: Item) { i.prefix / 4 == 0x30 }

  /** Cut a descriptor into short items; none if it ends inside one. */
  function Parse(b: seq<byte>): (r: Option<seq<Item>>)
    decreases |b|
  {
    if b == [] then Some([])
    else
      var n := 1 + DataSize(b[0]);
      if b[0] == LONG_ITEM || n > |b| then None
      else
        match Parse(b[n..])
        case None => None
        case Some(rest) => Some([Item(b[0], b[1..n])] + rest)
  }

  /** Nesting depth after the items, starting from `depth`; none if a collection
      is closed that was never opened. */
  function Depth(items: seq<Item>, depth: nat): (r: Option<nat>) {
    if items == [] then Some(depth)
    else if Opens(items[0]) then Depth(items[1..], depth + 1)
    else if !Closes(items[0]) then Depth(items[1..], depth)
    else if depth == 0 then None
    else Depth(items[1..], depth - 1)
  }

  predicate Balanced(items: seq<Item>) { Depth(items, 0) == Some(0) }

  /** The collections opened at depth zero. */
  function TopLevel(items: seq<Item>, depth: nat): (r: seq<Item>) {
    if items == [] then []
    else if Opens(items[0]) then (if depth == 0 then [items[0]] else []) + TopLevel(items[1..], depth + 1)
    else if !Closes(items[0]) then TopLevel(items[1..], depth)
    else if depth == 0 then TopLevel(items[1..], 0)
    else TopLevel(items[1..], depth - 1)
  }

  // ---------------------------------------------------------------- appending

  lemma SliceAppend(a: seq<byte>, b: seq<byte>, n: nat)
    requires 1 <= n <= |a|
    ensures (a + b)[0] == a[0] && (a + b)[n..] == a[n..] + b && (a + b)[1..n] == a[1..n]
  {}

  /** The first item of a text that holds it whole. */
  lemma ParseHead(b: seq<byte>, n: nat)
    requires b != [] && n == 1 + DataSize(b[0]) && b[0] != LONG_ITEM && n <= |b|
    ensures Parse(b) == if Parse(b[n..]).None? then None
                        else Some([Item(b[0], b[1..n])] + Parse(b[n..]).value)
  {}

  lemma {:induction false} ParseAppend(a: seq<byte>, b: seq<byte>)
    requires Parse(a).Some?
    ensures Parse(a + b) == if Parse(b).None? then None else Some(Parse(a).value + Parse(b).value)
    decreases |a|
  {
    if a == [] {
      NothingBefore(b);
      if Parse(b).Some? { NothingBefore(Parse(b).value); }
    } else {
      var n := 1 + DataSize(a[0]);
      ParseAppend(a[n..], b);
      SliceAppend(a, b, n);
      ParseHead(a + b, n);
      ParseHead(a, n);
      if Parse(b).Some? {
        Assoc([Item(a[0], a[1..n])], Parse(a[n..]).value, Parse(b).value);
      }
    }
  }

  lemma {:induction false} DepthAppend(a: seq<Item>, b: seq<Item>, depth: nat)
    ensures Depth(a + b, depth) == if Depth(a, depth).None? then None else Depth(b, Depth(a, depth).value)
  {
    if a == [] {
      assert a + b == b;
    } else {
      assert (a + b)[0] == a[0] && (a + b)[1..] == a[1..] + b;
      if Opens(a[0]) {
        DepthAppend(a[1..], b, depth + 1);
      } else if !Closes(a[0]) {
        DepthAppend(a[1..], b, depth);
      } else if depth > 0 {
        DepthAppend(a[1..], b, depth - 1);
      }
    }
  }

  lemma {:induction false} TopLevelAppend(a: seq<Item>, b: seq<Item>, depth: nat)
    requires Depth(a, depth).Some?
    ensures TopLevel(a + b, depth) == TopLevel(a, depth) + TopLevel(b, Depth(a, depth).value)
  {
    if a == [] {
      assert a + b == b;
    } else {
      assert (a + b)[0] == a[0] && (a + b)[1..] == a[1..] + b;
      if Opens(a[0]) {
        TopLevelAppend(a[1..], b, depth + 1);
      } else if !Closes(a[0]) {
        TopLevelAppend(a[1..], b, depth);
      } else if depth > 0 {
        TopLevelAppend(a[1..], b, depth - 1);
      }
    }
  }

  // ---------------------------------------------------------------- one level down

  /** Items that never close more than they opened behave alike one level further
      down, and then open nothing at the top. */
  lemma {:induction false} DepthShift(items: seq<Item>, depth: nat)
    requires Depth(items, depth).Some?
    ensures Depth(items, depth + 1) == Some(Depth(items, depth).value + 1)
    ensures TopLevel(items, depth + 1) == []
  {
    if items == [] {
    } else {
      if Opens(items[0]) {
        DepthShift(items[1..], depth + 1);
      } else if !Closes(items[0]) {
        DepthShift(items[1..], depth);
      } else {
        DepthShift(items[1..], depth - 1);
      }
    }
  }

  /** Getting off the ground takes a top-level collection. */
  lemma {:induction false} RisingOpens(items: seq<Item>)
    requires Depth(items, 0).Some? && Depth(items, 0).value > 0
    ensures TopLevel(items, 0) != []
  {
    if !Opens(items[0]) { RisingOpens(items[1..]); }
  }

  /** The converse of `DepthShift` for items that end above the ground. */
  lemma {:induction false} DepthUnshift(items: seq<Item>, depth: nat)
    requires Depth(items, depth + 1).Some? && Depth(items, depth + 1).value > 0
    requires TopLevel(items, depth + 1) == []
    ensures Depth(items, depth) == Some(Depth(items, depth + 1).value - 1)
  {
    if items == [] {
    } else {
      if Opens(items[0]) {
        DepthUnshift(items[1..], depth + 1);
      } else if !Closes(items[0]) {
        DepthUnshift(items[1..], depth);
      } else if depth > 0 {
        DepthUnshift(items[1..], depth - 1);
      } else {
        RisingOpens(items[1..]);
      }
    }
  }

  // ---------------------------------------------------------------- composition

  const APPLICATION := Item(0xA1, [0x01])

  /** A descriptor that parses fully and is one application collection. */
  predicate OneApplication(b: seq<byte>) {
    Parse(b).Some? && Balanced(Parse(b).value) && TopLevel(Parse(b).value, 0) == [APPLICATION]
  }

  /** What the base descriptor is: it opens the application and leaves only that
      collection open. */
  predicate IsBase(b: seq<byte>) {
    Parse(b).Some? && Depth(Parse(b).value, 0) == Some(1) && TopLevel(Parse(b).value, 0) == [APPLICATION]
  }

  predicate IsFragment(b: seq<byte>) { Parse(b).Some? && Balanced(Parse(b).value) }

  const END: seq<byte> := [0xC0]

  lemma EndParses()
    ensures Parse(END) == Some([Item(0xC0, [])])
  {
    ParseHead(END, 1);
    assert END[1..] == [] && END[1..1] == [] && Parse([]) == Some([]);
    var i := Item(0xC0, END[1..1]);
    assert [i] + [] == [i];
  }

  lemma ClosesOne(depth: nat)
    ensures Depth([Item(0xC0, [])], depth) == if depth == 0 then None else Some(depth - 1)
    ensures TopLevel([Item(0xC0, [])], depth) == []
  {
    var one := [Item(0xC0, [])];
    assert Closes(one[0]) && !Opens(one[0]) && one[1..] == [];
    if depth > 0 {
      assert TopLevel([], depth - 1) == [];
    } else {
      assert TopLevel([], 0) == [];
    }
  }

  /** Putting a fragment of whole short items between base and end gives a fully
      parsing descriptor with one application collection exactly when the
      fragment's collections are balanced by themselves. */
  lemma ComposesExactly(base: seq<byte>, fragment: seq<byte>)
    requires IsBase(base) && Parse(fragment).Some?
    ensures OneApplication(base + fragment + END) <==> Balanced(Parse(fragment).value)
  {
    var b, f := Parse(base).value, Parse(fragment).value;
    EndParses();
    ParseAppend(base, fragment);
    ParseAppend(base + fragment, END);
    var e := [Item(0xC0, [])];
    DepthAppend(b, f, 0);
    DepthAppend(b + f, e, 0);
    Inside(b, f);
    if Depth(f, 1).Some? { ClosesOne(Depth(f, 1).value); }
  }

  /** The fragment's part of the composed descriptor. */
  lemma Inside(b: seq<Item>, f: seq<Item>)
    requires Depth(b, 0) == Some(1)
    ensures Depth(f, 1).Some? ==>
              TopLevel(b + f + [Item(0xC0, [])], 0) == TopLevel(b, 0) + TopLevel(f, 1)
    ensures Depth(f, 1) == Some(1) && TopLevel(f, 1) == [] <==> Balanced(f)
  {
    if Depth(f, 1).Some? {
      DepthAppend(b, f, 0);
      TopLevelAppend(b, f, 0);
      TopLevelAppend(b + f, [Item(0xC0, [])], 0);
      ClosesOne(Depth(f, 1).value);
    }
    if Balanced(f) { DepthShift(f, 0); }
    if Depth(f, 1) == Some(1) && TopLevel(f, 1) == [] { DepthUnshift(f, 0); }
  }

  // ---------------------------------------------------------------- building blocks

  /** Bytes that parse, take the depth from `d` to `e` and open `top` at depth zero. */
  ghost predicate Moves(b: seq<byte>, d: nat, e: nat, top: seq<Item>) {
    Parse(b).Some? && Depth(Parse(b).value, d) == Some(e) && TopLevel(Parse(b).value, d) == top
  }

  lemma MovesAppend(a: seq<byte>, b: seq<byte>, d: nat, e: nat, f: nat, top: seq<Item>, more: seq<Item>)
    requires Moves(a, d, e, top) && Moves(b, e, f, more)
    ensures Moves(a + b, d, f, top + more)
  {
    ParseAppend(a, b);
    DepthAppend(Parse(a).value, Parse(b).value, d);
    TopLevelAppend(Parse(a).value, Parse(b).value, d);
  }

  /** One whole short item that is no collection boundary. */
  predicate PlainLine(line: seq<byte>) {
    && line != [] && line[0] != LONG_ITEM && |line| == 1 + DataSize(line[0])
    && line[0] / 4 != 0x28 && line[0] / 4 != 0x30
  }

  /** Bytes that parse and leave the depth alone. */
  ghost predicate IsFlat(b: seq<byte>) { forall d: nat :: Moves(b, d, d, []) }

  lemma OneItem(line: seq<byte>)
    requires line != [] && line[0] != LONG_ITEM && |line| == 1 + DataSize(line[0])
    ensures Parse(line) == Some([Item(line[0], line[1..])])
  {
    ParseHead(line, |line|);
    assert line[|line|..] == [] && line[1..|line|] == line[1..] && Parse([]) == Some([]);
    assert [Item(line[0], line[1..])] + [] == [Item(line[0], line[1..])];
  }

  lemma SingleMoves(i: Item, d: nat)
    ensures Opens(i) ==> Depth([i], d) == Some(d + 1) && TopLevel([i], d) == if d == 0 then [i] else []
    ensures !Opens(i) && !Closes(i) ==> Depth([i], d) == Some(d) && TopLevel([i], d) == []
    ensures Closes(i) && d > 0 ==> Depth([i], d) == Some(d - 1) && TopLevel([i], d) == []
  {
    assert [i][1..] == [] && [i][0] == i;
    forall e: nat ensures Depth([], e) == Some(e) && TopLevel([], e) == [] {}
  }

  lemma LineIsFlat(line: seq<byte>)
    requires PlainLine(line)
    ensures IsFlat(line)
  {
    OneItem(line);
    forall d: nat ensures Moves(line, d, d, []) { SingleMoves(Item(line[0], line[1..]), d); }
  }

  lemma FlatAppend(a: seq<byte>, b: seq<byte>)
    requires IsFlat(a) && IsFlat(b)
    ensures IsFlat(a + b)
  {
    forall d: nat ensures Moves(a + b, d, d, []) { MovesAppend(a, b, d, d, d, [], []); }
  }

  predicate PlainLines(lines: seq<seq<byte>>) { forall i :: 0 <= i < |lines| ==> PlainLine(lines[i]) }

  lemma {:induction false} LinesAreFlat(lines: seq<seq<byte>>)
    requires PlainLines(lines)
    ensures IsFlat(Flatten(lines))
  {
    if lines == [] {
      assert Parse([]) == Some([]);
      forall d: nat ensures Moves([], d, d, []) { assert Depth([], d) == Some(d) && TopLevel([], d) == []; }
    } else {
      LineIsFlat(lines[0]);
      LinesAreFlat(lines[1..]);
      FlatAppend(lines[0], Flatten(lines[1..]));
    }
  }

  /** A collection of one data byte opens. */
  lemma Opening(kind: byte, d: nat)
    ensures Moves([0xA1, kind], d, d + 1, if d == 0 then [Item(0xA1, [kind])] else [])
  {
    var line: seq<byte> := [0xA1, kind];
    OneItem(line);
    assert line[1..] == [kind];
    SingleMoves(Item(0xA1, [kind]), d);
  }

  lemma Closing(d: nat)
    requires d > 0
    ensures Moves(END, d, d - 1, [])
  {
    EndParses();
    SingleMoves(Item(0xC0, []), d);
  }

  // ---------------------------------------------------------------- texts in parts

  /** A descriptor text as its author writes it: flat runs of items, and the
      collections around them. */
  datatype Part = Flat(lines: seq<seq<byte>>) | Open(kind: byte) | Close

  function PartBytes(p: Part): (r: seq<byte>) {
    match p
    case Flat(lines) => Flatten(lines)
    case Open(kind) => [0xA1, kind]
    case Close => END
  }

  function Bytes(parts: seq<Part>): (r: seq<byte>) {
    if parts == [] then [] else PartBytes(parts[0]) + Bytes(parts[1..])
  }

  function Size(parts: seq<Part>): (n: nat)
    ensures n == |Bytes(parts)|
  {
    if parts == [] then 0 else |PartBytes(parts[0])| + Size(parts[1..])
  }

  /** How one part moves the level, and what it shows. */
  function PartLevel(p: Part, d: nat): (r: Option<nat>) {
    match p
    case Flat(_) => Some(d)
    case Open(_) => Some(d + 1)
    case Close => if d == 0 then None else Some(d - 1)
  }

  function PartTop(p: Part, d: nat): (r: seq<Item>) {
    if p.Open? && d == 0 then [Item(0xA1, [p.kind])] else []
  }

  /** The depth the collections lead to, and those opened at depth zero. */
  function Level(parts: seq<Part>, d: nat): (r: Option<nat>) {
    if parts == [] then Some(d)
    else if PartLevel(parts[0], d).None? then None
    else Level(parts[1..], PartLevel(parts[0], d).value)
  }

  function Tops(parts: seq<Part>, d: nat): (r: seq<Item>) {
    if parts == [] || PartLevel(parts[0], d).None? then []
    else PartTop(parts[0], d) + Tops(parts[1..], PartLevel(parts[0], d).value)
  }

  predicate PlainParts(parts: seq<Part>) {
    forall i :: 0 <= i < |parts| && parts[i].Flat? ==> PlainLines(parts[i].lines)
  }

  lemma BytesCons(p: Part, rest: seq<Part>)
    ensures Bytes([p] + rest) == PartBytes(p) + Bytes(rest)
  {
    assert ([p] + rest)[1..] == rest;
  }

  lemma {:induction false} BytesAppend(a: seq<Part>, b: seq<Part>)
    ensures Bytes(a + b) == Bytes(a) + Bytes(b)
  {
    if a == [] {
      NothingBefore(b);
      NothingBefore(Bytes(b));
    } else {
      BytesAppend(a[1..], b);
      HeadFirst(a, b);
      BytesCons(a[0], a[1..] + b);
      Assoc(PartBytes(a[0]), Bytes(a[1..]), Bytes(b));
    }
  }

  lemma PartMoves(p: Part, d: nat)
    requires p.Flat? ==> PlainLines(p.lines)
    requires PartLevel(p, d).Some?
    ensures Moves(PartBytes(p), d, PartLevel(p, d).value, PartTop(p, d))
  {
    match p
    case Flat(lines) => LinesAreFlat(lines);
    case Open(kind) => Opening(kind, d);
    case Close => Closing(d);
  }

  lemma PlainRest(parts: seq<Part>)
    requires PlainParts(parts) && parts != []
    ensures PlainParts(parts[1..])
  {
    assert forall i :: 0 <= i < |parts| - 1 ==> parts[1..][i] == parts[i + 1];
  }

  /** What the parts show is what the bytes parse to. */
  lemma {:induction false} PartsMove(parts: seq<Part>, d: nat)
    requires PlainParts(parts) && Level(parts, d).Some?
    ensures Moves(Bytes(parts), d, Level(parts, d).value, Tops(parts, d))
  {
    if parts == [] {
      LinesAreFlat([]);
      assert Moves([], d, d, []);
    } else {
      var p, rest := parts[0], parts[1..];
      var e := PartLevel(p, d).value;
      PlainRest(parts);
      PartsMove(rest, e);
      PartMoves(p, d);
      MovesAppend(PartBytes(p), Bytes(rest), d, e, Level(parts, d).value, PartTop(p, d), Tops(rest, e));
    }
  }

  // ---------------------------------------------------------------- parts, end to end

  lemma {:induction false} LevelAppend(a: seq<Part>, b: seq<Part>, d: nat)
    requires Level(a, d).Some?
    ensures Level(a + b, d) == Level(b, Level(a, d).value)
    ensures Tops(a + b, d) == Tops(a, d) + Tops(b, Level(a, d).value)
  {
    if a == [] {
      NothingBefore(b);
      NothingBefore(Tops(b, d));
    } else {
      HeadFirst(a, b);
      PartThenRest(a[0], a[1..] + b, d);
      var e := PartLevel(a[0], d).value;
      LevelAppend(a[1..], b, e);
      Assoc(PartTop(a[0], d), Tops(a[1..], e), Tops(b, Level(a, d).value));
    }
  }

  lemma PartThenRest(p: Part, rest: seq<Part>, d: nat)
    requires PartLevel(p, d).Some?
    ensures Level([p] + rest, d) == Level(rest, PartLevel(p, d).value)
    ensures Tops([p] + rest, d) == PartTop(p, d) + Tops(rest, PartLevel(p, d).value)
  {
    assert ([p] + rest)[1..] == rest;
  }

  /** A text with one more part at its end. */
  ghost predicate Shows(parts: seq<Part>, d: nat, e: nat, top: seq<Item>, size: nat) {
    Level(parts, d) == Some(e) && Tops(parts, d) == top && Size(parts) == size
  }

  lemma ShowsAppend(a: seq<Part>, b: seq<Part>, d: nat, e: nat, f: nat, top: seq<Item>, more: seq<Item>, m: nat, n: nat)
    requires Shows(a, d, e, top, m) && Shows(b, e, f, more, n)
    ensures Shows(a + b, d, f, top + more, m + n)
  {
    LevelAppend(a, b, d);
    BytesAppend(a, b);
  }

  lemma ShowsOne(p: Part, d: nat)
    ensures p.Flat? ==> Shows([p], d, d, [], |Flatten(p.lines)|)
    ensures p.Open? ==> Shows([p], d, d + 1, if d == 0 then [Item(0xA1, [p.kind])] else [], 2)
    ensures p.Close? && d > 0 ==> Shows([p], d, d - 1, [], 1)
  {
    assert [p][1..] == [] && [p][0] == p;
    forall e: nat ensures Level([], e) == Some(e) && Tops([], e) == [] {}
  }

  predicate Same(x: seq<seq<byte>>, y: seq<seq<byte>>) { x == y }

  /** The lines hold `n` bytes in all. */
  ghost predicate Sized(lines: seq<seq<byte>>, n: nat) { forall x :: Same(x, lines) ==> |Flatten(x)| == n }

  lemma WithFlat(a: seq<Part>, lines: seq<seq<byte>>, d: nat, e: nat, top: seq<Item>, m: nat, n: nat)
    requires Shows(a, d, e, top, m) && Sized(lines, n)
    ensures Shows(a + [Flat(lines)], d, e, top, m + n)
  {
    assert Same(lines, lines);
    ShowsOne(Flat(lines), e);
    ShowsAppend(a, [Flat(lines)], d, e, e, top, [], m, n);
    assert top + [] == top;
  }

  lemma WithOpen(a: seq<Part>, kind: byte, d: nat, e: nat, top: seq<Item>, m: nat)
    requires Shows(a, d, e, top, m) && e > 0
    ensures Shows(a + [Open(kind)], d, e + 1, top, m + 2)
  {
    ShowsOne(Open(kind), e);
    ShowsAppend(a, [Open(kind)], d, e, e + 1, top, [], m, 2);
    assert top + [] == top;
  }

  lemma WithClose(a: seq<Part>, d: nat, e: nat, top: seq<Item>, m: nat)
    requires Shows(a, d, e, top, m) && e > 0
    ensures Shows(a + [Close], d, e - 1, top, m + 1)
  {
    ShowsOne(Close, e);
    ShowsAppend(a, [Close], d, e, e - 1, top, [], m, 1);
    assert top + [] == top;
  }

  lemma ShowsMoves(parts: seq<Part>, d: nat, e: nat, top: seq<Item>, size: nat)
    requires PlainParts(parts) && Shows(parts, d, e, top, size)
    ensures Moves(Bytes(parts), d, e, top) && |Bytes(parts)| == size
  {
    PartsMove(parts, d);
  }

  /** Parts that show a base or a fragment are one. */
  lemma PartsAreBase(parts: seq<Part>, size: nat)
    requires PlainParts(parts) && Shows(parts, 0, 1, [APPLICATION], size)
    ensures IsBase(Bytes(parts)) && |Bytes(parts)| == size
  {
    ShowsMoves(parts, 0, 1, [APPLICATION], size);
  }

  lemma PartsAreFragment(parts: seq<Part>, size: nat)
    requires PlainParts(parts) && Shows(parts, 1, 1, [], size)
    ensures IsFragment(Bytes(parts)) && |Bytes(parts)| == size
  {
    ShowsMoves(parts, 1, 1, [], size);
    DepthUnshift(Parse(Bytes(parts)).value, 0);
  }

  /** Base, fragment and end, in parts. */
  lemma PartsCompose(base: seq<Part>, fragment: seq<Part>, m: nat, n: nat)
    requires PlainParts(base) && Shows(base, 0, 1, [APPLICATION], m)
    requires PlainParts(fragment) && Shows(fragment, 1, 1, [], n)
    ensures OneApplication(Bytes(base) + Bytes(fragment) + END) && |Bytes(base) + Bytes(fragment) + END| == m + n + 1
    ensures OneApplication(Bytes(base) + END) && |Bytes(base) + END| == m + 1
  {
    PartsAreBase(base, m);
    PartsAreFragment(fragment, n);
    ComposesExactly(Bytes(base), Bytes(fragment));
    assert Parse([]) == Some([]);
    ComposesExactly(Bytes(base), []);
    assert Bytes(base) + [] == Bytes(base);
  }
}
