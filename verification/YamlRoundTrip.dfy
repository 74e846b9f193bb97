/** A two-space printer for nested mappings, scalars and non-empty scalar lists, and the
    proof that the loader gives back every document it prints. */
module YamlRoundTrip {
  import opened Text
  import opened Seqs
  import opened SimpleYaml

  datatype Doc = Leaf(token: string) | Mapping(block: Block) | Listing(tokens: seq<string>)

  datatype Block = Empty | Entry(key: string, value: Doc, rest: Block)

  // ------------------------------------------------------------------- printing

  function Spaces(n: nat): (r: string)
    ensures |r| == n && forall i :: 0 <= i < n ==> r[i] == ' '
  {
    seq(n, i => ' ')
  }

  function ItemLines(tokens: seq<string>, indent: nat): seq<string> {
    Mapped(tokens, (t: string) => Spaces(indent) + "- " + t)
  }

  function DocLines(key: string, value: Doc, indent: nat): seq<string>
    decreases value, 0
  {
    match value
    case Leaf(token) => [Spaces(indent) + key + ": " + token]
    case Mapping(b) => [Spaces(indent) + key + ":"] + Lines(b, indent + 2)
    case Listing(tokens) => [Spaces(indent) + key + ":"] + ItemLines(tokens, indent + 2)
  }

  function Lines(b: Block, indent: nat): seq<string>
    decreases b, 1
  {
    match b
    case Empty => []
    case Entry(key, value, rest) => DocLines(key, value, indent) + Lines(rest, indent)
  }

  function Print(b: Block): string {
    Unlines(Lines(b, 0))
  }

  // ----------------------------------------------------------- printable documents

  predicate GoodKey(key: string) {
    Trimmed(key) && None(key, IsLineBreak) && ':' !in key && !("#" <= key) && !("- " <= key)
  }

  predicate GoodToken(token: string) {
    token != "" && Trimmed(token) && None(token, IsLineBreak)
  }

  predicate InBlock(b: Block, key: string) {
    b.Entry? && (b.key == key || InBlock(b.rest, key))
  }

  predicate GoodDoc(d: Doc) {
    match d
    case Leaf(token) => GoodToken(token)
    case Mapping(b) => GoodBlock(b)
    case Listing(tokens) => tokens != [] && forall i :: 0 <= i < |tokens| ==> GoodToken(tokens[i])
  }

  /** Keys and tokens fit on a line, lists are not empty, keys of a mapping are distinct. */
  predicate GoodBlock(b: Block) {
    b.Entry? ==> GoodKey(b.key) && !InBlock(b.rest, b.key) && GoodDoc(b.value) && GoodBlock(b.rest)
  }

  // -------------------------------------------------------------- loaded documents

  /** The slot holds the document; every object of it was allocated at `lo` or later. */
  predicate HoldsDoc<S(==)>(heap: seq<Cell<S>>, lo: nat, slot: Slot<S>, d: Doc, parse: string -> S)
    decreases d, 0
  {
    match d
    case Leaf(token) => slot == ScalarSlot(parse(token))
    case Mapping(b) =>
      slot.RefSlot? && lo <= slot.ref < |heap| && heap[slot.ref].DictCell?
      && HoldsBlock(heap, lo, heap[slot.ref].items, b, parse)
    case Listing(tokens) =>
      slot.RefSlot? && lo <= slot.ref < |heap| && heap[slot.ref] == ListCell(Mapped(tokens, parse))
  }

  predicate HoldsBlock<S(==)>(heap: seq<Cell<S>>, lo: nat, items: seq<Item<S>>, b: Block, parse: string -> S)
    decreases b, 1
  {
    match b
    case Empty => items == []
    case Entry(key, value, rest) =>
      items != [] && items[0].key == key && HoldsDoc(heap, lo, items[0].val, value, parse)
      && HoldsBlock(heap, lo, items[1..], rest, parse)
  }

  predicate SameFrom<S(==)>(a: seq<Cell<S>>, b: seq<Cell<S>>, lo: nat) {
    |a| <= |b| && forall x :: lo <= x < |a| ==> b[x] == a[x]
  }

  lemma {:induction false} HoldsDocFrame<S>(a: seq<Cell<S>>, b: seq<Cell<S>>, lo: nat, low: nat, slot: Slot<S>,
      d: Doc, parse: string -> S)
    requires HoldsDoc(a, lo, slot, d, parse) && SameFrom(a, b, lo) && low <= lo
    ensures HoldsDoc(b, low, slot, d, parse)
    decreases d, 0
  {
    if d.Mapping? {
      HoldsBlockFrame(a, b, lo, low, a[slot.ref].items, d.block, parse);
    }
  }

  lemma {:induction false} HoldsBlockFrame<S>(a: seq<Cell<S>>, b: seq<Cell<S>>, lo: nat, low: nat,
      items: seq<Item<S>>, k: Block, parse: string -> S)
    requires HoldsBlock(a, lo, items, k, parse) && SameFrom(a, b, lo) && low <= lo
    ensures HoldsBlock(b, low, items, k, parse)
    decreases k, 1
  {
    if k.Entry? {
      HoldsDocFrame(a, b, lo, low, items[0].val, k.value, parse);
      HoldsBlockFrame(a, b, lo, low, items[1..], k.rest, parse);
    }
  }

  // ------------------------------------------------------------------ line shapes

  lemma {:induction false} SpanOfSpaces(n: nat, content: string)
    requires content != [] && content[0] != ' '
    ensures Span(Spaces(n) + content, (c: char) => c == ' ') == n
  {
    if n == 0 {
      assert Spaces(0) + content == content;
    } else {
      assert (Spaces(n) + content)[1..] == Spaces(n - 1) + content;
      SpanOfSpaces(n - 1, content);
    }
  }

  lemma {:induction false} SpaceSpan(n: nat, content: string)
    requires content != [] && !IsSpace(content[0])
    ensures Span(Spaces(n) + content, IsSpace) == n
  {
    if n == 0 {
      assert Spaces(0) + content == content;
    } else {
      assert (Spaces(n) + content)[1..] == Spaces(n - 1) + content;
      SpaceSpan(n - 1, content);
    }
  }

  /** An indented line strips to its content and has its indent. */
  lemma IndentedLine(n: nat, content: string)
    requires content != [] && Trimmed(content)
    ensures Strip(Spaces(n) + content) == content && IndentOf(Spaces(n) + content) == n
  {
    SpaceSpan(n, content);
    SpanOfSpaces(n, content);
    assert (Spaces(n) + content)[n..] == content;
    assert DropLeft(Spaces(n) + content, IsSpace) == content;
    assert DropRight(content, IsSpace) == content;
  }

  function Content(key: string, value: string): string {
    key + ":" + if value == "" then "" else " " + value
  }

  /** A key line is read as its key and its stripped value. */
  lemma KeyLineShape(key: string, value: string)
    requires GoodKey(key) && (value == "" || GoodToken(value))
    ensures
      var content := Content(key, value);
      && content != [] && Trimmed(content) && !("- " <= content) && content[0] != '#'
      && ColonAt(content) == |key| < |content|
      && Strip(content[..|key|]) == key && Strip(content[|key| + 1..]) == value
  {
    hide Strip, ColonAt, None, IsSpace;
    var after := if value == "" then "" else " " + value;
    var content := key + (":" + after);
    assert content == Content(key, value);
    ColonAfter(key, ":" + after);
    assert content[..|key|] == key && content[|key| + 1..] == after;
    StripTrimmed(key);
    StripSpaced(value);
    StripTrimmed("");
    KeyIsNoItem(key, ":" + after);
    KeyLineEnds(key, value);
  }

  lemma KeyLineEnds(key: string, value: string)
    requires GoodKey(key) && (value == "" || GoodToken(value))
    ensures Trimmed(Content(key, value)) && Content(key, value)[0] != '#'
  {
    hide None;
    var content := Content(key, value);
    if value != "" {
      assert content[|content| - 1] == value[|value| - 1];
    } else {
      assert content[|content| - 1] == ':';
    }
    if key != [] {
      assert content[0] == key[0];
    }
  }

  lemma KeyIsNoItem(key: string, tail: string)
    requires !("- " <= key) && tail != [] && tail[0] == ':'
    ensures !("- " <= key + tail)
  {
    var content := key + tail;
    if |key| >= 2 {
      assert content[0] == key[0] && content[1] == key[1];
    } else if |key| == 1 {
      assert content[1] == ':';
    } else {
      assert content[0] == ':';
    }
  }

  lemma ItemLineShape(token: string)
    requires GoodToken(token)
    ensures
      var content := "- " + token;
      Trimmed(content) && "- " <= content && content[0] != '#' && content[2..] == token && Strip(token) == token
  {
    StripTrimmed(token);
    var content := "- " + token;
    assert content[|content| - 1] == token[|token| - 1];
  }

  // ------------------------------------------------------------------ single lines

  lemma {:induction false} SetNewKey<S>(items: seq<Item<S>>, key: string, val: Slot<S>)
    requires !HasKey(items, key)
    ensures SetItem(items, key, val) == items + [Item(key, val)]
  {
    if items != [] {
      assert items[0].key != key;
      forall i | 0 <= i < |items[1..]| ensures items[1..][i].key != key {
        assert items[1..][i] == items[i + 1];
      }
      SetNewKey(items[1..], key, val);
    }
  }

  /** Setting the key again replaces the value in its place. */
  lemma {:induction false} SetLastKey<S>(items: seq<Item<S>>, key: string, old_: Slot<S>, val: Slot<S>)
    requires !HasKey(items, key)
    ensures SetItem(items + [Item(key, old_)], key, val) == items + [Item(key, val)]
  {
    if items != [] {
      assert items[0].key != key;
      forall i | 0 <= i < |items[1..]| ensures items[1..][i].key != key {
        assert items[1..][i] == items[i + 1];
      }
      SetLastKey(items[1..], key, old_, val);
      assert (items + [Item(key, old_)])[1..] == items[1..] + [Item(key, old_)];
    }
  }

  /** The state in which an entry at this indent is about to be read: popping for the
      indent leaves `base`, whose top is the dictionary `r` that holds `items`. */
  predicate At<S(==)>(st: State<S>, indent: nat, base: seq<Frame>, r: nat, items: seq<Item<S>>) {
    && Good(st) && PopFrom(st.stack, indent) == base && base != [] && base[|base| - 1].indent < indent
    && Top(base) == r < |st.heap| && st.heap[r] == DictCell(items)
  }

  lemma LeafStep<S>(st: State<S>, indent: nat, base: seq<Frame>, r: nat, items: seq<Item<S>>, key: string,
      token: string, parse: string -> S)
    requires At(st, indent, base, r, items) && GoodKey(key) && GoodToken(token) && !HasKey(items, key)
    ensures
      var s := Step(st, Spaces(indent) + key + ": " + token, parse);
      s.Parsed? && s.state.heap == st.heap[r := DictCell(items + [Item(key, ScalarSlot(parse(token)))])]
      && s.state.stack == base
  {
    hide Strip, IndentOf, ColonAt, PopFrom;
    var content := Content(key, token);
    KeyLineShape(key, token);
    IndentedLine(indent, content);
    assert Spaces(indent) + key + ": " + token == Spaces(indent) + content;
    SetNewKey(items, key, ScalarSlot(parse(token)));
  }

  lemma HeadStep<S>(st: State<S>, indent: nat, base: seq<Frame>, r: nat, items: seq<Item<S>>, key: string,
      parse: string -> S)
    requires At(st, indent, base, r, items) && GoodKey(key) && !HasKey(items, key)
    ensures
      var s, n := Step(st, Spaces(indent) + key + ":", parse), |st.heap|;
      s.Parsed? && s.state.heap == st.heap[r := DictCell(items + [Item(key, RefSlot(n))])] + [DictCell([])]
      && s.state.stack == base + [Frame(indent, n)]
      && s.state.last == st.last[indent + 2 := Spot(r, key)]
  {
    hide Strip, IndentOf, ColonAt, PopFrom;
    var content := Content(key, "");
    KeyLineShape(key, "");
    assert content == key + ":";
    IndentedLine(indent, content);
    assert Spaces(indent) + key + ":" == Spaces(indent) + content;
    SetNewKey(items, key, RefSlot(|st.heap|));
  }

  lemma ItemStep<S>(st: State<S>, indent: nat, token: string, parse: string -> S)
    requires Good(st) && GoodToken(token)
    ensures Step(st, Spaces(indent) + "- " + token, parse) == AddItem(st, indent, parse(token))
  {
    hide Strip, IndentOf, AddItem;
    var content := "- " + token;
    ItemLineShape(token);
    IndentedLine(indent, content);
    assert Spaces(indent) + "- " + token == Spaces(indent) + content;
  }

  lemma {:induction false} StepsConcat<S>(st: State<S>, a: seq<string>, b: seq<string>, parse: string -> S)
    requires Good(st) && Steps(st, a, parse).Parsed?
    ensures Good(Steps(st, a, parse).state)
    ensures Steps(st, a + b, parse) == Steps(Steps(st, a, parse).state, b, parse)
    decreases |a|
  {
    hide Step, Good;
    if a == [] {
      assert a + b == b;
    } else {
      StepKeepsGood(st, a[0], parse);
      assert (a + b)[1..] == a[1..] + b;
      StepsConcat(Step(st, a[0], parse).state, a[1..], b, parse);
    }
  }

  lemma StepsOne<S>(st: State<S>, line: string, parse: string -> S)
    requires Good(st)
    ensures Steps(st, [line], parse) == Step(st, line, parse)
    ensures Steps(st, [line], parse).Parsed? ==> Good(Steps(st, [line], parse).state)
  {
    hide Step, Good;
    StepKeepsGood(st, line, parse);
  }

  // ------------------------------------------------------------------------ lists

  /** Further items go to the list on top of the stack. */
  lemma AppendStep<S>(st: State<S>, indent: nat, elems: seq<S>, scalar: S)
    requires Good(st) && st.stack[|st.stack| - 1].indent == indent
    requires st.heap[Top(st.stack)] == ListCell(elems)
    ensures AddItem(st, indent, scalar) == Parsed(st.(heap := st.heap[Top(st.stack) := ListCell(elems + [scalar])]))
  {
    assert PopFrom(st.stack, indent + 1) == st.stack;
  }

  lemma {:induction false} ItemsLoad<S(!new)>(st: State<S>, tokens: seq<string>, indent: nat, elems: seq<S>,
      parse: string -> S)
    requires Good(st) && st.stack[|st.stack| - 1].indent == indent
    requires st.heap[Top(st.stack)] == ListCell(elems)
    requires forall i :: 0 <= i < |tokens| ==> GoodToken(tokens[i])
    ensures
      var s := Steps(st, ItemLines(tokens, indent), parse);
      s.Parsed? && s.state.heap == st.heap[Top(st.stack) := ListCell(elems + Mapped(tokens, parse))] &&
          s.state.stack == st.stack
    decreases |tokens|
  {
    hide Step, Steps, AddItem, Good, GoodToken, Mapped, ItemLines;
    GoodFacts(st);
    if tokens == [] {
      NoItems(st, indent, elems, parse);
    } else {
      var line := Spaces(indent) + "- " + tokens[0];
      ItemLinesCons(tokens, indent);
      MappedCons(tokens, parse);
      ItemStep(st, indent, tokens[0], parse);
      AppendStep(st, indent, elems, parse(tokens[0]));
      StepsHead(st, ItemLines(tokens, indent), parse);
      var more := elems + [parse(tokens[0])];
      ItemsLoad(Step(st, line, parse).state, tokens[1..], indent, more, parse);
      UpdateTwice(st.heap, Top(st.stack), ListCell(more), ListCell(more + Mapped(tokens[1..], parse)));
      assert more + Mapped(tokens[1..], parse) == elems + ([parse(tokens[0])] + Mapped(tokens[1..], parse));
    }
  }

  lemma NoItems<S>(st: State<S>, indent: nat, elems: seq<S>, parse: string -> S)
    requires Good(st) && st.heap[Top(st.stack)] == ListCell(elems)
    ensures Steps(st, ItemLines([], indent), parse) == Parsed(st)
    ensures st.heap[Top(st.stack) := ListCell(elems + Mapped([], parse))] == st.heap
  {
    assert elems + Mapped([], parse) == elems;
  }

  lemma StepsHead<S>(st: State<S>, lines: seq<string>, parse: string -> S)
    requires Good(st) && lines != [] && Step(st, lines[0], parse).Parsed?
    ensures Good(Step(st, lines[0], parse).state)
    ensures Steps(st, lines, parse) == Steps(Step(st, lines[0], parse).state, lines[1..], parse)
  {
    hide Step, Good;
    StepKeepsGood(st, lines[0], parse);
  }

  lemma ItemLinesCons(tokens: seq<string>, indent: nat)
    requires tokens != []
    ensures ItemLines(tokens, indent) != [] && ItemLines(tokens, indent)[0] == Spaces(indent) + "- " + tokens[0]
    ensures ItemLines(tokens, indent)[1..] == ItemLines(tokens[1..], indent)
  {
  }

  lemma MappedCons<A, B>(xs: seq<A>, f: A -> B)
    requires xs != []
    ensures Mapped(xs, f) == [f(xs[0])] + Mapped(xs[1..], f)
  {
  }

  lemma UpdateTwice<T>(xs: seq<T>, i: nat, a: T, b: T)
    requires i < |xs|
    ensures xs[i := a][i := b] == xs[i := b]
  {
  }

  // ------------------------------------------------------------------- documents

  predicate SameBut<S(==)>(a: seq<Cell<S>>, b: seq<Cell<S>>, r: nat) {
    |a| <= |b| && forall x :: 0 <= x < |a| && x != r ==> b[x] == a[x]
  }

  /** The lines were read, the dictionary `r` gained the items `more`, nothing else that
      existed changed, and the next entry at this indent finds the stack as before. */
  predicate Gained<S(==)>(st: State<S>, s: Parsed<S>, indent: nat, base: seq<Frame>, r: nat, items: seq<Item<S>>,
      more: seq<Item<S>>) {
    s.Parsed? && At(s.state, indent, base, r, items + more) && SameBut(st.heap, s.state.heap, r)
  }

  lemma {:induction false} DocLoads<S(!new)>(
      st: State<S>, key: string, value: Doc, indent: nat, base: seq<Frame>, r: nat, items: seq<Item<S>>,
          parse: string -> S)
    returns (slot: Slot<S>)
    requires At(st, indent, base, r, items) && GoodKey(key) && GoodDoc(value) && !HasKey(items, key)
    ensures Gained(st, Steps(st, DocLines(key, value, indent), parse), indent, base, r, items, [Item(key, slot)])
    ensures HoldsDoc(Steps(st, DocLines(key, value, indent), parse).state.heap, |st.heap|, slot, value, parse)
    decreases value, 0
  {
    match value {
      case Leaf(token) => slot := LeafLoads(st, key, token, indent, base, r, items, parse);
      case Listing(tokens) => slot := ListLoads(st, key, tokens, indent, base, r, items, parse);
      case Mapping(b) =>
        hide Step, Good, Lines, GoodBlock, GoodKey, At, Gained, HoldsBlock, PopFrom, HasKey;
        var head := Spaces(indent) + key + ":";
        HeadStep(st, indent, base, r, items, key, parse);
        StepsOne(st, head, parse);
        var st1 := Step(st, head, parse).state;
        MappingOpens(st, st1, indent, base, r, items, key);
        slot := RefSlot(|st.heap|);
        NoKeysYet<S>(b);
        var more := BlockLoads(st1, b, indent + 2, base + [Frame(indent, |st.heap|)], |st.heap|, [], parse);
        StepsConcat(st, [head], Lines(b, indent + 2), parse);
        MappingCloses(st, st1, Steps(st1, Lines(b, indent + 2), parse), indent, base, r, items, key, b, more, parse);
    }
  }

  /** The dictionary of a nested mapping was just made and pushed. */
  predicate Opened<S(==)>(st: State<S>, st1: State<S>, indent: nat, base: seq<Frame>, r: nat, items: seq<Item<S>>,
      key: string)
    requires r < |st.heap|
  {
    && st1.heap == st.heap[r := DictCell(items + [Item(key, RefSlot(|st.heap|))])] + [DictCell([])]
    && st1.stack == base + [Frame(indent, |st.heap|)] && Good(st1)
  }

  lemma MappingOpens<S>(st: State<S>, st1: State<S>, indent: nat, base: seq<Frame>, r: nat, items: seq<Item<S>>,
      key: string)
    requires At(st, indent, base, r, items) && r < |st.heap| && Opened(st, st1, indent, base, r, items, key)
    ensures At(st1, indent + 2, base + [Frame(indent, |st.heap|)], |st.heap|, [])
  {
    hide Good;
  }

  /** After the inner entries the outer dictionary has its one new item. */
  lemma MappingCloses<S(!new)>(
      st: State<S>, st1: State<S>, s: Parsed<S>, indent: nat, base: seq<Frame>, r: nat, items: seq<Item<S>>,
          key: string,
      b: Block, more: seq<Item<S>>, parse: string -> S)
    requires At(st, indent, base, r, items) && Opened(st, st1, indent, base, r, items, key)
    requires Gained(st1, s, indent + 2, base + [Frame(indent, |st.heap|)], |st.heap|, [], more)
    requires HoldsBlock(s.state.heap, |st1.heap|, more, b, parse)
    ensures Gained(st, s, indent, base, r, items, [Item(key, RefSlot(|st.heap|))])
    ensures HoldsDoc(s.state.heap, |st.heap|, RefSlot(|st.heap|), Mapping(b), parse)
  {
    hide Good, HoldsBlock;
    var n := |st.heap|;
    var inner := base + [Frame(indent, n)];
    assert [] + more == more;
    HoldsBlockFrame(s.state.heap, s.state.heap, n + 1, n, more, b, parse);
    PopTwice(s.state.stack, indent + 2, indent);
    assert inner[..|inner| - 1] == base;
    AtFacts(st, indent, base, r, items);
    assert PopFrom(inner, indent) == base;
  }

  lemma AtFacts<S>(st: State<S>, indent: nat, base: seq<Frame>, r: nat, items: seq<Item<S>>)
    requires At(st, indent, base, r, items)
    ensures PopFrom(base, indent) == base && r < |st.heap|
  {
    hide Good;
  }

  lemma NoKeysYet<S(!new)>(b: Block)
    ensures forall key :: InBlock(b, key) ==> !HasKey<S>([], key)
  {
  }

  lemma LeafLoads<S(!new)>(
      st: State<S>, key: string, token: string, indent: nat, base: seq<Frame>, r: nat, items: seq<Item<S>>,
          parse: string -> S)
    returns (slot: Slot<S>)
    requires At(st, indent, base, r, items) && GoodKey(key) && GoodToken(token) && !HasKey(items, key)
    ensures Gained(st, Steps(st, DocLines(key, Leaf(token), indent), parse), indent, base, r, items, [Item(key, slot)])
    ensures slot == ScalarSlot(parse(token))
  {
    hide Step, Good, GoodKey, GoodToken;
    slot := ScalarSlot(parse(token));
    LeafStep(st, indent, base, r, items, key, token, parse);
    StepsOne(st, Spaces(indent) + key + ": " + token, parse);
    AtFacts(st, indent, base, r, items);
  }

  /** The first item replaces the empty dictionary the head line made. */
  lemma FirstItemStep<S>(
      st: State<S>, indent: nat, base: seq<Frame>, r: nat, items: seq<Item<S>>, key: string, scalar: S)
    requires Good(st) && |st.heap| > 0 && !HasKey(items, key) && r < |st.heap| - 1
    requires st.stack == base + [Frame(indent, |st.heap| - 1)]
    requires st.heap[r] == DictCell(items + [Item(key, RefSlot(|st.heap| - 1))]) &&
        st.heap[|st.heap| - 1] == DictCell([])
    requires indent + 2 in st.last && st.last[indent + 2] == Spot(r, key)
    ensures
      var s, m := AddItem(st, indent + 2, scalar), |st.heap|;
      s.Parsed? && s.state.heap == st.heap[r := DictCell(items + [Item(key, RefSlot(m))])] + [ListCell([scalar])]
      && s.state.stack == base + [Frame(indent, m - 1), Frame(indent + 2, m)]
  {
    assert PopFrom(st.stack, indent + 3) == st.stack;
    SetLastKey(items, key, RefSlot(|st.heap| - 1), RefSlot(|st.heap|));
    assert base + [Frame(indent, |st.heap| - 1)] + [Frame(indent + 2, |st.heap|)]
        == base + [Frame(indent, |st.heap| - 1), Frame(indent + 2, |st.heap|)];
  }

  lemma ListLoads<S(!new)>(
      st: State<S>, key: string, tokens: seq<string>, indent: nat, base: seq<Frame>, r: nat, items: seq<Item<S>>,
          parse: string -> S)
    returns (slot: Slot<S>)
    requires At(st, indent, base, r, items) && GoodKey(key) && GoodDoc(Listing(tokens)) && !HasKey(items, key)
    ensures Gained(st, Steps(st, DocLines(key, Listing(tokens), indent), parse), indent, base, r, items,
        [Item(key, slot)])
    ensures HoldsDoc(Steps(st, DocLines(key, Listing(tokens), indent), parse).state.heap, |st.heap|, slot,
        Listing(tokens), parse)
  {
    hide Step, Good, GoodKey, GoodToken, PopFrom, AddItem, ItemLines, Mapped, Spaces;
    var head := Spaces(indent) + key + ":";
    var n := |st.heap|;
    HeadStep(st, indent, base, r, items, key, parse);
    StepsOne(st, head, parse);
    var st1 := Step(st, head, parse).state;
    var first := Spaces(indent + 2) + "- " + tokens[0];
    ItemStep(st1, indent + 2, tokens[0], parse);
    FirstItemStep(st1, indent, base, r, items, key, parse(tokens[0]));
    StepsOne(st1, first, parse);
    var st2 := Step(st1, first, parse).state;
    slot := RefSlot(n + 1);
    ItemsLoad(st2, tokens[1..], indent + 2, [parse(tokens[0])], parse);
    var lines := ItemLines(tokens, indent + 2);
    ItemLinesCons(tokens, indent + 2);
    MappedCons(tokens, parse);
    assert lines == [first] + ItemLines(tokens[1..], indent + 2);
    StepsConcat(st1, [first], ItemLines(tokens[1..], indent + 2), parse);
    StepsConcat(st1, lines, [], parse);
    StepsConcat(st, [head], lines, parse);
    var s := Steps(st, DocLines(key, Listing(tokens), indent), parse);
    assert s.state.heap == st2.heap[n + 1 := ListCell(Mapped(tokens, parse))];
    AtFacts(st, indent, base, r, items);
    PopListFrames(base, indent, n);
  }

  lemma PopListFrames(base: seq<Frame>, indent: nat, n: nat)
    requires PopFrom(base, indent) == base
    ensures PopFrom(base + [Frame(indent, n), Frame(indent + 2, n + 1)], indent) == base
  {
    var a := base + [Frame(indent, n), Frame(indent + 2, n + 1)];
    assert a[..|a| - 1] == base + [Frame(indent, n)];
    assert (base + [Frame(indent, n)])[..|base|] == base;
  }

  lemma {:induction false} BlockLoads<S(!new)>(
      st: State<S>, b: Block, indent: nat, base: seq<Frame>, r: nat, items: seq<Item<S>>, parse: string -> S)
    returns (more: seq<Item<S>>)
    requires At(st, indent, base, r, items) && GoodBlock(b)
    requires forall key :: InBlock(b, key) ==> !HasKey(items, key)
    ensures Gained(st, Steps(st, Lines(b, indent), parse), indent, base, r, items, more)
    ensures HoldsBlock(Steps(st, Lines(b, indent), parse).state.heap, |st.heap|, more, b, parse)
    decreases b, 1
  {
    match b {
      case Empty =>
        more := [];
        assert items + more == items;
      case Entry(key, value, rest) =>
        hide Step, Good, GoodKey, GoodDoc, DocLines, PopFrom, At, Gained, HoldsBlock, HoldsDoc, HasKey, Steps;
        var slot := DocLoads(st, key, value, indent, base, r, items, parse);
        var s1 := Steps(st, DocLines(key, value, indent), parse);
        GainedFacts(st, s1, indent, base, r, items, [Item(key, slot)]);
        var items1 := items + [Item(key, slot)];
        forall k | InBlock(rest, k) ensures !HasKey(items1, k) {
          assert InBlock(b, k);
          StillNoKey(items, key, slot, k);
        }
        var later := BlockLoads(s1.state, rest, indent, base, r, items1, parse);
        StepsConcat(st, DocLines(key, value, indent), Lines(rest, indent), parse);
        var s2 := Steps(s1.state, Lines(rest, indent), parse);
        more := [Item(key, slot)] + later;
        EntryThenRest(st, s1, s2, indent, base, r, items, key, slot, value, rest, later, parse);
    }
  }

  lemma GainedFacts<S(!new)>(st: State<S>, s: Parsed<S>, indent: nat, base: seq<Frame>, r: nat, items: seq<Item<S>>,
      more: seq<Item<S>>)
    requires Gained(st, s, indent, base, r, items, more)
    ensures s.Parsed? && At(s.state, indent, base, r, items + more) && Good(s.state)
  {
    hide Good;
  }

  /** One entry, then the rest of the block. */
  lemma EntryThenRest<S(!new)>(
      st: State<S>, s1: Parsed<S>, s2: Parsed<S>, indent: nat, base: seq<Frame>, r: nat, items: seq<Item<S>>,
      key: string, slot: Slot<S>, value: Doc, rest: Block, later: seq<Item<S>>, parse: string -> S)
    requires At(st, indent, base, r, items) && Gained(st, s1, indent, base, r, items, [Item(key, slot)])
    requires Gained(s1.state, s2, indent, base, r, items + [Item(key, slot)], later)
    requires HoldsDoc(s1.state.heap, |st.heap|, slot, value, parse)
    requires HoldsBlock(s2.state.heap, |s1.state.heap|, later, rest, parse)
    ensures Gained(st, s2, indent, base, r, items, [Item(key, slot)] + later)
    ensures HoldsBlock(s2.state.heap, |st.heap|, [Item(key, slot)] + later, Entry(key, value, rest), parse)
  {
    hide Good, HoldsDoc, PopFrom;
    var more := [Item(key, slot)] + later;
    assert items + more == items + [Item(key, slot)] + later;
    AtFacts(st, indent, base, r, items);
    HoldsDocFrame(s1.state.heap, s2.state.heap, |st.heap|, |st.heap|, slot, value, parse);
    HoldsBlockFrame(s2.state.heap, s2.state.heap, |s1.state.heap|, |st.heap|, later, rest, parse);
    assert more[1..] == later;
  }

  lemma StillNoKey<S>(items: seq<Item<S>>, key: string, slot: Slot<S>, k: string)
    requires !HasKey(items, k) && k != key
    ensures !HasKey(items + [Item(key, slot)], k)
  {
  }

  /** Round trip: loading a printed document gives back the document. The root is a
      dictionary holding exactly its entries in order, each scalar parsed, and every
      nested object is where its parent's reference says. */
  lemma LoadInvertsPrint<S(!new)>(b: Block, parse: string -> S)
    requires GoodBlock(b)
    ensures
      var r := Load(Print(b), parse);
      && r.Parsed? && Good(r.state) && r.state.heap[0].DictCell?
      && HoldsBlock(r.state.heap, 0, r.state.heap[0].items, b, parse)
  {
    hide Good;
    var st := Start<S>();
    StartAt<S>();
    NoKeysYet<S>(b);
    var more := BlockLoads(st, b, 0, st.stack, 0, [], parse);
    LinesAreBreakFree(b, 0);
    SplitUnlines(Lines(b, 0), "");
    assert Print(b) + "" == Print(b) && Lines(b, 0) + SplitLines("") == Lines(b, 0);
    var r := Load(Print(b), parse);
    assert [] + more == more;
    HoldsBlockFrame(r.state.heap, r.state.heap, 1, 0, more, b, parse);
  }

  lemma StartAt<S(!new)>()
    ensures At(Start<S>(), 0, [Frame(-1, 0)], 0, [])
  {
  }

  lemma BreakFreeLine(n: nat, content: string)
    requires None(content, IsLineBreak)
    ensures None(Spaces(n) + content, IsLineBreak)
  {
  }

  lemma {:induction false} DocLinesAreBreakFree(key: string, value: Doc, indent: nat)
    requires GoodKey(key) && GoodDoc(value)
    ensures BreakFree(DocLines(key, value, indent))
    decreases value, 0
  {
    match value {
      case Leaf(token) =>
        BreakFreeLine(indent, key + ": " + token);
        assert Spaces(indent) + key + ": " + token == Spaces(indent) + (key + ": " + token);
      case Mapping(b) =>
        BreakFreeLine(indent, key + ":");
        assert Spaces(indent) + key + ":" == Spaces(indent) + (key + ":");
        LinesAreBreakFree(b, indent + 2);
      case Listing(tokens) =>
        BreakFreeLine(indent, key + ":");
        assert Spaces(indent) + key + ":" == Spaces(indent) + (key + ":");
        var lines := ItemLines(tokens, indent + 2);
        forall i | 0 <= i < |lines| ensures None(lines[i], IsLineBreak) {
          BreakFreeLine(indent + 2, "- " + tokens[i]);
          assert lines[i] == Spaces(indent + 2) + ("- " + tokens[i]);
        }
    }
  }

  lemma {:induction false} LinesAreBreakFree(b: Block, indent: nat)
    requires GoodBlock(b)
    ensures BreakFree(Lines(b, indent))
    decreases b, 1
  {
    if b.Entry? {
      DocLinesAreBreakFree(b.key, b.value, indent);
      LinesAreBreakFree(b.rest, indent);
    }
  }
}
