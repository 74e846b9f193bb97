/** The small YAML loader: an indentation stack over dictionaries and lists that are
    filled in place, and its round trip against a two-space printer. */
module SimpleYaml {
  import opened Text

  // ------------------------------------------------------------ Python's objects

  /** The objects the loader allocates. A cell is changed in place through every
      reference to it: the stack, the last-key table and the parent that holds it. */
  datatype Cell<S> = DictCell(items: seq<Item<S>>) | ListCell(elems: seq<S>)

  datatype Item<S> = Item(key: string, val: Slot<S>)

  datatype Slot<S> = ScalarSlot(scalar: S) | RefSlot(ref: nat)

  datatype Frame = Frame(indent: int, ref: nat)

  datatype Spot = Spot(ref: nat, key: string)

  datatype State<S> = State(heap: seq<Cell<S>>, stack: seq<Frame>, last: map<int, Spot>)

  /** A parse: the state reached, or the exception raised. */
  datatype Parsed<S> =
    Parsed(state: State<S>) | UnsupportedLine(line: string) | NonMappingParent(line: string) | MissingKey(indent: int)

  /** `items[key] = val` on an insertion-ordered dictionary. */
  function SetItem<S>(items: seq<Item<S>>, key: string, val: Slot<S>): seq<Item<S>> {
    if items == [] then [Item(key, val)]
    else if items[0].key == key then [Item(key, val)] + items[1..]
    else [items[0]] + SetItem(items[1..], key, val)
  }

  predicate HasKey<S>(items: seq<Item<S>>, key: string) {
    exists i :: 0 <= i < |items| && items[i].key == key
  }

  // ------------------------------------------------------------------ the stack

  /** Drop frames from the top while their indent is at least the given one. */
  function PopFrom(stack: seq<Frame>, indent: int): seq<Frame> {
    if stack != [] && indent <= stack[|stack| - 1].indent then PopFrom(stack[..|stack| - 1], indent) else stack
  }

  /** What the loader keeps on every input: the stack starts at the root below every
      indent, its indents never decrease, and every reference is allocated, the ones in
      the last-key table to dictionaries. */
  predicate Good<S>(st: State<S>) {
    && st.stack != [] && st.stack[0] == Frame(-1, 0)
    && (forall i :: 0 <= i < |st.stack| ==> st.stack[i].ref < |st.heap|)
    && (forall i, j :: 0 <= i < j < |st.stack| ==> st.stack[i].indent <= st.stack[j].indent)
    && (forall k :: k in st.last ==> st.last[k].ref < |st.heap| && st.heap[st.last[k].ref].DictCell?)
    && 0 < |st.heap| && st.heap[0].DictCell?
  }

  lemma {:induction false} PopFromProperties(stack: seq<Frame>, indent: int)
    requires stack != [] && stack[0].indent < indent
    ensures PopFrom(stack, indent) != [] && PopFrom(stack, indent) <= stack
    ensures PopFrom(stack, indent)[|PopFrom(stack, indent)| - 1].indent < indent
  {
    if indent <= stack[|stack| - 1].indent {
      PopFromProperties(stack[..|stack| - 1], indent);
    }
  }

  /** Popping in two goes is popping once. */
  lemma {:induction false} PopTwice(stack: seq<Frame>, a: int, b: int)
    requires b <= a
    ensures PopFrom(PopFrom(stack, a), b) == PopFrom(stack, b)
  {
    if stack != [] && a <= stack[|stack| - 1].indent {
      PopTwice(stack[..|stack| - 1], a, b);
    }
  }

  // ------------------------------------------------------------------- one line

  function IndentOf(raw: string): nat {
    Span(raw, (c: char) => c == ' ')
  }

  predicate Skipped(raw: string) {
    Strip(raw) == "" || Strip(raw)[0] == '#'
  }

  predicate IsItem(line: string) {
    "- " <= line
  }

  function Top(stack: seq<Frame>): nat
    requires stack != []
  {
    stack[|stack| - 1].ref
  }

  function AddItem<S>(st: State<S>, indent: nat, scalar: S): Parsed<S>
    requires Good(st)
  {
    PopFromProperties(st.stack, indent + 1);
    var stack := PopFrom(st.stack, indent + 1);
    var top := Top(stack);
    if st.heap[top].ListCell? then
      Parsed(st.(stack := stack, heap := st.heap[top := ListCell(st.heap[top].elems + [scalar])]))
    else if indent !in st.last then MissingKey(indent)
    else
      var spot := st.last[indent];
      var holder := DictCell(SetItem(st.heap[spot.ref].items, spot.key, RefSlot(|st.heap|)));
      Parsed(st.(stack := stack + [Frame(indent, |st.heap|)], heap := st.heap[spot.ref := holder] +
          [ListCell([scalar])]))
  }

  function AddKey<S>(st: State<S>, indent: nat, raw: string, line: string, parse: string -> S): Parsed<S>
    requires Good(st)
  {
    PopFromProperties(st.stack, indent);
    var stack := PopFrom(st.stack, indent);
    var top := Top(stack);
    if ColonAt(line) == |line| then UnsupportedLine(raw)
    else if st.heap[top].ListCell? then NonMappingParent(raw)
    else
      var key, value := Strip(line[..ColonAt(line)]), Strip(line[ColonAt(line) + 1..]);
      var last := st.last[indent + 2 := Spot(top, key)];
      if value != "" then
        Parsed(State(st.heap[top := DictCell(SetItem(st.heap[top].items, key, ScalarSlot(parse(value))))], stack, last))
      else
        var holder := DictCell(SetItem(st.heap[top].items, key, RefSlot(|st.heap|)));
        Parsed(State(st.heap[top := holder] + [DictCell([])], stack + [Frame(indent, |st.heap|)], last))
  }

  /** One line of input. `parse` is `parse_scalar` on the stripped text of a scalar. */
  function Step<S>(st: State<S>, raw: string, parse: string -> S): Parsed<S>
    requires Good(st)
  {
    if Skipped(raw) then Parsed(st)
    else if IsItem(Strip(raw)) then AddItem(st, IndentOf(raw), parse(Strip(Strip(raw)[2..])))
    else AddKey(st, IndentOf(raw), raw, Strip(raw), parse)
  }

  predicate SameKinds<S>(a: seq<Cell<S>>, b: seq<Cell<S>>) {
    |a| <= |b| && forall i :: 0 <= i < |a| ==> a[i].DictCell? == b[i].DictCell?
  }

  predicate GoodTable<S>(heap: seq<Cell<S>>, last: map<int, Spot>) {
    forall k :: k in last ==> last[k].ref < |heap| && heap[last[k].ref].DictCell?
  }

  /** Popped frames and grown cells keep the invariant, with or without a new frame on top. */
  lemma GoodAfter<S>(st: State<S>, stack: seq<Frame>, heap: seq<Cell<S>>, last: map<int, Spot>, indent: int)
    requires Good(st) && stack != [] && stack <= st.stack && SameKinds(st.heap, heap) && GoodTable(heap, last)
    ensures Good(State(heap, stack, last))
    ensures stack[|stack| - 1].indent <= indent && |st.heap| < |heap| ==>
      Good(State(heap, stack + [Frame(indent, |st.heap|)], last))
  {
  }

  lemma AddItemKeepsGood<S>(st: State<S>, indent: nat, scalar: S)
    requires Good(st)
    ensures AddItem(st, indent, scalar).Parsed? ==> Good(AddItem(st, indent, scalar).state)
  {
    hide PopFrom, SetItem, Good;
    GoodFacts(st);
    PopFromProperties(st.stack, indent + 1);
    var r := AddItem(st, indent, scalar);
    if r.Parsed? {
      GoodAfter(st, PopFrom(st.stack, indent + 1), r.state.heap, r.state.last, indent);
    }
  }

  lemma AddKeyKeepsGood<S>(st: State<S>, indent: nat, raw: string, line: string, parse: string -> S)
    requires Good(st)
    ensures AddKey(st, indent, raw, line, parse).Parsed? ==> Good(AddKey(st, indent, raw, line, parse).state)
  {
    hide PopFrom, SetItem, Good, Strip, ColonAt;
    GoodFacts(st);
    PopFromProperties(st.stack, indent);
    var r := AddKey(st, indent, raw, line, parse);
    if r.Parsed? {
      GoodAfter(st, PopFrom(st.stack, indent), r.state.heap, r.state.last, indent);
    }
  }

  lemma GoodFacts<S>(st: State<S>)
    requires Good(st)
    ensures st.stack != [] && st.stack[0] == Frame(-1, 0) && GoodTable(st.heap, st.last)
    ensures forall i :: 0 <= i < |st.stack| ==> st.stack[i].ref < |st.heap|
  {
  }

  lemma StepKeepsGood<S>(st: State<S>, raw: string, parse: string -> S)
    requires Good(st)
    ensures Step(st, raw, parse).Parsed? ==> Good(Step(st, raw, parse).state)
  {
    hide AddItem, AddKey, Good, Strip;
    if !Skipped(raw) {
      if IsItem(Strip(raw)) {
        AddItemKeepsGood(st, IndentOf(raw), parse(Strip(Strip(raw)[2..])));
      } else {
        AddKeyKeepsGood(st, IndentOf(raw), raw, Strip(raw), parse);
      }
    }
  }

  function Steps<S>(st: State<S>, lines: seq<string>, parse: string -> S): Parsed<S>
    requires Good(st)
    decreases |lines|
  {
    if lines == [] then Parsed(st)
    else
      StepKeepsGood(st, lines[0], parse);
      var next := Step(st, lines[0], parse);
      if next.Parsed? then Steps(next.state, lines[1..], parse) else next
  }

  function Start<S>(): (st: State<S>)
    ensures Good(st)
  {
    State([DictCell([])], [Frame(-1, 0)], map[])
  }

  /** The objects `simple_yaml_load` returns; the result is the root, reference 0. */
  function Load<S>(text: string, parse: string -> S): Parsed<S> {
    Steps(Start(), SplitLines(text), parse)
  }

  // ------------------------------------------------------------------- methods

  /** The popping loop `while stack and indent <= stack[-1][0]`. */
  method Pop(stack: seq<Frame>, indent: int) returns (r: seq<Frame>)
    ensures r == PopFrom(stack, indent)
  {
    r := stack;
    while r != [] && indent <= r[|r| - 1].indent
      invariant PopFrom(r, indent) == PopFrom(stack, indent)
      decreases |r|
    {
      r := r[..|r| - 1];
    }
  }

  /** A list line: the cells are changed in place, a missing list is made first. */
  method ItemLine<S>(st: State<S>, indent: nat, scalar: S) returns (r: Parsed<S>)
    requires Good(st)
    ensures r == AddItem(st, indent, scalar)
  {
    PopFromProperties(st.stack, indent + 1);
    var stack := Pop(st.stack, indent + 1);
    var parent := Top(stack);
    var heap := st.heap;
    if heap[parent].DictCell? {
      if indent !in st.last {
        return MissingKey(indent);
      }
      var spot := st.last[indent];
      parent := |heap|;
      heap := heap[spot.ref := DictCell(SetItem(heap[spot.ref].items, spot.key, RefSlot(parent)))] + [ListCell([])];
      stack := stack + [Frame(indent, parent)];
      assert heap[parent].elems + [scalar] == [scalar];
      assert heap[parent := ListCell([scalar])] == heap[..parent] + [ListCell([scalar])];
    }
    heap := heap[parent := ListCell(heap[parent].elems + [scalar])];
    r := Parsed(State(heap, stack, st.last));
  }

  /** A mapping line. */
  method KeyLine<S>(st: State<S>, indent: nat, raw: string, line: string, parse: string -> S) returns (r: Parsed<S>)
    requires Good(st)
    ensures r == AddKey(st, indent, raw, line, parse)
  {
    hide Strip, SetItem;
    PopFromProperties(st.stack, indent);
    var stack := Pop(st.stack, indent);
    var parent := Top(stack);
    var heap, last := st.heap, st.last;
    var colon := ColonAt(line);
    if colon == |line| {
      return UnsupportedLine(raw);
    }
    if heap[parent].ListCell? {
      return NonMappingParent(raw);
    }
    var key, value := Strip(line[..colon]), Strip(line[colon + 1..]);
    if value != "" {
      heap := heap[parent := DictCell(SetItem(heap[parent].items, key, ScalarSlot(parse(value))))];
    } else {
      var child := |heap|;
      heap := heap[parent := DictCell(SetItem(heap[parent].items, key, RefSlot(child)))] + [DictCell([])];
      stack := stack + [Frame(indent, child)];
    }
    last := last[indent + 2 := Spot(parent, key)];
    r := Parsed(State(heap, stack, last));
  }

  /** `simple_yaml_load`: the loop over the lines. */
  method SimpleYamlLoad<S>(text: string, parse: string -> S) returns (r: Parsed<S>)
    ensures r == Load(text, parse)
  {
    hide AddItem, AddKey, Good, SplitLines, Strip;
    var lines := SplitLines(text);
    var st := Start<S>();
    for i := 0 to |lines|
      invariant Good(st)
      invariant Load(text, parse) == Steps(st, lines[i..], parse)
    {
      assert lines[i..][1..] == lines[i + 1..];
      var raw := lines[i];
      if Skipped(raw) {
        continue;
      }
      StepKeepsGood(st, raw, parse);
      if IsItem(Strip(raw)) {
        r := ItemLine(st, IndentOf(raw), parse(Strip(Strip(raw)[2..])));
      } else {
        r := KeyLine(st, IndentOf(raw), raw, Strip(raw), parse);
      }
      if !r.Parsed? {
        return;
      }
      st := r.state;
    }
    assert lines[|lines|..] == [];
    r := Parsed(st);
  }
}
