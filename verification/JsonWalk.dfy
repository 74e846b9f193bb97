/** The early-exit walk that lists the first rows of a JSON value. */
module JsonWalk {
  import opened Text
  import opened Seqs
  import opened Sorting

  datatype Json =
    | Object(fields: map<string, Json>)
    | Array(items: seq<Json>)
    | Str(text: string)
    | Other(kind: string)

  datatype Row = Row(path: string, kind: string, size: Option<nat>)

  /** A value to be walked and its path. */
  datatype Child = Child(value: Json, path: string)

  /** `type_name` and `value_size`. */
  function RowOf(v: Json, path: string): Row {
    match v
    case Object(fields) => Row(path, "object", Some(|fields|))
    case Array(items) => Row(path, "array", Some(|items|))
    case Str(text) => Row(path, "str", Some(|text|))
    case Other(kind) => Row(path, kind, Absent)
  }

  function Field(fields: map<string, Json>, path: string, safeKey: string -> string): string -> Child {
    (key: string) => Child(if key in fields then fields[key] else Other(""), path + "." + safeKey(key))
  }

  /** All children in the order of the walk: fields by key, items by index. */
  ghost function Children(v: Json, path: string, safeKey: string -> string): seq<Child> {
    match v
    case Object(fields) => Mapped(Listing(fields.Keys, Less), Field(fields, path, safeKey))
    case Array(items) => ItemChildren(items, path)
    case _ => []
  }

  function ItemChildren(items: seq<Json>, path: string): seq<Child> {
    seq(|items|, i requires 0 <= i < |items| => Child(items[i], path + "[" + Digits(i) + "]"))
  }

  // ----------------------------------------------------------------- specification

  /** All rows down to the depth limit, a value before its children, none left out. */
  ghost function Preorder(v: Json, path: string, depth: int, maxDepth: int, safeKey: string -> string): (r: seq<Row>)
    ensures r != []
    decreases maxDepth - depth, 0, 0
  {
    [RowOf(v, path)] + if depth >= maxDepth then []
        else Forest(Children(v, path, safeKey), depth + 1, maxDepth, safeKey)
  }

  ghost function Forest(cs: seq<Child>, depth: int, maxDepth: int, safeKey: string -> string): seq<Row>
    decreases maxDepth - depth, 1, |cs|
  {
    if cs == [] then []
    else Preorder(cs[0].value, cs[0].path, depth, maxDepth, safeKey) + Forest(cs[1..], depth, maxDepth, safeKey)
  }

  function Take<T>(xs: seq<T>, n: int): seq<T> {
    if |xs| <= n then xs else if n < 0 then [] else xs[..n]
  }

  /** Rows to which more are added until the limit is reached. */
  function Filled(rows: seq<Row>, more: seq<Row>, limit: int): seq<Row> {
    if |rows| >= limit then rows else Take(rows + more, limit)
  }

  lemma FilledTwice(rows: seq<Row>, a: seq<Row>, b: seq<Row>, limit: int)
    ensures Filled(Filled(rows, a, limit), b, limit) == Filled(rows, a + b, limit)
  {
    if |rows| < limit {
      assert rows + (a + b) == (rows + a) + b;
    }
  }

  lemma {:induction false} ForestConcat(a: seq<Child>, b: seq<Child>, depth: int, maxDepth: int,
      safeKey: string -> string)
    ensures Forest(a + b, depth, maxDepth, safeKey) == Forest(a, depth, maxDepth, safeKey) +
        Forest(b, depth, maxDepth, safeKey)
    decreases |a|
  {
    hide Preorder;
    if a == [] {
      assert a + b == b;
    } else {
      assert (a + b)[1..] == a[1..] + b;
      ForestConcat(a[1..], b, depth, maxDepth, safeKey);
    }
  }

  lemma ForestStep(cs: seq<Child>, i: nat, depth: int, maxDepth: int, safeKey: string -> string)
    requires i < |cs|
    ensures Forest(cs[..i + 1], depth, maxDepth, safeKey) ==
      Forest(cs[..i], depth, maxDepth, safeKey) + Preorder(cs[i].value, cs[i].path, depth, maxDepth, safeKey)
  {
    hide Preorder;
    assert cs[..i + 1] == cs[..i] + [cs[i]];
    ForestConcat(cs[..i], [cs[i]], depth, maxDepth, safeKey);
    assert Forest([cs[i]][1..], depth, maxDepth, safeKey) == [];
  }

  /** Every child contributes at least one row. */
  lemma {:induction false} ForestIsLong(cs: seq<Child>, depth: int, maxDepth: int, safeKey: string -> string)
    ensures |Forest(cs, depth, maxDepth, safeKey)| >= |cs|
    decreases |cs|
  {
    hide Preorder;
    if cs != [] {
      ForestIsLong(cs[1..], depth, maxDepth, safeKey);
    }
  }

  /** The rows after the first `i` children. */
  ghost function After(rows: seq<Row>, row: Row, cs: seq<Child>, i: nat, limit: int, depth: int, maxDepth: int,
      safeKey: string -> string): seq<Row>
    requires i <= |cs|
  {
    Filled(rows, [row] + Forest(cs[..i], depth, maxDepth, safeKey), limit)
  }

  lemma AfterStep(rows: seq<Row>, row: Row, cs: seq<Child>, i: nat, limit: int, depth: int, maxDepth: int,
      safeKey: string -> string)
    requires i < |cs|
    ensures After(rows, row, cs, i + 1, limit, depth, maxDepth, safeKey) ==
      Filled(After(rows, row, cs, i, limit, depth, maxDepth, safeKey),
          Preorder(cs[i].value, cs[i].path, depth, maxDepth, safeKey), limit)
  {
    hide Forest, Preorder, Filled;
    var front, more := Forest(cs[..i], depth, maxDepth, safeKey),
        Preorder(cs[i].value, cs[i].path, depth, maxDepth, safeKey);
    ForestStep(cs, i, depth, maxDepth, safeKey);
    FilledTwice(rows, [row] + front, more, limit);
    assert [row] + (front + more) == [row] + front + more;
  }

  lemma AfterNone(rows: seq<Row>, row: Row, cs: seq<Child>, limit: int, depth: int, maxDepth: int,
      safeKey: string -> string)
    requires |rows| < limit
    ensures After(rows, row, cs, 0, limit, depth, maxDepth, safeKey) == rows + [row]
  {
  }

  /** Once the limit is reached the remaining children add nothing, so stopping early, and
      the cap on the children of one value, never show. */
  lemma FullIsFinal(rows: seq<Row>, row: Row, cs: seq<Child>, i: nat, limit: int, depth: int, maxDepth: int,
      safeKey: string -> string)
    requires i <= |cs|
    requires |After(rows, row, cs, i, limit, depth, maxDepth, safeKey)| >= limit || i == |cs| || i == limit
    ensures After(rows, row, cs, i, limit, depth, maxDepth, safeKey) ==
      Filled(rows, [row] + Forest(cs, depth, maxDepth, safeKey), limit)
  {
    hide Forest;
    assert cs == cs[..i] + cs[i..];
    ForestConcat(cs[..i], cs[i..], depth, maxDepth, safeKey);
    ForestIsLong(cs[..i], depth, maxDepth, safeKey);
    FilledTwice(rows, [row] + Forest(cs[..i], depth, maxDepth, safeKey), Forest(cs[i..], depth, maxDepth, safeKey),
        limit);
    assert i == |cs| ==> cs[..i] == cs;
  }

  // -------------------------------------------------------------------- the walk

  class Walker {
    const maxDepth: int
    const maxItems: int
    const safeKey: string -> string
    var rows: seq<Row>

    constructor (maxDepth: int, maxItems: int, safeKey: string -> string)
      ensures this.maxDepth == maxDepth && this.maxItems == maxItems && this.safeKey == safeKey && rows == []
    {
      this.maxDepth, this.maxItems, this.safeKey, rows := maxDepth, maxItems, safeKey, [];
    }

    /** `sorted(value.keys())` with the values, or the items with their indices. */
    method ListChildren(v: Json, path: string) returns (cs: seq<Child>)
      ensures cs == Children(v, path, safeKey)
    {
      match v {
        case Object(fields) =>
          LessIsStrict(fields.Keys);
          var keys := Enumerate(fields.Keys, Less);
          cs := Mapped(keys, Field(fields, path, safeKey));
        case Array(items) => cs := ItemChildren(items, path);
        case Str(_) => cs := [];
        case Other(_) => cs := [];
      }
    }

    /** `walk`: the rows are those of the full preorder up to the limit. */
    method Walk(v: Json, path: string, depth: int)
      modifies this`rows
      ensures rows == Filled(old(rows), Preorder(v, path, depth, maxDepth, safeKey), maxItems)
      decreases maxDepth - depth
    {
      hide Forest, Children, After, Filled;
      ghost var before := rows;
      if |rows| >= maxItems {
        FullAlready(Preorder(v, path, depth, maxDepth, safeKey));
        return;
      }
      rows := rows + [RowOf(v, path)];
      if depth >= maxDepth {
        OneRow(before, RowOf(v, path));
        return;
      }
      var all := ListChildren(v, path);
      AfterNone(before, RowOf(v, path), all, maxItems, depth + 1, maxDepth, safeKey);
      var cap := if |all| <= maxItems then |all| else maxItems;
      for i := 0 to cap
        invariant rows == After(before, RowOf(v, path), all, i, maxItems, depth + 1, maxDepth, safeKey)
      {
        AfterStep(before, RowOf(v, path), all, i, maxItems, depth + 1, maxDepth, safeKey);
        Walk(all[i].value, all[i].path, depth + 1);
        if |rows| >= maxItems {
          FullIsFinal(before, RowOf(v, path), all, i + 1, maxItems, depth + 1, maxDepth, safeKey);
          return;
        }
      }
      FullIsFinal(before, RowOf(v, path), all, cap, maxItems, depth + 1, maxDepth, safeKey);
    }

    lemma FullAlready(more: seq<Row>)
      requires |rows| >= maxItems
      ensures Filled(rows, more, maxItems) == rows
    {
    }

    lemma OneRow(before: seq<Row>, row: Row)
      requires |before| < maxItems
      ensures Filled(before, [row] + [], maxItems) == before + [row]
    {
    }
  }

  /** From no rows the walk gives the first `maxItems` rows of the full preorder. */
  method WalkAll(v: Json, maxDepth: int, maxItems: nat, safeKey: string -> string) returns (rows: seq<Row>)
    ensures
      var all := Preorder(v, "$", 0, maxDepth, safeKey);
      rows == all[..if |all| <= maxItems then |all| else maxItems]
  {
    hide Preorder;
    var w := new Walker(maxDepth, maxItems, safeKey);
    w.Walk(v, "$", 0);
    rows := w.rows;
    assert [] + Preorder(v, "$", 0, maxDepth, safeKey) == Preorder(v, "$", 0, maxDepth, safeKey);
  }
}
