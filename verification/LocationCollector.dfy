/** The budgeted walk that collects locations, and what it finds. */
module LocationCollector {
  import opened PyText
  import opened PyDict
  import opened ToolLocations

  const MAX_DEPTH := 4
  const MAX_NODES := 100

  // ---- The walk ----

  /** The nodes of a value in preorder, cut below the maximum depth and skipping `content` fields. */
  function Nodes(v: Json, depth: nat): seq<Json>
    decreases v, 0
  {
    if depth > MAX_DEPTH then []
    else
      [v] + match v
            case JArray(items) => ItemNodes(items, depth + 1)
            case JObject(fields) => FieldNodes(fields, depth + 1)
            case _ => []
  }

  function ItemNodes(items: seq<Json>, depth: nat): seq<Json>
    decreases items, 1
  {
    if |items| == 0 then []
    else ItemNodes(items[..|items| - 1], depth) + Nodes(items[|items| - 1], depth)
  }

  function FieldNodes(fields: seq<Field>, depth: nat): seq<Json>
    decreases fields, 1
  {
    if |fields| == 0 then []
    else
      var last := fields[|fields| - 1];
      FieldNodes(fields[..|fields| - 1], depth) + if last.name == "content" then [] else Nodes(last.value, depth)
  }

  function Take<T>(s: seq<T>, n: int): seq<T> {
    if n < 0 then [] else if n > |s| then s else s[..n]
  }

  /** What one value contributes within the budget. */
  function Found(decode: UrlDecoder, v: Json): seq<Location> {
    AllContribute(decode, Take(Nodes(v, 0), MAX_NODES))
  }

  function AllFound(decode: UrlDecoder, values: seq<Json>): seq<Location> {
    if |values| == 0 then [] else AllFound(decode, values[..|values| - 1]) + Found(decode, values[|values| - 1])
  }

  lemma {:induction false} AllContributeConcat(decode: UrlDecoder, a: seq<Json>, b: seq<Json>)
    ensures AllContribute(decode, a + b) == AllContribute(decode, a) + AllContribute(decode, b)
  {
    hide Contributes;
    if |b| == 0 {
      assert a + b == a;
    } else {
      assert (a + b)[..|a + b| - 1] == a + b[..|b| - 1];
      AllContributeConcat(decode, a, b[..|b| - 1]);
    }
  }

  lemma TakeConcat<T>(a: seq<T>, b: seq<T>, n: nat)
    ensures Take(a + b, n) == Take(a, n) + Take(b, n - |a|)
  {
  }

  lemma TakeAll<T>(s: seq<T>, n: int)
    requires |s| <= n
    ensures Take(s, n) == s
  {
  }

  // ---- The unbounded walk agrees within both limits ----

  /** Every node, without a limit on depth. */
  function EveryNode(v: Json): seq<Json>
    decreases v, 0
  {
    [v] + match v
          case JArray(items) => EveryItemNode(items)
          case JObject(fields) => EveryFieldNode(fields)
          case _ => []
  }

  function EveryItemNode(items: seq<Json>): seq<Json>
    decreases items, 1
  {
    if |items| == 0 then [] else EveryItemNode(items[..|items| - 1]) + EveryNode(items[|items| - 1])
  }

  function EveryFieldNode(fields: seq<Field>): seq<Json>
    decreases fields, 1
  {
    if |fields| == 0 then []
    else
      var last := fields[|fields| - 1];
      EveryFieldNode(fields[..|fields| - 1]) + if last.name == "content" then [] else EveryNode(last.value)
  }

  /** Nothing the walk reaches lies more than `levels` below the top. */
  predicate Within(v: Json, levels: int)
    decreases v, 0
  {
    levels >= 0 &&
    match v
    case JArray(items) => forall i :: 0 <= i < |items| ==> Within(items[i], levels - 1)
    case JObject(fields) =>
      forall i :: 0 <= i < |fields| ==> fields[i].name == "content" || Within(fields[i].value, levels - 1)
    case _ => true
  }

  lemma {:induction false} ShallowNodes(v: Json, depth: nat)
    requires Within(v, MAX_DEPTH - depth)
    ensures Nodes(v, depth) == EveryNode(v)
    decreases v, 0
  {
    match v
    case JArray(items) => ShallowItems(items, depth + 1);
    case JObject(fields) => ShallowFields(fields, depth + 1);
    case _ =>
  }

  lemma {:induction false} ShallowItems(items: seq<Json>, depth: nat)
    requires forall i :: 0 <= i < |items| ==> Within(items[i], MAX_DEPTH - depth)
    ensures ItemNodes(items, depth) == EveryItemNode(items)
    decreases items, 1
  {
    if |items| > 0 {
      ShallowItems(items[..|items| - 1], depth);
      ShallowNodes(items[|items| - 1], depth);
    }
  }

  lemma {:induction false} ShallowFields(fields: seq<Field>, depth: nat)
    requires forall i :: 0 <= i < |fields| ==> fields[i].name == "content" || Within(fields[i].value, MAX_DEPTH - depth)
    ensures FieldNodes(fields, depth) == EveryFieldNode(fields)
    decreases fields, 1
  {
    if |fields| > 0 {
      var last := fields[|fields| - 1];
      ShallowFields(fields[..|fields| - 1], depth);
      if last.name != "content" { ShallowNodes(last.value, depth); }
    }
  }

  /** On a value within both limits the budget changes nothing. */
  lemma {:induction false} BudgetIsInvisible(decode: UrlDecoder, v: Json)
    requires Within(v, MAX_DEPTH) && |EveryNode(v)| <= MAX_NODES
    ensures Found(decode, v) == AllContribute(decode, EveryNode(v))
  {
    ShallowNodes(v, 0);
    TakeAll(Nodes(v, 0), MAX_NODES);
    hide Nodes, EveryNode, Take, AllContribute;
  }

  // ---- The dict of locations ----

  /** `f"{path}:{line or ''}"` */
  function KeyOf(x: Location): string {
    x.path + ":" + if x.line.Some? then Decimal(x.line.value) else ""
  }

  lemma {:induction false} KeyInjective(x: Location, y: Location)
    requires KeyOf(x) == KeyOf(y)
    ensures x == y
  {
    var s := KeyOf(x);
    assert s[|x.path|] == ':' && s[|y.path|] == ':';
    assert forall i :: |x.path| < i < |s| ==> IsDigit(s[i]);
    assert forall i :: |y.path| < i < |s| ==> IsDigit(s[i]);
    assert |x.path| == |y.path|;
    assert x.path == s[..|x.path|] == y.path;
    assert s[|x.path| + 1..] == (if x.line.Some? then Decimal(x.line.value) else "");
    assert s[|x.path| + 1..] == (if y.line.Some? then Decimal(y.line.value) else "");
    if x.line.Some? && y.line.Some? { DecimalInjective(x.line.value, y.line.value); }
  }

  /** `d` holds `locs`, in order, under their keys. */
  ghost predicate Represents(d: Dict<string, Location>, locs: seq<Location>) {
    d.Valid() && |d.keys| == |locs| &&
    forall i :: 0 <= i < |locs| ==> d.keys[i] == KeyOf(locs[i]) && d.keys[i] in d.vals && d.vals[d.keys[i]] == locs[i]
  }

  function KeysOf(locs: seq<Location>): seq<string> {
    seq(|locs|, i requires 0 <= i < |locs| => KeyOf(locs[i]))
  }

  lemma {:induction false} WithoutBare(locs: seq<Location>, path: string)
    ensures Without(KeysOf(locs), KeyOf(Location(path, None))) == KeysOf(DropBare(locs, path))
  {
    if |locs| > 0 {
      var front, last := locs[..|locs| - 1], locs[|locs| - 1];
      WithoutBare(front, path);
      assert KeysOf(locs) == KeysOf(front) + [KeyOf(last)];
      WithoutSnoc(KeysOf(front), KeyOf(last), KeyOf(Location(path, None)));
      if KeyOf(last) == KeyOf(Location(path, None)) { KeyInjective(last, Location(path, None)); }
    }
  }

  lemma {:induction false} DropBareMembers(locs: seq<Location>, path: string, y: Location)
    ensures y in DropBare(locs, path) <==> y in locs && y != Location(path, None)
  {
    if |locs| > 0 {
      assert locs == locs[..|locs| - 1] + [locs[|locs| - 1]];
      DropBareMembers(locs[..|locs| - 1], path, y);
    }
  }

  lemma {:induction false} PopRepresents(d: Dict<string, Location>, locs: seq<Location>, path: string)
    requires Represents(d, locs)
    ensures Represents(d.Pop(KeyOf(Location(path, None))), DropBare(locs, path))
  {
    var bare := Location(path, None);
    var n, left := d.Pop(KeyOf(bare)), DropBare(locs, path);
    assert d.keys == KeysOf(locs);
    WithoutBare(locs, path);
    forall i | 0 <= i < |left|
      ensures n.keys[i] == KeyOf(left[i]) && n.keys[i] in n.vals && n.vals[n.keys[i]] == left[i]
    {
      DropBareMembers(locs, path, left[i]);
      var j :| 0 <= j < |locs| && locs[j] == left[i];
      if KeyOf(left[i]) == KeyOf(bare) { KeyInjective(left[i], bare); }
    }
  }

  lemma {:induction false} PutRepresents(d: Dict<string, Location>, locs: seq<Location>, x: Location)
    requires Represents(d, locs) && x !in locs
    ensures KeyOf(x) !in d.vals
    ensures Represents(d.Put(KeyOf(x), x), locs + [x])
  {
    if KeyOf(x) in d.vals {
      var i :| 0 <= i < |d.keys| && d.keys[i] == KeyOf(x);
      KeyInjective(locs[i], x);
      assert false;
    }
  }

  /** The loop of `_add_tool_location` over the existing entries: stop at one that covers `x`, and delete
      an entry that `x` gives its first line. */
  method Supersede(d: Dict<string, Location>, x: Location, ghost locs: seq<Location>)
    returns (n: Dict<string, Location>, covered: bool)
    requires Represents(d, locs) && Canonical(locs)
    ensures covered == Covered(locs, x)
    ensures if covered then Represents(n, locs) else Represents(n, DropBare(locs, x.path))
  {
    hide KeyOf, DropBare, Represents, Canonical, Covered;
    n := d;
    ghost var bare, at := Location(x.path, None), -1;
    EntriesOf(d, locs);
    for i := 0 to |d.keys|
      invariant -1 <= at < i
      invariant at >= 0 ==> locs[at] == bare && Represents(n, DropBare(locs, x.path))
      invariant at < 0 ==> Represents(n, locs) && forall j :: 0 <= j < i ==> locs[j] != bare
      invariant forall j :: 0 <= j < i && locs[j].path == x.path ==> x.line.Some? && locs[j] != x
    {
      var existing := d.vals[d.keys[i]];
      if existing.path == x.path {
        if at >= 0 { NothingBeside(locs, at, i); }
        if x.line.None? || existing.line == x.line {
          CoveredAt(locs, i, x);
          return n, true;
        }
        if existing.line.None? {
          PopRepresents(n, locs, x.path);
          n, at := n.Pop(d.keys[i]), i;
        }
      }
    }
    NotCovered(locs, x);
    if at < 0 { NothingBare(locs, x.path); }
    return n, false;
  }

  method AddTo(d: Dict<string, Location>, x: Location, ghost locs: seq<Location>) returns (n: Dict<string, Location>)
    requires Represents(d, locs) && Canonical(locs)
    ensures Represents(n, Add(locs, x))
  {
    hide KeyOf, DropBare, Represents, Canonical, Covered;
    var covered;
    n, covered := Supersede(d, x, locs);
    if covered {
      return;
    }
    ghost var left := DropBare(locs, x.path);
    if x !in locs { DropBareMembers(locs, x.path, x); } else { CoveredItself(locs, x); }
    PutRepresents(n, left, x);
    if KeyOf(x) in n.vals {
      return;
    }
    n := n.Put(KeyOf(x), x);
  }

  lemma CoveredItself(locs: seq<Location>, x: Location)
    requires x in locs
    ensures Covered(locs, x)
  {
  }

  /** An entry without a line is the only one for its path. */
  lemma NothingBeside(locs: seq<Location>, at: int, i: int)
    requires Canonical(locs) && 0 <= at < |locs| && 0 <= i < |locs| && at != i && locs[at].line.None?
    ensures locs[i].path != locs[at].path
  {
    assert locs[at] in locs && locs[i] in locs;
  }

  lemma EntriesOf(d: Dict<string, Location>, locs: seq<Location>)
    requires Represents(d, locs)
    ensures |d.keys| == |locs|
    ensures forall i :: 0 <= i < |locs| ==>
      d.keys[i] in d.vals && d.vals[d.keys[i]] == locs[i] && d.keys[i] == KeyOf(locs[i])
  {
  }

  lemma NotCovered(locs: seq<Location>, x: Location)
    requires forall j :: 0 <= j < |locs| && locs[j].path == x.path ==> x.line.Some? && locs[j] != x
    ensures !Covered(locs, x)
  {
  }

  lemma CoveredAt(locs: seq<Location>, i: int, x: Location)
    requires 0 <= i < |locs| && locs[i].path == x.path && (x.line.None? || locs[i] == x)
    ensures Covered(locs, x)
  {
  }

  /** A walk over `nodes` takes the locations from `before` to `after`, and the visit count from `start` to
      `end`, if it handles as many of the nodes, in order, as the budget still allows. */
  ghost predicate Walked(
    decode: UrlDecoder, before: seq<Location>, start: nat, nodes: seq<Json>, after: seq<Location>, end: nat)
  {
    start <= MAX_NODES && end == start + |Take(nodes, MAX_NODES - start)| &&
    after == AddAll(before, AllContribute(decode, Take(nodes, MAX_NODES - start)))
  }

  lemma WalkNothing(decode: UrlDecoder, before: seq<Location>, start: nat, nodes: seq<Json>)
    requires start <= MAX_NODES && (start == MAX_NODES || nodes == [])
    ensures Walked(decode, before, start, nodes, before, start)
  {
    assert Take(nodes, MAX_NODES - start) == [];
  }

  lemma WalkOne(decode: UrlDecoder, before: seq<Location>, start: nat, v: Json)
    requires start < MAX_NODES
    ensures Walked(decode, before, start, [v], AddAll(before, Contributes(decode, v)), start + 1)
  {
    hide Contributes;
    assert Take([v], MAX_NODES - start) == [v] && [v][..0] == [];
    assert AllContribute(decode, [v]) == Contributes(decode, v);
  }

  lemma TakeTwice<T>(a: seq<T>, b: seq<T>, n: nat)
    ensures Take(a + b, n) == Take(a, n) + Take(b, n - |Take(a, n)|)
  {
    TakeConcat(a, b, n);
  }

  lemma {:induction false} WalkTwice(
    decode: UrlDecoder, l0: seq<Location>, n0: nat, a: seq<Json>, l1: seq<Location>, n1: nat,
    b: seq<Json>, l2: seq<Location>, n2: nat)
    requires Walked(decode, l0, n0, a, l1, n1) && Walked(decode, l1, n1, b, l2, n2)
    ensures Walked(decode, l0, n0, a + b, l2, n2)
  {
    hide AllContribute, AddAll, Take;
    var a', b' := Take(a, MAX_NODES - n0), Take(b, MAX_NODES - n1);
    TakeTwice(a, b, MAX_NODES - n0);
    assert MAX_NODES - n0 - |a'| == MAX_NODES - n1;
    assert Take(a + b, MAX_NODES - n0) == a' + b';
    AllContributeConcat(decode, a', b');
    AddAllConcat(l0, AllContribute(decode, a'), AllContribute(decode, b'));
  }

  lemma WalkFull(decode: UrlDecoder, l0: seq<Location>, n0: nat, a: seq<Json>, l1: seq<Location>, n1: nat, b: seq<Json>)
    requires Walked(decode, l0, n0, a, l1, n1) && n1 >= MAX_NODES
    ensures Walked(decode, l0, n0, a + b, l1, n1)
  {
    hide AllContribute;
    WalkNothing(decode, l1, n1, b);
    WalkTwice(decode, l0, n0, a, l1, n1, b, l1, n1);
  }

  lemma {:induction false} ItemNodesExtend(items: seq<Json>, k: nat, depth: nat) returns (rest: seq<Json>)
    requires k <= |items|
    ensures ItemNodes(items, depth) == ItemNodes(items[..k], depth) + rest
  {
    if k == |items| {
      assert items[..k] == items;
      rest := [];
    } else {
      var front := items[..|items| - 1];
      rest := ItemNodesExtend(front, k, depth);
      assert front[..k] == items[..k];
      rest := rest + Nodes(items[|items| - 1], depth);
    }
  }

  lemma {:induction false} FieldNodesExtend(fields: seq<Field>, k: nat, depth: nat) returns (rest: seq<Json>)
    requires k <= |fields|
    ensures FieldNodes(fields, depth) == FieldNodes(fields[..k], depth) + rest
  {
    hide Nodes;
    if k == |fields| {
      assert fields[..k] == fields;
      rest := [];
    } else {
      var front, last := fields[..|fields| - 1], fields[|fields| - 1];
      rest := FieldNodesExtend(front, k, depth);
      assert front[..k] == fields[..k];
      rest := rest + if last.name == "content" then [] else Nodes(last.value, depth);
    }
  }

  lemma FieldsStep(v: Json, fields: seq<Field>, i: nat, depth: nat)
    requires i < |fields|
    ensures fields[i].name == "content" ==> FieldNodes(fields[..i + 1], depth) == FieldNodes(fields[..i], depth)
    ensures fields[i].name != "content" ==>
      [v] + FieldNodes(fields[..i + 1], depth) == [v] + FieldNodes(fields[..i], depth) + Nodes(fields[i].value, depth)
  {
    hide Nodes;
    assert fields[..i + 1][..i] == fields[..i];
  }

  lemma FieldsFull(
    decode: UrlDecoder, before: seq<Location>, start: nat, v: Json, fields: seq<Field>, k: nat, depth: nat,
    after: seq<Location>, end: nat)
    requires k <= |fields| && Walked(decode, before, start, [v] + FieldNodes(fields[..k], depth), after, end) &&
      end >= MAX_NODES
    ensures Walked(decode, before, start, [v] + FieldNodes(fields, depth), after, end)
  {
    hide Walked;
    var rest := FieldNodesExtend(fields, k, depth);
    WalkFull(decode, before, start, [v] + FieldNodes(fields[..k], depth), after, end, rest);
    assert [v] + FieldNodes(fields[..k], depth) + rest == [v] + FieldNodes(fields, depth);
  }

  class Collector {
    const decode: UrlDecoder
    var locations: Dict<string, Location>
    var visited: nat
    ghost var listed: seq<Location>

    ghost predicate Valid()
      reads this
    {
      Represents(locations, listed) && Canonical(listed) && visited <= MAX_NODES
    }

    constructor (decode: UrlDecoder)
      ensures Valid() && listed == [] && visited == 0 && this.decode == decode
    {
      this.decode := decode;
      locations, visited, listed := Empty(), 0, [];
    }

    /** `_add_tool_location` */
    method AddToolLocation(raw: string, line: Option<pos>)
      requires Valid()
      modifies this`locations, this`listed
      ensures Valid() && listed == AddAll(old(listed), LocationAt(decode, raw, line))
    {
      var path := NormalizePath(decode, raw);
      hide NormalizePath;
      if path.None? {
        return;
      }
      var x := Location(path.value, line);
      assert AddAll(listed, [x]) == Add(listed, x) by { assert [x][..0] == []; }
      AddKeepsCanonical(listed, x);
      hide Represents, Canonical, Add, AddAll;
      locations := AddTo(locations, x, listed);
      listed := Add(listed, x);
    }

    /** `_collect_locations_from_text_markers` */
    method CollectMarkers(text: string)
      requires Valid()
      modifies this`locations, this`listed
      ensures Valid() && listed == AddAll(old(listed), Markers(decode, text))
    {
      hide Marked, LocationAt, AddAll, Canonical, Represents;
      var lines := Lines(text);
      for i := 0 to |lines|
        invariant Valid()
        invariant AddAll(listed, MarkersIn(decode, lines[i..])) == AddAll(old(listed), Markers(decode, text))
      {
        assert lines[i..][0] == lines[i] && lines[i..][1..] == lines[i + 1..];
        var candidate := Marked(lines[i]);
        if candidate != "" {
          AddAllConcat(listed, LocationAt(decode, candidate, None), MarkersIn(decode, lines[i + 1..]));
          AddToolLocation(candidate, None);
        } else {
          assert [] + MarkersIn(decode, lines[i + 1..]) == MarkersIn(decode, lines[i + 1..]);
        }
      }
      AddNone(listed);
    }

    /** The path keys of a record, all with its line. */
    method CollectPaths(fields: seq<Field>, line: Option<pos>)
      requires Valid()
      modifies this`locations, this`listed
      ensures Valid() && listed == AddAll(old(listed), Paths(decode, fields, PATH_KEYS, line))
    {
      var keys := PATH_KEYS;
      ghost var all := Paths(decode, fields, keys, line);
      assert all == Paths(decode, fields, PATH_KEYS, line);
      hide PATH_KEYS, LocationAt, AddAll, Canonical, Represents;
      for i := 0 to |keys|
        invariant Valid()
        invariant AddAll(listed, Paths(decode, fields, keys[i..], line)) == AddAll(old(listed), all)
      {
        assert keys[i..][0] == keys[i] && keys[i..][1..] == keys[i + 1..];
        var raw := Lookup(fields, keys[i]);
        if raw.JString? {
          AddAllConcat(listed, LocationAt(decode, raw.text, line), Paths(decode, fields, keys[i + 1..], line));
          AddToolLocation(raw.text, line);
        } else {
          assert [] + Paths(decode, fields, keys[i + 1..], line) == Paths(decode, fields, keys[i + 1..], line);
        }
      }
      AddNone(listed);
    }

    /** The text blocks of a record's `content`. */
    method CollectTextBlocks(blocks: seq<Json>)
      requires Valid()
      modifies this`locations, this`listed
      ensures Valid() && listed == AddAll(old(listed), TextBlocks(decode, blocks))
    {
      hide Markers, AddAll, Canonical, Represents;
      for i := 0 to |blocks|
        invariant Valid()
        invariant AddAll(listed, TextBlocks(decode, blocks[i..])) == AddAll(old(listed), TextBlocks(decode, blocks))
      {
        assert blocks[i..][0] == blocks[i] && blocks[i..][1..] == blocks[i + 1..];
        var text := if blocks[i].JObject? then Lookup(blocks[i].fields, "text") else JNull;
        if blocks[i].JObject? && Lookup(blocks[i].fields, "type") == JString("text") && text.JString? {
          AddAllConcat(listed, Markers(decode, text.text), TextBlocks(decode, blocks[i + 1..]));
          CollectMarkers(text.text);
        } else {
          assert [] + TextBlocks(decode, blocks[i + 1..]) == TextBlocks(decode, blocks[i + 1..]);
        }
      }
      AddNone(listed);
    }

    /** `_collect_tool_locations` */
    method Collect(v: Json, depth: nat)
      requires Valid()
      modifies this
      ensures Valid() && Walked(decode, old(listed), old(visited), Nodes(v, depth), listed, visited)
      decreases v
    {
      hide AddAll, Canonical, Represents, Walked, Paths, Markers, TextBlocks, Lookup, FirstLine, PATH_KEYS, LINE_KEYS;
      if visited >= MAX_NODES || depth > MAX_DEPTH {
        WalkNothing(decode, listed, visited, Nodes(v, depth));
        return;
      }
      WalkOne(decode, listed, visited, v);
      AddNone(listed);
      assert [v] + [] == [v];
      visited := visited + 1;
      match v
      case JString(text) =>
        CollectMarkers(text);
      case JArray(items) =>
        CollectItems(v, items, depth, old(listed), old(visited));
      case JObject(fields) =>
        var line := FirstLine(fields, LINE_KEYS);
        CollectPaths(fields, line);
        var content := Lookup(fields, "content");
        AddAllConcat(old(listed), Paths(decode, fields, PATH_KEYS, line),
                     if content.JArray? then TextBlocks(decode, content.items) else []);
        AddNone(listed);
        if content.JArray? {
          CollectTextBlocks(content.items);
        }
        CollectFields(v, fields, depth, old(listed), old(visited));
      case _ =>
    }

    method CollectItems(v: Json, items: seq<Json>, depth: nat, ghost before: seq<Location>, ghost start: nat)
      requires Valid() && v == JArray(items) && depth <= MAX_DEPTH && start <= MAX_NODES
      requires Walked(decode, before, start, [v], listed, visited)
      modifies this
      ensures Valid() && Walked(decode, before, start, Nodes(v, depth), listed, visited)
      decreases v, 0
    {
      hide AddAll, Canonical, Represents, Walked;
      assert [v] + ItemNodes(items[..0], depth + 1) == [v];
      for i := 0 to |items|
        invariant Valid()
        invariant Walked(decode, before, start, [v] + ItemNodes(items[..i], depth + 1), listed, visited)
      {
        label Here:
        Collect(items[i], depth + 1);
        var done := [v] + ItemNodes(items[..i], depth + 1);
        WalkTwice(decode, before, start, done, old@Here(listed), old@Here(visited), Nodes(items[i], depth + 1), listed,
          visited);
        assert items[..i + 1][..i] == items[..i];
        assert done + Nodes(items[i], depth + 1) == [v] + ItemNodes(items[..i + 1], depth + 1);
        if visited >= MAX_NODES {
          var rest := ItemNodesExtend(items, i + 1, depth + 1);
          WalkFull(decode, before, start, [v] + ItemNodes(items[..i + 1], depth + 1), listed, visited, rest);
          assert [v] + ItemNodes(items[..i + 1], depth + 1) + rest == [v] + ItemNodes(items, depth + 1);
          return;
        }
      }
      assert items[..|items|] == items;
    }

    method CollectFields(v: Json, fields: seq<Field>, depth: nat, ghost before: seq<Location>, ghost start: nat)
      requires Valid() && v == JObject(fields) && depth <= MAX_DEPTH && start <= MAX_NODES
      requires Walked(decode, before, start, [v], listed, visited)
      modifies this
      ensures Valid() && Walked(decode, before, start, Nodes(v, depth), listed, visited)
      decreases v, 0
    {
      hide AddAll, Canonical, Represents, Walked;
      assert [v] + FieldNodes(fields[..0], depth + 1) == [v];
      for i := 0 to |fields|
        invariant Valid()
        invariant Walked(decode, before, start, [v] + FieldNodes(fields[..i], depth + 1), listed, visited)
      {
        label Here:
        FieldsStep(v, fields, i, depth + 1);
        if fields[i].name == "content" {
          continue;
        }
        Collect(fields[i].value, depth + 1);
        WalkTwice(decode, before, start, [v] + FieldNodes(fields[..i], depth + 1), old@Here(listed), old@Here(visited),
                  Nodes(fields[i].value, depth + 1), listed, visited);
        if visited >= MAX_NODES {
          FieldsFull(decode, before, start, v, fields, i + 1, depth + 1, listed, visited);
          return;
        }
      }
      assert fields[..|fields|] == fields;
    }
  }

  lemma AddKeepsCanonical(locs: seq<Location>, x: Location)
    requires Canonical(locs)
    ensures Canonical(Add(locs, x))
  {
    CanonicalIsFixed(locs);
    assert (locs + [x])[..|locs|] == locs;
    AddAllIsCanonical(locs + [x]);
  }

  lemma AddNone(locs: seq<Location>)
    ensures AddAll(locs, []) == locs
  {
  }
}
