/** Extracting the locations of a tool call, and feeding an extracted list back in. */
module LocationExtract {
  import opened PyText
  import opened PyDict
  import opened ToolLocations
  import opened LocationCollector

  /** `extract_tool_call_locations`: each value has a budget of its own, all share one list. */
  method ExtractToolCallLocations(decode: UrlDecoder, values: seq<Json>) returns (r: Option<seq<Location>>)
    ensures r == Extracted(decode, values)
  {
    var c := new Collector(decode);
    hide Canonical, Represents, AddAll, Nodes, Take, AllContribute;
    AddNone([]);
    for i := 0 to |values|
      invariant c.Valid() && c.decode == decode
      invariant c.listed == AddAll([], AllFound(decode, values[..i]))
    {
      c.visited := 0;
      ghost var before := c.listed;
      c.Collect(values[i], 0);
      assert values[..i + 1][..i] == values[..i];
      AddAllConcat([], AllFound(decode, values[..i]), Found(decode, values[i]));
    }
    assert values[..|values|] == values;
    AddAllIsNormalForm(AllFound(decode, values));
    var d := c.locations;
    EntriesOf(d, c.listed);
    if |d.keys| == 0 {
      return None;
    }
    var all := seq(|d.keys|, i requires 0 <= i < |d.keys| => d.vals[d.keys[i]]);
    assert all == c.listed;
    return Some(all);
  }

  function Extracted(decode: UrlDecoder, values: seq<Json>): Option<seq<Location>> {
    var listed := NormalForm(AllFound(decode, values));
    if listed == [] then None else Some(listed)
  }

  // ---- Feeding a list back ----

  /** A location as the dict that is stored with the tool call. */
  function Encoded(x: Location): Json {
    JObject([Field("path", JString(x.path))] +
            if x.line.Some? then [Field("line", JNumber(Finite(x.line.value as real)))] else [])
  }

  function EncodedAll(locs: seq<Location>): seq<Json> {
    if |locs| == 0 then [] else EncodedAll(locs[..|locs| - 1]) + [Encoded(locs[|locs| - 1])]
  }

  /** What a tool call stores: nothing if nothing was found. */
  function Stored(locs: seq<Location>): Json {
    if locs == [] then JNull else JArray(EncodedAll(locs))
  }

  /** Normalisation leaves every path alone. */
  predicate AllNormal(decode: UrlDecoder, locs: seq<Location>) {
    forall x :: x in locs ==> NormalizePath(decode, x.path) == Some(x.path)
  }

  /** And no path names further locations. */
  predicate AllPlain(decode: UrlDecoder, locs: seq<Location>) {
    AllNormal(decode, locs) && forall x :: x in locs ==> Markers(decode, x.path) == []
  }

  /** How many nodes the dicts of `locs` have. */
  function Weight(locs: seq<Location>): nat {
    if |locs| == 0 then 0 else Weight(locs[..|locs| - 1]) + if locs[|locs| - 1].line.Some? then 3 else 2
  }

  /** The locations whose dicts are reached when the walk of the list has `n` nodes left. */
  function Reached(locs: seq<Location>, n: int): seq<Location> {
    if |locs| == 0 then []
    else
      var front := locs[..|locs| - 1];
      if Weight(front) < n then locs else Reached(front, n)
  }

  /** What the dict of `x` contributes if the walk has `n` nodes left: `x`, its path normalised once more, and what the
      path marks. */
  function Part(decode: UrlDecoder, x: Location, n: int): seq<Location> {
    (if n > 0 then LocationAt(decode, x.path, x.line) else []) + if n > 1 then Markers(decode, x.path) else []
  }

  function Parts(decode: UrlDecoder, locs: seq<Location>, n: int): seq<Location> {
    if |locs| == 0 then []
    else
      var front := locs[..|locs| - 1];
      Parts(decode, front, n) + Part(decode, locs[|locs| - 1], n - Weight(front))
  }

  lemma {:induction false} NoPaths(decode: UrlDecoder, fields: seq<Field>, keys: seq<string>, line: Option<pos>)
    requires forall k :: k in keys ==> Lookup(fields, k) == JNull
    ensures Paths(decode, fields, keys, line) == []
  {
    if |keys| != 0 {
      assert Lookup(fields, keys[0]) == JNull;
      NoPaths(decode, fields, keys[1..], line);
    }
  }

  lemma {:induction false} NoLine(fields: seq<Field>, keys: seq<string>)
    requires forall k :: k in keys ==> Lookup(fields, k) == JNull
    ensures FirstLine(fields, keys) == None
  {
    if |keys| != 0 {
      assert Lookup(fields, keys[0]) == JNull;
      NoLine(fields, keys[1..]);
    }
  }

  lemma OtherFields(x: Location, k: string)
    requires |k| > 4
    ensures Lookup(Encoded(x).fields, k) == JNull
  {
    var fields := Encoded(x).fields;
    assert fields[0].name == "path" && Lookup([], k) == JNull;
    if x.line.Some? {
      assert fields[1..][0].name == "line" && fields[1..][1..] == [];
    } else {
      assert fields[1..] == [];
    }
  }

  lemma OtherKeys(x: Location, keys: seq<string>)
    requires |keys| > 0 && forall i :: 1 <= i < |keys| ==> |keys[i]| > 4
    ensures forall k :: k in keys[1..] ==> Lookup(Encoded(x).fields, k) == JNull
  {
    forall k | k in keys[1..] ensures Lookup(Encoded(x).fields, k) == JNull {
      var i :| 0 <= i < |keys[1..]| && keys[1..][i] == k;
      assert k == keys[i + 1];
      OtherFields(x, k);
    }
  }

  lemma KeysAreLong()
    ensures |PATH_KEYS| == 19 && |LINE_KEYS| == 5 && PATH_KEYS[0] == "path" && LINE_KEYS[0] == "line"
    ensures forall i :: 1 <= i < |PATH_KEYS| ==> |PATH_KEYS[i]| > 4
    ensures forall i :: 1 <= i < |LINE_KEYS| ==> |LINE_KEYS[i]| > 4
  {
  }

  lemma EncodedLine(x: Location)
    ensures FirstLine(Encoded(x).fields, LINE_KEYS) == x.line
  {
    var fields := Encoded(x).fields;
    KeysAreLong();
    assert fields[0].name != "line" by { assert fields[0].name[0] != "line"[0]; }
    hide LINE_KEYS;
    if x.line.Some? {
      var number := JNumber(Finite(x.line.value as real));
      assert fields[1..][0] == Field("line", number);
      assert Lookup(fields, "line") == Lookup(fields[1..], "line") == number;
      assert NormalizeLine(number) == x.line;
    } else {
      assert fields[1..] == [] && Lookup([], "line") == JNull;
      OtherKeys(x, LINE_KEYS);
      NoLine(fields, LINE_KEYS[1..]);
    }
  }

  /** The dict of a location contributes just that location, if its path is still one. */
  lemma {:induction false} EncodedContributes(decode: UrlDecoder, x: Location)
    ensures Contributes(decode, Encoded(x)) == LocationAt(decode, x.path, x.line)
  {
    hide PATH_KEYS, LINE_KEYS, LocationAt, FirstLine;
    var fields := Encoded(x).fields;
    KeysAreLong();
    EncodedLine(x);
    OtherFields(x, "content");
    assert fields[0] == Field("path", JString(x.path));
    hide Encoded;
    OtherKeys(x, PATH_KEYS);
    NoPaths(decode, fields, PATH_KEYS[1..], x.line);
  }

  lemma LeafNodes(v: Json)
    requires v.JString? || v.JNumber?
    ensures Nodes(v, 2) == [v]
  {
  }

  lemma EncodedNodes(x: Location)
    ensures x.line.None? ==> Nodes(Encoded(x), 1) == [Encoded(x), JString(x.path)]
    ensures x.line.Some? ==>
      Nodes(Encoded(x), 1) == [Encoded(x), JString(x.path), JNumber(Finite(x.line.value as real))]
  {
    var v, p := Encoded(x), JString(x.path);
    var fields := v.fields;
    assert |fields| >= 1 && fields[0].value == p && |fields[0].name| == 4;
    LeafNodes(p);
    assert FieldNodes(fields[..1], 2) == [p] by { assert fields[..1][..0] == []; assert FieldNodes([], 2) == []; }
    if x.line.Some? {
      var l := JNumber(Finite(x.line.value as real));
      LeafNodes(l);
      assert fields[1].value == l && |fields[1].name| == 4;
      assert FieldNodes(fields, 2) == [p, l] by { assert fields[..|fields| - 1] == fields[..1]; }
    } else {
      assert fields[..1] == fields;
    }
  }

  lemma NothingContributes(decode: UrlDecoder)
    ensures AllContribute(decode, []) == []
  {
  }

  lemma ContributeSnoc(decode: UrlDecoder, nodes: seq<Json>, v: Json)
    ensures AllContribute(decode, nodes + [v]) == AllContribute(decode, nodes) + Contributes(decode, v)
  {
    hide Contributes;
    assert (nodes + [v])[..|nodes|] == nodes;
  }

  lemma StringsContributeMarkers(decode: UrlDecoder, text: string)
    ensures Contributes(decode, JString(text)) == Markers(decode, text)
  {
  }

  lemma NumbersContributeNothing(decode: UrlDecoder, v: Json)
    requires v.JNumber?
    ensures Contributes(decode, v) == []
  {
  }

  /** Of two or three nodes the first two decide, if a third contributes nothing. */
  lemma FirstTwoContribute(decode: UrlDecoder, nodes: seq<Json>, n: int)
    requires 2 <= |nodes| <= 3 && (|nodes| == 3 ==> Contributes(decode, nodes[2]) == [])
    ensures AllContribute(decode, Take(nodes, n)) ==
      (if n > 0 then Contributes(decode, nodes[0]) else []) + if n > 1 then Contributes(decode, nodes[1]) else []
  {
    hide Contributes, AllContribute;
    NothingContributes(decode);
    ContributeSnoc(decode, [], nodes[0]);
    assert [] + [nodes[0]] == nodes[..1];
    ContributeSnoc(decode, nodes[..1], nodes[1]);
    assert nodes[..1] + [nodes[1]] == nodes[..2];
    if |nodes| > 2 {
      ContributeSnoc(decode, nodes[..2], nodes[2]);
      assert nodes[..2] + [nodes[2]] == nodes[..3];
    }
    assert nodes[..|nodes|] == nodes;
    assert n <= 0 ==> Take(nodes, n) == [];
  }

  lemma {:induction false} NodesOfEncoded(decode: UrlDecoder, x: Location, n: int)
    ensures |Nodes(Encoded(x), 1)| == if x.line.Some? then 3 else 2
    ensures AllContribute(decode, Take(Nodes(Encoded(x), 1), n)) == Part(decode, x, n)
  {
    hide Contributes, LocationAt, Markers, Nodes, AllContribute, Encoded, Take;
    EncodedContributes(decode, x);
    EncodedNodes(x);
    StringsContributeMarkers(decode, x.path);
    if x.line.Some? { NumbersContributeNothing(decode, JNumber(Finite(x.line.value as real))); }
    FirstTwoContribute(decode, Nodes(Encoded(x), 1), n);
  }

  lemma {:induction false} ContributeWithin(decode: UrlDecoder, a: seq<Json>, b: seq<Json>, n: int)
    ensures AllContribute(decode, Take(a + b, n)) ==
      AllContribute(decode, Take(a, n)) + AllContribute(decode, Take(b, n - |a|))
  {
    if n < 0 {
      NothingContributes(decode);
    } else {
      TakeConcat(a, b, n);
      AllContributeConcat(decode, Take(a, n), Take(b, n - |a|));
    }
  }

  /** The nodes of the dicts of `locs`. */
  function DictNodes(locs: seq<Location>): seq<Json> {
    ItemNodes(EncodedAll(locs), 1)
  }

  lemma DictNodesSnoc(locs: seq<Location>)
    requires |locs| > 0
    ensures DictNodes(locs) == DictNodes(locs[..|locs| - 1]) + Nodes(Encoded(locs[|locs| - 1]), 1)
  {
    hide Nodes, Encoded;
    var items := EncodedAll(locs);
    assert items[..|items| - 1] == EncodedAll(locs[..|locs| - 1]);
  }

  lemma {:induction false} DictNodesLength(locs: seq<Location>)
    ensures |DictNodes(locs)| == Weight(locs)
  {
    hide Nodes, Encoded;
    if |locs| != 0 {
      hide DictNodes;
      DictNodesSnoc(locs);
      DictNodesLength(locs[..|locs| - 1]);
      EncodedNodes(locs[|locs| - 1]);
    }
  }

  /** A walk over the dicts of `locs` finds the parts within its budget. */
  lemma {:induction false} WalkFindsParts(decode: UrlDecoder, locs: seq<Location>, n: int)
    ensures AllContribute(decode, Take(DictNodes(locs), n)) == Parts(decode, locs, n)
  {
    hide Contributes, Encoded, AllContribute, Nodes, Weight, Part;
    if |locs| == 0 {
      NothingContributes(decode);
    } else {
      hide Take, DictNodes;
      var front, last := locs[..|locs| - 1], locs[|locs| - 1];
      WalkFindsParts(decode, front, n);
      DictNodesLength(front);
      NodesOfEncoded(decode, last, n - Weight(front));
      DictNodesSnoc(locs);
      ContributeWithin(decode, DictNodes(front), Nodes(Encoded(last), 1), n);
    }
  }

  lemma {:induction false} PlainParts(decode: UrlDecoder, locs: seq<Location>, n: int)
    requires AllPlain(decode, locs)
    ensures Parts(decode, locs, n) == Reached(locs, n)
  {
    hide NormalizePath, Markers, Weight;
    if |locs| != 0 {
      var front := locs[..|locs| - 1];
      assert locs[|locs| - 1] in locs && locs == front + [locs[|locs| - 1]];
      PlainParts(decode, front, n);
      if Weight(front) < n { ReachedAll(front, n); }
    }
  }

  lemma {:induction false} ReachedAll(locs: seq<Location>, n: int)
    requires Weight(locs) < n
    ensures Reached(locs, n) == locs
  {
    if |locs| != 0 { ReachedAll(locs[..|locs| - 1], n); }
  }

  lemma {:induction false} ReachedIsPrefix(locs: seq<Location>, n: int)
    ensures Reached(locs, n) <= locs
    ensures Reached(locs, n) == locs <==> |locs| == 0 || Weight(locs[..|locs| - 1]) < n
  {
    if |locs| != 0 { ReachedIsPrefix(locs[..|locs| - 1], n); }
  }

  lemma PrefixIsCanonical(a: seq<Location>, b: seq<Location>)
    requires a <= b && Canonical(b)
    ensures Canonical(a)
  {
    forall x | x in a && x.line.None? ensures !Lined(a, x.path) { assert x in b; }
  }

  lemma {:induction false} StoredFound(decode: UrlDecoder, locs: seq<Location>)
    ensures Found(decode, Stored(locs)) == Parts(decode, locs, MAX_NODES - 1)
  {
    var v := Stored(locs);
    assert Contributes(decode, v) == [];
    hide Contributes;
    assert AllContribute(decode, [v]) == [] by { assert [v][..0] == []; assert AllContribute(decode, []) == []; }
    if locs == [] {
      assert Nodes(v, 0) == [v] && Take([v], MAX_NODES) == [v];
    } else {
      var items := DictNodes(locs);
      WalkFindsParts(decode, locs, MAX_NODES - 1);
      TakeConcat([v], items, MAX_NODES);
      assert Nodes(v, 0) == [v] + items;
      assert Take([v], MAX_NODES) == [v];
      AllContributeConcat(decode, [v], Take(items, MAX_NODES - 1));
    }
  }

  /** Extracting from a stored list gives back the part of it that the budget reaches. */
  lemma {:induction false} ReextractedIsReached(decode: UrlDecoder, locs: seq<Location>)
    requires Canonical(locs) && AllPlain(decode, locs)
    ensures NormalForm(AllFound(decode, [Stored(locs)])) == Reached(locs, MAX_NODES - 1)
  {
    StoredFound(decode, locs);
    PlainParts(decode, locs, MAX_NODES - 1);
    OneFound(decode, Stored(locs));
    var r := Reached(locs, MAX_NODES - 1);
    ReachedIsPrefix(locs, MAX_NODES - 1);
    PrefixIsCanonical(r, locs);
    CanonicalIsFixed(r);
    AddAllIsNormalForm(r);
  }

  lemma OneFound(decode: UrlDecoder, v: Json)
    ensures AllFound(decode, [v]) == Found(decode, v)
  {
    hide Found;
    assert [v][..0] == [];
    assert AllFound(decode, []) == [];
  }

  /** It gives the whole list back, in order, if and only if the dicts of all but its last location leave
      one of the 99 nodes below the list. */
  lemma {:induction false} ReextractsIff(decode: UrlDecoder, locs: seq<Location>)
    requires Canonical(locs) && AllPlain(decode, locs)
    ensures NormalForm(AllFound(decode, [Stored(locs)])) == locs <==>
      |locs| == 0 || Weight(locs[..|locs| - 1]) <= MAX_NODES - 2
  {
    ReextractedIsReached(decode, locs);
    ReachedIsPrefix(locs, MAX_NODES - 1);
  }

  lemma {:induction false} WeightBounds(locs: seq<Location>)
    ensures 2 * |locs| <= Weight(locs) <= 3 * |locs|
    ensures (forall x :: x in locs ==> x.line.Some?) ==> Weight(locs) == 3 * |locs|
    ensures (forall x :: x in locs ==> x.line.None?) ==> Weight(locs) == 2 * |locs|
  {
    if |locs| != 0 {
      var front := locs[..|locs| - 1];
      assert forall x :: x in front ==> x in locs;
      WeightBounds(front);
      assert locs[|locs| - 1] in locs;
    }
  }

  /** Up to 33 locations always come back, more than 50 never do; with line numbers throughout 33 is the
      limit, without any it is 50. */
  lemma {:induction false} ReextractionLimits(decode: UrlDecoder, locs: seq<Location>)
    requires Canonical(locs) && AllPlain(decode, locs)
    ensures |locs| <= 33 ==> NormalForm(AllFound(decode, [Stored(locs)])) == locs
    ensures |locs| > 50 ==> NormalForm(AllFound(decode, [Stored(locs)])) != locs
    ensures (forall x :: x in locs ==> x.line.Some?) ==>
      (NormalForm(AllFound(decode, [Stored(locs)])) == locs <==> |locs| <= 33)
    ensures (forall x :: x in locs ==> x.line.None?) ==>
      (NormalForm(AllFound(decode, [Stored(locs)])) == locs <==> |locs| <= 50)
  {
    ReextractsIff(decode, locs);
    if |locs| != 0 {
      var front := locs[..|locs| - 1];
      assert forall x :: x in front ==> x in locs;
      WeightBounds(front);
    }
  }

  // ---- Paths that read as markers ----

  /** The walk of the stored list still reads the path of a location that marks `y`. */
  predicate MarkedIn(decode: UrlDecoder, locs: seq<Location>, n: int, y: Location) {
    exists i :: 0 <= i < |locs| && Weight(locs[..i]) + 1 < n && y in Markers(decode, locs[i].path)
  }

  lemma {:induction false} MarkersAreBare(decode: UrlDecoder, lines: seq<string>, y: Location)
    requires y in MarkersIn(decode, lines)
    ensures y.line.None?
  {
    hide NormalizePath, Marked;
    if y in MarkersIn(decode, lines[1..]) { MarkersAreBare(decode, lines[1..], y); }
  }

  lemma MarkedInSnoc(decode: UrlDecoder, locs: seq<Location>, n: int, y: Location)
    requires |locs| > 0
    ensures var front, last := locs[..|locs| - 1], locs[|locs| - 1];
      MarkedIn(decode, locs, n, y) <==>
      MarkedIn(decode, front, n, y) || (Weight(front) + 1 < n && y in Markers(decode, last.path))
  {
    hide Weight, Markers;
    var front, last := locs[..|locs| - 1], locs[|locs| - 1];
    assert forall i :: 0 <= i <= |front| ==> front[..i] == locs[..i];
    if MarkedIn(decode, front, n, y) {
      var i :| 0 <= i < |front| && Weight(front[..i]) + 1 < n && y in Markers(decode, front[i].path);
      assert locs[i] == front[i];
    }
    if MarkedIn(decode, locs, n, y) {
      var i :| 0 <= i < |locs| && Weight(locs[..i]) + 1 < n && y in Markers(decode, locs[i].path);
      if i < |front| { assert front[i] == locs[i]; }
    }
  }

  /** The locations, each with its path normalised once more. */
  function Again(decode: UrlDecoder, locs: seq<Location>): seq<Location> {
    if |locs| == 0 then []
    else
      var last := locs[|locs| - 1];
      Again(decode, locs[..|locs| - 1]) + LocationAt(decode, last.path, last.line)
  }

  lemma {:induction false} PartsMembers(decode: UrlDecoder, locs: seq<Location>, n: int, y: Location)
    ensures y in Parts(decode, locs, n) <==> y in Again(decode, Reached(locs, n)) || MarkedIn(decode, locs, n, y)
    ensures MarkedIn(decode, locs, n, y) ==> y.line.None?
  {
    hide Weight, Markers, MarkedIn, LocationAt;
    if |locs| == 0 {
      NothingMarked(decode, n, y);
    } else {
      var front, last := locs[..|locs| - 1], locs[|locs| - 1];
      PartsMembers(decode, front, n, y);
      MarkedInSnoc(decode, locs, n, y);
      if Weight(front) < n { ReachedAll(front, n); }
      if y in Markers(decode, last.path) { MarkedIsBare(decode, last.path, y); }
    }
  }

  lemma NothingMarked(decode: UrlDecoder, n: int, y: Location)
    ensures !MarkedIn(decode, [], n, y)
  {
  }

  lemma MarkedIsBare(decode: UrlDecoder, text: string, y: Location)
    requires y in Markers(decode, text)
    ensures y.line.None?
  {
    MarkersAreBare(decode, Lines(text), y);
  }

  lemma PartsLined(decode: UrlDecoder, locs: seq<Location>, n: int, path: string)
    ensures Lined(Parts(decode, locs, n), path) <==> Lined(Again(decode, Reached(locs, n)), path)
  {
    hide Weight, Markers, MarkedIn, Parts, Reached, Again;
    forall y ensures y in Parts(decode, locs, n) && y.line.Some? <==>
        y in Again(decode, Reached(locs, n)) && y.line.Some? {
      PartsMembers(decode, locs, n, y);
    }
  }

  lemma LinedConcat(a: seq<Location>, b: seq<Location>, path: string)
    ensures Lined(a + b, path) <==> Lined(a, path) || Lined(b, path)
  {
    if Lined(a, path) { var z :| z in a && z.path == path && z.line.Some?; assert z in a + b; }
    if Lined(b, path) { var z :| z in b && z.path == path && z.line.Some?; assert z in a + b; }
  }

  /** A tool update keeps every stored location with a line that its budget reaches, keeps one without a line unless the
      update gives its path a line, and adds only what the update contributes and what stored paths mark. */
  lemma {:induction false} UpdateKeepsStored(decode: UrlDecoder, locs: seq<Location>, partial: Json, y: Location)
    ensures var kept, more := Again(decode, Reached(locs, MAX_NODES - 1)), Found(decode, partial);
      y in NormalForm(AllFound(decode, [Stored(locs), partial])) <==>
      (y in kept || y in more || MarkedIn(decode, locs, MAX_NODES - 1, y)) &&
      (y.line.None? ==> !Lined(kept, y.path) && !Lined(more, y.path))
  {
    hide Found, Lined, NormalForm, Parts, Reached, Again, MarkedIn, Stored;
    var parts, more := Parts(decode, locs, MAX_NODES - 1), Found(decode, partial);
    StoredFound(decode, locs);
    OneFound(decode, Stored(locs));
    assert [Stored(locs), partial][..1] == [Stored(locs)];
    assert AllFound(decode, [Stored(locs), partial]) == parts + more;
    NormalFormMembers(parts + more, y);
    LinedConcat(parts, more, y.path);
    PartsLined(decode, locs, MAX_NODES - 1, y.path);
    PartsMembers(decode, locs, MAX_NODES - 1, y);
  }

  /** The walk of a stored list reads each path, normalised once more, and then what it marks, as far as the budget
      goes; the list that comes back is the normal form of that. */
  lemma {:induction false} RereadIs(decode: UrlDecoder, locs: seq<Location>)
    ensures NormalForm(AllFound(decode, [Stored(locs)])) == NormalForm(Parts(decode, locs, MAX_NODES - 1))
  {
    hide Found, NormalForm, Parts, Stored;
    StoredFound(decode, locs);
    OneFound(decode, Stored(locs));
  }

  /** Any list gives back the same locations if and only if no path of it is both with and without a line, what is read
      has each of them, and what is read besides are only their paths. */
  lemma {:induction false} SameLocationsIff(decode: UrlDecoder, locs: seq<Location>)
    ensures SameMembers(NormalForm(AllFound(decode, [Stored(locs)])), locs) <==>
      SaysAll(Parts(decode, locs, MAX_NODES - 1), locs) && Consistent(locs)
  {
    hide NormalForm, AllFound, Stored, Parts, SaysAll, Consistent;
    RereadIs(decode, locs);
    NormalFormSaysIff(Parts(decode, locs, MAX_NODES - 1), locs);
  }

  /** And it comes back element for element if and only if, besides, it has no duplicates, and no location of it is read
      before an earlier one. */
  lemma {:induction false} SameListIff(decode: UrlDecoder, locs: seq<Location>)
    ensures NormalForm(AllFound(decode, [Stored(locs)])) == locs <==>
      var read := Parts(decode, locs, MAX_NODES - 1); Canonical(locs) && SaysAll(read, locs) && InOrder(read, locs)
  {
    hide NormalForm, AllFound, Stored, Parts, SaysAll, Canonical, InOrder;
    RereadIs(decode, locs);
    NormalFormIsIff(Parts(decode, locs, MAX_NODES - 1), locs);
  }

  lemma PartsOfOne(decode: UrlDecoder, x: Location)
    ensures Parts(decode, [x], MAX_NODES - 1) == Part(decode, x, 2)
  {
    hide LocationAt, Markers;
    assert [x][..0] == [] && Parts(decode, [], MAX_NODES - 1) == [];
  }

  lemma PartFacts(decode: UrlDecoder, x: Location, y: Location)
    requires y in Part(decode, x, 2)
    ensures y.line.Some? ==> y.line == x.line
  {
    hide NormalizePath, Markers;
    if y in Markers(decode, x.path) { MarkedIsBare(decode, x.path, y); }
  }

  /** A location comes back alone if and only if it is read, and what is read with it has the same path. */
  lemma {:induction false} AloneIff(decode: UrlDecoder, x: Location)
    ensures NormalForm(AllFound(decode, [Stored([x])])) == [x] <==>
      x in Part(decode, x, 2) && forall y :: y in Part(decode, x, 2) ==> y.path == x.path
  {
    hide AllFound, Stored, NormalForm, Part, Parts, InOrder, Names;
    CanonicalOne(x);
    SameListIff(decode, [x]);
    PartsOfOne(decode, x);
    NothingOutOfOrder(Part(decode, x, 2), x);
    forall y: Location ensures Names([x], y.path) <==> y.path == x.path { NamesOne(x, y.path); }
    forall y | y in Part(decode, x, 2) ensures y.line.Some? ==> y.line == x.line { PartFacts(decode, x, y); }
    assert x in [x];
  }

  lemma NamesOne(x: Location, path: string)
    ensures Names([x], path) <==> x.path == path
  {
    assert x in [x];
  }

  lemma NothingOutOfOrder(xs: seq<Location>, x: Location)
    ensures InOrder(xs, [x])
  {
  }

  /** So one whose path normalisation leaves alone comes back alone if and only if that path marks no other path. */
  lemma {:induction false} NormalAloneIff(decode: UrlDecoder, x: Location)
    requires NormalizePath(decode, x.path) == Some(x.path)
    ensures NormalForm(AllFound(decode, [Stored([x])])) == [x] <==>
      forall y :: y in Markers(decode, x.path) ==> y.path == x.path
  {
    hide AllFound, Stored, NormalForm, Markers, NormalizePath;
    AloneIff(decode, x);
    assert LocationAt(decode, x.path, x.line) == [x];
  }

  // ---- A path that does not come back alone ----

  lemma {:induction false} OneLine(text: string)
    requires '\n' !in text
    ensures Lines(text) == [text]
  {
    if |text| != 0 {
      OneLine(text[1..]);
      assert [text[0]] + text[1..] == text;
    }
  }

  lemma ShortPathIsPlainText(decode: UrlDecoder, path: string)
    requires 0 < |path| < 7 && Trimmed(path) && '\0' !in path && '\r' !in path && '\n' !in path
    ensures NormalizePath(decode, path) == Some(path)
  {
  }

  /** It happens: a path that reads as a marker passes normalisation, and feeding it back adds what it marks. */
  lemma {:induction false} MarkerPathGrows(decode: UrlDecoder)
    ensures Canonical([Location("FILE:x", None)]) && NormalizePath(decode, "FILE:x") == Some("FILE:x")
    ensures Location("x", None) in NormalForm(AllFound(decode, [Stored([Location("FILE:x", None)])]))
  {
    hide Canonical, NormalForm, AllFound, NormalizePath, Stored, Parts, Markers;
    var x, b := Location("FILE:x", None), Location("x", None);
    ShortPathIsPlainText(decode, "FILE:x");
    CanonicalOne(x);
    MarkerMarks(decode);
    RereadIs(decode, [x]);
    PartsOfOne(decode, x);
    assert Part(decode, x, 2) == [x, b];
    NormalFormMembers([x, b], b);
  }

  lemma CanonicalOne(x: Location)
    ensures Canonical([x])
  {
  }

  lemma MarkerMarks(decode: UrlDecoder)
    ensures Markers(decode, "FILE:x") == [Location("x", None)]
  {
    hide NormalizePath, Lines, Marked, LocationAt;
    var line, b := "FILE:x", Location("x", None);
    OneLine(line);
    MarksX();
    XIsAPath(decode);
    assert MarkersIn(decode, [line][1..]) == [];
    assert MarkersIn(decode, [line]) == [b];
  }

  lemma MarksX()
    ensures Marked("FILE:x") == "x"
  {
    hide Strip, LStrip, RStrip;
    var line := "FILE:x";
    assert "FILE:" <= line && line[5..] == [line[5]] == "x";
    assert Trimmed("x") && Strip("x") == "x";
  }

  lemma XIsAPath(decode: UrlDecoder)
    ensures LocationAt(decode, "x", None) == [Location("x", None)]
  {
    ShortPathIsPlainText(decode, "x");
  }
}
