/** What tool values contribute to the list of file locations, and the normal form that list is kept in:
    `src/openzues/services/acp_event_mapper.py`. */
module ToolLocations {
  import opened PyText

  // ---- Values ----

  datatype Number = Finite(value: real) | NotFinite

  datatype Json =
    | JNull
    | JBool(flag: bool)
    | JNumber(number: Number)
    | JString(text: string)
    | JArray(items: seq<Json>)
    | JObject(fields: seq<Field>)

  datatype Field = Field(name: string, value: Json)

  /** `record.get(name)` */
  function Lookup(fields: seq<Field>, name: string): Json {
    if |fields| == 0 then JNull
    else if fields[0].name == name then fields[0].value
    else Lookup(fields[1..], name)
  }

  // ---- Paths, lines and markers ----

  /** How a `file://` URL decodes, if it does; URL parsing itself is not modelled. */
  type UrlDecoder = string -> Option<string>

  /** A letter as a case-insensitive Unicode regular expression matches it. */
  predicate IsLetter(c: char, lower: char, upper: char) {
    c == lower || c == upper ||
    (lower == 's' && c == '\U{17f}') || (lower == 'i' && (c == '\U{130}' || c == '\U{131}'))
  }

  predicate HasScheme(s: string, lower: string, upper: string)
    requires |lower| == |upper|
  {
    |lower| + 3 <= |s| && s[|lower|..|lower| + 3] == "://" &&
    forall i :: 0 <= i < |lower| ==> IsLetter(s[i], lower[i], upper[i])
  }

  /** `_normalize_tool_location_path` */
  function NormalizePath(decode: UrlDecoder, raw: string): Option<string> {
    var trimmed := Strip(raw);
    if trimmed == "" || |trimmed| > 4096 || '\0' in trimmed || '\r' in trimmed || '\n' in trimmed then None
    else if HasScheme(trimmed, "http", "HTTP") || HasScheme(trimmed, "https", "HTTPS") then None
    else if HasScheme(trimmed, "file", "FILE") then
      var path := decode(trimmed);
      if path == Some("") then None else path
    else Some(trimmed)
  }

  type pos = n: int | n > 0 witness 1

  /** `_normalize_tool_location_line`: the floor of a finite number, if positive. */
  function NormalizeLine(v: Json): Option<pos> {
    if v.JNumber? && v.number.Finite? && v.number.value.Floor > 0 then Some(v.number.value.Floor) else None
  }

  const LINE_KEYS := ["line", "lineNumber", "line_number", "startLine", "start_line"]

  const PATH_KEYS := [
    "path", "filePath", "file_path", "targetPath", "target_path", "targetFile", "target_file", "sourcePath",
    "source_path", "destinationPath", "destination_path", "oldPath", "old_path", "newPath", "new_path",
    "outputPath", "output_path", "inputPath", "input_path"]

  function FirstLine(fields: seq<Field>, keys: seq<string>): Option<pos> {
    if |keys| == 0 then None
    else
      var line := NormalizeLine(Lookup(fields, keys[0]));
      if line.Some? then line else FirstLine(fields, keys[1..])
  }

  datatype Location = Location(path: string, line: Option<pos>)

  function LocationAt(decode: UrlDecoder, raw: string, line: Option<pos>): seq<Location> {
    var path := NormalizePath(decode, raw);
    if path.Some? then [Location(path.value, line)] else []
  }

  function Paths(decode: UrlDecoder, fields: seq<Field>, keys: seq<string>, line: Option<pos>): seq<Location> {
    if |keys| == 0 then []
    else
      var raw := Lookup(fields, keys[0]);
      (if raw.JString? then LocationAt(decode, raw.text, line) else []) + Paths(decode, fields, keys[1..], line)
  }

  /** `text.split("\n")` */
  function Lines(text: string): (lines: seq<string>)
    ensures |lines| > 0
  {
    if |text| == 0 then [""]
    else
      var rest := Lines(text[1..]);
      if text[0] == '\n' then [""] + rest else [[text[0]] + rest[0]] + rest[1..]
  }

  /** What a line marked `FILE:` or `MEDIA:` names, if anything. */
  function Marked(line: string): string {
    if "FILE:" <= line then Strip(line[5..]) else if "MEDIA:" <= line then Strip(line[6..]) else ""
  }

  function MarkersIn(decode: UrlDecoder, lines: seq<string>): seq<Location> {
    if |lines| == 0 then []
    else
      (if Marked(lines[0]) != "" then LocationAt(decode, Marked(lines[0]), None) else []) +
      MarkersIn(decode, lines[1..])
  }

  /** `_collect_locations_from_text_markers` */
  function Markers(decode: UrlDecoder, text: string): seq<Location> {
    MarkersIn(decode, Lines(text))
  }

  function TextBlocks(decode: UrlDecoder, blocks: seq<Json>): seq<Location> {
    if |blocks| == 0 then []
    else
      var text := if blocks[0].JObject? then Lookup(blocks[0].fields, "text") else JNull;
      (if blocks[0].JObject? && Lookup(blocks[0].fields, "type") == JString("text") && text.JString?
       then Markers(decode, text.text) else []) + TextBlocks(decode, blocks[1..])
  }

  /** What one node of a value contributes, by itself. */
  function Contributes(decode: UrlDecoder, v: Json): seq<Location> {
    match v
    case JString(text) => Markers(decode, text)
    case JObject(fields) =>
      var content := Lookup(fields, "content");
      Paths(decode, fields, PATH_KEYS, FirstLine(fields, LINE_KEYS)) +
      if content.JArray? then TextBlocks(decode, content.items) else []
    case _ => []
  }

  function AllContribute(decode: UrlDecoder, nodes: seq<Json>): seq<Location> {
    if |nodes| == 0 then [] else AllContribute(decode, nodes[..|nodes| - 1]) + Contributes(decode, nodes[|nodes| - 1])
  }

  // ---- The normal form ----

  /** An entry that already says what `x` says. */
  predicate Covered(locs: seq<Location>, x: Location) {
    exists y :: y in locs && y.path == x.path && (x.line.None? || y == x)
  }

  /** `_add_tool_location` on the locations in insertion order: a location already covered changes nothing,
      and a first line number replaces the entry without one. */
  function Add(locs: seq<Location>, x: Location): seq<Location> {
    if Covered(locs, x) then locs
    else DropBare(locs, x.path) + [x]
  }

  /** Without the entry for `path` that has no line. */
  function DropBare(locs: seq<Location>, path: string): seq<Location> {
    if |locs| == 0 then []
    else
      var last := locs[|locs| - 1];
      DropBare(locs[..|locs| - 1], path) + if last == Location(path, None) then [] else [last]
  }

  function AddAll(locs: seq<Location>, xs: seq<Location>): seq<Location> {
    if |xs| == 0 then locs else Add(AddAll(locs, xs[..|xs| - 1]), xs[|xs| - 1])
  }

  /** A path seen with a line is not listed without one. */
  predicate Lined(xs: seq<Location>, path: string) {
    exists y :: y in xs && y.path == path && y.line.Some?
  }

  /** Whether occurrence `i` is listed: it is the first of its kind, and if it has no line, its path never
      has one. */
  predicate Listed(xs: seq<Location>, i: int)
    requires 0 <= i < |xs|
  {
    xs[i] !in xs[..i] && (xs[i].line.None? ==> !Lined(xs, xs[i].path))
  }

  /** The listed occurrences among the first `n`, in order. */
  function ListedUpTo(xs: seq<Location>, n: nat): seq<Location>
    requires n <= |xs|
  {
    if n == 0 then [] else ListedUpTo(xs, n - 1) + if Listed(xs, n - 1) then [xs[n - 1]] else []
  }

  function NormalForm(xs: seq<Location>): seq<Location> {
    ListedUpTo(xs, |xs|)
  }

  lemma {:induction false} ListedMembers(xs: seq<Location>, n: nat, y: Location)
    requires n <= |xs|
    ensures y in ListedUpTo(xs, n) <==> y in xs[..n] && (y.line.None? ==> !Lined(xs, y.path))
  {
    if n > 0 {
      ListedMembers(xs, n - 1, y);
      assert xs[..n] == xs[..n - 1] + [xs[n - 1]];
    }
  }

  /** Exactly what is listed, whatever the order: every occurrence with a line, and a path without one if
      it never occurs with one. */
  lemma {:induction false} NormalFormMembers(xs: seq<Location>, y: Location)
    ensures y in NormalForm(xs) <==> y in xs && (y.line.None? ==> !Lined(xs, y.path))
  {
    ListedMembers(xs, |xs|, y);
    assert xs[..|xs|] == xs;
  }

  lemma {:induction false} ListedDistinct(xs: seq<Location>, n: nat)
    requires n <= |xs|
    ensures forall i, j :: 0 <= i < j < |ListedUpTo(xs, n)| ==> ListedUpTo(xs, n)[i] != ListedUpTo(xs, n)[j]
  {
    if n > 0 {
      ListedDistinct(xs, n - 1);
      ListedMembers(xs, n - 1, xs[n - 1]);
    }
  }

  lemma LinedSnoc(xs: seq<Location>, x: Location, path: string)
    ensures Lined(xs + [x], path) <==> Lined(xs, path) || (x.path == path && x.line.Some?)
  {
    if Lined(xs, path) {
      var y :| y in xs && y.path == path && y.line.Some?;
      assert y in xs + [x];
    }
    if x.path == path && x.line.Some? { assert x in xs + [x]; }
  }

  lemma ListedSnoc(xs: seq<Location>, x: Location, i: nat)
    requires i < |xs|
    ensures Listed(xs + [x], i) <==> Listed(xs, i) && !(x.line.Some? && xs[i] == Location(x.path, None))
  {
    hide Lined;
    LinedSnoc(xs, x, xs[i].path);
    assert (xs + [x])[..i] == xs[..i];
  }

  lemma {:induction false} ListedAfterOneMore(xs: seq<Location>, x: Location, n: nat)
    requires n <= |xs|
    ensures ListedUpTo(xs + [x], n) == if x.line.Some? then DropBare(ListedUpTo(xs, n), x.path) else ListedUpTo(xs, n)
  {
    if n > 0 {
      hide Listed, ListedUpTo, DropBare;
      ListedAfterOneMore(xs, x, n - 1);
      ListedSnoc(xs, x, n - 1);
      ListedStep(xs, n);
      ListedStep(xs + [x], n);
      DropBareSnoc(ListedUpTo(xs, n - 1), xs[n - 1], x.path);
    }
  }

  lemma ListedStep(xs: seq<Location>, n: nat)
    requires 0 < n <= |xs|
    ensures ListedUpTo(xs, n) ==
      if Listed(xs, n - 1) then ListedUpTo(xs, n - 1) + [xs[n - 1]] else ListedUpTo(xs, n - 1)
  {
    hide Listed;
  }

  lemma DropBareSnoc(locs: seq<Location>, last: Location, path: string)
    ensures DropBare(locs + [last], path) ==
      DropBare(locs, path) + if last == Location(path, None) then [] else [last]
  {
    assert (locs + [last])[..|locs|] == locs;
  }

  /** Adding one occurrence at a time computes the normal form. */
  lemma {:induction false} AddAllIsNormalForm(xs: seq<Location>)
    ensures AddAll([], xs) == NormalForm(xs)
  {
    if |xs| > 0 {
      var front, x := xs[..|xs| - 1], xs[|xs| - 1];
      assert xs == front + [x];
      AddAllIsNormalForm(front);
      ListedAfterOneMore(front, x, |front|);
      AddOneMore(front, x);
      assert xs[..|front|] == front;
      LinedSnoc(front, x, x.path);
    }
  }

  lemma {:induction false} AddOneMore(front: seq<Location>, x: Location)
    ensures Add(NormalForm(front), x) ==
      (if x.line.Some? then DropBare(NormalForm(front), x.path) else NormalForm(front)) +
      if x !in front && (x.line.None? ==> !Lined(front, x.path)) then [x] else []
  {
    var nf := NormalForm(front);
    NormalFormMembers(front, x);
    if x.line.Some? {
      if x in front {
        assert Lined(front, x.path);
        NormalFormMembers(front, Location(x.path, None));
        NothingBare(nf, x.path);
      }
    } else if Lined(front, x.path) {
      var y :| y in front && y.path == x.path && y.line.Some?;
      NormalFormMembers(front, y);
    } else {
      forall y | y in nf && y.path == x.path ensures y == x { NormalFormMembers(front, y); }
      if x !in nf { NothingBare(nf, x.path); }
    }
  }

  lemma {:induction false} NothingBare(locs: seq<Location>, path: string)
    requires Location(path, None) !in locs
    ensures DropBare(locs, path) == locs
  {
    if |locs| > 0 {
      assert locs == locs[..|locs| - 1] + [locs[|locs| - 1]];
      NothingBare(locs[..|locs| - 1], path);
    }
  }

  /** So the order of occurrences decides only the order of the list. */
  lemma {:induction false} OrderOnlyOrders(xs: seq<Location>, ys: seq<Location>, y: Location)
    requires forall z :: z in xs <==> z in ys
    ensures y in AddAll([], xs) <==> y in AddAll([], ys)
  {
    AddAllIsNormalForm(xs);
    AddAllIsNormalForm(ys);
    NormalFormMembers(xs, y);
    NormalFormMembers(ys, y);
  }

  lemma {:induction false} AddAllConcat(locs: seq<Location>, xs: seq<Location>, ys: seq<Location>)
    ensures AddAll(locs, xs + ys) == AddAll(AddAll(locs, xs), ys)
  {
    if |ys| == 0 {
      assert xs + ys == xs;
    } else {
      assert (xs + ys)[..|xs + ys| - 1] == xs + ys[..|ys| - 1];
      AddAllConcat(locs, xs, ys[..|ys| - 1]);
    }
  }

  /** A list in normal form: no duplicates, and no path both with and without a line. */
  ghost predicate Canonical(locs: seq<Location>) {
    (forall i, j :: 0 <= i < j < |locs| ==> locs[i] != locs[j]) &&
    forall x :: x in locs && x.line.None? ==> !Lined(locs, x.path)
  }

  lemma {:induction false} AddAllIsCanonical(xs: seq<Location>)
    ensures Canonical(AddAll([], xs))
  {
    AddAllIsNormalForm(xs);
    ListedDistinct(xs, |xs|);
    var nf := NormalForm(xs);
    forall x | x in nf && x.line.None? ensures !Lined(nf, x.path) {
      NormalFormMembers(xs, x);
      forall y | y in nf ensures y in xs { NormalFormMembers(xs, y); }
    }
  }

  /** Normal forms are fixed points, element for element. */
  lemma {:induction false} CanonicalIsFixed(locs: seq<Location>)
    requires Canonical(locs)
    ensures AddAll([], locs) == locs
  {
    AddAllIsNormalForm(locs);
    AllListed(locs, |locs|);
    assert locs[..|locs|] == locs;
  }

  lemma {:induction false} AllListed(locs: seq<Location>, n: nat)
    requires Canonical(locs) && n <= |locs|
    ensures ListedUpTo(locs, n) == locs[..n]
  {
    if n > 0 {
      AllListed(locs, n - 1);
      assert locs[n - 1] in locs;
      assert locs[..n] == locs[..n - 1] + [locs[n - 1]];
    }
  }

  // ---- When the normal form is a given list ----

  predicate Names(locs: seq<Location>, path: string) {
    exists x :: x in locs && x.path == path
  }

  /** `xs` has every location of `locs`, with a line none but those, and without a line none but their paths. */
  ghost predicate SaysAll(xs: seq<Location>, locs: seq<Location>) {
    (forall x :: x in locs ==> x in xs) &&
    forall y :: y in xs ==> if y.line.Some? then y in locs else Names(locs, y.path)
  }

  /** No path is listed both with and without a line. */
  ghost predicate Consistent(locs: seq<Location>) {
    forall x :: x in locs && x.line.None? ==> !Lined(locs, x.path)
  }

  /** No `b` occurs before the first `a`. */
  ghost predicate Before(xs: seq<Location>, a: Location, b: Location) {
    forall p :: 0 <= p < |xs| && xs[p] == b ==> a in xs[..p]
  }

  /** The locations of `locs` first occur in that order. */
  ghost predicate InOrder(xs: seq<Location>, locs: seq<Location>) {
    forall i, j :: 0 <= i < j < |locs| ==> Before(xs, locs[i], locs[j])
  }

  ghost predicate SameMembers(a: seq<Location>, b: seq<Location>) {
    forall y :: y in a <==> y in b
  }

  lemma LinedAlike(xs: seq<Location>, locs: seq<Location>, path: string)
    requires forall y: Location :: y.line.Some? ==> (y in xs <==> y in locs)
    ensures Lined(xs, path) <==> Lined(locs, path)
  {
  }

  lemma {:induction false} NormalFormSaysIff(xs: seq<Location>, locs: seq<Location>)
    ensures SameMembers(NormalForm(xs), locs) <==> SaysAll(xs, locs) && Consistent(locs)
  {
    hide NormalForm, Lined;
    forall y: Location
      ensures y in NormalForm(xs) <==> y in xs && (y.line.None? ==> !Lined(xs, y.path))
      ensures y in locs ==> Names(locs, y.path)
    {
      NormalFormMembers(xs, y);
    }
    if SameMembers(NormalForm(xs), locs) {
      forall path: string ensures Lined(xs, path) <==> Lined(locs, path) { LinedAlike(xs, locs, path); }
      forall y | y in xs && y.line.None? ensures Names(locs, y.path) { BareIsNamed(xs, locs, y); }
    } else if SaysAll(xs, locs) && Consistent(locs) {
      forall path: string ensures Lined(xs, path) <==> Lined(locs, path) { LinedAlike(xs, locs, path); }
      forall y | y in NormalForm(xs) ensures y in locs { NamedIsListed(locs, y); }
    }
  }

  lemma BareIsNamed(xs: seq<Location>, locs: seq<Location>, y: Location)
    requires y in xs && y.line.None? && (Lined(xs, y.path) <==> Lined(locs, y.path))
    requires !Lined(xs, y.path) ==> y in locs
    ensures Names(locs, y.path)
  {
  }

  lemma NamedIsListed(locs: seq<Location>, y: Location)
    requires if y.line.Some? then y in locs else Names(locs, y.path) && !Lined(locs, y.path)
    ensures y in locs
  {
    if y.line.None? {
      var x :| x in locs && x.path == y.path;
      assert x.line.None?;
    }
  }

  lemma {:induction false} ListedInOrder(xs: seq<Location>, n: nat)
    requires n <= |xs|
    ensures InOrder(xs, ListedUpTo(xs, n))
  {
    if n > 0 {
      hide Lined;
      var before := ListedUpTo(xs, n - 1);
      ListedInOrder(xs, n - 1);
      if Listed(xs, n - 1) {
        forall i | 0 <= i < |before| ensures Before(xs, before[i], xs[n - 1]) {
          ListedMembers(xs, n - 1, before[i]);
          FirstAt(xs, n - 1, before[i]);
        }
      }
    }
  }

  lemma FirstAt(xs: seq<Location>, n: nat, a: Location)
    requires n < |xs| && xs[n] !in xs[..n] && a in xs[..n]
    ensures Before(xs, a, xs[n])
  {
    assert forall p :: 0 <= p < n ==> xs[p] == xs[..n][p];
    var o :| 0 <= o < n && xs[..n][o] == a;
    forall p | 0 <= p < |xs| && xs[p] == xs[n] ensures a in xs[..p] { assert xs[..p][o] == a; }
  }

  lemma {:induction false} NotBothFirst(xs: seq<Location>, a: Location, b: Location, p: nat)
    requires p < |xs| && xs[p] == b && Before(xs, a, b) && Before(xs, b, a)
    ensures false
    decreases p
  {
    hide Before;
    var o := FoundBefore(xs, a, b, p);
    NotBothFirst(xs, b, a, o);
  }

  lemma FoundBefore(xs: seq<Location>, a: Location, b: Location, p: nat) returns (o: nat)
    requires p < |xs| && xs[p] == b && Before(xs, a, b)
    ensures o < p && xs[o] == a
  {
    var i :| 0 <= i < p && xs[..p][i] == a;
    o := i;
  }

  /** Two lists of the same locations, each once, in the order of their first occurrences, are equal. */
  lemma {:induction false} OrderDecides(xs: seq<Location>, a: seq<Location>, b: seq<Location>)
    requires Distinct(a) && Distinct(b) && SameMembers(a, b) && InOrder(xs, a) && InOrder(xs, b)
    requires forall y :: y in a ==> y in xs
    ensures a == b
  {
    assert |b| > 0 ==> b[0] in b;
    if |a| != 0 {
      hide InOrder, Distinct;
      LastsAgree(xs, a, b);
      WithoutLast(xs, a);
      WithoutLast(xs, b);
      SameButLast(a[..|a| - 1], a, b[..|b| - 1], b, a[|a| - 1]);
      OrderDecides(xs, a[..|a| - 1], b[..|b| - 1]);
      assert a == a[..|a| - 1] + [a[|a| - 1]] && b == b[..|b| - 1] + [b[|b| - 1]];
    }
  }

  lemma SameButLast(c: seq<Location>, a: seq<Location>, d: seq<Location>, b: seq<Location>, x: Location)
    requires SameMembers(a, b)
    requires (forall y :: y in c <==> y in a && y != x) && forall y :: y in d <==> y in b && y != x
    ensures SameMembers(c, d)
  {
  }

  ghost predicate Distinct(a: seq<Location>) {
    forall i, j :: 0 <= i < j < |a| ==> a[i] != a[j]
  }

  lemma WithoutLast(xs: seq<Location>, a: seq<Location>)
    requires |a| > 0 && Distinct(a) && InOrder(xs, a)
    ensures Distinct(a[..|a| - 1]) && InOrder(xs, a[..|a| - 1])
    ensures forall y :: y in a[..|a| - 1] <==> y in a && y != a[|a| - 1]
  {
    hide Before;
    assert a == a[..|a| - 1] + [a[|a| - 1]];
  }

  lemma LastsAgree(xs: seq<Location>, a: seq<Location>, b: seq<Location>)
    requires |a| > 0 && SameMembers(a, b) && InOrder(xs, a) && InOrder(xs, b)
    requires forall y :: y in a ==> y in xs
    ensures |b| > 0 && b[|b| - 1] == a[|a| - 1]
  {
    hide Before;
    var x := a[|a| - 1];
    assert x in b;
    var y := b[|b| - 1];
    assert y in a && y in b;
    if x != y {
      var i :| 0 <= i < |a| && a[i] == y;
      var j :| 0 <= j < |b| && b[j] == x;
      var p :| 0 <= p < |xs| && xs[p] == x;
      NotBothFirst(xs, y, x, p);
    }
  }

  /** The normal form of `xs` is exactly the list `locs` if and only if `locs` is in normal form, `xs` says the same,
      and the locations of `locs` first occur in `xs` in their order. */
  lemma {:induction false} NormalFormIsIff(xs: seq<Location>, locs: seq<Location>)
    ensures NormalForm(xs) == locs <==> Canonical(locs) && SaysAll(xs, locs) && InOrder(xs, locs)
  {
    hide SaysAll, InOrder, ListedUpTo, Lined, Listed;
    AddAllIsNormalForm(xs);
    AddAllIsCanonical(xs);
    NormalFormSaysIff(xs, locs);
    ListedInOrder(xs, |xs|);
    if Canonical(locs) && SaysAll(xs, locs) && InOrder(xs, locs) {
      forall y | y in NormalForm(xs) ensures y in xs { NormalFormMembers(xs, y); }
      OrderDecides(xs, NormalForm(xs), locs);
    }
  }
}
