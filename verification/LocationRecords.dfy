/** What records, text blocks and marked lines say about locations, field by field and line by line. */
module LocationRecords {
  import opened PyText
  import opened ToolLocations
  import opened LocationCollector
  import opened LocationExtract

  // ---- Fields ----

  /** Field `i` is the first named `name`, and holds `v`. */
  predicate HasAt(fields: seq<Field>, name: string, v: Json, i: int) {
    0 <= i < |fields| && fields[i] == Field(name, v) && forall j :: 0 <= j < i ==> fields[j].name != name
  }

  /** What `record.get(name)` finds. */
  ghost predicate Has(fields: seq<Field>, name: string, v: Json) {
    (exists i :: HasAt(fields, name, v, i)) ||
    (v == JNull && forall i :: 0 <= i < |fields| ==> fields[i].name != name)
  }

  lemma {:induction false} LookupHas(fields: seq<Field>, name: string)
    ensures Has(fields, name, Lookup(fields, name))
  {
    if |fields| != 0 {
      if fields[0].name == name {
        assert HasAt(fields, name, fields[0].value, 0);
      } else {
        var v, rest := Lookup(fields, name), fields[1..];
        LookupHas(rest, name);
        if i :| HasAt(rest, name, v, i) {
          assert forall j :: 0 < j < |fields| ==> fields[j] == rest[j - 1];
          assert HasAt(fields, name, v, i + 1);
        } else {
          assert forall j :: 0 < j < |fields| ==> fields[j] == rest[j - 1];
        }
      }
    }
  }

  lemma HasOnce(fields: seq<Field>, name: string, v: Json, w: Json)
    requires Has(fields, name, v) && Has(fields, name, w)
    ensures v == w
  {
    if i, j :| HasAt(fields, name, v, i) && HasAt(fields, name, w, j) {
      assert i == j;
    }
  }

  lemma LookupIff(fields: seq<Field>, name: string, v: Json)
    ensures Lookup(fields, name) == v <==> Has(fields, name, v)
  {
    hide Has;
    LookupHas(fields, name);
    if Has(fields, name, v) { HasOnce(fields, name, v, Lookup(fields, name)); }
  }

  // ---- Lines ----

  /** `v` is a finite number that counts line `n`. */
  predicate CountsLine(v: Json, n: int) {
    v.JNumber? && v.number.Finite? && n as real <= v.number.value < (n + 1) as real && n > 0
  }

  lemma CountsLineIff(v: Json, n: int)
    ensures CountsLine(v, n) <==> n > 0 && NormalizeLine(v) == Some(n)
  {
  }

  ghost predicate KeyHasLine(fields: seq<Field>, key: string, n: int) {
    exists v :: Has(fields, key, v) && CountsLine(v, n)
  }

  /** Key `k` is the first that has a line, which is `n`. */
  ghost predicate HasLineAt(fields: seq<Field>, keys: seq<string>, n: int, k: int) {
    0 <= k < |keys| && KeyHasLine(fields, keys[k], n) && forall j, m :: 0 <= j < k ==> !KeyHasLine(fields, keys[j], m)
  }

  ghost predicate HasLine(fields: seq<Field>, keys: seq<string>, line: Option<pos>) {
    if line.None? then forall k, n :: 0 <= k < |keys| ==> !KeyHasLine(fields, keys[k], n)
    else exists k :: HasLineAt(fields, keys, line.value, k)
  }

  lemma KeyHasLineIff(fields: seq<Field>, key: string, n: int)
    ensures KeyHasLine(fields, key, n) <==> n > 0 && NormalizeLine(Lookup(fields, key)) == Some(n)
  {
    hide Has, CountsLine, NormalizeLine;
    var v := Lookup(fields, key);
    forall w ensures Has(fields, key, w) <==> w == v { LookupIff(fields, key, w); }
    CountsLineIff(v, n);
  }

  lemma FirstKeyHasLine(fields: seq<Field>, keys: seq<string>, line: Option<pos>)
    requires |keys| > 0 && NormalizeLine(Lookup(fields, keys[0])).Some?
    ensures HasLine(fields, keys, line) <==> line == NormalizeLine(Lookup(fields, keys[0]))
  {
    hide KeyHasLine, NormalizeLine;
    var first := NormalizeLine(Lookup(fields, keys[0]));
    forall n ensures KeyHasLine(fields, keys[0], n) <==> n > 0 && first == Some(n) {
      KeyHasLineIff(fields, keys[0], n);
    }
    assert KeyHasLine(fields, keys[0], first.value);
    assert HasLineAt(fields, keys, first.value, 0);
    if line.Some? && HasLine(fields, keys, line) {
      var k :| HasLineAt(fields, keys, line.value, k);
      assert k == 0;
    }
  }

  lemma LaterKeyHasLine(fields: seq<Field>, keys: seq<string>, line: Option<pos>)
    requires |keys| > 0 && NormalizeLine(Lookup(fields, keys[0])).None?
    ensures HasLine(fields, keys, line) <==> HasLine(fields, keys[1..], line)
  {
    hide KeyHasLine, NormalizeLine;
    var rest := keys[1..];
    forall n ensures !KeyHasLine(fields, keys[0], n) { KeyHasLineIff(fields, keys[0], n); }
    assert forall k :: 0 < k < |keys| ==> keys[k] == rest[k - 1];
    if line.Some? {
      if k :| HasLineAt(fields, rest, line.value, k) { assert HasLineAt(fields, keys, line.value, k + 1); }
      if k :| HasLineAt(fields, keys, line.value, k) {
        assert forall j :: 0 <= j < |rest| ==> rest[j] == keys[j + 1];
        assert HasLineAt(fields, rest, line.value, k - 1);
      }
    } else {
      assert forall j :: 0 <= j < |rest| ==> rest[j] == keys[j + 1];
    }
  }

  lemma {:induction false} FirstLineIff(fields: seq<Field>, keys: seq<string>, line: Option<pos>)
    ensures FirstLine(fields, keys) == line <==> HasLine(fields, keys, line)
  {
    if |keys| == 0 {
    } else if NormalizeLine(Lookup(fields, keys[0])).Some? {
      FirstKeyHasLine(fields, keys, line);
    } else {
      hide NormalizeLine, HasLine;
      LaterKeyHasLine(fields, keys, line);
      FirstLineIff(fields, keys[1..], line);
    }
  }

  // ---- Paths ----

  /** `t` can be a path: not empty, not too long, and on one line. */
  predicate CanBePath(t: string) {
    t != "" && |t| <= 4096 && '\0' !in t && '\r' !in t && '\n' !in t
  }

  predicate HasUrlMark(t: string) {
    exists i :: 0 <= i < |t| - 2 && t[i] == ':' && t[i + 1] == '/' && t[i + 2] == '/'
  }

  /** Text that looks like no URL is a path, without its outer white space, if and only if it can be one. */
  lemma {:induction false} PlainPathIff(decode: UrlDecoder, raw: string, path: string)
    requires !HasUrlMark(Strip(raw))
    ensures NormalizePath(decode, raw) == Some(path) <==> IsStripped(raw, path) && CanBePath(path)
  {
    hide Strip, IsStripped, IsLetter;
    StripIff(raw, path);
    var t := Strip(raw);
    NoScheme(t, "http", "HTTP");
    NoScheme(t, "https", "HTTPS");
    NoScheme(t, "file", "FILE");
  }

  lemma NoScheme(t: string, lower: string, upper: string)
    requires !HasUrlMark(t) && |lower| == |upper|
    ensures !HasScheme(t, lower, upper)
  {
    if HasScheme(t, lower, upper) { SchemeHasMark(t, lower, upper); }
  }

  lemma SchemeHasMark(t: string, lower: string, upper: string)
    requires |lower| == |upper| && HasScheme(t, lower, upper)
    ensures HasUrlMark(t)
  {
    hide IsLetter;
    var i, mark := |lower|, t[|lower|..|lower| + 3];
    assert t[i] == mark[0] && t[i + 1] == mark[1] && t[i + 2] == mark[2];
  }

  lemma SchemeOf(rest: string, lower: string, upper: string)
    requires |lower| == |upper|
    ensures HasScheme(lower + "://" + rest, lower, upper) && HasScheme(upper + "://" + rest, lower, upper)
  {
    var s, t := lower + "://" + rest, upper + "://" + rest;
    assert s[|lower|..|lower| + 3] == "://" && t[|lower|..|lower| + 3] == "://";
    assert forall i :: 0 <= i < |lower| ==> s[i] == lower[i] && t[i] == upper[i];
  }

  /** Web addresses are no paths; and a file address is what it decodes to, if that is not empty. */
  lemma UrlPaths(decode: UrlDecoder, rest: string)
    requires rest != "" && !IsSpace(rest[|rest| - 1])
    ensures NormalizePath(decode, "http://" + rest) == NormalizePath(decode, "https://" + rest) == None
    ensures NormalizePath(decode, "HTTP://" + rest) == NormalizePath(decode, "HTTPS://" + rest) == None
    ensures CanBePath("file://" + rest) ==>
      NormalizePath(decode, "file://" + rest) ==
        if decode("file://" + rest) == Some("") then None else decode("file://" + rest)
  {
    hide NormalizePath, HasScheme, CanBePath;
    HttpIsNone(decode, "http", "HTTP", rest);
    HttpIsNone(decode, "https", "HTTPS", rest);
    assert "http://" + rest == "http" + "://" + rest && "https://" + rest == "https" + "://" + rest;
    assert "HTTP://" + rest == "HTTP" + "://" + rest && "HTTPS://" + rest == "HTTPS" + "://" + rest;
    if CanBePath("file://" + rest) { FileIsDecoded(decode, rest); }
  }

  lemma HttpIsNone(decode: UrlDecoder, lower: string, upper: string, rest: string)
    requires (lower == "http" && upper == "HTTP") || (lower == "https" && upper == "HTTPS")
    requires rest != "" && !IsSpace(rest[|rest| - 1])
    ensures NormalizePath(decode, lower + "://" + rest) == NormalizePath(decode, upper + "://" + rest) == None
  {
    hide Strip, IsLetter, HasScheme, IsSpace;
    SchemeOf(rest, lower, upper);
    NoSpaceFirst();
    EndsWith(lower + "://", rest);
    EndsWith(upper + "://", rest);
  }

  lemma NoSpaceFirst()
    ensures !IsSpace('h') && !IsSpace('H') && !IsSpace('f')
  {
  }

  lemma FileIsDecoded(decode: UrlDecoder, rest: string)
    requires rest != "" && !IsSpace(rest[|rest| - 1]) && CanBePath("file://" + rest)
    ensures NormalizePath(decode, "file://" + rest) ==
      if decode("file://" + rest) == Some("") then None else decode("file://" + rest)
  {
    hide Strip, IsLetter, HasScheme, IsSpace;
    var s := "file://" + rest;
    SchemeOf(rest, "file", "FILE");
    assert s == "file" + "://" + rest;
    NoSpaceFirst();
    EndsWith("file://", rest);
    FileIsNotHttp(s);
  }

  lemma EndsWith(scheme: string, rest: string)
    requires scheme != "" && !IsSpace(scheme[0]) && rest != "" && !IsSpace(rest[|rest| - 1])
    ensures Strip(scheme + rest) == scheme + rest
  {
    hide Strip, IsSpace;
  }

  lemma FileIsNotHttp(s: string)
    requires |s| >= 7 && s[0] == 'f'
    ensures !HasScheme(s, "http", "HTTP") && !HasScheme(s, "https", "HTTPS")
  {
    assert "http"[0] == 'h' && "HTTP"[0] == 'H' && "https"[0] == 'h' && "HTTPS"[0] == 'H';
    assert !IsLetter(s[0], 'h', 'H');
  }

  ghost predicate AtKey(decode: UrlDecoder, fields: seq<Field>, key: string, path: string) {
    exists raw :: Has(fields, key, JString(raw)) && NormalizePath(decode, raw) == Some(path)
  }

  /** One of the path keys holds a text that normalises to `path`. */
  ghost predicate KeyHasPath(decode: UrlDecoder, fields: seq<Field>, keys: seq<string>, path: string) {
    exists key :: key in keys && AtKey(decode, fields, key, path)
  }

  lemma OneKey(decode: UrlDecoder, fields: seq<Field>, key: string, line: Option<pos>, y: Location)
    ensures y.line == line && AtKey(decode, fields, key, y.path) <==>
      Lookup(fields, key).JString? && y in LocationAt(decode, Lookup(fields, key).text, line)
  {
    hide NormalizePath, Has;
    forall raw ensures Has(fields, key, JString(raw)) <==> Lookup(fields, key) == JString(raw) {
      LookupIff(fields, key, JString(raw));
    }
  }

  lemma {:induction false} PathsIff(decode: UrlDecoder, fields: seq<Field>, keys: seq<string>, line: Option<pos>,
                                    y: Location)
    ensures y in Paths(decode, fields, keys, line) <==> y.line == line && KeyHasPath(decode, fields, keys, y.path)
  {
    hide AtKey, LocationAt;
    if |keys| != 0 {
      PathsIff(decode, fields, keys[1..], line, y);
      OneKey(decode, fields, keys[0], line, y);
      assert forall key :: key in keys <==> key == keys[0] || key in keys[1..];
    }
  }

  // ---- Marked lines ----

  /** `line` is one of the lines of `text`. */
  ghost predicate IsLine(text: string, line: string) {
    '\n' !in line &&
    exists pre, post :: LineAt(text, pre, line, post)
  }

  predicate LineAt(text: string, pre: string, line: string, post: string) {
    text == pre + line + post && (pre == "" || pre[|pre| - 1] == '\n') && (post == "" || post[0] == '\n')
  }

  lemma LinesStep(text: string)
    requires |text| != 0
    ensures var rest := Lines(text[1..]);
      Lines(text) == if text[0] == '\n' then [""] + rest else [[text[0]] + rest[0]] + rest[1..]
  {
  }

  lemma AfterOneMore(text: string, pre: string, line: string, post: string)
    requires |text| != 0 && LineAt(text[1..], pre, line, post) && (pre != "" || text[0] == '\n')
    ensures LineAt(text, [text[0]] + pre, line, post)
  {
    assert text == [text[0]] + text[1..];
  }

  lemma InOneMore(text: string, line: string, post: string)
    requires |text| != 0 && LineAt(text[1..], "", line, post)
    ensures LineAt(text, "", [text[0]] + line, post)
  {
    assert text == [text[0]] + text[1..];
  }

  lemma {:induction false} FirstLineIs(text: string) returns (post: string)
    ensures '\n' !in Lines(text)[0] && LineAt(text, "", Lines(text)[0], post)
  {
    post := text;
    if |text| != 0 && text[0] != '\n' {
      LinesStep(text);
      hide Lines, LineAt;
      post := FirstLineIs(text[1..]);
      InOneMore(text, Lines(text[1..])[0], post);
    }
  }

  lemma {:induction false} LaterLine(text: string, line: string) returns (pre: string, post: string)
    requires line in Lines(text)[1..]
    ensures '\n' !in line && LineAt(text, pre, line, post) && pre != ""
    decreases |text|, 0
  {
    LinesStep(text);
    hide Lines, LineAt;
    if text[0] == '\n' {
      pre, post := LineOf(text[1..], line);
    } else {
      pre, post := LaterLine(text[1..], line);
    }
    AfterOneMore(text, pre, line, post);
    pre := [text[0]] + pre;
  }

  lemma {:induction false} LineOf(text: string, line: string) returns (pre: string, post: string)
    requires line in Lines(text)
    ensures '\n' !in line && LineAt(text, pre, line, post)
    decreases |text|, 1
  {
    hide Lines, LineAt;
    if line == Lines(text)[0] {
      pre := "";
      post := FirstLineIs(text);
    } else {
      pre, post := LaterLine(text, line);
    }
  }

  lemma {:induction false} LinesHave(text: string, pre: string, line: string, post: string)
    requires LineAt(text, pre, line, post) && '\n' !in line
    ensures line in Lines(text) && (pre == "" ==> Lines(text)[0] == line)
  {
    if |text| != 0 {
      var tail := text[1..];
      if pre != "" {
        assert pre == [text[0]] + pre[1..] && tail == pre[1..] + line + post;
        if pre[1..] == "" {
          LinesHave(tail, "", line, post);
        } else {
          assert pre[1..][|pre[1..]| - 1] == pre[|pre| - 1];
          LaterHave(tail, pre[1..], line, post);
        }
      } else if line != "" {
        assert line == [text[0]] + line[1..] && tail == "" + line[1..] + post;
        LinesHave(tail, "", line[1..], post);
      }
    }
  }

  lemma {:induction false} LaterHave(text: string, pre: string, line: string, post: string)
    requires LineAt(text, pre, line, post) && '\n' !in line && pre != ""
    ensures line in Lines(text)[1..]
  {
    var tail := text[1..];
    assert pre == [text[0]] + pre[1..] && tail == pre[1..] + line + post;
    if pre[1..] == "" {
      LinesHave(tail, "", line, post);
      assert Lines(text)[1..] == Lines(tail);
    } else {
      assert pre[1..][|pre[1..]| - 1] == pre[|pre| - 1];
      LaterHave(tail, pre[1..], line, post);
      assert Lines(text)[1..] == if text[0] == '\n' then Lines(tail) else Lines(tail)[1..];
    }
  }

  lemma LinesIff(text: string, line: string)
    ensures line in Lines(text) <==> IsLine(text, line)
  {
    hide LineAt;
    if line in Lines(text) { var pre, post := LineOf(text, line); }
    if IsLine(text, line) {
      var pre, post :| LineAt(text, pre, line, post);
      LinesHave(text, pre, line, post);
    }
  }

  /** The line is marked, and what it names, without outer white space, normalises to `path`. */
  ghost predicate Marks(decode: UrlDecoder, line: string, path: string) {
    exists named, t :: (line == "FILE:" + named || line == "MEDIA:" + named) && t != "" && IsStripped(named, t) &&
      NormalizePath(decode, t) == Some(path)
  }

  ghost predicate TextMarks(decode: UrlDecoder, text: string, path: string) {
    exists line :: IsLine(text, line) && Marks(decode, line, path)
  }

  lemma MarksIff(decode: UrlDecoder, line: string, path: string)
    ensures Marks(decode, line, path) <==> Marked(line) != "" && NormalizePath(decode, Marked(line)) == Some(path)
  {
    hide NormalizePath, Strip, IsStripped;
    assert |"FILE:"| == 5 && |"MEDIA:"| == 6 && "FILE:"[0] == 'F' && "MEDIA:"[0] == 'M';
    if "FILE:" <= line {
      assert line == "FILE:" + line[5..];
      StripIff(line[5..], Strip(line[5..]));
      assert Marked(line) == Strip(line[5..]);
    } else if "MEDIA:" <= line {
      assert line == "MEDIA:" + line[6..];
      StripIff(line[6..], Strip(line[6..]));
      assert Marked(line) == Strip(line[6..]);
    }
    if Marks(decode, line, path) {
      var named, t :| (line == "FILE:" + named || line == "MEDIA:" + named) && t != "" && IsStripped(named, t) &&
        NormalizePath(decode, t) == Some(path);
      StripIff(named, t);
      assert line[5..] == named || line[6..] == named;
    }
  }

  lemma {:induction false} MarkersInIff(decode: UrlDecoder, lines: seq<string>, y: Location)
    ensures y in MarkersIn(decode, lines) <==>
      y.line.None? && exists line :: line in lines && Marks(decode, line, y.path)
  {
    hide NormalizePath, Marked, Marks;
    if |lines| != 0 {
      MarksIff(decode, lines[0], y.path);
      MarkersInIff(decode, lines[1..], y);
      assert forall line :: line in lines <==> line == lines[0] || line in lines[1..];
    }
  }

  lemma MarkersIff(decode: UrlDecoder, text: string, y: Location)
    ensures y in Markers(decode, text) <==> y.line.None? && TextMarks(decode, text, y.path)
  {
    hide Lines, IsLine, Marks;
    MarkersInIff(decode, Lines(text), y);
    forall line ensures line in Lines(text) <==> IsLine(text, line) { LinesIff(text, line); }
  }

  // ---- Text blocks ----

  ghost predicate BlockMarks(decode: UrlDecoder, block: Json, path: string) {
    block.JObject? && Has(block.fields, "type", JString("text")) &&
    exists text :: Has(block.fields, "text", JString(text)) && TextMarks(decode, text, path)
  }

  lemma {:induction false} TextBlocksIff(decode: UrlDecoder, blocks: seq<Json>, y: Location)
    ensures y in TextBlocks(decode, blocks) <==>
      y.line.None? && exists block :: block in blocks && BlockMarks(decode, block, y.path)
  {
    hide BlockMarks, Markers;
    if |blocks| != 0 {
      TextBlocksIff(decode, blocks[1..], y);
      OneBlock(decode, blocks[0], y);
      assert forall block :: block in blocks <==> block == blocks[0] || block in blocks[1..];
    }
  }

  lemma OneBlock(decode: UrlDecoder, block: Json, y: Location)
    ensures y.line.None? && BlockMarks(decode, block, y.path) <==>
      block.JObject? && Lookup(block.fields, "type") == JString("text") && Lookup(block.fields, "text").JString? &&
      y in Markers(decode, Lookup(block.fields, "text").text)
  {
    hide Markers, TextMarks, Has;
    if block.JObject? {
      LookupIff(block.fields, "type", JString("text"));
      var v := Lookup(block.fields, "text");
      forall text ensures Has(block.fields, "text", JString(text)) <==> v == JString(text) {
        LookupIff(block.fields, "text", JString(text));
      }
      if v.JString? { MarkersIff(decode, v.text, y); }
    }
  }

  // ---- Nodes ----

  ghost predicate ContentMarks(decode: UrlDecoder, fields: seq<Field>, path: string) {
    exists items, block :: Has(fields, "content", JArray(items)) && block in items && BlockMarks(decode, block, path)
  }

  /** What one node says: a text the paths of its marked lines; a record the paths of its path keys, with its first line
      if it has one, and the paths marked in the text blocks of its content. */
  ghost predicate Says(decode: UrlDecoder, v: Json, y: Location) {
    match v
    case JString(text) => y.line.None? && TextMarks(decode, text, y.path)
    case JObject(fields) =>
      (HasLine(fields, LINE_KEYS, y.line) && KeyHasPath(decode, fields, PATH_KEYS, y.path)) ||
      (y.line.None? && ContentMarks(decode, fields, y.path))
    case _ => false
  }

  lemma {:induction false} SaysIff(decode: UrlDecoder, v: Json, y: Location)
    ensures y in Contributes(decode, v) <==> Says(decode, v, y)
  {
    hide Markers, TextMarks, Has, HasLine, KeyHasPath, BlockMarks, LINE_KEYS, PATH_KEYS, Paths, TextBlocks, FirstLine;
    match v
    case JString(text) => MarkersIff(decode, text, y);
    case JObject(fields) =>
      FirstLineIff(fields, LINE_KEYS, y.line);
      PathsIff(decode, fields, PATH_KEYS, FirstLine(fields, LINE_KEYS), y);
      var content := Lookup(fields, "content");
      forall items ensures Has(fields, "content", JArray(items)) <==> content == JArray(items) {
        LookupIff(fields, "content", JArray(items));
      }
      if content.JArray? { TextBlocksIff(decode, content.items, y); }
    case _ =>
  }

  /** One of the first hundred nodes of a value, in preorder, says so. */
  ghost predicate ValueSays(decode: UrlDecoder, v: Json, y: Location) {
    exists k :: 0 <= k < |Nodes(v, 0)| && k < 100 && Says(decode, Nodes(v, 0)[k], y)
  }

  lemma {:induction false} FoundIff(decode: UrlDecoder, v: Json, y: Location)
    ensures y in Found(decode, v) <==> ValueSays(decode, v, y)
  {
    hide Nodes, Says, AllContribute, Take;
    var nodes := Nodes(v, 0);
    var taken := Take(nodes, MAX_NODES);
    TakeFirst(nodes, MAX_NODES);
    AllContributeIff(decode, taken, y);
  }

  lemma TakeFirst<T>(s: seq<T>, n: nat)
    ensures |Take(s, n)| == if n < |s| then n else |s|
    ensures forall k :: 0 <= k < |Take(s, n)| ==> Take(s, n)[k] == s[k]
  {
  }

  ghost predicate SaidByOne(decode: UrlDecoder, values: seq<Json>, y: Location) {
    exists i :: 0 <= i < |values| && ValueSays(decode, values[i], y)
  }

  lemma {:induction false} AllFoundIff(decode: UrlDecoder, values: seq<Json>, y: Location)
    ensures y in AllFound(decode, values) <==> SaidByOne(decode, values, y)
  {
    hide ValueSays, Found;
    if |values| != 0 {
      var front, last := values[..|values| - 1], values[|values| - 1];
      AllFoundIff(decode, front, y);
      FoundIff(decode, last, y);
      assert forall i :: 0 <= i < |front| ==> front[i] == values[i];
    }
  }

  /** What `extract_tool_call_locations` lists: everything with a line that one of the values says, and a path without a
      line if a value says it and none says it with a line; and there is no list if and only if nothing is said. */
  lemma {:induction false} ExtractedIff(decode: UrlDecoder, values: seq<Json>, y: Location)
    ensures var r := Extracted(decode, values);
      r.Some? && y in r.value <==>
      SaidByOne(decode, values, y) &&
      (y.line.None? ==> forall n :: !SaidByOne(decode, values, Location(y.path, Some(n))))
    ensures Extracted(decode, values).None? ==> !SaidByOne(decode, values, y)
  {
    hide SaidByOne, AllFound, NormalForm;
    var all := AllFound(decode, values);
    NormalFormMembers(all, y);
    forall z ensures z in all <==> SaidByOne(decode, values, z) { AllFoundIff(decode, values, z); }
    if Lined(all, y.path) {
      var z :| z in all && z.path == y.path && z.line.Some?;
      assert z == Location(y.path, Some(z.line.value));
      NormalFormMembers(all, z);
    }
    forall n | SaidByOne(decode, values, Location(y.path, Some(n))) ensures Lined(all, y.path) {
      assert Location(y.path, Some(n)) in all;
    }
  }

  lemma {:induction false} AllContributeIff(decode: UrlDecoder, nodes: seq<Json>, y: Location)
    ensures y in AllContribute(decode, nodes) <==> exists k :: 0 <= k < |nodes| && Says(decode, nodes[k], y)
  {
    hide Says, Contributes;
    if |nodes| != 0 {
      var front, last := nodes[..|nodes| - 1], nodes[|nodes| - 1];
      AllContributeIff(decode, front, y);
      SaysIff(decode, last, y);
      assert forall k :: 0 <= k < |front| ==> front[k] == nodes[k];
    }
  }

  // ---- Which nodes there are ----

  /** A step into a value: to an item of a list, or to the value of a field. */
  datatype Way = Item(i: int) | Under(i: int)

  /** Where the steps lead; never into the field `content`. */
  function At(v: Json, way: seq<Way>): Option<Json> {
    if |way| == 0 then Some(v)
    else
      match v
      case JArray(items) =>
        if way[0].Item? && 0 <= way[0].i < |items| then At(items[way[0].i], way[1..]) else None
      case JObject(fields) =>
        if way[0].Under? && 0 <= way[0].i < |fields| && fields[way[0].i].name != "content"
        then At(fields[way[0].i].value, way[1..]) else None
      case _ => None
  }

  lemma {:induction false} ItemNodesIff(items: seq<Json>, depth: nat, w: Json)
    ensures w in ItemNodes(items, depth) <==> exists i :: 0 <= i < |items| && w in Nodes(items[i], depth)
  {
    hide Nodes;
    if |items| != 0 {
      var front := items[..|items| - 1];
      ItemNodesIff(front, depth, w);
      assert forall i :: 0 <= i < |front| ==> front[i] == items[i];
    }
  }

  lemma {:induction false} FieldNodesIff(fields: seq<Field>, depth: nat, w: Json)
    ensures w in FieldNodes(fields, depth) <==>
      exists i :: 0 <= i < |fields| && fields[i].name != "content" && w in Nodes(fields[i].value, depth)
  {
    hide Nodes;
    if |fields| != 0 {
      var front := fields[..|fields| - 1];
      FieldNodesIff(front, depth, w);
      assert forall i :: 0 <= i < |front| ==> front[i] == fields[i];
    }
  }

  lemma NodesStep(v: Json, depth: nat, w: Json)
    ensures v.JArray? ==>
      (w in Nodes(v, depth) <==> depth <= 4 && (w == v || w in ItemNodes(v.items, depth + 1)))
    ensures v.JObject? ==>
      (w in Nodes(v, depth) <==> depth <= 4 && (w == v || w in FieldNodes(v.fields, depth + 1)))
    ensures !v.JArray? && !v.JObject? ==> (w in Nodes(v, depth) <==> depth <= 4 && w == v)
    ensures depth <= 4 ==> v in Nodes(v, depth)
  {
    hide ItemNodes, FieldNodes;
  }

  lemma ItemsStep(v: Json, depth: nat, w: Json)
    requires v.JArray?
    ensures w in Nodes(v, depth) <==>
      depth <= 4 && (w == v || exists i :: 0 <= i < |v.items| && w in Nodes(v.items[i], depth + 1))
  {
    hide Nodes, ItemNodes;
    NodesStep(v, depth, w);
    ItemNodesIff(v.items, depth + 1, w);
  }

  lemma FieldsStep(v: Json, depth: nat, w: Json)
    requires v.JObject?
    ensures w in Nodes(v, depth) <==>
      depth <= 4 && (w == v ||
        exists i :: 0 <= i < |v.fields| && v.fields[i].name != "content" && w in Nodes(v.fields[i].value, depth + 1))
  {
    hide Nodes, FieldNodes;
    NodesStep(v, depth, w);
    FieldNodesIff(v.fields, depth + 1, w);
  }

  lemma {:induction false} NodesHave(v: Json, depth: nat, way: seq<Way>, w: Json)
    requires At(v, way) == Some(w) && depth + |way| <= 4
    ensures w in Nodes(v, depth)
    decreases |way|
  {
    hide Nodes;
    if |way| == 0 {
      NodesStep(v, depth, w);
    } else {
      match v
      case JArray(items) =>
        NodesHave(items[way[0].i], depth + 1, way[1..], w);
        ItemsStep(v, depth, w);
      case JObject(fields) =>
        NodesHave(fields[way[0].i].value, depth + 1, way[1..], w);
        FieldsStep(v, depth, w);
    }
  }

  lemma AtItem(items: seq<Json>, i: int, rest: seq<Way>)
    requires 0 <= i < |items|
    ensures At(JArray(items), [Item(i)] + rest) == At(items[i], rest)
  {
    assert ([Item(i)] + rest)[1..] == rest;
  }

  lemma AtUnder(fields: seq<Field>, i: int, rest: seq<Way>)
    requires 0 <= i < |fields| && fields[i].name != "content"
    ensures At(JObject(fields), [Under(i)] + rest) == At(fields[i].value, rest)
  {
    assert ([Under(i)] + rest)[1..] == rest;
  }

  lemma AtHere(v: Json)
    ensures At(v, []) == Some(v)
  {
  }

  lemma {:induction false} NodesAre(v: Json, depth: nat, w: Json) returns (way: seq<Way>)
    requires w in Nodes(v, depth)
    ensures At(v, way) == Some(w) && depth + |way| <= 4
    decreases v
  {
    hide Nodes, At;
    way := [];
    NodesStep(v, depth, w);
    AtHere(v);
    if w != v {
      match v
      case JArray(items) =>
        ItemsStep(v, depth, w);
        var i :| 0 <= i < |items| && w in Nodes(items[i], depth + 1);
        var rest := NodesAre(items[i], depth + 1, w);
        way := [Item(i)] + rest;
        AtItem(items, i, rest);
      case JObject(fields) =>
        FieldsStep(v, depth, w);
        var i :| 0 <= i < |fields| && fields[i].name != "content" && w in Nodes(fields[i].value, depth + 1);
        var rest := NodesAre(fields[i].value, depth + 1, w);
        way := [Under(i)] + rest;
        AtUnder(fields, i, rest);
    }
  }

  /** The nodes of a value are exactly what at most four steps lead to. */
  lemma {:induction false} NodesIff(v: Json, w: Json)
    ensures w in Nodes(v, 0) <==> exists way :: |way| <= 4 && At(v, way) == Some(w)
  {
    hide Nodes, At;
    if w in Nodes(v, 0) { var way := NodesAre(v, 0, w); }
    if way :| |way| <= 4 && At(v, way) == Some(w) { NodesHave(v, 0, way, w); }
  }
}
