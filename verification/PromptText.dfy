/** The text of a prompt and its size: `src/openzues/services/acp_event_mapper.py` and
    `src/openzues/services/acp_translator.py`. */
module PromptText {
  import opened PyText
  import opened Streaming

  // ---- UTF-8, RFC 3629 section 3 ----

  function Utf8Char(c: char): seq<int> {
    var n := c as int;
    if n < 0x80 then [n]
    else if n < 0x800 then [0xC0 + n / 0x40, 0x80 + n % 0x40]
    else if n < 0x1_0000 then [0xE0 + n / 0x1000, 0x80 + n / 0x40 % 0x40, 0x80 + n % 0x40]
    else [0xF0 + n / 0x4_0000, 0x80 + n / 0x1000 % 0x40, 0x80 + n / 0x40 % 0x40, 0x80 + n % 0x40]
  }

  /** `s.encode("utf-8")` */
  function Utf8(s: string): seq<int> {
    if |s| == 0 then [] else Utf8Char(s[0]) + Utf8(s[1..])
  }

  lemma {:induction false} Utf8Concat(a: string, b: string)
    ensures Utf8(a + b) == Utf8(a) + Utf8(b)
  {
    hide Utf8Char;
    if |a| == 0 {
      assert a + b == b;
    } else {
      assert (a + b)[1..] == a[1..] + b;
      Utf8Concat(a[1..], b);
    }
  }

  // ---- Control characters ----

  predicate IsInlineControl(c: char) {
    c as int <= 0x1F || 0x7F <= c as int <= 0x9F || c == '\U{2028}' || c == '\U{2029}'
  }

  function HexDigit(n: int): char
    requires 0 <= n < 16
  {
    if n < 10 then '0' + n as char else 'a' + (n - 10) as char
  }

  /** What stands for a control character. */
  function Code(c: char): string
    requires IsInlineControl(c)
  {
    if c == '\0' then "\\0"
    else if c == '\r' then "\\r"
    else if c == '\n' then "\\n"
    else if c == '\t' then "\\t"
    else if c == '\U{b}' then "\\v"
    else if c == '\U{c}' then "\\f"
    else if c == '\U{2028}' then "\\u2028"
    else if c == '\U{2029}' then "\\u2029"
    else ['\\', 'x', HexDigit(c as int / 16), HexDigit(c as int % 16)]
  }

  function Escaped(s: string): string {
    if |s| == 0 then []
    else (if IsInlineControl(s[0]) then Code(s[0]) else [s[0]]) + Escaped(s[1..])
  }

  /** `escape_inline_control_chars` */
  method EscapeInlineControlChars(value: string) returns (escaped: string)
    ensures escaped == Escaped(value)
  {
    hide Code, IsInlineControl, Escaped;
    escaped := "";
    assert value[0..] == value;
    for i := 0 to |value|
      invariant escaped + Escaped(value[i..]) == Escaped(value)
    {
      EscapedFrom(value, i);
      if !IsInlineControl(value[i]) {
        escaped := escaped + [value[i]];
      } else {
        escaped := escaped + Code(value[i]);
      }
    }
    NothingEscaped(value[|value|..]);
  }

  lemma EscapedFrom(s: string, i: nat)
    requires i < |s|
    ensures Escaped(s[i..]) == (if IsInlineControl(s[i]) then Code(s[i]) else [s[i]]) + Escaped(s[i + 1..])
  {
    hide Code, IsInlineControl;
    assert s[i..][0] == s[i] && s[i..][1..] == s[i + 1..];
  }

  lemma NothingEscaped(s: string)
    requires s == ""
    ensures Escaped(s) == ""
  {
  }

  predicate NoControl(s: string) {
    forall i :: 0 <= i < |s| ==> !IsInlineControl(s[i])
  }

  lemma CodeHasNoControl(c: char)
    requires IsInlineControl(c)
    ensures NoControl(Code(c)) && |Code(c)| >= 2
  {
  }

  /** No control character is left. */
  lemma {:induction false} EscapedHasNoControl(s: string)
    ensures NoControl(Escaped(s)) && |Escaped(s)| >= |s|
  {
    hide Code, IsInlineControl;
    if |s| != 0 {
      EscapedHasNoControl(s[1..]);
      if IsInlineControl(s[0]) { CodeHasNoControl(s[0]); }
    }
  }

  /** Text is left alone if and only if it has none. */
  lemma {:induction false} EscapedSameIff(s: string)
    ensures Escaped(s) == s <==> NoControl(s)
  {
    EscapedHasNoControl(s);
    if NoControl(s) { UncontrolledIsSame(s); }
  }

  lemma {:induction false} UncontrolledIsSame(s: string)
    requires NoControl(s)
    ensures Escaped(s) == s
  {
    if |s| != 0 {
      UncontrolledIsSame(s[1..]);
      assert s == [s[0]] + s[1..];
    }
  }

  // ---- What escaping loses ----

  lemma {:induction false} EscapedConcat(a: string, b: string)
    ensures Escaped(a + b) == Escaped(a) + Escaped(b)
  {
    hide Code, IsInlineControl;
    if |a| == 0 {
      assert a + b == b;
    } else {
      assert (a + b)[1..] == a[1..] + b;
      EscapedConcat(a[1..], b);
    }
  }

  /** At `i`, `s` has the code of `c` for text. */
  predicate CodeAt(s: string, i: int, c: char) {
    IsInlineControl(c) && 0 <= i <= |s| - |Code(c)| && s[i..i + |Code(c)|] == Code(c)
  }

  /** The text contains the code of a control character. */
  ghost predicate HasCode(s: string) {
    exists i, c :: CodeAt(s, i, c)
  }

  /** A control character and its code escape alike. */
  lemma CodeStandsFor(a: string, c: char, b: string)
    requires IsInlineControl(c)
    ensures Escaped(a + [c] + b) == Escaped(a) + Code(c) + Escaped(b) == Escaped(a + Code(c) + b)
  {
    CodeHasNoControl(c);
    hide Code, IsInlineControl;
    UncontrolledIsSame(Code(c));
    EscapedConcat(a + [c], b);
    EscapedConcat(a, [c]);
    EscapedConcat(a + Code(c), b);
    EscapedConcat(a, Code(c));
    assert [c][1..] == [] && Escaped([]) == [];
  }

  /** Another text that escapes to the same, if `s` has a control character at `i`. */
  lemma SpelledOut(s: string, i: int) returns (t: string)
    requires 0 <= i < |s| && IsInlineControl(s[i])
    ensures |t| > |s| && Escaped(t) == Escaped(s) && HasCode(t) && HasCode(Escaped(s))
  {
    var a, c, b := s[..i], s[i], s[i + 1..];
    CodeHasNoControl(c);
    hide Code, IsInlineControl;
    CodeStandsFor(a, c, b);
    t := a + Code(c) + b;
    assert s == a + [c] + b;
    assert CodeAt(t, i, c);
    assert CodeAt(Escaped(s), |Escaped(a)|, c);
  }

  /** And a shorter one, if `s` has a code. */
  lemma Decoded(s: string) returns (t: string)
    requires HasCode(s)
    ensures |t| < |s| && Escaped(t) == Escaped(s)
  {
    hide Code, IsInlineControl;
    var i, c :| CodeAt(s, i, c);
    CodeHasNoControl(c);
    var a, b := s[..i], s[i + |Code(c)|..];
    t := a + [c] + b;
    assert s == a + Code(c) + b;
    CodeStandsFor(a, c, b);
  }

  /** A text shares its escaped form with another if and only if it has a control character, or text that is the code
      of one. */
  lemma {:induction false} AmbiguousIff(s: string)
    ensures (exists t :: t != s && Escaped(t) == Escaped(s)) <==> !NoControl(s) || HasCode(s)
  {
    hide Escaped, HasCode, IsInlineControl;
    if !NoControl(s) {
      var i :| 0 <= i < |s| && IsInlineControl(s[i]);
      var t := SpelledOut(s, i);
      assert t != s && Escaped(t) == Escaped(s);
    } else if HasCode(s) {
      var t := Decoded(s);
      assert t != s && Escaped(t) == Escaped(s);
    } else {
      EscapedSameIff(s);
      forall t | Escaped(t) == Escaped(s) ensures t == s {
        EscapedSameIff(t);
        if !NoControl(t) {
          var i :| 0 <= i < |t| && IsInlineControl(t[i]);
          var _ := SpelledOut(t, i);
        }
      }
    }
  }

  // ---- Reading it back ----

  /** Reads every code as the character it stands for, and anything else as itself. */
  ghost function ReadBack(t: string): string
    decreases |t|
  {
    if |t| == 0 then []
    else if exists c :: CodeAt(t, 0, c) then
      var c :| CodeAt(t, 0, c);
      assert |Code(c)| > 0;
      [c] + ReadBack(t[|Code(c)|..])
    else [t[0]] + ReadBack(t[1..])
  }

  /** No code begins another. */
  lemma CodesPrefixFree(t: string, c: char, d: char)
    requires CodeAt(t, 0, c) && CodeAt(t, 0, d)
    ensures c == d
  {
    CodeStarts(t, c);
    CodeStarts(t, d);
    CodesDiffer(c, d);
  }

  lemma CodesDiffer(c: char, d: char)
    requires IsInlineControl(c) && IsInlineControl(d)
    requires forall k :: 0 <= k < |Code(c)| && k < |Code(d)| ==> Code(c)[k] == Code(d)[k]
    ensures c == d
  {
    var a, b := Code(c), Code(d);
    assert a[1] == b[1];
    if a[1] == 'x' {
      assert a[2] == b[2] && a[3] == b[3];
      HexInjective(c as int, d as int);
    } else if a[1] == 'u' {
      assert a[5] == b[5];
    }
  }

  lemma CodeStarts(t: string, c: char)
    requires CodeAt(t, 0, c)
    ensures |t| >= |Code(c)| && forall k :: 0 <= k < |Code(c)| ==> t[k] == Code(c)[k]
  {
    hide Code, IsInlineControl;
    var code := Code(c);
    assert forall k :: 0 <= k < |code| ==> t[0..|code|][k] == t[k];
  }

  lemma HexInjective(m: int, n: int)
    requires 0 <= m < 256 && 0 <= n < 256
    requires HexDigit(m / 16) == HexDigit(n / 16) && HexDigit(m % 16) == HexDigit(n % 16)
    ensures m == n
  {
    DigitInjective(m / 16, n / 16);
    DigitInjective(m % 16, n % 16);
  }

  lemma DigitInjective(m: int, n: int)
    requires 0 <= m < 16 && 0 <= n < 16 && HexDigit(m) == HexDigit(n)
    ensures m == n
  {
  }

  lemma ReadBackCode(c: char, rest: string)
    requires IsInlineControl(c)
    ensures ReadBack(Code(c) + rest) == [c] + ReadBack(rest)
  {
    CodeHasNoControl(c);
    hide Code, IsInlineControl, NoControl;
    var t := Code(c) + rest;
    assert t[0..|Code(c)|] == Code(c) && t[|Code(c)|..] == rest;
    assert CodeAt(t, 0, c);
    forall d | CodeAt(t, 0, d) ensures d == c { CodesPrefixFree(t, c, d); }
  }

  lemma CodeShape(c: char)
    requires IsInlineControl(c)
    ensures Code(c)[0] == '\\' && forall k :: 1 <= k < |Code(c)| ==> Code(c)[k] != '\\'
  {
  }

  /** Text without backslashes at the start of an escaped text was there before. */
  lemma {:induction false} PlainStart(p: string, s: string)
    requires '\\' !in p && p <= Escaped(s)
    ensures p <= s
  {
    if |p| != 0 {
      assert |s| != 0 && p[0] in p && Escaped(s)[0] == p[0];
      EscapedFirst(s);
      hide Code, IsInlineControl;
      assert p[1..] <= Escaped(s)[1..] == Escaped(s[1..]);
      assert forall x :: x in p[1..] ==> x in p;
      PlainStart(p[1..], s[1..]);
      assert s == [s[0]] + s[1..] && p == [p[0]] + p[1..];
    }
  }

  lemma EscapedFirst(s: string)
    requires |s| != 0
    ensures |Escaped(s)| != 0
    ensures Escaped(s)[0] != '\\' ==> Escaped(s) == [s[0]] + Escaped(s[1..])
  {
    if IsInlineControl(s[0]) { CodeShape(s[0]); }
  }

  /** Where the text itself begins, an escaped text begins a code only if the text does. */
  lemma CodeWasThere(s: string, c: char)
    requires |s| != 0 && !IsInlineControl(s[0]) && CodeAt(Escaped(s), 0, c)
    ensures CodeAt(s, 0, c)
  {
    CodeShape(c);
    CodeHasNoControl(c);
    CodeStarts(Escaped(s), c);
    hide Code, IsInlineControl, NoControl;
    var code, e := Code(c), Escaped(s);
    assert e == [s[0]] + Escaped(s[1..]);
    var p := code[1..];
    assert p == e[1..|code|] && e[1..] == Escaped(s[1..]);
    PlainStart(p, s[1..]);
    assert code == [code[0]] + p && s == [s[0]] + s[1..];
    assert code <= s && s[0..|code|] == code;
  }

  lemma HasCodeTail(s: string)
    requires |s| != 0 && HasCode(s[1..])
    ensures HasCode(s)
  {
    hide Code, IsInlineControl;
    var i, c :| CodeAt(s[1..], i, c);
    assert s[1..][i..i + |Code(c)|] == s[i + 1..i + 1 + |Code(c)|];
    assert CodeAt(s, i + 1, c);
  }

  lemma {:induction false} CodelessReadsBack(s: string)
    requires !HasCode(s)
    ensures ReadBack(Escaped(s)) == s
  {
    hide Code, HasCode;
    if |s| != 0 {
      if HasCode(s[1..]) { HasCodeTail(s); }
      CodelessReadsBack(s[1..]);
      assert s == [s[0]] + s[1..];
      if IsInlineControl(s[0]) {
        ReadBackCode(s[0], Escaped(s[1..]));
      } else {
        var e := Escaped(s);
        assert e == [s[0]] + Escaped(s[1..]) && e[1..] == Escaped(s[1..]);
        forall c ensures !CodeAt(e, 0, c) {
          if CodeAt(e, 0, c) { CodeWasThere(s, c); CodeIsCode(s, c); }
        }
      }
    }
  }

  lemma CodeIsCode(s: string, c: char)
    requires CodeAt(s, 0, c)
    ensures HasCode(s)
  {
  }

  /** Among the texts with one escaped form there is one without codes. */
  lemma {:induction false} SomeCodeless(s: string) returns (u: string)
    ensures Escaped(u) == Escaped(s) && !HasCode(u)
    decreases |s|
  {
    hide HasCode, Escaped;
    u := s;
    if HasCode(s) {
      var t := Decoded(s);
      u := SomeCodeless(t);
    }
  }

  /** Reading an escaped text back gives the text itself if and only if that had no code in it. */
  lemma {:induction false} ReadBackIff(s: string)
    ensures ReadBack(Escaped(s)) == s <==> !HasCode(s)
  {
    hide HasCode, Escaped, ReadBack;
    var u := SomeCodeless(s);
    CodelessReadsBack(u);
    if !HasCode(s) { CodelessReadsBack(s); }
  }

  // ---- The text of a prompt ----

  /** The parts of a block that are read; a part of the wrong type is `None`. */
  datatype Block =
    | TextBlock(text: Option<string>)
    | Resource(contents: Option<string>)
    | ResourceLink(title: Option<string>, uri: Option<string>)
    | OtherBlock

  /** `escape_resource_title`, after control characters. */
  function BracketsEscaped(s: string): string {
    if |s| == 0 then []
    else (if s[0] in "()[]" then ['\\', s[0]] else [s[0]]) + BracketsEscaped(s[1..])
  }

  function BlockText(b: Block): Option<string> {
    match b
    case TextBlock(text) => text
    case Resource(contents) => if contents == Some("") then None else contents
    case ResourceLink(title, uri) =>
      var suffix := if title.Some? then " (" + BracketsEscaped(Escaped(title.value)) + ")" else "";
      var safeUri := if uri.Some? then Escaped(uri.value) else "";
      Some(if safeUri != "" then "[Resource link" + suffix + "] " + safeUri else "[Resource link" + suffix + "]")
    case OtherBlock => None
  }

  function Texts(blocks: seq<Block>): seq<string> {
    if |blocks| == 0 then []
    else
      var last := BlockText(blocks[|blocks| - 1]);
      Texts(blocks[..|blocks| - 1]) + if last.Some? then [last.value] else []
  }

  function PromptBytes(blocks: seq<Block>): nat {
    |Utf8(Join(Texts(blocks)))|
  }

  lemma JoinSnoc(parts: seq<string>, x: string)
    ensures Join(parts + [x]) == if parts == [] then x else Join(parts) + "\n" + x
  {
    assert (parts + [x])[..|parts|] == parts;
  }

  lemma {:induction false} JoinSnocBytes(parts: seq<string>, x: string)
    ensures |Utf8(Join(parts + [x]))| == |Utf8(Join(parts))| + (if parts == [] then 0 else 1) + |Utf8(x)|
  {
    JoinSnoc(parts, x);
    NothingIsEmpty();
    hide Join;
    if parts != [] {
      Utf8Concat(Join(parts) + "\n", x);
      Utf8Concat(Join(parts), "\n");
      assert Utf8("\n") == [10] by { assert "\n"[1..] == ""; }
    }
  }

  lemma {:induction false} MoreBlocksMoreBytes(blocks: seq<Block>, k: nat)
    requires k <= |blocks|
    ensures PromptBytes(blocks[..k]) <= PromptBytes(blocks)
  {
    hide BlockText;
    if k == |blocks| {
      assert blocks[..k] == blocks;
    } else {
      var front := blocks[..|blocks| - 1];
      assert front[..k] == blocks[..k];
      MoreBlocksMoreBytes(front, k);
      var last := BlockText(blocks[|blocks| - 1]);
      if last.Some? { JoinSnocBytes(Texts(front), last.value); } else { assert Texts(front) + [] == Texts(front); }
    }
  }

  /** `extract_text_from_prompt`: the error is raised if and only if the whole text is over the limit, although the
      loop stops at the first block that exceeds it. */
  method ExtractText(blocks: seq<Block>, maxBytes: Option<nat>) returns (r: Option<string>)
    ensures r.None? <==> maxBytes.Some? && PromptBytes(blocks) > maxBytes.value
    ensures r.Some? ==> r.value == Join(Texts(blocks))
  {
    hide BlockText, Join, Utf8;
    var parts: seq<string>, total := [], 0;
    assert |Utf8(Join([]))| == 0 by { NothingIsEmpty(); }
    for i := 0 to |blocks|
      invariant parts == Texts(blocks[..i])
      invariant maxBytes.Some? ==> total == PromptBytes(blocks[..i]) <= maxBytes.value
    {
      assert blocks[..i + 1][..i] == blocks[..i];
      var text := BlockText(blocks[i]);
      if text.None? {
        assert parts + [] == parts;
        continue;
      }
      JoinSnocBytes(parts, text.value);
      if maxBytes.Some? {
        total := total + (if parts != [] then 1 else 0) + |Utf8(text.value)|;
        if total > maxBytes.value {
          MoreBlocksMoreBytes(blocks, i + 1);
          return None;
        }
      }
      parts := parts + [text.value];
    }
    assert blocks[..|blocks|] == blocks;
    return Some(Join(parts));
  }

  lemma NothingIsEmpty()
    ensures Join([]) == "" && Utf8("") == []
  {
  }

  // ---- The message of a request ----

  const MAX_PROMPT_BYTES := 2 * 1024 * 1024

  /** Whether to name the working directory: the prompt decides, then the options, then yes. */
  function PrefixCwd(meta: Option<bool>, opts: Option<bool>): bool {
    if meta.Some? then meta.value else if opts.Some? then opts.value else true
  }

  function Message(prefix: bool, directory: string, text: string): string {
    if prefix then "[Working directory: " + directory + "]\n\n" + text else text
  }

  /** The message of `build_prompt_send_request`: there is one if and only if it fits the limit, prefix included. */
  method BuildMessage(blocks: seq<Block>, directory: string, meta: Option<bool>, opts: Option<bool>)
    returns (r: Option<string>)
    ensures r.Some? <==> |Utf8(Message(PrefixCwd(meta, opts), directory, Join(Texts(blocks))))| <= MAX_PROMPT_BYTES
    ensures r.Some? ==> r.value == Message(PrefixCwd(meta, opts), directory, Join(Texts(blocks)))
  {
    hide Utf8, Join, Texts;
    var text := ExtractText(blocks, Some(MAX_PROMPT_BYTES));
    Utf8Concat("[Working directory: " + directory + "]\n\n", Join(Texts(blocks)));
    if text.None? {
      return None;
    }
    var message := Message(PrefixCwd(meta, opts), directory, text.value);
    if |Utf8(message)| > MAX_PROMPT_BYTES {
      return None;
    }
    return Some(message);
  }
}
