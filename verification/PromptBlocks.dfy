/** What is read of the blocks of a prompt, and how it is spelled. */
module PromptBlocks {
  import opened PyText
  import opened Streaming
  import opened PromptText
  import ToolLocations

  // ---- Which blocks are read ----

  ghost predicate IsRead(b: PromptText.Block) {
    BlockText(b).Some?
  }

  /** `parts` are what the blocks at `at` say, which are, in order, exactly those that say something. */
  ghost predicate AreRead(blocks: seq<PromptText.Block>, at: seq<int>, parts: seq<string>) {
    Rising(at) && |parts| == |at| && (forall i :: i in at <==> 0 <= i < |blocks| && IsRead(blocks[i])) &&
    forall k :: 0 <= k < |at| ==> 0 <= at[k] < |blocks| && BlockText(blocks[at[k]]) == Some(parts[k])
  }

  lemma OneMoreRead(blocks: seq<PromptText.Block>, at: seq<int>, parts: seq<string>, b: PromptText.Block)
    requires AreRead(blocks, at, parts)
    ensures IsRead(b) ==> AreRead(blocks + [b], at + [|blocks|], parts + [BlockText(b).value])
    ensures !IsRead(b) ==> AreRead(blocks + [b], at, parts)
  {
    RisesOn(at, |blocks|);
    hide Rising, BlockText;
  }

  lemma {:induction false} TextsAre(blocks: seq<PromptText.Block>) returns (at: seq<int>)
    ensures AreRead(blocks, at, Texts(blocks))
  {
    at := [];
    if |blocks| != 0 {
      hide AreRead, BlockText;
      var front, last := blocks[..|blocks| - 1], blocks[|blocks| - 1];
      at := TextsAre(front);
      OneMoreRead(front, at, Texts(front), last);
      assert blocks == front + [last] && Texts(front) + [] == Texts(front);
      if IsRead(last) { at := at + [|front|]; }
    }
  }

  /** A text block says its text, even an empty one; a resource its text unless that is empty; and no other kind of
      block but a resource link says anything. */
  lemma PlainBlocks(text: string)
    ensures BlockText(PromptText.TextBlock(Some(text))) == Some(text) && BlockText(PromptText.TextBlock(None)) == None
    ensures BlockText(Resource(Some(text))) == if text == "" then None else Some(text)
    ensures BlockText(Resource(None)) == None && BlockText(PromptText.OtherBlock) == None
  {
  }

  // ---- Titles ----

  /** A title as it is shown. */
  function ShownTitle(title: string): string {
    BracketsEscaped(Escaped(title))
  }

  lemma {:induction false} BracketsConcat(a: string, b: string)
    ensures BracketsEscaped(a + b) == BracketsEscaped(a) + BracketsEscaped(b)
  {
    if |a| == 0 {
      assert a + b == b;
    } else {
      assert (a + b)[1..] == a[1..] + b;
      BracketsConcat(a[1..], b);
    }
  }

  predicate IsBracket(c: char) {
    c == '(' || c == ')' || c == '[' || c == ']'
  }

  lemma {:induction false} NoBrackets(s: string)
    requires forall i :: 0 <= i < |s| ==> !IsBracket(s[i])
    ensures BracketsEscaped(s) == s
  {
    if |s| != 0 {
      NoBrackets(s[1..]);
      assert s == [s[0]] + s[1..];
    }
  }

  lemma CodeHasNoBracket(c: char)
    requires IsInlineControl(c)
    ensures forall i :: 0 <= i < |Code(c)| ==> !IsBracket(Code(c)[i])
  {
  }

  lemma OneChar(c: char)
    ensures Escaped([c]) == if IsInlineControl(c) then Code(c) else [c]
    ensures BracketsEscaped([c]) == if IsBracket(c) then ['\\', c] else [c]
  {
    hide Code, IsInlineControl;
    assert [c][1..] == [] && Escaped([]) == [] && BracketsEscaped([]) == [];
  }

  /** Wherever a character stands in a title, a control character is shown as its code, a bracket after a backslash, and
      any other as itself. */
  lemma {:induction false} TitleSpelled(a: string, c: char, b: string)
    ensures ShownTitle(a + [c] + b) == ShownTitle(a) +
      (if IsInlineControl(c) then Code(c) else if IsBracket(c) then ['\\', c] else [c]) + ShownTitle(b)
    ensures ShownTitle("") == ""
  {
    hide Escaped, BracketsEscaped, Code, IsInlineControl, IsBracket;
    NothingShown();
    EscapedConcat(a + [c], b);
    EscapedConcat(a, [c]);
    BracketsConcat(Escaped(a) + Escaped([c]), Escaped(b));
    BracketsConcat(Escaped(a), Escaped([c]));
    OneChar(c);
    if IsInlineControl(c) {
      CodeHasNoBracket(c);
      NoBrackets(Code(c));
    }
  }

  lemma NothingShown()
    ensures BracketsEscaped(Escaped("")) == ""
  {
  }

  /** A resource link shows its title in brackets, if it has one, and after it its address, if that is not empty. */
  lemma LinkIs(title: Option<string>, uri: Option<string>)
    ensures BlockText(ResourceLink(title, uri)) == Some(
      "[Resource link" + (if title.Some? then " (" + ShownTitle(title.value) + ")" else "") + "]" +
      if uri.Some? && uri.value != "" then " " + Escaped(uri.value) else "")
  {
    hide BracketsEscaped;
    if uri.Some? { EscapedHasNoControl(uri.value); }
    hide Escaped;
    var suffix := if title.Some? then " (" + BracketsEscaped(Escaped(title.value)) + ")" else "";
    assert "[Resource link" + suffix + "]" + "" == "[Resource link" + suffix + "]";
    if uri.Some? && uri.value != "" {
      assert "[Resource link" + suffix + "] " + Escaped(uri.value) ==
        "[Resource link" + suffix + "]" + (" " + Escaped(uri.value));
    }
    if uri == Some("") { NothingEscaped(""); }
  }

  // ---- Codes ----

  function HexValue(c: char): int {
    if '0' <= c <= '9' then c as int - '0' as int else if 'a' <= c <= 'f' then c as int - 'a' as int + 10 else -1
  }

  /** A control character with no code of its own is spelled by its number in two hexadecimal digits. */
  lemma CodeIsNumber(c: char)
    requires IsInlineControl(c) && Code(c)[1] == 'x'
    ensures |Code(c)| == 4 && 16 * HexValue(Code(c)[2]) + HexValue(Code(c)[3]) == c as int
  {
  }

  // ---- The message ----

  /** The working directory is named unless the prompt says no, or says nothing and the options say no. */
  lemma PrefixIff(meta: Option<bool>, opts: Option<bool>)
    ensures PrefixCwd(meta, opts) <==> meta != Some(false) && (meta.Some? || opts != Some(false))
  {
  }

  /** A message ends with the text, and starts with the directory in brackets if that is named. */
  lemma MessageIs(prefix: bool, directory: string, text: string)
    ensures !prefix ==> Message(prefix, directory, text) == text
    ensures prefix ==> Message(prefix, directory, text) == "[Working directory: " + directory + "]" + "\n\n" + text
  {
    assert "]" + "\n\n" == "]\n\n";
  }

  // ---- UTF-8 ----

  predicate IsTrail(b: int) {
    0x80 <= b < 0xC0
  }

  lemma Bits(n: nat)
    ensures n == n / 0x40 * 0x40 + n % 0x40 && n / 0x40 == n / 0x1000 * 0x40 + n / 0x40 % 0x40
    ensures n / 0x1000 == n / 0x4_0000 * 0x40 + n / 0x1000 % 0x40
  {
    assert n / 0x40 / 0x40 == n / 0x1000;
    assert n / 0x1000 / 0x40 == n / 0x4_0000;
  }

  lemma Scalar(c: char)
    ensures 0 <= c as int < 0x11_0000
  {
  }

  /** Every character is encoded in the least number of bytes, as its bits in a lead byte of the right kind and trail
      bytes. */
  lemma {:induction false} Utf8CharIs(c: char)
    ensures var n := c as int;
      |Utf8Char(c)| == if n < 0x80 then 1 else if n < 0x800 then 2 else if n < 0x1_0000 then 3 else 4
    ensures forall i :: 1 <= i < |Utf8Char(c)| ==> IsTrail(Utf8Char(c)[i])
    ensures IsLead(Utf8Char(c)[0], |Utf8Char(c)|) && Decoded8(Utf8Char(c)) == c as int
  {
    var n := c as int;
    Scalar(c);
    Bits(n);
    var a, b, d := n % 0x40, n / 0x40 % 0x40, n / 0x1000 % 0x40;
    if n < 0x80 {
      assert Utf8Char(c) == [n];
    } else if n < 0x800 {
      assert Utf8Char(c) == [0xC0 + n / 0x40, 0x80 + a];
    } else if n < 0x1_0000 {
      assert Utf8Char(c) == [0xE0 + n / 0x1000, 0x80 + b, 0x80 + a];
    } else {
      assert Utf8Char(c) == [0xF0 + n / 0x4_0000, 0x80 + d, 0x80 + b, 0x80 + a];
    }
  }

  predicate IsLead(b: int, length: int) {
    if length == 1 then 0 <= b < 0x80
    else if length == 2 then 0xC0 <= b < 0xE0
    else if length == 3 then 0xE0 <= b < 0xF0
    else 0xF0 <= b < 0xF8
  }

  /** The number that the bits of one encoded character make up. */
  function Decoded8(b: seq<int>): int
    requires 1 <= |b| <= 4
  {
    if |b| == 1 then b[0]
    else if |b| == 2 then (b[0] - 0xC0) * 0x40 + (b[1] - 0x80)
    else if |b| == 3 then ((b[0] - 0xE0) * 0x40 + (b[1] - 0x80)) * 0x40 + (b[2] - 0x80)
    else (((b[0] - 0xF0) * 0x40 + (b[1] - 0x80)) * 0x40 + (b[2] - 0x80)) * 0x40 + (b[3] - 0x80)
  }

  // ---- Joining ----

  lemma {:induction false} LinesConcat(a: string, b: string)
    ensures ToolLocations.Lines(a + "\n" + b) == ToolLocations.Lines(a) + ToolLocations.Lines(b)
  {
    var whole := a + "\n" + b;
    if |a| == 0 {
      assert whole[0] == '\n' && whole[1..] == b;
    } else {
      assert whole[0] == a[0] && whole[1..] == a[1..] + "\n" + b;
      LinesConcat(a[1..], b);
    }
  }

  lemma {:induction false} OneLine(text: string)
    requires '\n' !in text
    ensures ToolLocations.Lines(text) == [text]
  {
    if |text| != 0 {
      OneLine(text[1..]);
      assert [text[0]] + text[1..] == text;
    }
  }

  /** Parts without line breaks, joined, split into the same parts. */
  lemma {:induction false} JoinedSplits(parts: seq<string>)
    requires |parts| > 0 && forall i :: 0 <= i < |parts| ==> '\n' !in parts[i]
    ensures ToolLocations.Lines(Join(parts)) == parts
  {
    hide ToolLocations.Lines;
    var front, last := parts[..|parts| - 1], parts[|parts| - 1];
    OneLine(last);
    assert parts == front + [last];
    if |front| > 0 {
      JoinedSplits(front);
      LinesConcat(Join(front), last);
    }
  }
}
