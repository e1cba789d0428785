/** Incremental streaming of chat snapshots: `_handle_delta_event` of `src/openzues/services/acp_agent.py`. */
module Streaming {
  import opened PyText

  /** A content block of a message; blocks of any other shape are skipped. */
  datatype Block = TextBlock(text: string) | ThinkingBlock(thinking: string) | OtherBlock

  /** `"\n".join(parts)` */
  function Join(parts: seq<string>): string {
    if |parts| == 0 then ""
    else if |parts| == 1 then parts[0]
    else Join(parts[..|parts| - 1]) + "\n" + parts[|parts| - 1]
  }

  function TextParts(content: seq<Block>): seq<string> {
    if |content| == 0 then []
    else
      var last := content[|content| - 1];
      TextParts(content[..|content| - 1]) + if last.TextBlock? then [last.text] else []
  }

  function ThoughtParts(content: seq<Block>): seq<string> {
    if |content| == 0 then []
    else
      var last := content[|content| - 1];
      ThoughtParts(content[..|content| - 1]) + if last.ThinkingBlock? then [last.thinking] else []
  }

  function FullText(parts: seq<string>): string {
    RStrip(Join(parts))
  }

  /** What a snapshot adds once `sent` characters have gone out; nothing is sent when it is empty. */
  function NewChunk(full: string, sent: nat): string {
    if |full| > sent then full[sent..] else ""
  }

  /** Everything sent after a series of snapshots, each given by its parts. */
  function Sent(snapshots: seq<seq<string>>): string {
    if |snapshots| == 0 then ""
    else
      var before := Sent(snapshots[..|snapshots| - 1]);
      before + NewChunk(FullText(snapshots[|snapshots| - 1]), |before|)
  }

  lemma {:induction false} JoinExtends(short: seq<string>, long: seq<string>)
    requires short <= long
    ensures Join(short) <= Join(long)
    decreases |long|
  {
    if |short| < |long| {
      var front := long[..|long| - 1];
      JoinExtends(short, front);
      assert |long| == 1 ==> short == [];
      assert |long| > 1 ==> Join(front) <= Join(front) + "\n" <= Join(long);
    } else {
      assert short == long;
    }
  }

  lemma RStripExtends(short: string, long: string)
    requires short <= long
    ensures RStrip(short) <= RStrip(long)
  {
    var n := |RStrip(short)|;
    if n > 0 {
      assert RStrip(short)[n - 1] == short[n - 1] == long[n - 1];
      assert !IsSpace(long[n - 1]);
    }
  }

  /** One snapshot brings the client exactly up to date when, and only when, what it already has is a
      prefix of that snapshot. */
  lemma ChunkCompletesIff(sent: string, full: string)
    ensures sent + NewChunk(full, |sent|) == full <==> sent <= full
  {
    if sent <= full {
      assert sent + full[|sent|..] == full;
    }
  }

  ghost predicate Grows(snapshots: seq<seq<string>>) {
    forall i :: 0 < i < |snapshots| ==> Join(snapshots[i - 1]) <= Join(snapshots[i])
  }

  /** Blocks are only ever added, or the last one grows. */
  ghost predicate BlocksExtend(before: seq<string>, after: seq<string>) {
    before <= after ||
    (|before| > 0 && |before| <= |after| && before[..|before| - 1] <= after &&
      before[|before| - 1] <= after[|before| - 1])
  }

  lemma {:induction false} BlocksExtendGrow(before: seq<string>, after: seq<string>)
    requires BlocksExtend(before, after)
    ensures Join(before) <= Join(after)
  {
    if before <= after {
      JoinExtends(before, after);
    } else {
      var n := |before|;
      assert after[..n][..n - 1] == before[..n - 1];
      assert Join(before) <= Join(after[..n]);
      JoinExtends(after[..n], after);
    }
  }

  /** While each snapshot extends the one before, the chunks sent add up to exactly the latest snapshot,
      right-stripped. */
  lemma {:induction false} StreamingIsFaithful(snapshots: seq<seq<string>>)
    requires |snapshots| > 0 && Grows(snapshots)
    ensures Sent(snapshots) == FullText(snapshots[|snapshots| - 1])
  {
    var n := |snapshots| - 1;
    var front := snapshots[..n];
    if n > 0 {
      assert forall i :: 0 < i < n ==> Join(front[i - 1]) <= Join(front[i]);
      StreamingIsFaithful(front);
      assert Join(snapshots[n - 1]) <= Join(snapshots[n]);
      RStripExtends(Join(snapshots[n - 1]), Join(snapshots[n]));
    }
    ChunkCompletesIff(Sent(front), FullText(snapshots[n]));
  }

  /** Whatever the snapshots, as much has been sent as the longest of them is long. */
  lemma {:induction false} SentIsAsLongAsLongest(snapshots: seq<seq<string>>) returns (longest: int)
    ensures forall i :: 0 <= i < |snapshots| ==> |FullText(snapshots[i])| <= |Sent(snapshots)|
    ensures Sent(snapshots) == "" || (0 <= longest < |snapshots| && |FullText(snapshots[longest])| == |Sent(snapshots)|)
  {
    hide FullText;
    longest := 0;
    if |snapshots| > 0 {
      var n := |snapshots| - 1;
      var front := snapshots[..n];
      longest := SentIsAsLongAsLongest(front);
      assert forall i :: 0 <= i < n ==> front[i] == snapshots[i];
      if |FullText(snapshots[n])| > |Sent(front)| { longest := n; }
    }
  }

  /** What a client can count on, having been sent `sent` over these snapshots. */
  ghost predicate UpToDate(snapshots: seq<seq<string>>, sent: string) {
    (|snapshots| > 0 && Grows(snapshots) ==> sent == FullText(snapshots[|snapshots| - 1])) &&
    (forall i :: 0 <= i < |snapshots| ==> |FullText(snapshots[i])| <= |sent|) &&
    (sent == "" || exists i :: 0 <= i < |snapshots| && |FullText(snapshots[i])| == |sent|)
  }

  lemma {:induction false} SentIsUpToDate(snapshots: seq<seq<string>>)
    ensures UpToDate(snapshots, Sent(snapshots))
  {
    var longest := SentIsAsLongAsLongest(snapshots);
    if |snapshots| > 0 && Grows(snapshots) { StreamingIsFaithful(snapshots); }
  }

  /** Sent text is never taken back. */
  lemma {:induction false} SentOnlyGrows(snapshots: seq<seq<string>>, k: nat)
    requires k <= |snapshots|
    ensures Sent(snapshots[..k]) <= Sent(snapshots)
  {
    if k < |snapshots| {
      var front := snapshots[..|snapshots| - 1];
      SentOnlyGrows(front, k);
      assert front[..k] == snapshots[..k];
    } else {
      assert snapshots[..k] == snapshots;
    }
  }

  // ---- What a snapshot says ----

  ghost predicate Rising(at: seq<int>) {
    forall k, l :: 0 <= k < l < |at| ==> at[k] < at[l]
  }

  /** `parts` are the texts of exactly the text blocks, which stand at `at`, in order. */
  ghost predicate AreTexts(content: seq<Block>, at: seq<int>, parts: seq<string>) {
    Rising(at) && |parts| == |at| && (forall i :: i in at <==> 0 <= i < |content| && content[i].TextBlock?) &&
    forall k :: 0 <= k < |at| ==> 0 <= at[k] < |content| && content[at[k]] == TextBlock(parts[k])
  }

  ghost predicate AreThoughts(content: seq<Block>, at: seq<int>, parts: seq<string>) {
    Rising(at) && |parts| == |at| && (forall i :: i in at <==> 0 <= i < |content| && content[i].ThinkingBlock?) &&
    forall k :: 0 <= k < |at| ==> 0 <= at[k] < |content| && content[at[k]] == ThinkingBlock(parts[k])
  }

  lemma RisesOn(at: seq<int>, n: int)
    requires Rising(at) && forall i :: i in at ==> i < n
    ensures Rising(at + [n])
  {
    forall k | 0 <= k < |at| ensures at[k] < n { assert at[k] in at; }
  }

  lemma OneMoreText(content: seq<Block>, at: seq<int>, parts: seq<string>, b: Block)
    requires AreTexts(content, at, parts)
    ensures b.TextBlock? ==> AreTexts(content + [b], at + [|content|], parts + [b.text])
    ensures !b.TextBlock? ==> AreTexts(content + [b], at, parts)
  {
    RisesOn(at, |content|);
    hide Rising;
  }

  lemma OneMoreThought(content: seq<Block>, at: seq<int>, parts: seq<string>, b: Block)
    requires AreThoughts(content, at, parts)
    ensures b.ThinkingBlock? ==> AreThoughts(content + [b], at + [|content|], parts + [b.thinking])
    ensures !b.ThinkingBlock? ==> AreThoughts(content + [b], at, parts)
  {
    RisesOn(at, |content|);
    hide Rising;
  }

  lemma {:induction false} TextPartsAre(content: seq<Block>) returns (at: seq<int>)
    ensures AreTexts(content, at, TextParts(content))
  {
    at := [];
    if |content| != 0 {
      hide AreTexts;
      var front, last := content[..|content| - 1], content[|content| - 1];
      at := TextPartsAre(front);
      OneMoreText(front, at, TextParts(front), last);
      assert content == front + [last] && TextParts(front) + [] == TextParts(front);
      if last.TextBlock? { at := at + [|front|]; }
    }
  }

  lemma {:induction false} ThoughtPartsAre(content: seq<Block>) returns (at: seq<int>)
    ensures AreThoughts(content, at, ThoughtParts(content))
  {
    at := [];
    if |content| != 0 {
      hide AreThoughts;
      var front, last := content[..|content| - 1], content[|content| - 1];
      at := ThoughtPartsAre(front);
      OneMoreThought(front, at, ThoughtParts(front), last);
      assert content == front + [last] && ThoughtParts(front) + [] == ThoughtParts(front);
      if last.ThinkingBlock? { at := at + [|front|]; }
    }
  }

  /** What is shown of a snapshot is all of it up to its last character that is not white space. */
  lemma FullTextIs(parts: seq<string>, t: string)
    ensures FullText(parts) == t <==>
      t <= Join(parts) && (t == "" || !IsSpace(t[|t| - 1])) &&
      forall i :: |t| <= i < |Join(parts)| ==> IsSpace(Join(parts)[i])
  {
    hide Join, IsSpace;
    var full, r := Join(parts), FullText(parts);
    if t <= full && |t| < |r| { assert !IsSpace(full[|r| - 1]); }
    if t <= full && |r| < |t| { assert t[|t| - 1] == full[|t| - 1]; }
  }
}
