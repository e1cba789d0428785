/** Slugs and the search for a free one: `_slugify` and `_unique_thread_slug` of `src/forumforge/database.py`. */
module Slugs {
  import opened PyText

  // ---- Slugs ----

  predicate IsSlugChar(c: char) {
    'a' <= c <= 'z' || IsDigit(c)
  }

  ghost predicate NoDoubleDash(s: string) {
    forall i :: 0 <= i < |s| - 1 ==> s[i] != '-' || s[i + 1] != '-'
  }

  ghost predicate SlugText(s: string) {
    (forall i :: 0 <= i < |s| ==> IsSlugChar(s[i]) || s[i] == '-') && NoDoubleDash(s)
  }

  /** Every run of other characters becomes one dash; `within` says that a run has already been replaced. */
  function Collapsed(s: string, within: bool): (r: string)
    ensures SlugText(r) && (within ==> r == [] || r[0] != '-')
  {
    if |s| == 0 then []
    else if IsSlugChar(s[0]) then [s[0]] + Collapsed(s[1..], false)
    else (if within then [] else ['-']) + Collapsed(s[1..], true)
  }

  /** `strip("-")` */
  function DashStripped(s: string): (r: string)
    ensures SlugText(s) ==> SlugText(r)
    ensures r == [] || (r[0] != '-' && r[|r| - 1] != '-')
    ensures s == [] || (s[0] != '-' && s[|s| - 1] != '-') ==> r == s
    decreases |s|
  {
    if |s| == 0 then []
    else if s[0] == '-' then DashStripped(s[1..])
    else if s[|s| - 1] == '-' then DashStripped(s[..|s| - 1])
    else s
  }

  /** `_slugify` */
  function Slugify(value: string): string {
    var r := DashStripped(Collapsed(LowerText(value), false));
    if r == "" then "thread" else r
  }

  /** Words of slug characters, joined by single dashes. */
  ghost predicate IsSlug(s: string) {
    s != "" && SlugText(s) && s[0] != '-' && s[|s| - 1] != '-'
  }

  lemma {:induction false} SlugAsIs(s: string, within: bool)
    requires SlugText(s) && (within ==> s == [] || s[0] != '-')
    ensures LowerText(s) == s && Collapsed(s, within) == s
  {
    LowerSame(s);
    hide LowerText;
    if |s| != 0 {
      SlugAsIs(s[1..], s[0] == '-');
      assert s == [s[0]] + s[1..];
    }
  }

  lemma SlugifyGivesSlug(value: string)
    ensures IsSlug(Slugify(value))
  {
    hide Collapsed, DashStripped, LowerText;
    var t := "thread";
    assert t[0] == 't' && t[1] == 'h' && t[2] == 'r' && t[3] == 'e' && t[4] == 'a' && t[5] == 'd' && |t| == 6;
    assert IsSlug(t);
  }

  /** Slugs are exactly the fixed points. */
  lemma {:induction false} SlugifySameIff(s: string)
    ensures Slugify(s) == s <==> IsSlug(s)
  {
    SlugifyGivesSlug(s);
    if IsSlug(s) { SlugAsIs(s, false); }
  }

  /** So slugifying is idempotent. */
  lemma {:induction false} SlugifyIdempotent(value: string)
    ensures Slugify(Slugify(value)) == Slugify(value)
  {
    SlugifyGivesSlug(value);
    SlugifySameIff(Slugify(value));
  }

  // ---- What is in a slug ----

  predicate HasSlugChar(s: string) {
    exists i :: 0 <= i < |s| && IsSlugChar(s[i])
  }

  lemma {:induction false} CollapsedConcat(a: string, b: string, within: bool)
    requires a != ""
    ensures Collapsed(a + b, within) == Collapsed(a, within) + Collapsed(b, !IsSlugChar(a[|a| - 1]))
  {
    hide IsSlugChar;
    assert (a + b)[1..] == a[1..] + b;
    if |a| > 1 {
      CollapsedConcat(a[1..], b, !IsSlugChar(a[0]));
    } else {
      assert a[1..] + b == b;
    }
  }

  lemma {:induction false} NothingKept(s: string, within: bool)
    requires !HasSlugChar(s)
    ensures Collapsed(s, within) == if s == "" || within then [] else ['-']
  {
    hide IsSlugChar;
    if |s| != 0 { NothingKept(s[1..], true); }
  }

  /** Slug characters at both ends. */
  ghost predicate Inner(m: string) {
    m != "" && m[0] != '-' && m[|m| - 1] != '-'
  }

  lemma StripInner(lead: string, m: string, trail: string)
    requires Inner(m) && lead in {"", "-"} && trail in {"", "-"}
    ensures DashStripped(lead + m + trail) == m
  {
    var s := lead + m + trail;
    if lead == "-" {
      assert s[0] == '-' && s[1..] == m + trail;
    } else {
      assert s == m + trail;
    }
    if trail == "-" { assert (m + trail)[..|m|] == m && (m + trail)[0] == m[0]; } else { assert m + trail == m; }
  }

  function Lead(s: string, within: bool): string {
    if s != "" && !IsSlugChar(s[0]) && !within then "-" else ""
  }

  function Trail(s: string): string {
    if s != "" && !IsSlugChar(s[|s| - 1]) then "-" else ""
  }

  /** Text with a slug character, collapsed: at most one dash at either end, and the slug between. */
  lemma {:induction false} CollapsedIs(s: string, within: bool)
    requires HasSlugChar(s)
    ensures var m := DashStripped(Collapsed(s, false));
      Inner(m) && Collapsed(s, within) == Lead(s, within) + m + Trail(s)
  {
    hide DashStripped;
    var m := Middle(s);
    StripInner(Lead(s, false), m, Trail(s));
    MiddleWithin(s, m, within);
  }

  lemma WithinDrops(s: string)
    requires s != ""
    ensures Collapsed(s, false) == (if IsSlugChar(s[0]) then "" else "-") + Collapsed(s, true)
  {
    assert "" + Collapsed(s, true) == Collapsed(s, true);
  }

  lemma Cancel(c: string, x: string, y: string)
    requires c + x == c + y
    ensures x == y
  {
    assert x == (c + x)[|c|..] && y == (c + y)[|c|..];
  }

  lemma MiddleWithin(s: string, m: string, within: bool)
    requires s != "" && Collapsed(s, false) == Lead(s, false) + m + Trail(s)
    ensures Collapsed(s, within) == Lead(s, within) + m + Trail(s)
  {
    hide IsSlugChar, Collapsed, Trail;
    WithinDrops(s);
    var c := if IsSlugChar(s[0]) then "" else "-";
    Prepend(c, "", m, Trail(s));
    assert c + (m + Trail(s)) == c + m + Trail(s);
    Cancel(c, Collapsed(s, true), m + Trail(s));
    assert "" + m + Trail(s) == m + Trail(s);
  }

  lemma {:induction false} Middle(s: string) returns (m: string)
    requires HasSlugChar(s)
    ensures Inner(m) && Collapsed(s, false) == Lead(s, false) + m + Trail(s)
  {
    hide IsSlugChar, Collapsed;
    var rest := s[1..];
    assert forall i :: 0 < i < |s| ==> rest[i - 1] == s[i];
    MiddleStep(s);
    SlugNotDash(s[0]);
    if !IsSlugChar(s[0]) {
      m := Middle(rest);
      MiddleWithin(rest, m, true);
      Prepend("-", "", m, Trail(rest));
    } else if HasSlugChar(rest) {
      var k := Middle(rest);
      m := [s[0]] + (Lead(rest, false) + k);
      Prepend([s[0]], Lead(rest, false), k, Trail(rest));
    } else {
      NothingKept(rest, false);
      m := [s[0]];
    }
  }

  lemma Prepend(c: string, lead: string, k: string, trail: string)
    ensures c + (lead + k + trail) == (c + (lead + k)) + trail == c + (lead + k) + trail
    ensures "" + k == k
  {
  }

  lemma SlugNotDash(c: char)
    ensures IsSlugChar(c) ==> c != '-'
  {
  }

  lemma MiddleStep(s: string)
    requires s != ""
    ensures Collapsed(s, false) ==
      if IsSlugChar(s[0]) then [s[0]] + Collapsed(s[1..], false) else ['-'] + Collapsed(s[1..], true)
  {
  }

  /** The slug in text that has slug characters. */
  function Core(s: string): string {
    DashStripped(Collapsed(s, false))
  }

  lemma CollapsedCore(s: string)
    requires HasSlugChar(s)
    ensures s != "" && Inner(Core(s)) && Collapsed(s, false) == Lead(s, false) + Core(s) + Trail(s)
    ensures Collapsed(s, true) == Core(s) + Trail(s)
  {
    hide IsSlugChar, DashStripped, Collapsed;
    CollapsedIs(s, false);
    CollapsedIs(s, true);
    assert "" + Core(s) + Trail(s) == Core(s) + Trail(s);
  }

  lemma BetweenIs(between: string)
    requires between != "" && !HasSlugChar(between)
    ensures !IsSlugChar(between[|between| - 1]) && Collapsed(between, false) == ['-'] && Collapsed(between, true) == []
  {
    hide Collapsed;
    NothingKept(between, false);
    NothingKept(between, true);
  }

  /** After text that has slug characters, what has none leaves one dash, be it there already or not. */
  lemma CollapsedAfter(a: string, between: string)
    requires HasSlugChar(a) && between != "" && !HasSlugChar(between)
    ensures Collapsed(a + between, false) == Lead(a, false) + Core(a) + "-" &&
      !IsSlugChar((a + between)[|a + between| - 1])
  {
    hide IsSlugChar, DashStripped, Collapsed, HasSlugChar;
    CollapsedCore(a);
    BetweenIs(between);
    CollapsedConcat(a, between, false);
    var x := Lead(a, false) + Core(a);
    assert x + "" + "-" == x + "-" && x + "-" + "" == x + "-";
  }

  lemma CoreJoins(a: string, between: string, b: string)
    requires HasSlugChar(a) && HasSlugChar(b) && between != "" && !HasSlugChar(between)
    ensures Core(a + between + b) == Core(a) + "-" + Core(b)
  {
    hide IsSlugChar, DashStripped, Collapsed, HasSlugChar, Inner, Lead, Trail, Core;
    CollapsedAfter(a, between);
    CollapsedCore(a);
    CollapsedCore(b);
    LeadOrNone(a);
    LeadOrNone(b);
    CollapsedConcat(a + between, b, false);
    InnerJoins(Core(a), Core(b));
    Regroup(Lead(a, false), Core(a), Core(b), Trail(b));
    CoreIs(a + between + b, Lead(a, false), Core(a) + "-" + Core(b), Trail(b));
  }

  lemma CoreIs(s: string, lead: string, m: string, trail: string)
    requires Inner(m) && lead in {"", "-"} && trail in {"", "-"} && Collapsed(s, false) == lead + m + trail
    ensures Core(s) == m
  {
    hide DashStripped, Collapsed;
    StripInner(lead, m, trail);
  }

  lemma LeadOrNone(s: string)
    ensures Lead(s, false) in {"", "-"} && Trail(s) in {"", "-"}
  {
  }

  lemma InnerJoins(a: string, b: string)
    requires Inner(a) && Inner(b)
    ensures Inner(a + "-" + b)
  {
  }

  lemma Regroup(x: string, y: string, z: string, t: string)
    ensures (x + y + "-") + (z + t) == x + (y + "-" + z) + t
  {
  }

  lemma CoreAtEnds(a: string, between: string)
    requires HasSlugChar(a) && between != "" && !HasSlugChar(between)
    ensures Core(a + between) == Core(between + a) == Core(a)
  {
    hide IsSlugChar, DashStripped, Collapsed, HasSlugChar;
    CollapsedAfter(a, between);
    CollapsedCore(a);
    BetweenIs(between);
    CollapsedConcat(between, a, false);
    StripInner(Lead(a, false), Core(a), "-");
    StripInner("-", Core(a), Trail(a));
    assert "-" + (Core(a) + Trail(a)) == "-" + Core(a) + Trail(a);
  }

  /** What a slug is made of: between two texts that each have a letter or digit, whatever has none becomes one dash; at
      either end it is dropped; and alone it gives "thread". */
  lemma {:induction false} SlugifyJoins(a: string, between: string, b: string)
    requires HasSlugChar(LowerText(a)) && HasSlugChar(LowerText(b))
    requires between != "" && !HasSlugChar(LowerText(between))
    ensures Slugify(a + between + b) == Slugify(a) + "-" + Slugify(b)
    ensures Slugify(a + between) == Slugify(between + a) == Slugify(a)
    ensures Slugify(between) == "thread"
  {
    hide IsSlugChar, DashStripped, Collapsed, LowerText, HasSlugChar;
    var la, lb, lm := LowerText(a), LowerText(b), LowerText(between);
    LowerConcat(a + between, b);
    LowerConcat(a, between);
    LowerConcat(between, a);
    CoreJoins(la, lm, lb);
    CoreAtEnds(la, lm);
    CollapsedCore(la);
    CollapsedCore(lb);
    BetweenIs(lm);
    StripDash();
  }

  lemma StripDash()
    ensures DashStripped(['-']) == []
  {
  }

  /** A word of letters and digits, small or capital, gives its lower case. */
  lemma {:induction false} SlugifyWord(w: string)
    requires w != "" && forall i :: 0 <= i < |LowerText(w)| ==> IsSlugChar(LowerText(w)[i])
    ensures Slugify(w) == LowerText(w)
  {
    hide LowerText;
    var l := LowerText(w);
    LowerSettles(w);
    SlugifySameIff(l);
    assert IsSlug(l);
    SlugAsIs(l, false);
  }

  /** The candidates that are tried for a title, in order from 1. */
  function Candidate(base: string, n: nat): string {
    if n <= 1 then base else base + "-" + Decimal(n)
  }

  lemma CandidatesDiffer(base: string, m: nat, n: nat)
    requires 1 <= m < n
    ensures Candidate(base, m) != Candidate(base, n)
  {
    hide Decimal;
    var a, b := Candidate(base, m), Candidate(base, n);
    if a == b {
      assert |b| > |base|;
      assert a[|base| + 1..] == Decimal(m) && b[|base| + 1..] == Decimal(n);
      DecimalInjective(m, n);
      assert false;
    }
  }

  lemma CandidateIsSlug(base: string, n: nat)
    requires IsSlug(base)
    ensures IsSlug(Candidate(base, n))
  {
    hide Decimal;
    if n > 1 {
      var s, d := Candidate(base, n), Decimal(n);
      assert forall i :: 0 <= i < |d| ==> s[|base| + 1 + i] == d[i];
      assert forall i :: 0 <= i < |base| ==> s[i] == base[i];
    }
  }

  /** `n` is the number of the first candidate that is not taken. */
  ghost predicate FirstFree(taken: set<string>, base: string, n: nat) {
    1 <= n && Candidate(base, n) !in taken && forall j :: 1 <= j < n ==> Candidate(base, j) in taken
  }

  /** `_unique_thread_slug`: the search ends, since there are more candidates than taken slugs, at the first free
      one. */
  method UniqueSlug(taken: set<string>, title: string) returns (candidate: string)
    ensures exists n: nat :: FirstFree(taken, Slugify(title), n) && candidate == Candidate(Slugify(title), n)
  {
    hide Slugify, Decimal;
    var base := Slugify(title);
    candidate := base;
    var suffix := 2;
    ghost var tried: set<string> := {};
    while candidate in taken
      invariant suffix >= 2 && candidate == Candidate(base, suffix - 1)
      invariant forall j :: 1 <= j < suffix - 1 ==> Candidate(base, j) in taken
      invariant forall x :: x in tried ==> x in taken && exists j :: 1 <= j < suffix - 1 && x == Candidate(base, j)
      decreases |taken - tried|
    {
      ghost var before := tried;
      if candidate in tried {
        var j :| 1 <= j < suffix - 1 && candidate == Candidate(base, j);
        CandidatesDiffer(base, j, suffix - 1);
        assert false;
      }
      tried := tried + {candidate};
      assert taken - before == (taken - tried) + {candidate};
      candidate := base + "-" + Decimal(suffix);
      suffix := suffix + 1;
    }
    assert FirstFree(taken, base, suffix - 1);
  }
}
