/** Account and agent identifiers: `src/openzues/services/session_keys.py`. */
module SessionKeys {
  import opened PyText

  predicate IsIdChar(c: char) {
    'a' <= c <= 'z' || IsDigit(c) || c == '_' || c == '-'
  }

  /** What the letters and digits of a case-insensitive Unicode pattern match: also the dotted and the dotless i, the
      long s and the Kelvin sign. */
  predicate MatchesAlnum(c: char) {
    'a' <= c <= 'z' || 'A' <= c <= 'Z' || IsDigit(c) ||
    c == '\U{130}' || c == '\U{131}' || c == '\U{17f}' || c == '\U{212a}'
  }

  /** `_VALID_AGENT_ID_RE.fullmatch` */
  predicate ValidId(s: string) {
    0 < |s| <= 64 && MatchesAlnum(s[0]) && forall c :: c in s ==> MatchesAlnum(c) || c == '_' || c == '-'
  }

  ghost predicate IdText(s: string) {
    forall c :: c in s ==> IsIdChar(c)
  }

  /** Every run of other characters becomes one dash; `within` says that a run has already been replaced. */
  function Dashed(s: string, within: bool): (r: string)
    ensures IdText(r) && (IdText(s) ==> r == s)
  {
    if |s| == 0 then []
    else if IsIdChar(s[0]) then [s[0]] + Dashed(s[1..], false)
    else (if within then [] else ['-']) + Dashed(s[1..], true)
  }

  /** Neither at the start nor at the end an other character. */
  predicate IdEnds(s: string) {
    s != "" && IsIdChar(s[0]) && IsIdChar(s[|s| - 1])
  }

  predicate NoIdChars(s: string) {
    s != "" && forall c :: c in s ==> !IsIdChar(c)
  }

  /** A run of other characters between identifier characters becomes one dash. */
  lemma {:induction false} DashedJoins(a: string, between: string, b: string)
    requires IdEnds(a) && NoIdChars(between) && IdEnds(b)
    ensures Dashed(a + between + b, false) == Dashed(a, false) + "-" + Dashed(b, false)
  {
    hide IsIdChar, Dashed;
    DashedConcat(a, between + b, false);
    DashedConcat(between, b, false);
    NoneKept(between, false);
    assert a + between + b == a + (between + b);
    assert between[|between| - 1] in between;
    StartsKept(b);
    Regroup(Dashed(a, false), Dashed(b, false));
  }

  lemma StartsKept(s: string)
    requires s != "" && IsIdChar(s[0])
    ensures Dashed(s, true) == Dashed(s, false)
  {
    hide IsIdChar;
  }

  lemma Regroup(x: string, y: string)
    ensures x + (['-'] + y) == x + "-" + y
  {
  }

  lemma {:induction false} DashedConcat(a: string, b: string, within: bool)
    requires a != ""
    ensures Dashed(a + b, within) == Dashed(a, within) + Dashed(b, !IsIdChar(a[|a| - 1]))
  {
    hide IsIdChar;
    assert (a + b)[1..] == a[1..] + b;
    if |a| > 1 {
      DashedConcat(a[1..], b, !IsIdChar(a[0]));
    } else {
      assert a[1..] + b == b;
    }
  }

  lemma {:induction false} NoneKept(s: string, within: bool)
    requires s != "" && forall c :: c in s ==> !IsIdChar(c)
    ensures Dashed(s, within) == if within then [] else ['-']
  {
    hide IsIdChar;
    assert s[0] in s;
    if |s| > 1 { NoneKept(s[1..], true); }
  }

  function WithoutLeadingDashes(s: string): (r: string)
    ensures |r| <= |s| && r == s[|s| - |r|..]
    ensures r == [] || r[0] != '-'
    ensures forall i :: 0 <= i < |s| - |r| ==> s[i] == '-'
    ensures s == [] || s[0] != '-' ==> r == s
  {
    if |s| != 0 && s[0] == '-' then WithoutLeadingDashes(s[1..]) else s
  }

  function WithoutTrailingDashes(s: string): (r: string)
    ensures r <= s && (r == [] || r[|r| - 1] != '-')
    ensures forall i :: |r| <= i < |s| ==> s[i] == '-'
    ensures s == [] || s[|s| - 1] != '-' ==> r == s
    ensures s != [] && s[0] != '-' ==> r != []
  {
    if |s| != 0 && s[|s| - 1] == '-' then WithoutTrailingDashes(s[..|s| - 1]) else s
  }

  /** Dashes for what is no identifier character, but none at either end. */
  function DashedInside(s: string): string {
    WithoutTrailingDashes(WithoutLeadingDashes(Dashed(LowerText(s), false)))
  }

  function Sanitized(s: string): string {
    var r := DashedInside(s);
    if |r| <= 64 then r else r[..64]
  }

  /** `_canonicalize_account_id` */
  function CanonicalId(s: string): string {
    if ValidId(s) then LowerText(s) else Sanitized(s)
  }

  predicate Blocked(s: string) {
    s == "__proto__" || s == "constructor" || s == "prototype"
  }

  function Given(value: Option<string>): string {
    Strip(if value.Some? then value.value else "")
  }

  /** `normalize_account_id` */
  function AccountId(value: Option<string>): string {
    var id := if Given(value) == "" then "" else CanonicalId(Given(value));
    if id == "" || Blocked(id) then "default" else id
  }

  /** `normalize_agent_id` */
  function AgentId(value: Option<string>): string {
    var id := if Given(value) == "" then "" else CanonicalId(Given(value));
    if id == "" then "main" else id
  }

  // ---- What normalised identifiers look like ----

  /** Identifier characters only, at most 64, not starting with a dash. */
  ghost predicate Strict(s: string) {
    0 < |s| <= 64 && IdText(s) && s[0] != '-'
  }

  /** What the lower case of a letter can be that the pattern matches. */
  predicate IsForeign(c: char) {
    c == '\U{131}' || c == '\U{17f}' || c == '\U{307}'
  }

  predicate HasForeign(s: string) {
    '\U{131}' in s || '\U{17f}' in s || '\U{307}' in s
  }

  /** Or also the lower case of the other letters that the pattern matches, at most 128 characters. */
  ghost predicate Shaped(s: string) {
    0 < |s| <= 128 && s[0] != '-' && forall c :: c in s ==> IsIdChar(c) || IsForeign(c)
  }

  /** A valid identifier with a letter whose lower case is not an identifier character. */
  predicate ValidForeign(s: string) {
    ValidId(s) && ('\U{130}' in s || '\U{131}' in s || '\U{17f}' in s)
  }

  lemma LowerOfChar(d: char, c: char)
    requires MatchesAlnum(d) || d == '_' || d == '-'
    requires c in LowerChar(d)
    ensures IsIdChar(c) || IsForeign(c)
    ensures d != '\U{130}' ==> MatchesAlnum(c) || c == '_' || c == '-'
    ensures IsForeign(c) ==> d == '\U{130}' || d == '\U{131}' || d == '\U{17f}'
    ensures c == '\U{307}' ==> d == '\U{130}'
    ensures MatchesAlnum(d) ==> LowerChar(d)[0] != '-' && MatchesAlnum(LowerChar(d)[0])
  {
  }

  lemma ForeignChars()
    ensures '\U{307}' in LowerChar('\U{130}') && '\U{131}' in LowerChar('\U{131}') && '\U{17f}' in LowerChar('\U{17f}')
    ensures IsForeign('\U{307}') && IsForeign('\U{131}') && IsForeign('\U{17f}')
  {
    assert LowerChar('\U{130}')[1] == '\U{307}';
  }

  lemma LowerOfValid(s: string)
    requires ValidId(s)
    ensures Shaped(LowerText(s)) && (HasForeign(LowerText(s)) <==> ValidForeign(s))
    ensures '\U{307}' in LowerText(s) <==> '\U{130}' in s
    ensures '\U{130}' !in s ==> ValidId(LowerText(s)) && |LowerText(s)| == |s|
  {
    hide LowerText, LowerChar, MatchesAlnum, IsIdChar, IsForeign;
    var r := LowerText(s);
    LowerFirst(s);
    LowerOfChar(s[0], r[0]);
    ForeignChars();
    forall c | c in r
      ensures IsIdChar(c) || IsForeign(c)
      ensures '\U{130}' !in s ==> MatchesAlnum(c) || c == '_' || c == '-'
      ensures IsForeign(c) ==> ValidForeign(s) && (c == '\U{307}' ==> '\U{130}' in s)
    {
      var d := LowerMember(s, c);
      LowerOfChar(d, c);
    }
    if '\U{130}' in s { LowerHas(s, '\U{130}', '\U{307}'); } else { SameLength(s); }
    if '\U{131}' in s { LowerHas(s, '\U{131}', '\U{131}'); }
    if '\U{17f}' in s { LowerHas(s, '\U{17f}', '\U{17f}'); }
  }

  lemma {:induction false} SameLength(s: string)
    requires '\U{130}' !in s
    ensures |LowerText(s)| == |s|
  {
    if |s| != 0 { SameLength(s[1..]); }
  }

  lemma SanitizedShape(s: string)
    ensures Sanitized(s) == "" || Strict(Sanitized(s))
  {
    hide LowerText, Dashed, WithoutLeadingDashes, WithoutTrailingDashes, IsIdChar;
    var d := Dashed(LowerText(s), false);
    var l := WithoutLeadingDashes(d);
    var r := WithoutTrailingDashes(l);
    assert forall c :: c in r ==> c in d;
    if r != [] { assert r[0] == l[0]; }
  }

  lemma StrictIsShaped(s: string)
    ensures Strict(s) <==> Shaped(s) && !HasForeign(s) && |s| <= 64
  {
  }

  lemma DefaultsStrict()
    ensures Strict("default") && Strict("main") && !Blocked("default")
  {
    assert |"default"| == 7 && |"main"| == 4 && |"__proto__"| == 9 && |"constructor"| == 11 && |"prototype"| == 9;
    assert IdText(['d', 'e', 'f', 'a', 'u', 'l', 't']) && IdText(['m', 'a', 'i', 'n']);
  }

  lemma BlockedIsStrict(s: string)
    requires Blocked(s)
    ensures |s| < 12 && !HasForeign(s)
  {
    assert |"__proto__"| == 9 && |"constructor"| == 11 && |"prototype"| == 9;
  }

  /** Identifier characters only, at most 64, unless the text was valid with letters beyond those. */
  lemma CanonicalShape(s: string)
    requires s != ""
    ensures CanonicalId(s) == "" || Shaped(CanonicalId(s))
    ensures CanonicalId(s) == "" ==> !ValidForeign(s)
    ensures CanonicalId(s) != "" ==> (Strict(CanonicalId(s)) <==> !ValidForeign(s))
  {
    hide LowerText, Sanitized, Shaped, HasForeign;
    StrictIsShaped(CanonicalId(s));
    if ValidId(s) { LowerOfValid(s); } else { SanitizedShape(s); }
  }

  lemma AccountIdShape(value: Option<string>)
    ensures Shaped(AccountId(value)) && !Blocked(AccountId(value))
    ensures Strict(AccountId(value)) <==> !ValidForeign(Given(value))
  {
    hide Shaped, CanonicalId, HasForeign, Strict, Given;
    DefaultsStrict();
    StrictIsShaped("default");
    var t := Given(value);
    if t != "" {
      CanonicalShape(t);
      if Blocked(CanonicalId(t)) { BlockedIsStrict(CanonicalId(t)); StrictIsShaped(CanonicalId(t)); }
    }
  }

  lemma AgentIdShape(value: Option<string>)
    ensures Shaped(AgentId(value))
    ensures Strict(AgentId(value)) <==> !ValidForeign(Given(value))
  {
    hide Shaped, CanonicalId, HasForeign, Strict, Given;
    DefaultsStrict();
    StrictIsShaped("main");
    if Given(value) != "" { CanonicalShape(Given(value)); }
  }

  lemma ShapedChar(c: char)
    requires IsIdChar(c) || IsForeign(c)
    ensures !IsSpace(c) && LowerChar(c) == [c] && c != ':' && c != '\U{130}'
  {
  }

  lemma ShapedFacts(s: string)
    requires Shaped(s)
    ensures s != "" && ':' !in s && '\U{130}' !in s && Strip(s) == s && LowerText(s) == s
  {
    hide Strip, LowerText, LowerChar, IsSpace, IsIdChar, IsForeign;
    forall c | c in s ensures !IsSpace(c) && LowerChar(c) == [c] && c != ':' && c != '\U{130}' { ShapedChar(c); }
    assert s[0] in s && s[|s| - 1] in s;
    LowerSame(s);
  }

  // ---- How often one has to normalise ----

  /** Cutting at 64 characters leaves a dash at the end of what starts with an underscore. */
  predicate CutAtADash(s: string) {
    var d := DashedInside(s);
    |d| > 64 && d[0] == '_' && d[63] == '-'
  }

  lemma ValidText(s: string)
    requires Strict(s) && s[0] != '_'
    ensures ValidId(s)
  {
    assert s[0] in s;
  }

  /** Of identifier text only the dashes at the end are lost. */
  lemma SanitizedStrict(s: string)
    requires Strict(s)
    ensures DashedInside(s) == Sanitized(s) == WithoutTrailingDashes(s) != ""
  {
    StrictIsShaped(s);
    ShapedFacts(s);
    hide LowerText, Dashed, WithoutLeadingDashes, WithoutTrailingDashes, IsIdChar, Shaped;
  }

  lemma GivenSame(s: string)
    requires Shaped(s)
    ensures Given(Some(s)) == s
  {
    ShapedFacts(s);
    hide Strip;
  }

  lemma AccountIdOf(s: string)
    requires s != "" && Given(Some(s)) == s
    ensures AccountId(Some(s)) == if CanonicalId(s) == "" || Blocked(CanonicalId(s)) then "default" else CanonicalId(s)
  {
    hide Given, CanonicalId, Blocked;
  }

  lemma CanonicalSameIff(s: string)
    requires Shaped(s)
    ensures CanonicalId(s) == s <==> ValidId(s) || (Strict(s) && s[|s| - 1] != '-')
    ensures ValidId(s) ==> CanonicalId(s) == s
  {
    hide Strict, Sanitized, LowerText, ValidId, WithoutTrailingDashes, HasForeign, IdText, IsIdChar, IsForeign, Shaped;
    ShapedFacts(s);
    if !ValidId(s) {
      if Strict(s) {
        SanitizedStrict(s);
        LosesDashes(s);
      } else {
        SanitizedShape(s);
        assert CanonicalId(s) == Sanitized(s) != s;
      }
    }
  }

  lemma LosesDashes(s: string)
    requires s != ""
    ensures WithoutTrailingDashes(s) == s <==> s[|s| - 1] != '-'
  {
    hide WithoutTrailingDashes;
  }

  lemma AccountIdAgain(s: string)
    requires Shaped(s) && !Blocked(s)
    ensures AccountId(Some(s)) == s <==> ValidId(s) || (Strict(s) && s[|s| - 1] != '-')
  {
    hide Strict, CanonicalId, Blocked, ValidId, AccountId, Given, IsIdChar, IsForeign;
    GivenSame(s);
    DefaultIsValid();
    AccountIdOf(s);
    CanonicalSameIff(s);
  }

  lemma DefaultIsValid()
    ensures ValidId("default") && Shaped("default") && !Blocked("default")
  {
    hide Blocked;
    DefaultsStrict();
    ValidText("default");
    StrictIsShaped("default");
  }

  /** Whether normalising the normalised text changes it again. */
  predicate Unsettled(t: string) {
    if ValidId(t) then '\U{130}' in t else CutAtADash(t)
  }

  lemma CutIff(t: string)
    requires Sanitized(t) != ""
    ensures var c := Sanitized(t); CutAtADash(t) <==> c[0] == '_' && c[|c| - 1] == '-'
    ensures CutAtADash(t) ==> |Sanitized(t)| == 64
  {
    hide LowerText, Dashed, WithoutLeadingDashes, WithoutTrailingDashes;
  }

  /** What is unsettled does not come out as the default. */
  lemma UnsettledIsCanonical(t: string)
    requires Unsettled(t)
    ensures t != "" && CanonicalId(t) != "" && !Blocked(CanonicalId(t))
  {
    hide LowerText, Shaped, Blocked, DashedInside, HasForeign;
    NothingInNothing();
    if ValidId(t) {
      LowerOfValid(t);
      HasDot(LowerText(t));
    }
    if Blocked(CanonicalId(t)) { BlockedIsStrict(CanonicalId(t)); }
  }

  lemma NothingInNothing()
    ensures !Unsettled("")
  {
  }

  lemma HasDot(s: string)
    requires '\U{307}' in s
    ensures HasForeign(s) && s != ""
  {
  }

  /** Normalising an account id is idempotent at a text unless the text is valid with a dotted capital i in it, or it
      is not and gets cut at a dash after a leading underscore. */
  lemma {:induction false} AccountIdIdempotentIff(value: Option<string>)
    ensures AccountId(Some(AccountId(value))) == AccountId(value) <==> !Unsettled(Given(value))
  {
    hide Shaped, Given, LowerText, Sanitized, Strict, CutAtADash, Blocked, ValidId, AccountId, CanonicalId, Unsettled;
    AccountIdShape(value);
    var t, id := Given(value), AccountId(value);
    AccountIdAgain(id);
    DefaultIsValid();
    AccountIdFrom(value);
    if Unsettled(t) { UnsettledIsCanonical(t); }
    if id == CanonicalId(t) && t != "" && id != "" { CanonicalAgain(t); }
  }

  lemma AccountIdFrom(value: Option<string>)
    ensures AccountId(value) == "default" || (AccountId(value) == CanonicalId(Given(value)) != "" && Given(value) != "")
    ensures Given(value) != "" && CanonicalId(Given(value)) != "" && !Blocked(CanonicalId(Given(value))) ==>
      AccountId(value) == CanonicalId(Given(value))
  {
    hide Given, CanonicalId, Blocked;
  }

  lemma CanonicalAgain(t: string)
    requires t != "" && CanonicalId(t) != ""
    ensures var c := CanonicalId(t); (ValidId(c) || (Strict(c) && c[|c| - 1] != '-')) <==> !Unsettled(t)
  {
    hide LowerText, Sanitized, CutAtADash, Strict, Shaped, HasForeign;
    var c := CanonicalId(t);
    if ValidId(t) {
      LowerOfValid(t);
      StrictIsShaped(c);
      NotValidWithDot(c);
    } else {
      SanitizedShape(t);
      CutIff(t);
      NotValidWithDot(c);
      if c[0] != '_' { ValidText(c); }
    }
  }

  lemma NotValidWithDot(s: string)
    ensures ValidId(s) ==> '\U{307}' !in s && s[0] != '_'
    ensures '\U{307}' in s ==> HasForeign(s)
  {
  }

  /** Whether normalising twice is still not enough. */
  predicate UnsettledTwice(t: string) {
    ValidId(t) && '\U{130}' in t && CutAtADash(LowerText(t))
  }

  lemma StrictIsNotCut(s: string)
    requires Strict(s)
    ensures !CutAtADash(s)
  {
    hide DashedInside, WithoutTrailingDashes;
    SanitizedStrict(s);
  }

  /** Normalising twice is enough unless the text is valid with a dotted capital i in it, and its lower case gets cut at
      a dash after a leading underscore. */
  lemma {:induction false} AccountIdTwiceIff(value: Option<string>)
    ensures var twice := AccountId(Some(AccountId(value)));
      AccountId(Some(twice)) == twice <==> !UnsettledTwice(Given(value))
  {
    hide Shaped, Given, LowerText, Sanitized, Strict, CutAtADash, Blocked, ValidId, AccountId;
    var t, id := Given(value), AccountId(value);
    AccountIdShape(value);
    AccountIdIdempotentIff(value);
    AccountIdIdempotentIff(Some(id));
    GivenSame(id);
    ShapedFacts(id);
    if Unsettled(t) {
      UnsettledIsCanonical(t);
      AccountIdFrom(value);
      if ValidId(t) {
        LowerOfValid(t);
        NotValidWithDot(id);
      } else {
        SanitizedShape(t);
        StrictIsNotCut(id);
      }
    }
  }

  /** Three times is always enough. */
  lemma {:induction false} AccountIdSettles(value: Option<string>)
    ensures var thrice := AccountId(Some(AccountId(Some(AccountId(value))))); AccountId(Some(thrice)) == thrice
  {
    hide Shaped, Given, CutAtADash, Blocked, ValidId, AccountId;
    var id := AccountId(value);
    AccountIdShape(value);
    AccountIdTwiceIff(Some(id));
    GivenSame(id);
    ShapedFacts(id);
  }

  /** Nothing gives the default; a valid id its lower case, unless that is a blocked name, which gives the default; and
      anything else what is left of it with dashes inside, cut at 64 characters, on the same terms. */
  lemma {:induction false} AccountIdIs(value: Option<string>, t: string)
    requires IsStripped(if value.Some? then value.value else "", t)
    ensures t == "" ==> AccountId(value) == "default" && AgentId(value) == "main"
    ensures t != "" && ValidId(t) ==>
      AgentId(value) == LowerText(t) &&
      AccountId(value) == if LowerText(t) in {"__proto__", "constructor", "prototype"} then "default" else LowerText(t)
    ensures t != "" && !ValidId(t) ==>
      var d := DashedInside(t);
      var id := if |d| > 64 then d[..64] else d;
      AgentId(value) == (if id == "" then "main" else id) &&
      AccountId(value) == if id in {"", "__proto__", "constructor", "prototype"} then "default" else id
  {
    hide Strip, IsStripped, ValidId, LowerText, DashedInside;
    StripIff(if value.Some? then value.value else "", t);
  }

  // ---- Both happen ----

  lemma DashedInsideSame(s: string)
    requires s != "" && IdText(s) && s[0] != '-' && s[|s| - 1] != '-'
    ensures LowerText(s) == s && DashedInside(s) == s
  {
    hide LowerText, LowerChar, Dashed, WithoutLeadingDashes, WithoutTrailingDashes, IsIdChar;
    forall c | c in s ensures LowerChar(c) == [c] { ShapedChar(c); }
    LowerSame(s);
  }

  lemma GivenTrimmed(s: string)
    requires s != "" && !IsSpace(s[0]) && !IsSpace(s[|s| - 1])
    ensures Given(Some(s)) == s
  {
    hide Strip;
  }

  /** Once is not always enough: 65 characters that start with an underscore, with a dash in place 64. */
  lemma {:induction false} AccountIdNotIdempotent()
    ensures var s := "_" + seq(62, _ => 'a') + "-b"; AccountId(Some(AccountId(Some(s)))) != AccountId(Some(s))
  {
    hide AccountId, Given, DashedInside;
    var s := "_" + seq(62, _ => 'a') + "-b";
    assert s[0] == '_' && s[63] == '-' && s[64] == 'b' && |s| == 65;
    assert IdText(s);
    DashedInsideSame(s);
    GivenTrimmed(s);
    NotValidWithDot(s);
    AccountIdIdempotentIff(Some(s));
  }

  lemma DashedStep(c: char, s: string, within: bool)
    ensures Dashed([c] + s, within) ==
      if IsIdChar(c) then [c] + Dashed(s, false) else (if within then [] else ['-']) + Dashed(s, true)
  {
    assert ([c] + s)[1..] == s;
  }

  lemma DashedDot(rest: string, within: bool)
    ensures Dashed(['i', '\U{307}'] + rest, within) == ['i', '-'] + Dashed(rest, true)
  {
    hide Dashed, IsIdChar;
    DotIsNone();
    DashedStep('\U{307}', rest, false);
    DashedStep('i', ['\U{307}'] + rest, within);
    assert ['i'] + (['\U{307}'] + rest) == ['i', '\U{307}'] + rest;
  }

  lemma DotIsNone()
    ensures !IsIdChar('\U{307}') && IsIdChar('i')
  {
  }

  lemma DashedDots(rest: string)
    requires IdText(rest)
    ensures Dashed("\U{131}_i\U{307}i\U{307}" + rest, false) == "-_i-i-" + rest
  {
    hide Dashed, IsIdChar, IdText;
    var two, one := ['i', '\U{307}'] + (['i', '\U{307}'] + rest), ['i', '\U{307}'] + rest;
    DashedDot(rest, true);
    DashedDot(one, false);
    DashedUnderscore(two);
    assert "\U{131}_i\U{307}i\U{307}" + rest == ['\U{131}', '_'] + two;
  }

  lemma DashedUnderscore(s: string)
    ensures Dashed(['\U{131}', '_'] + s, false) == ['-', '_'] + Dashed(s, false)
  {
    hide Dashed;
    DashedStep('_', s, true);
    DashedStep('\U{131}', ['_'] + s, false);
    assert ['\U{131}'] + (['_'] + s) == ['\U{131}', '_'] + s;
  }

  lemma LowerDots()
    ensures LowerText("\U{131}_\U{130}\U{130}") == "\U{131}_i\U{307}i\U{307}"
  {
    hide LowerText;
    var dotted: string := ['\U{130}'];
    LowerConcat("\U{131}_", dotted + dotted);
    assert "\U{131}_\U{130}\U{130}" == "\U{131}_" + (dotted + dotted);
    LowerSame("\U{131}_");
    LowerConcat(dotted, dotted);
    LowerOne('\U{130}');
  }

  lemma LowerOne(c: char)
    ensures LowerText([c]) == LowerChar(c)
  {
    hide LowerChar;
    assert [c][1..] == [] && LowerText([]) == [];
  }

  lemma CutDots(rest: string)
    requires IdText(rest) && |rest| == 60 && rest[58] == '-' && rest[59] != '-'
    ensures CutAtADash(LowerText("\U{131}_\U{130}\U{130}" + rest))
  {
    hide Dashed, LowerText, WithoutTrailingDashes, LowerChar;
    var t := "\U{131}_\U{130}\U{130}" + rest;
    forall c | c in rest ensures LowerChar(c) == [c] { ShapedChar(c); }
    LowerSame(rest);
    LowerConcat("\U{131}_\U{130}\U{130}", rest);
    LowerDots();
    LowerSettles(t);
    DashedDots(rest);
    var d := "_i-i-" + rest;
    assert "-_i-i-" + rest == ['-'] + d && (['-'] + d)[1..] == d;
    assert d[0] == '_' && d[64] == rest[59];
    assert WithoutLeadingDashes(['-'] + d) == d;
    assert DashedInside(LowerText(t)) == d;
    assert d[63] == rest[58];
  }

  /** Nor twice: 64 characters, a dotless i, an underscore, two dotted capitals, and then a dash in the last place but
      one. */
  lemma {:induction false} AccountIdNeedsThree()
    ensures var t := "\U{131}_\U{130}\U{130}" + seq(58, _ => 'a') + "-b";
      var twice := AccountId(Some(AccountId(Some(t)))); AccountId(Some(twice)) != twice
  {
    hide AccountId, Given, CutAtADash, LowerText;
    var rest := seq(58, _ => 'a') + "-b";
    var t := "\U{131}_\U{130}\U{130}" + seq(58, _ => 'a') + "-b";
    assert t == "\U{131}_\U{130}\U{130}" + rest;
    assert rest[58] == '-' && rest[59] == 'b' && t[0] == '\U{131}' && t[2] == '\U{130}' && t[|t| - 1] == 'b';
    assert IdText(rest);
    CutDots(rest);
    GivenTrimmed(t);
    assert ValidId(t);
    AccountIdTwiceIff(Some(t));
  }
}
