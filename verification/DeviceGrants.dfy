/** What device bootstrap tokens grant, and how they end, in terms of the texts of roles and scopes. */
module DeviceGrants {
  import opened PyText
  import opened SortedText
  import opened DeviceProfile
  import opened DeviceTokens

  // ---- Roles and scopes as texts ----

  /** Some text of `xs` is `x`, but for outer white space. */
  ghost predicate Entry(xs: seq<string>, x: string) {
    x != "" && exists y :: y in xs && IsStripped(y, x)
  }

  /** The scopes `xs` with what they imply: admin implies read and write, and write implies read. */
  ghost predicate Implied(xs: seq<string>, x: string) {
    Entry(xs, x) ||
    (x == "operator.read" && (Entry(xs, "operator.admin") || Entry(xs, "operator.write"))) ||
    (x == "operator.write" && Entry(xs, "operator.admin"))
  }

  predicate MayBeHandedOver(x: string) {
    x == "operator.approvals" || x == "operator.read" || x == "operator.talk.secrets" || x == "operator.write"
  }

  function Or(xs: Option<seq<string>>): seq<string> {
    if xs.Some? then xs.value else []
  }

  /** A token issued with these requests has the role. */
  ghost predicate IssuedRole(roles: Option<seq<string>>, scopes: Option<seq<string>>, role: string) {
    if roles.None? && scopes.None? then role == "node" || role == "operator" else Entry(Or(roles), role)
  }

  /** And the scope: an operator gets what its scopes imply, as far as that may be handed over. */
  ghost predicate IssuedScope(roles: Option<seq<string>>, scopes: Option<seq<string>>, x: string) {
    MayBeHandedOver(x) &&
    ((roles.None? && scopes.None?) || (Entry(Or(roles), "operator") && Implied(Or(scopes), x)))
  }

  lemma EntryIff(xs: seq<string>, x: string)
    ensures x in Entries(xs) <==> Entry(xs, x)
  {
    hide Strip, IsStripped;
    forall y ensures Strip(y) == x <==> IsStripped(y, x) { StripIff(y, x); }
  }

  lemma {:induction false} ImpliedIff(xs: seq<string>, x: string)
    ensures x in Closure(Entries(xs)) <==> Implied(xs, x)
  {
    hide Entries, Entry;
    EntryIff(xs, x);
    EntryIff(xs, "operator.admin");
    EntryIff(xs, "operator.write");
    ScopeTexts();
  }

  lemma ScopeTexts()
    ensures "operator.admin" != "operator.write" && "operator.write" != "operator.read"
    ensures "operator.admin" != "operator.read"
  {
    assert "operator.admin"[9] == 'a' && "operator.write"[9] == 'w' && "operator.read"[9] == 'r';
  }

  lemma HandoffTexts(x: string)
    ensures x in HANDOFF <==> MayBeHandedOver(x)
  {
  }

  // ---- What is issued ----

  lemma NormalizedScopes(p: Profile, x: string)
    ensures Implied(Normalized(p).scopes, x) <==> Implied(p.scopes, x)
  {
    hide Entries, Closure, Implied;
    EntriesClean(p.scopes);
    EntriesOfSorted(Closure(Entries(p.scopes)));
    ClosureAbsorbs(Entries(p.scopes), {});
    ImpliedIff(Normalized(p).scopes, x);
    ImpliedIff(p.scopes, x);
  }

  lemma NormalizedRoles(p: Profile, x: string)
    ensures x in Normalized(p).roles <==> Entry(p.roles, x)
  {
    hide Entries, Entry, Sorted;
    EntryIff(p.roles, x);
  }

  lemma DefaultProfile(x: string)
    ensures var p := IssueProfile(None, None);
      (Implied(p.scopes, x) <==> MayBeHandedOver(x)) && (Entry(p.roles, x) <==> x == "node" || x == "operator")
  {
    hide Entry, MayBeHandedOver, IssueProfile;
    var p := IssueProfile(None, None);
    DefaultTexts(x);
    DefaultTexts("operator.admin");
    DefaultTexts("operator.write");
    NamedScopes();
  }

  lemma NamedScopes()
    ensures MayBeHandedOver("operator.read") && MayBeHandedOver("operator.write") && !MayBeHandedOver("operator.admin")
  {
    assert "operator.admin"[9] == 'a' && "operator.write"[9] == 'w' && "operator.read"[9] == 'r';
    assert |"operator.approvals"| == 18 && |"operator.talk.secrets"| == 21 && |"operator.admin"| == 14;
  }

  lemma DefaultTexts(x: string)
    ensures var p := IssueProfile(None, None);
      (Entry(p.scopes, x) <==> MayBeHandedOver(x)) && (Entry(p.roles, x) <==> x == "node" || x == "operator")
  {
    hide Entry;
    var p := IssueProfile(None, None);
    TrimmedEntry(p.scopes, x);
    TrimmedEntry(p.roles, x);
  }

  lemma TrimmedEntry(xs: seq<string>, x: string)
    requires forall y :: y in xs ==> y != "" && Trimmed(y)
    ensures Entry(xs, x) <==> x in xs
  {
    hide Trimmed, IsStripped, Strip;
    forall y | y in xs ensures IsStripped(y, x) <==> y == x {
      StripIff(y, x);
      SameWhenTrimmed(y);
    }
  }

  lemma SameWhenTrimmed(y: string)
    requires Trimmed(y)
    ensures Strip(y) == y
  {
    hide Trimmed;
  }

  lemma BoundProfile(roles: seq<string>, scopes: seq<string>, x: string)
    ensures Implied(SortedOf(HandedOver(roles, scopes)), x) <==>
      MayBeHandedOver(x) && Entry(roles, "operator") && Implied(scopes, x)
    ensures Entry(Roles(roles), x) <==> Entry(roles, x)
  {
    HandoffClosed(Entries(scopes));
    EntriesClean(roles);
    EntriesClean(scopes);
    HandoffTexts(x);
    EntryIff(roles, "operator");
    EntryIff(roles, x);
    EntryIff(Roles(roles), x);
    EntriesOfSorted(Entries(roles));
    ImpliedIff(scopes, x);
    var h := HandedOver(roles, scopes);
    ImpliedIff(SortedOf(h), x);
    NothingImplied();
    hide Entries, Entry, Closure, Implied, MayBeHandedOver, HANDOFF, Sorted, Strip;
    EntriesOfSorted(h);
  }

  lemma NothingImplied()
    ensures Closure({}) == {}
  {
  }

  lemma {:induction false} IssuedIff(roles: Option<seq<string>>, scopes: Option<seq<string>>, x: string)
    ensures var p := Normalized(IssueProfile(roles, scopes));
      (Implied(p.scopes, x) <==> IssuedScope(roles, scopes, x)) && (x in p.roles <==> IssuedRole(roles, scopes, x))
  {
    hide Implied, Entry, MayBeHandedOver, SortedOf, HandedOver, Roles, Normalized;
    var p := IssueProfile(roles, scopes);
    NormalizedScopes(p, x);
    NormalizedRoles(p, x);
    if roles.None? && scopes.None? { DefaultProfile(x); } else { BoundProfile(Or(roles), Or(scopes), x); }
  }

  // ---- What is granted ----

  /** A request for `role` with these scopes stays within what was issued: the role is one of those issued; every scope,
      with all it implies, was issued; and for any role but the operator it belongs to that role. */
  ghost predicate Within(issue: Step, role: string, requested: seq<string>)
    requires issue.Issue?
  {
    IssuedRole(issue.roles, issue.scopes, role) &&
    forall x :: Implied(requested, x) ==>
      IssuedScope(issue.roles, issue.scopes, x) && (role != "operator" ==> role + "." <= x)
  }

  lemma {:induction false} AllowsIff(p: Profile, role: string, requested: seq<string>)
    ensures AllowsRequest(p, role, requested) <==>
      role in p.roles &&
      forall x :: Implied(requested, x) ==> Implied(p.scopes, x) && (role != "operator" ==> role + "." <= x)
  {
    hide Implied, Entries, Closure;
    forall x
      ensures x in Closure(Entries(requested)) <==> Implied(requested, x)
      ensures x in Closure(Entries(p.scopes)) <==> Implied(p.scopes, x)
    {
      ImpliedIff(requested, x);
      ImpliedIff(p.scopes, x);
    }
  }

  lemma AllowedIsWithin(issue: Step, role: string, requested: seq<string>)
    requires issue.Issue?
    ensures AllowsRequest(Normalized(IssueProfile(issue.roles, issue.scopes)), role, requested) <==>
      Within(issue, role, requested)
  {
    hide Implied, IssuedRole, IssuedScope, AllowsRequest, Normalized, IssueProfile;
    var p := Normalized(IssueProfile(issue.roles, issue.scopes));
    AllowsIff(p, role, requested);
    IssuedIff(issue.roles, issue.scopes, role);
    forall x ensures Implied(p.scopes, x) <==> IssuedScope(issue.roles, issue.scopes, x) {
      IssuedIff(issue.roles, issue.scopes, x);
    }
  }

  /** A token that was just issued can be verified if and only if it has not expired, device, key and role are named,
      and the request stays within what was issued. */
  lemma {:induction false} FreshTokenGrantsIff(canon: Canonicalizer, file: File, issue: Step, s: Step)
    requires issue.Issue? && Enabled(file, issue) && s.Verify? && Strip(s.token) == issue.token && issue.now <= s.now
    ensures Verifies(canon, Next(canon, file, issue), s) <==>
      s.now < issue.now + TTL_MS && !Blank(s.deviceId) && NormalizeKey(canon, s.publicKey) != "" &&
      exists role :: role != "" && IsStripped(s.role, role) && Within(issue, role, s.requested)
  {
    hide Within, AllowsRequest, Normalized, IssueProfile, NormalizeKey, Verifies, Next, Strip, IsStripped, Blank;
    FreshTokenVerifiesIff(canon, file, issue, s);
    AllowedIsWithin(issue, Strip(s.role), s.requested);
    BlankIff(s.deviceId);
    StripIff(s.role, Strip(s.role));
    forall role ensures IsStripped(s.role, role) <==> Strip(s.role) == role { StripIff(s.role, role); }
  }

  /** On any run after it was issued, and not restored, whatever is verified against a token stays within what was
      issued. */
  lemma {:induction false} GrantsStayWithin(canon: Canonicalizer, file: File, issue: Step, steps: seq<Step>, s: Step)
    requires Base64Url(canon) && issue.Issue? && Enabled(file, issue)
    requires forall i :: 0 <= i < |steps| ==> !Brings(steps[i], issue.token)
    requires s.Verify? && Strip(s.token) == issue.token &&
      Verifies(canon, Run(canon, Next(canon, file, issue), steps), s)
    ensures exists role :: role != "" && IsStripped(s.role, role) && Within(issue, role, s.requested)
  {
    var n, key := Next(canon, file, issue), issue.token;
    IssueStores(canon, file, issue);
    hide Run, Next, Strip, NormalizeKey, Normalized, RedeemedProfile, BindingMatches, Unbound, AllowsRequest;
    hide IssueProfile, IsStripped, Base64Url, Brings, Within;
    RunContinues(canon, n, steps, key);
    assert IssuedProfile(n[key]) == Normalized(IssueProfile(issue.roles, issue.scopes));
    AllowedIsWithin(issue, Strip(s.role), s.requested);
    StripIff(s.role, Strip(s.role));
  }

  // ---- What is redeemed ----

  /** Only an operator redeems scopes: what the named ones imply, as far as that may be handed over. */
  lemma {:induction false} RedeemedScopeIff(role: string, scopes: seq<string>, x: string)
    ensures x in ScopesForRole(role, scopes) <==>
      IsStripped(role, "operator") && Implied(scopes, x) && MayBeHandedOver(x)
  {
    hide Strip, IsStripped, Entries, Closure, Implied, Sorted, HANDOFF, MayBeHandedOver;
    StripIff(role, "operator");
    ImpliedIff(scopes, x);
    HandoffTexts(x);
  }

  // ---- How tokens end ----

  /** After clearing no token is found. */
  lemma ClearedIsGone(canon: Canonicalizer, file: File, now: int, token: string, later: int)
    ensures Find(Next(canon, file, Step.Clear(now)), token, later) == None
  {
    hide Strip;
  }

  /** A revoked token is not found any more; all others are found as before. */
  lemma {:induction false} RevokedIsGone(canon: Canonicalizer, file: File, now: int, token: string, other: string,
                                         later: int)
    requires now <= later
    ensures Find(Next(canon, file, Step.Revoke(now, token)), other, later) ==
      if Strip(other) == Strip(token) && Find(file, token, now).Some? then None else Find(file, other, later)
  {
    hide Strip, Live, Find, Normalized, IssueProfile, Verifies, Bind, Redeemed;
    FindLive(file, now, other, later);
    FindWithout(Live(file, now), Strip(token), other, later);
  }

  lemma FindLive(file: File, now: int, token: string, later: int)
    requires now <= later
    ensures Find(Live(file, now), token, later) == Find(file, token, later)
  {
    hide Strip, Expired;
    var key := Strip(token);
    if key in file && !Expired(key, file[key], later) { EarlierNotExpired(file[key], key, now, later); }
  }

  lemma FindWithout(file: File, key: string, token: string, later: int)
    ensures Find(file - {key}, token, later) == if Strip(token) == key then None else Find(file, token, later)
  {
    hide Strip, Expired;
  }

  /** A restored record is found under its token until its stamp is more than ten minutes old or it expires. */
  lemma {:induction false} RestoredIsFoundIff(canon: Canonicalizer, file: File, now: int, r: Record, later: int)
    requires r.token != "" && Trimmed(r.token)
    ensures var stamp := if r.ts.Some? then r.ts.value else if r.issuedAt.Some? then r.issuedAt.value else 0;
      Find(Next(canon, file, Step.Restore(now, r)), r.token, later) ==
      if later - stamp <= 600000 && (r.expiresAt.None? || later < r.expiresAt.value) then Some(r) else None
  {
    assert Strip(r.token) == r.token;
    hide Strip;
  }

  // ---- Public keys ----

  ghost predicate HasPart(s: string, part: string) {
    exists i :: 0 <= i <= |s| - |part| && PartAt(s, part, i)
  }

  predicate PartAt(s: string, part: string, i: int)
    requires 0 <= i <= |s| - |part|
  {
    s[i..i + |part|] == part
  }

  lemma {:induction false} ContainsIff(s: string, part: string)
    ensures Contains(s, part) <==> HasPart(s, part)
  {
    if part <= s {
      assert PartAt(s, part, 0);
    } else if |s| != 0 {
      var rest := s[1..];
      ContainsIff(rest, part);
      if i :| 0 <= i <= |rest| - |part| && PartAt(rest, part, i) {
        assert s[i + 1..i + 1 + |part|] == rest[i..i + |part|];
        assert PartAt(s, part, i + 1);
      }
      if i :| 0 <= i <= |s| - |part| && PartAt(s, part, i) {
        assert i > 0;
        assert rest[i - 1..i - 1 + |part|] == s[i..i + |part|];
        assert PartAt(rest, part, i - 1);
      }
    }
  }

  /** A key is decoded if it looks like PEM or padded base64, and if that succeeds; otherwise it is taken as it is,
      without outer white space. */
  lemma {:induction false} KeyIs(canon: Canonicalizer, key: string, t: string)
    requires IsStripped(key, t)
    ensures NormalizeKey(canon, key) ==
      if (HasPart(t, "BEGIN") || '+' in t || '/' in t || '=' in t) && t != "" && canon(t).Some?
      then canon(t).value else t
  {
    hide Strip, IsStripped, Contains, HasPart;
    StripIff(key, t);
    ContainsIff(t, "BEGIN");
  }
}
