/** Role and scope profiles of device bootstrap tokens: `src/openzues/services/device_bootstrap_profile.py`. */
module DeviceProfile {
  import opened PyText
  import opened SortedText

  const OPERATOR := "operator"
  const ADMIN := "operator.admin"
  const READ := "operator.read"
  const WRITE := "operator.write"

  /** The scopes a bootstrap token may hand over. */
  const HANDOFF: set<string> := {"operator.approvals", "operator.read", "operator.talk.secrets", "operator.write"}

  datatype Profile = Profile(roles: seq<string>, scopes: seq<string>)

  /** The non-empty entries of a list, stripped. */
  ghost function Entries(xs: seq<string>): set<string> {
    set x | x in xs && Strip(x) != "" :: Strip(x)
  }

  /** What scopes imply: admin implies read and write, write implies read. */
  function Closure(s: set<string>): set<string> {
    if ADMIN in s then s + {READ, WRITE} else if WRITE in s then s + {READ} else s
  }

  ghost function Roles(xs: seq<string>): seq<string> {
    SortedOf(Entries(xs))
  }

  ghost function Scopes(xs: seq<string>): seq<string> {
    SortedOf(Closure(Entries(xs)))
  }

  ghost function Normalized(p: Profile): Profile {
    Profile(Roles(p.roles), Scopes(p.scopes))
  }

  /** `normalize_device_auth_scopes` */
  method NormalizeScopes(scopes: seq<string>) returns (r: seq<string>)
    ensures r == Scopes(scopes)
  {
    hide ADMIN, READ, WRITE, Entries, SortedOf;
    var out := NonEmptyEntries(scopes);
    if ADMIN in out {
      out := out + {READ};
      out := out + {WRITE};
    } else if WRITE in out {
      out := out + {READ};
    }
    assert out == Closure(Entries(scopes));
    r := SortedList(out);
  }

  /** `normalize_device_bootstrap_roles` */
  method NormalizeRoles(roles: seq<string>) returns (r: seq<string>)
    ensures r == Roles(roles)
  {
    var out := NonEmptyEntries(roles);
    r := SortedList(out);
  }

  method NonEmptyEntries(xs: seq<string>) returns (out: set<string>)
    ensures out == Entries(xs)
  {
    out := {};
    assert Entries(xs[..0]) == {};
    hide Strip, Entries;
    for i := 0 to |xs|
      invariant out == Entries(xs[..i])
    {
      var trimmed := Strip(xs[i]);
      assert xs[..i + 1] == xs[..i] + [xs[i]] by { PrefixSnoc(xs, i); }
      EntriesSnoc(xs[..i], xs[i]);
      if trimmed != "" {
        out := out + {trimmed};
      }
    }
    assert xs[..|xs|] == xs;
  }

  lemma PrefixSnoc(xs: seq<string>, i: nat)
    requires i < |xs|
    ensures xs[..i + 1] == xs[..i] + [xs[i]]
  {
  }

  lemma EntriesSnoc(xs: seq<string>, x: string)
    ensures Strip(x) != "" ==> Entries(xs + [x]) == Entries(xs) + {Strip(x)}
    ensures Strip(x) == "" ==> Entries(xs + [x]) == Entries(xs)
  {
    EntriesConcat(xs, [x]);
    hide Strip;
  }

  lemma EntriesNone()
    ensures Entries([]) == {}
  {
  }

  lemma EntriesConcat(a: seq<string>, b: seq<string>)
    ensures Entries(a + b) == Entries(a) + Entries(b)
  {
    hide Strip;
    assert forall x :: x in a + b <==> x in a || x in b;
  }

  // ---- Normalisation is a closure ----

  /** A set of stripped, non-empty strings. */
  ghost predicate Clean(s: set<string>) {
    forall x :: x in s ==> x != "" && Trimmed(x)
  }

  lemma EntriesClean(xs: seq<string>)
    ensures Clean(Entries(xs)) && Clean(Closure(Entries(xs)))
  {
    hide Strip;
    assert Trimmed(READ) && Trimmed(WRITE);
  }

  lemma EntriesOfSorted(s: set<string>)
    requires Clean(s)
    ensures Entries(SortedOf(s)) == s
  {
    forall x | x in s ensures Strip(x) == x && x in SortedOf(s) { assert Trimmed(x); }
    hide Strip, SortedOf, Sorted;
    forall x ensures x in Entries(SortedOf(s)) <==> x in s {
      if x in s { assert x in SortedOf(s); }
    }
  }

  /** Absorbing: normalising part of a list first makes no difference. With `b` empty this is idempotence. */
  lemma {:induction false} ScopesAbsorb(a: seq<string>, b: seq<string>)
    ensures Scopes(Scopes(a) + b) == Scopes(a + b)
  {
    EntriesClean(a);
    EntriesOfSorted(Closure(Entries(a)));
    EntriesConcat(Scopes(a), b);
    EntriesConcat(a, b);
    ClosureAbsorbs(Entries(a), Entries(b));
    hide Entries, SortedOf, Closure;
  }

  lemma ClosureAbsorbs(s: set<string>, t: set<string>)
    ensures Closure(Closure(s) + t) == Closure(s + t)
    ensures Closure(Closure(s)) == Closure(s)
  {
    hide ADMIN, READ, WRITE;
  }

  lemma {:induction false} RolesAbsorb(a: seq<string>, b: seq<string>)
    ensures Roles(Roles(a) + b) == Roles(a + b)
  {
    EntriesClean(a);
    EntriesOfSorted(Entries(a));
    EntriesConcat(Roles(a), b);
    EntriesConcat(a, b);
  }

  lemma {:induction false} NormalizeIdempotent(p: Profile)
    ensures Normalized(Normalized(p)) == Normalized(p)
  {
    hide Roles, Scopes;
    RolesAbsorb(p.roles, []);
    ScopesAbsorb(p.scopes, []);
    assert p.roles + [] == p.roles && p.scopes + [] == p.scopes;
    assert Roles(p.roles) + [] == Roles(p.roles) && Scopes(p.scopes) + [] == Scopes(p.scopes);
  }

  /** Monotone: more scopes in, more scopes out; and nothing that was given is lost. */
  lemma ScopesMonotone(a: seq<string>, b: seq<string>)
    requires Entries(a) <= Entries(b)
    ensures Entries(a) <= Entries(Scopes(a)) <= Entries(Scopes(b))
  {
    EntriesClean(a);
    EntriesClean(b);
    EntriesOfSorted(Closure(Entries(a)));
    EntriesOfSorted(Closure(Entries(b)));
  }

  // ---- Handoff ----

  /** `resolve_bootstrap_profile_scopes_for_role` */
  ghost function ScopesForRole(role: string, scopes: seq<string>): seq<string> {
    if Strip(role) == OPERATOR then SortedOf(Closure(Entries(scopes)) * HANDOFF) else []
  }

  /** The scopes a profile may hand over. */
  ghost function HandedOver(roles: seq<string>, scopes: seq<string>): set<string> {
    if OPERATOR in Entries(roles) then Closure(Entries(scopes)) * HANDOFF else {}
  }

  method ResolveScopesForRole(role: string, scopes: seq<string>) returns (r: seq<string>)
    ensures r == ScopesForRole(role, scopes)
  {
    if Strip(role) != OPERATOR {
      return [];
    }
    var all := NormalizeScopes(scopes);
    ghost var reach := Closure(Entries(scopes)) * HANDOFF;
    hide Strip, Entries, HANDOFF, Closure, Sorted;
    r := [];
    for i := 0 to |all|
      invariant r == Kept(all[..i])
    {
      PrefixSnoc(all, i);
      assert all[..i + 1][..i] == all[..i];
      if all[i] in HANDOFF {
        r := r + [all[i]];
      }
    }
    assert all[..|all|] == all;
    KeptSorted(all);
    SortedUnique(r, SortedOf(reach));
  }

  function Kept(xs: seq<string>): seq<string> {
    if |xs| == 0 then []
    else Kept(xs[..|xs| - 1]) + if xs[|xs| - 1] in HANDOFF then [xs[|xs| - 1]] else []
  }

  lemma {:induction false} KeptSorted(xs: seq<string>)
    requires Sorted(xs)
    ensures Sorted(Kept(xs)) && forall x :: x in Kept(xs) <==> x in xs && x in HANDOFF
  {
    hide HANDOFF, Less;
    if |xs| != 0 {
      var front, last := xs[..|xs| - 1], xs[|xs| - 1];
      KeptSorted(front);
      assert xs == front + [last];
      forall j | 0 <= j < |Kept(front)| ensures Less(Kept(front)[j], last) {
        assert Kept(front)[j] in front;
      }
    }
  }

  lemma HandoffClosed(s: set<string>)
    ensures Closure(Closure(s) * HANDOFF) == Closure(s) * HANDOFF
  {
    assert ADMIN !in HANDOFF by { HandoffLacksAdmin(); }
    assert READ in HANDOFF && WRITE in HANDOFF;
  }

  lemma HandoffLacksAdmin()
    ensures ADMIN !in HANDOFF
  {
    assert |ADMIN| == 14 && |"operator.approvals"| == 18 && |"operator.talk.secrets"| == 21 && |READ| == 13;
    assert ADMIN[9] != WRITE[9];
  }

  /** `normalize_device_bootstrap_handoff_profile`: whatever the roles, only an operator hands scopes over,
      and only those of the handoff set that its scopes imply. */
  method NormalizeHandoffProfile(roles: seq<string>, scopes: seq<string>) returns (p: Profile)
    ensures p == Profile(Roles(roles), SortedOf(HandedOver(roles, scopes)))
  {
    var normalizedRoles := NormalizeRoles(roles);
    var normalizedScopes := NormalizeScopes(scopes);
    ReachFacts(scopes);
    EntriesClean(roles);
    hide Strip, Entries, Closure, HANDOFF, OPERATOR, Sorted;
    ghost var reach := Closure(Entries(scopes)) * HANDOFF;
    assert OPERATOR in normalizedRoles <==> OPERATOR in Entries(roles);
    assert forall role :: role in normalizedRoles ==> Trimmed(role) && Strip(role) == role;
    var bounded := BoundScopes(normalizedRoles, normalizedScopes, reach);
    var out := NormalizeScopes(bounded);
    p := Profile(normalizedRoles, out);
  }

  /** The loop over the roles. */
  method BoundScopes(roles: seq<string>, scopes: seq<string>, ghost reach: set<string>) returns (bounded: seq<string>)
    requires forall role :: role in roles ==> Strip(role) == role
    requires Entries(ScopesForRole(OPERATOR, scopes)) == reach
    ensures OPERATOR in roles ==> Entries(bounded) == reach
    ensures OPERATOR !in roles ==> Entries(bounded) == {}
  {
    EntriesNone();
    hide Strip, Entries, OPERATOR;
    bounded := [];
    for i := 0 to |roles|
      invariant OPERATOR in roles[..i] ==> Entries(bounded) == reach
      invariant OPERATOR !in roles[..i] ==> Entries(bounded) == {}
    {
      PrefixSnoc(roles, i);
      if roles[i] != OPERATOR { OnlyOperators(roles[i], scopes); }
      hide ScopesForRole;
      var more := ResolveScopesForRole(roles[i], scopes);
      EntriesConcat(bounded, more);
      bounded := bounded + more;
    }
    assert roles[..|roles|] == roles;
  }

  lemma OnlyOperators(role: string, scopes: seq<string>)
    requires Strip(role) == role && role != OPERATOR
    ensures ScopesForRole(role, scopes) == []
  {
  }

  lemma ReachFacts(scopes: seq<string>)
    ensures Entries(ScopesForRole(OPERATOR, Scopes(scopes))) == Closure(Entries(scopes)) * HANDOFF
    ensures Closure(Closure(Entries(scopes)) * HANDOFF) == Closure(Entries(scopes)) * HANDOFF
    ensures Closure({}) == {}
  {
    EntriesClean(scopes);
    HandoffClosed(Entries(scopes));
    assert Trimmed(OPERATOR);
    hide HANDOFF, Strip, OPERATOR;
    EntriesOfSorted(Closure(Entries(scopes)));
    ClosureAbsorbs(Entries(scopes), {});
    EntriesOfSorted(Closure(Entries(scopes)) * HANDOFF);
  }
}
