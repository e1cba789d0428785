/** Device bootstrap tokens as a state machine: `src/openzues/services/device_bootstrap_tokens.py`. */
module DeviceTokens {
  import opened PyText
  import opened SortedText
  import opened DeviceProfile

  const TTL_MS := 600000

  /** A stored record. `profile` and `redeemed` may be missing; then `roles` and `scopes` of the record itself
      stand for its profile. */
  datatype Record = Record(
    token: string, ts: Option<int>, issuedAt: Option<int>, expiresAt: Option<int>,
    profile: Option<Profile>, roles: seq<string>, scopes: seq<string>, redeemed: Option<Profile>,
    deviceId: string, publicKey: string, lastUsed: Option<int>)

  type File = map<string, Record>

  function RawProfile(r: Record): Profile {
    if r.profile.Some? then r.profile.value else Profile(r.roles, r.scopes)
  }

  function RawRedeemed(r: Record): Profile {
    if r.redeemed.Some? then r.redeemed.value else Profile([], [])
  }

  /** `_record_bootstrap_profile` */
  ghost function IssuedProfile(r: Record): Profile {
    Normalized(RawProfile(r))
  }

  /** `_record_redeemed_bootstrap_profile` */
  ghost function RedeemedProfile(r: Record): Profile {
    Normalized(RawRedeemed(r))
  }

  // ---- Public keys ----

  /** The unpadded URL-safe base64 form of a key, if it can be decoded; decoding is not modelled. */
  type Canonicalizer = string -> Option<string>

  /** `part in s` */
  predicate Contains(s: string, part: string) {
    part <= s || (|s| != 0 && Contains(s[1..], part))
  }

  predicate HasMarker(s: string) {
    '+' in s || '/' in s || '=' in s
  }

  /** What base64 output looks like; text of that kind is never a PEM key. */
  ghost predicate Base64Url(canon: Canonicalizer) {
    forall s :: canon(s).Some? ==> var x := canon(s).value;
      x != "" && Trimmed(x) && !HasMarker(x) && (Contains(x, "BEGIN") ==> canon(x) == None)
  }

  /** `_normalize_bootstrap_public_key` */
  function NormalizeKey(canon: Canonicalizer, key: string): string {
    var trimmed := Strip(key);
    if trimmed == "" then ""
    else if Contains(trimmed, "BEGIN") || HasMarker(trimmed) then
      var x := canon(trimmed);
      if x.Some? then x.value else trimmed
    else trimmed
  }

  lemma {:induction false} NormalizeKeyIdempotent(canon: Canonicalizer, key: string)
    requires Base64Url(canon)
    ensures NormalizeKey(canon, NormalizeKey(canon, key)) == NormalizeKey(canon, key)
  {
    var trimmed := Strip(key);
    assert Strip(trimmed) == trimmed;
    if trimmed != "" && (Contains(trimmed, "BEGIN") || HasMarker(trimmed)) {
      var x := canon(trimmed);
      if x.Some? { assert Strip(x.value) == x.value; }
    }
  }

  // ---- Finding a record ----

  function Stamp(r: Record): int {
    if r.ts.Some? then r.ts.value else if r.issuedAt.Some? then r.issuedAt.value else 0
  }

  /** Whether reading the file at `now` drops the record under `key`. */
  predicate Expired(key: string, r: Record, now: int) {
    Strip(if r.token != "" then r.token else key) == "" || now - Stamp(r) > TTL_MS ||
    (r.expiresAt.Some? && r.expiresAt.value <= now)
  }

  /** `_read_bootstrap_state` */
  function Live(file: File, now: int): File {
    map key | key in file && !Expired(key, file[key], now) :: file[key]
  }

  /** Every record is stored under its own stripped token. */
  ghost predicate WellKeyed(file: File) {
    forall key :: key in file ==> key != "" && Strip(file[key].token) == key
  }

  /** `_find_bootstrap_record_entry`, on a well-keyed file. */
  function Find(file: File, token: string, now: int): Option<Record> {
    var key := Strip(token);
    if key != "" && key in file && !Expired(key, file[key], now) && file[key].token == key
    then Some(file[key])
    else None
  }

  // ---- What a request may have ----

  /** `_bootstrap_profile_allows_request` */
  ghost predicate AllowsRequest(p: Profile, role: string, scopes: seq<string>) {
    var requested, allowed := Closure(Entries(scopes)), Closure(Entries(p.scopes));
    role in p.roles && requested <= allowed &&
    (role != OPERATOR ==> forall x :: x in requested ==> role + "." <= x)
  }

  /** `_bootstrap_profile_satisfies_profile` */
  ghost predicate Satisfies(actual: Profile, required: Profile) {
    forall role :: role in required.roles ==>
      role in actual.roles &&
      (ScopesForRole(role, required.scopes) != [] ==> AllowsRequest(actual, role, ScopesForRole(role, required.scopes)))
  }

  ghost predicate BindingMatches(canon: Canonicalizer, r: Record, deviceId: string, publicKey: string) {
    Strip(r.deviceId) == Strip(deviceId) && NormalizeKey(canon, r.publicKey) == NormalizeKey(canon, publicKey)
  }

  ghost predicate Unbound(canon: Canonicalizer, r: Record) {
    Strip(r.deviceId) == "" && NormalizeKey(canon, r.publicKey) == ""
  }

  // ---- Steps ----

  datatype Step =
    | Issue(now: int, token: string, roles: Option<seq<string>>, scopes: Option<seq<string>>)
    | Verify(now: int, token: string, deviceId: string, publicKey: string, role: string, requested: seq<string>)
    | Redeem(now: int, token: string, role: string, requested: seq<string>)
    | Revoke(now: int, token: string)
    | Clear(now: int)
    | Restore(now: int, record: Record)

  /** `_issued_bootstrap_profile`: without a request, the default; otherwise what may be handed over. */
  ghost function IssueProfile(roles: Option<seq<string>>, scopes: Option<seq<string>>): Profile {
    if roles.None? && scopes.None? then
      Profile(["node", OPERATOR], ["operator.approvals", READ, "operator.talk.secrets", WRITE])
    else
      var rs := if roles.Some? then roles.value else [];
      var ss := if scopes.Some? then scopes.value else [];
      Profile(Roles(rs), SortedOf(HandedOver(rs, ss)))
  }

  ghost function NewRecord(now: int, token: string, p: Profile): Record {
    Record(token, Some(now), Some(now), Some(now + TTL_MS), Some(p), [], [], Some(Profile([], [])), "", "", None)
  }

  /** Whether `verify_device_bootstrap_token` answers ok. */
  ghost predicate Verifies(canon: Canonicalizer, file: File, s: Step)
    requires s.Verify?
  {
    var found := Find(file, s.token, s.now);
    found.Some? && Strip(s.deviceId) != "" && NormalizeKey(canon, s.publicKey) != "" && Strip(s.role) != "" &&
    AllowsRequest(IssuedProfile(found.value), Strip(s.role), s.requested) &&
    (Unbound(canon, found.value) || BindingMatches(canon, found.value, s.deviceId, s.publicKey))
  }

  ghost function Bind(canon: Canonicalizer, r: Record, s: Step): Record
    requires s.Verify?
  {
    r.(profile := Some(IssuedProfile(r)), deviceId := Strip(s.deviceId), publicKey := NormalizeKey(canon, s.publicKey),
       lastUsed := Some(s.now))
  }

  ghost function RedeemOne(p: Profile, role: string, scopes: seq<string>): Profile {
    Normalized(Profile(p.roles + [role], p.scopes + ScopesForRole(role, scopes)))
  }

  ghost function Redeemed(r: Record, s: Step): Record
    requires s.Redeem?
  {
    r.(profile := Some(IssuedProfile(r)), redeemed := Some(RedeemOne(RedeemedProfile(r), s.role, s.requested)))
  }

  /** Tokens come from a random source: a new one is never in use. */
  ghost predicate Enabled(file: File, s: Step) {
    s.Issue? ==> s.token != "" && Trimmed(s.token) && s.token !in file
  }

  ghost function Next(canon: Canonicalizer, file: File, s: Step): File {
    match s
    case Issue(now, token, roles, scopes) =>
      Live(file, now)[token := NewRecord(now, token, IssueProfile(roles, scopes))]
    case Verify(now, token, _, _, _, _) =>
      if Verifies(canon, file, s) then Live(file, now)[Strip(token) := Bind(canon, file[Strip(token)], s)] else file
    case Redeem(now, token, _, _) =>
      if Find(file, token, now).Some? then Live(file, now)[Strip(token) := Redeemed(file[Strip(token)], s)] else file
    case Revoke(now, token) => if Find(file, token, now).Some? then Live(file, now) - {Strip(token)} else file
    case Clear(now) => map[]
    case Restore(now, record) =>
      if Strip(record.token) == "" then file else Live(file, now)[Strip(record.token) := record]
  }

  ghost predicate Possible(canon: Canonicalizer, file: File, steps: seq<Step>)
    decreases |steps|
  {
    |steps| == 0 || (Enabled(file, steps[0]) && Possible(canon, Next(canon, file, steps[0]), steps[1..]))
  }

  ghost function Run(canon: Canonicalizer, file: File, steps: seq<Step>): File
    decreases |steps|
  {
    if |steps| == 0 then file else Run(canon, Next(canon, file, steps[0]), steps[1..])
  }

  // ---- What every run keeps ----

  /** The steps that can put a record under `key`. */
  predicate Brings(s: Step, key: string) {
    (s.Issue? && s.token == key) || (s.Restore? && Strip(s.record.token) == key)
  }

  /** `n` is the record `r` some steps later: the same token, times and issued profile, at least as much
      redeemed, and the same binding if there was one. */
  ghost predicate Continues(canon: Canonicalizer, r: Record, n: Record) {
    n.token == r.token && n.ts == r.ts && n.issuedAt == r.issuedAt && n.expiresAt == r.expiresAt &&
    IssuedProfile(n) == IssuedProfile(r) && Covers(RedeemedProfile(n), RedeemedProfile(r)) &&
    (Unbound(canon, r) || BindingMatches(canon, n, r.deviceId, r.publicKey))
  }

  ghost predicate Covers(p: Profile, q: Profile) {
    Entries(q.roles) <= Entries(p.roles) && Entries(q.scopes) <= Entries(p.scopes)
  }

  lemma BindKeepsProfiles(canon: Canonicalizer, r: Record, s: Step)
    requires s.Verify?
    ensures IssuedProfile(Bind(canon, r, s)) == IssuedProfile(r)
    ensures RedeemedProfile(Bind(canon, r, s)) == RedeemedProfile(r)
  {
    hide Normalized, NormalizeKey, Strip;
    NormalizeIdempotent(RawProfile(r));
  }

  lemma BindBinds(canon: Canonicalizer, r: Record, s: Step)
    requires Base64Url(canon) && s.Verify?
    ensures BindingMatches(canon, Bind(canon, r, s), s.deviceId, s.publicKey)
  {
    hide NormalizeKey, IssuedProfile, Base64Url, Strip;
    NormalizeKeyIdempotent(canon, s.publicKey);
    assert Trimmed(Strip(s.deviceId));
  }

  lemma {:induction false} BindContinues(canon: Canonicalizer, r: Record, s: Step)
    requires Base64Url(canon) && s.Verify? && (Unbound(canon, r) || BindingMatches(canon, r, s.deviceId, s.publicKey))
    ensures Continues(canon, r, Bind(canon, r, s))
  {
    hide Base64Url, Unbound, NormalizeKey, Strip, Entries, IssuedProfile, RedeemedProfile, Sorted, SortedOf, Less;
    BindKeepsProfiles(canon, r, s);
    BindBinds(canon, r, s);
    var n := Bind(canon, r, s);
    assert n.token == r.token && n.ts == r.ts && n.issuedAt == r.issuedAt && n.expiresAt == r.expiresAt;
    hide Bind;
    assert Covers(RedeemedProfile(n), RedeemedProfile(r));
  }

  lemma {:induction false} RedeemContinues(canon: Canonicalizer, r: Record, s: Step)
    requires s.Redeem?
    ensures Continues(canon, r, Redeemed(r, s))
  {
    NormalizeIdempotent(RawProfile(r));
    var p := RedeemedProfile(r);
    var more := Profile(p.roles + [s.role], p.scopes + ScopesForRole(s.role, s.requested));
    NormalizeIdempotent(more);
    RedeemGrows(p, s.role, s.requested);
    hide Normalized, NormalizeKey, Strip, Entries, ScopesForRole;
  }

  lemma {:induction false} RedeemGrows(p: Profile, role: string, scopes: seq<string>)
    ensures Covers(RedeemOne(p, role, scopes), p)
  {
    var more := ScopesForRole(role, scopes);
    EntriesConcat(p.roles, [role]);
    EntriesConcat(p.scopes, more);
    ScopesMonotone(p.scopes, p.scopes + more);
    EntriesClean(p.roles + [role]);
    EntriesOfSorted(Entries(p.roles + [role]));
    hide Entries, ScopesForRole, Closure, SortedOf;
  }

  lemma ContinuesTransitive(canon: Canonicalizer, a: Record, b: Record, c: Record)
    requires Continues(canon, a, b) && Continues(canon, b, c)
    ensures Continues(canon, a, c)
  {
    hide IssuedProfile, RedeemedProfile, NormalizeKey, Strip, Entries;
  }

  lemma ContinuesItself(canon: Canonicalizer, r: Record)
    ensures Continues(canon, r, r)
  {
    hide IssuedProfile, RedeemedProfile, NormalizeKey, Strip, Entries;
  }

  lemma {:induction false} NextContinues(canon: Canonicalizer, file: File, s: Step, key: string)
    requires Base64Url(canon) && !Brings(s, key) && key in Next(canon, file, s)
    ensures key in file && Continues(canon, file[key], Next(canon, file, s)[key])
  {
    hide Continues, IssueProfile, Expired, AllowsRequest, Strip, NormalizeKey, IssuedProfile, BindingMatches, Unbound,
      Bind, Redeemed;
    if key in file { ContinuesItself(canon, file[key]); }
    match s
    case Verify(_, token, _, _, _, _) => if Verifies(canon, file, s) { BindContinues(canon, file[Strip(token)], s); }
    case Redeem(now, token, _, _) => if Find(file, token, now).Some? { RedeemContinues(canon, file[Strip(token)], s); }
    case _ =>
  }

  /** Unless it is issued or restored again, a token that is still there after a run is the one that was
      there before, with its issued profile and its binding; and one that is gone stays gone. */
  lemma {:induction false} RunContinues(canon: Canonicalizer, file: File, steps: seq<Step>, key: string)
    requires Base64Url(canon) && (forall i :: 0 <= i < |steps| ==> !Brings(steps[i], key))
    requires key in Run(canon, file, steps)
    ensures key in file && Continues(canon, file[key], Run(canon, file, steps)[key])
    decreases |steps|
  {
    if |steps| == 0 {
      ContinuesItself(canon, file[key]);
    } else {
      var n := Next(canon, file, steps[0]);
      hide Continues, Next, Brings;
      RunContinues(canon, n, steps[1..], key);
      NextContinues(canon, file, steps[0], key);
      ContinuesTransitive(canon, file[key], n[key], Run(canon, n, steps[1..])[key]);
    }
  }

  /** On every reachable file `Find` is exact: a record is stored under its own token. */
  lemma {:induction false} WellKeyedKept(canon: Canonicalizer, file: File, steps: seq<Step>)
    requires Base64Url(canon) && WellKeyed(file) && Possible(canon, file, steps)
    ensures WellKeyed(Run(canon, file, steps))
    decreases |steps|
  {
    if |steps| != 0 {
      var n := Next(canon, file, steps[0]);
      forall key | key in n ensures key != "" && Strip(n[key].token) == key {
        NextWellKeyed(canon, file, steps[0], key);
      }
      hide Next;
      WellKeyedKept(canon, n, steps[1..]);
    }
  }

  lemma NextWellKeyed(canon: Canonicalizer, file: File, s: Step, key: string)
    requires Base64Url(canon) && WellKeyed(file) && Enabled(file, s) && key in Next(canon, file, s)
    ensures key != "" && Strip(Next(canon, file, s)[key].token) == key
  {
    if Brings(s, key) {
      hide IssueProfile, Strip, Expired;
    } else {
      hide Next, Strip, Brings, IssuedProfile, RedeemedProfile, Unbound, BindingMatches;
      NextContinues(canon, file, s, key);
    }
  }

  // ---- Binding ----

  /** A token that was just issued can be verified, by any device and key, if and only if it has not expired and its
      profile allows the request. */
  lemma {:induction false} FreshTokenVerifiesIff(canon: Canonicalizer, file: File, issue: Step, s: Step)
    requires issue.Issue? && Enabled(file, issue) && s.Verify? && Strip(s.token) == issue.token && issue.now <= s.now
    ensures Verifies(canon, Next(canon, file, issue), s) <==>
      s.now < issue.now + TTL_MS && Strip(s.deviceId) != "" && NormalizeKey(canon, s.publicKey) != "" &&
      Strip(s.role) != "" &&
      AllowsRequest(Normalized(IssueProfile(issue.roles, issue.scopes)), Strip(s.role), s.requested)
  {
    hide IssueProfile, Normalized, AllowsRequest, Strip, NormalizeKey, Unbound, BindingMatches, Expired, Next;
    IssueStores(canon, file, issue);
    var r := NewRecord(issue.now, issue.token, IssueProfile(issue.roles, issue.scopes));
    FreshUnbound(canon, r);
    FreshExpiry(r, issue.token, issue.now, s.now);
  }

  lemma IssueStores(canon: Canonicalizer, file: File, issue: Step)
    requires issue.Issue?
    ensures issue.token in Next(canon, file, issue)
    ensures Next(canon, file, issue)[issue.token] ==
      NewRecord(issue.now, issue.token, IssueProfile(issue.roles, issue.scopes))
  {
    hide IssueProfile, Live;
  }

  lemma FreshUnbound(canon: Canonicalizer, r: Record)
    requires r.deviceId == "" && r.publicKey == ""
    ensures Unbound(canon, r)
  {
    assert Trimmed("") && Strip("") == "";
  }

  lemma FreshExpiry(r: Record, key: string, issued: int, now: int)
    requires key != "" && Trimmed(key) && r.token == key && r.ts == Some(issued) && r.expiresAt == Some(issued + TTL_MS)
    ensures Expired(key, r, now) <==> now >= issued + TTL_MS
  {
    assert Strip(key) == key;
    hide Strip;
  }

  lemma AfterVerify(canon: Canonicalizer, file: File, s: Step)
    requires Base64Url(canon) && s.Verify? && Verifies(canon, file, s)
    ensures var key, n := Strip(s.token), Next(canon, file, s);
      key in file && key in n && Continues(canon, file[key], n[key]) && !Unbound(canon, n[key]) &&
      BindingMatches(canon, n[key], s.deviceId, s.publicKey)
  {
    hide Base64Url, AllowsRequest, IssuedProfile, RedeemedProfile, Expired, Strip, NormalizeKey, Continues, Bind;
    var r := file[Strip(s.token)];
    BindContinues(canon, r, s);
    BindBinds(canon, r, s);
    assert Next(canon, file, s)[Strip(s.token)] == Bind(canon, r, s);
  }

  /** Once a token is verified for a device and key, every later successful verification of it is for that
      device and that key, until it is issued or restored anew. */
  lemma {:induction false} VerifiedForOnePair(canon: Canonicalizer, file: File, s: Step, steps: seq<Step>, s': Step)
    requires Base64Url(canon) && s.Verify? && s'.Verify? && Strip(s.token) == Strip(s'.token)
    requires Verifies(canon, file, s)
    requires forall i :: 0 <= i < |steps| ==> !Brings(steps[i], Strip(s.token))
    requires Verifies(canon, Run(canon, Next(canon, file, s), steps), s')
    ensures Strip(s'.deviceId) == Strip(s.deviceId) &&
      NormalizeKey(canon, s'.publicKey) == NormalizeKey(canon, s.publicKey)
  {
    var key := Strip(s.token);
    var n := Next(canon, file, s);
    AfterVerify(canon, file, s);
    hide Base64Url, Next, Run, Strip, NormalizeKey, IssuedProfile, RedeemedProfile, AllowsRequest, Expired, Brings,
      Covers;
    RunContinues(canon, n, steps, key);
  }

  /** `get_bound_device_bootstrap_profile` */
  ghost function BoundProfile(canon: Canonicalizer, file: File, now: int, token: string, deviceId: string,
    publicKey: string): Option<Profile> {
    var found := Find(file, token, now);
    if found.Some? && Strip(deviceId) != "" && NormalizeKey(canon, publicKey) != "" &&
       BindingMatches(canon, found.value, deviceId, publicKey)
    then Some(IssuedProfile(found.value)) else None
  }

  lemma PairMatches(canon: Canonicalizer, r: Record, n: Record, s: Step, deviceId: string, publicKey: string)
    requires s.Verify? && Continues(canon, r, n) && !Unbound(canon, r) &&
      BindingMatches(canon, r, s.deviceId, s.publicKey)
    ensures BindingMatches(canon, n, deviceId, publicKey) <==>
      Strip(deviceId) == Strip(s.deviceId) && NormalizeKey(canon, publicKey) == NormalizeKey(canon, s.publicKey)
  {
    hide Strip, NormalizeKey, IssuedProfile, RedeemedProfile, Covers;
  }

  /** After a verification, the bound profile is answered for exactly that pair, as long as the token is found,
      and it is the profile the token had. */
  lemma {:induction false} BoundProfileIff(canon: Canonicalizer, file: File, s: Step, steps: seq<Step>,
                                           now: int, token: string, deviceId: string, publicKey: string)
    requires Base64Url(canon) && s.Verify? && Strip(s.token) == Strip(token) && Verifies(canon, file, s)
    requires forall i :: 0 <= i < |steps| ==> !Brings(steps[i], Strip(token))
    ensures var end := Run(canon, Next(canon, file, s), steps);
      BoundProfile(canon, end, now, token, deviceId, publicKey).Some? <==>
      Find(end, token, now).Some? && Strip(deviceId) == Strip(s.deviceId) &&
      NormalizeKey(canon, publicKey) == NormalizeKey(canon, s.publicKey)
    ensures var answer := BoundProfile(canon, Run(canon, Next(canon, file, s), steps), now, token, deviceId, publicKey);
      answer.Some? ==> answer.value == IssuedProfile(file[Strip(token)])
  {
    var key := Strip(s.token);
    var n := Next(canon, file, s);
    AfterVerify(canon, file, s);
    assert Strip(s.deviceId) != "" && NormalizeKey(canon, s.publicKey) != "";
    var end := Run(canon, n, steps);
    hide Base64Url, Verifies, Next, Run, Strip, NormalizeKey, IssuedProfile, RedeemedProfile, Expired, Brings, Covers;
    if Find(end, token, now).Some? {
      RunContinues(canon, n, steps, key);
      PairMatches(canon, n[key], end[key], s, deviceId, publicKey);
    }
  }

  // ---- Expiry ----

  /** A record that is expired, gone or never was is not found at any later time, whatever happens between,
      unless it is issued or restored. */
  lemma {:induction false} GoneStaysGone(canon: Canonicalizer, file: File, steps: seq<Step>, token: string, now: int,
    later: int)
    requires Base64Url(canon) && now <= later
    requires Strip(token) in file ==> Expired(Strip(token), file[Strip(token)], now)
    requires forall i :: 0 <= i < |steps| ==> !Brings(steps[i], Strip(token))
    ensures Find(Run(canon, file, steps), token, later) == None
  {
    var key := Strip(token);
    hide Run, Strip, Brings, IssuedProfile, RedeemedProfile, Unbound, BindingMatches;
    if key in Run(canon, file, steps) {
      RunContinues(canon, file, steps, key);
    }
  }

  lemma SameExpiry(canon: Canonicalizer, r: Record, n: Record, key: string, now: int)
    requires Continues(canon, r, n)
    ensures Expired(key, n, now) <==> Expired(key, r, now)
  {
    hide Strip, IssuedProfile, RedeemedProfile, Unbound, BindingMatches;
  }

  /** The steps that can take the record under `key` away. */
  predicate Removes(s: Step, key: string) {
    s.Clear? || (s.Revoke? && Strip(s.token) == key)
  }

  /** A step no later than `until` that neither brings nor removes the record under `key`. */
  predicate Quiet(s: Step, key: string, until: int) {
    !Brings(s, key) && !Removes(s, key) && s.now <= until
  }

  /** Only such steps. */
  ghost predicate LeftAlone(steps: seq<Step>, key: string, until: int) {
    forall s :: s in steps ==> Quiet(s, key, until)
  }

  lemma LeftAloneTail(steps: seq<Step>, key: string, until: int)
    requires LeftAlone(steps, key, until) && |steps| > 0
    ensures Quiet(steps[0], key, until) && LeftAlone(steps[1..], key, until)
  {
    hide Quiet;
    assert steps[0] in steps;
    assert forall s :: s in steps[1..] ==> s in steps;
  }

  lemma {:induction false} NextKeepsLive(canon: Canonicalizer, file: File, s: Step, key: string)
    requires key in file && !Expired(key, file[key], s.now) && !Removes(s, key)
    ensures key in Next(canon, file, s)
  {
    hide IssueProfile, Expired, AllowsRequest, Strip, NormalizeKey, IssuedProfile, BindingMatches, Unbound, Bind,
      Redeemed;
  }

  /** A token issued at `t` and left alone is found until just before `t` plus ten minutes, and not from then on. */
  lemma {:induction false} LivesTenMinutes(canon: Canonicalizer, file: File, issue: Step, steps: seq<Step>, now: int)
    requires Base64Url(canon) && issue.Issue? && Enabled(file, issue)
    requires LeftAlone(steps, issue.token, now) && issue.now <= now
    ensures Find(Run(canon, Next(canon, file, issue), steps), issue.token, now).Some? <==> now < issue.now + TTL_MS
  {
    var n, key := Next(canon, file, issue), issue.token;
    assert Strip(key) == key && n[key].token == key;
    assert Expired(key, n[key], now) <==> now >= issue.now + TTL_MS;
    hide Run, IssuedProfile, RedeemedProfile, Unbound, BindingMatches, Strip, Next, Brings;
    assert forall i :: 0 <= i < |steps| ==> Quiet(steps[i], key, now);
    if now >= issue.now + TTL_MS {
      GoneStaysGone(canon, n, steps, key, now, now);
    } else {
      StaysUntil(canon, n, steps, key, now);
    }
  }

  lemma {:induction false} StaysUntil(canon: Canonicalizer, file: File, steps: seq<Step>, key: string, until: int)
    requires Base64Url(canon) && key in file && !Expired(key, file[key], until) && LeftAlone(steps, key, until)
    ensures key in Run(canon, file, steps) && Continues(canon, file[key], Run(canon, file, steps)[key])
    ensures !Expired(key, Run(canon, file, steps)[key], until)
    decreases |steps|
  {
    if |steps| == 0 {
      ContinuesItself(canon, file[key]);
    } else {
      var s, n := steps[0], Next(canon, file, steps[0]);
      assert Run(canon, file, steps) == Run(canon, n, steps[1..]);
      hide Next, Run, Brings, Removes, Expired, Continues, Base64Url, LeftAlone;
      LeftAloneTail(steps, key, until);
      EarlierNotExpired(file[key], key, s.now, until);
      NextKeepsLive(canon, file, s, key);
      NextContinues(canon, file, s, key);
      SameExpiry(canon, file[key], n[key], key, until);
      StaysUntil(canon, n, steps[1..], key, until);
      ContinuesTransitive(canon, file[key], n[key], Run(canon, n, steps[1..])[key]);
    }
  }

  lemma EarlierNotExpired(r: Record, key: string, now: int, until: int)
    requires !Expired(key, r, until) && now <= until
    ensures !Expired(key, r, now)
  {
    hide Strip;
  }

  // ---- Scopes stay inside the handoff set ----

  lemma {:induction false} IssuedWithinHandoff(roles: Option<seq<string>>, scopes: Option<seq<string>>)
    ensures Closure(Entries(Normalized(IssueProfile(roles, scopes)).scopes)) <= HANDOFF
  {
    if roles.None? && scopes.None? {
      DefaultScopes();
      hide Strip, SortedOf, HANDOFF;
      var ss := IssueProfile(roles, scopes).scopes;
      EntriesClean(ss);
      EntriesOfSorted(Closure(Entries(ss)));
      ClosureAbsorbs(Entries(ss), {});
    } else {
      var rs := if roles.Some? then roles.value else [];
      var ss := if scopes.Some? then scopes.value else [];
      HandoffClosed(Entries(ss));
      EntriesClean(ss);
      hide Strip, Entries, SortedOf, HANDOFF, READ, WRITE, ADMIN;
      var h := HandedOver(rs, ss);
      EntriesOfSorted(h);
      EntriesOfSorted(Closure(h));
      ClosureAbsorbs(h, {});
    }
  }

  lemma DefaultScopes()
    ensures var s := Entries(["operator.approvals", READ, "operator.talk.secrets", WRITE]); Closure(s) <= HANDOFF
  {
    HandoffLacksAdmin();
    var ss := ["operator.approvals", READ, "operator.talk.secrets", WRITE];
    assert forall x :: x in ss ==> x in HANDOFF && Trimmed(x);
    hide Strip, HANDOFF;
    assert Entries(ss) <= HANDOFF;
    assert READ in ss && WRITE in ss;
  }

  /** Whatever is verified against a token that was issued, and not restored, the scopes it is granted, with all
      they imply, are within the handoff set. */
  lemma {:induction false} GrantedWithinHandoff(canon: Canonicalizer, file: File, issue: Step, steps: seq<Step>,
    s: Step)
    requires Base64Url(canon) && issue.Issue? && Enabled(file, issue)
    requires forall i :: 0 <= i < |steps| ==> !Brings(steps[i], issue.token)
    requires s.Verify? && Strip(s.token) == issue.token &&
      Verifies(canon, Run(canon, Next(canon, file, issue), steps), s)
    ensures Closure(Entries(s.requested)) <= HANDOFF
  {
    var n, key := Next(canon, file, issue), issue.token;
    assert n[key].profile == Some(IssueProfile(issue.roles, issue.scopes));
    IssuedWithinHandoff(issue.roles, issue.scopes);
    assert Closure(Entries(IssuedProfile(n[key]).scopes)) <= HANDOFF;
    hide Run, Next, Strip, NormalizeKey, IssuedProfile, RedeemedProfile, BindingMatches, Unbound, HANDOFF, Closure,
      Entries;
    RunContinues(canon, n, steps, key);
  }

  // ---- Redemption ----

  datatype Request = Request(role: string, scopes: seq<string>)

  ghost function RedeemAll(p: Profile, requests: seq<Request>): Profile {
    if |requests| == 0 then p
    else
      var last := requests[|requests| - 1];
      RedeemOne(RedeemAll(p, requests[..|requests| - 1]), last.role, last.scopes)
  }

  ghost function RequestedRoles(requests: seq<Request>): set<string> {
    set q | q in requests && Strip(q.role) != "" :: Strip(q.role)
  }

  ghost function RequestedScopes(requests: seq<Request>): set<string> {
    set q, x | q in requests && x in ScopesForRole(q.role, q.scopes) :: x
  }

  ghost function Members(xs: seq<string>): set<string> {
    set x | x in xs
  }

  lemma SnocRequests(requests: seq<Request>, q: Request)
    ensures RequestedRoles(requests + [q]) == RequestedRoles(requests) + Entries([q.role])
    ensures RequestedScopes(requests + [q]) == RequestedScopes(requests) + Members(ScopesForRole(q.role, q.scopes))
  {
    hide Strip, ScopesForRole;
    assert forall z :: z in requests + [q] <==> z in requests || z == q;
    assert forall z :: z in [q.role] <==> z == q.role;
  }

  lemma {:induction false} ResolvedIsClean(role: string, scopes: seq<string>)
    ensures Entries(ScopesForRole(role, scopes)) == Members(ScopesForRole(role, scopes))
    ensures Clean(Members(ScopesForRole(role, scopes)))
  {
    EntriesClean(scopes);
    EntriesNone();
    hide Strip, Entries, HANDOFF, OPERATOR, Closure, Less, Sorted;
    EntriesOfSorted(Closure(Entries(scopes)) * HANDOFF);
  }

  lemma RequestedIsClean(requests: seq<Request>)
    ensures Clean(RequestedRoles(requests)) && Clean(RequestedScopes(requests))
  {
    forall q | q in requests ensures Clean(Members(ScopesForRole(q.role, q.scopes))) {
      ResolvedIsClean(q.role, q.scopes);
    }
    hide Strip, ScopesForRole, Trimmed;
    assert forall q, x :: q in requests && x in ScopesForRole(q.role, q.scopes) ==>
      x in Members(ScopesForRole(q.role, q.scopes));
    forall q | q in requests ensures Trimmed(Strip(q.role)) {}
  }

  /** The canonical profile with these roles and these scopes and all they imply. */
  ghost function Canonical(roles: set<string>, scopes: set<string>): Profile {
    Profile(SortedOf(roles), SortedOf(Closure(scopes)))
  }

  lemma {:induction false} RedeemOneAdds(roles: set<string>, scopes: set<string>, q: Request)
    requires Clean(roles) && Clean(scopes)
    ensures RedeemOne(Canonical(roles, scopes), q.role, q.scopes) ==
      Canonical(roles + Entries([q.role]), scopes + Members(ScopesForRole(q.role, q.scopes)))
  {
    var p, more := Canonical(roles, scopes), ScopesForRole(q.role, q.scopes);
    hide Strip, Entries, Closure, SortedOf, Sorted, Less, ScopesForRole, Members, Clean, HANDOFF;
    ClosureClean(scopes);
    ResolvedIsClean(q.role, q.scopes);
    EntriesOfSorted(roles);
    EntriesOfSorted(Closure(scopes));
    EntriesConcat(p.roles, [q.role]);
    EntriesConcat(p.scopes, more);
    ClosureAbsorbs(scopes, Entries(more));
  }

  lemma ClosureClean(scopes: set<string>)
    requires Clean(scopes)
    ensures Clean(Closure(scopes))
  {
    assert Trimmed(READ) && Trimmed(WRITE);
  }

  lemma NormalizedIsCanonical(p: Profile)
    ensures Normalized(p) == Canonical(Entries(p.roles), Entries(p.scopes))
  {
    hide Entries, SortedOf;
  }

  lemma NothingRequested()
    ensures RequestedRoles([]) == {} && RequestedScopes([]) == {}
  {
    hide Strip, ScopesForRole;
  }

  lemma CleanUnion(s: set<string>, t: set<string>)
    requires Clean(s) && Clean(t)
    ensures Clean(s + t)
  {
    hide Trimmed;
  }

  /** The redeemed profile is the closure of everything requested. */
  lemma {:induction false} RedeemedIsClosure(p: Profile, requests: seq<Request>)
    requires Normalized(p) == p
    ensures RedeemAll(p, requests) ==
      Canonical(Entries(p.roles) + RequestedRoles(requests), Entries(p.scopes) + RequestedScopes(requests))
  {
    hide Closure, SortedOf, Sorted, Less, Strip, Entries, Canonical, Normalized, RequestedRoles, RequestedScopes,
      ScopesForRole, RedeemOne, Members;
    var roles, scopes := Entries(p.roles), Entries(p.scopes);
    NormalizedIsCanonical(p);
    if |requests| == 0 {
      NothingRequested();
      assert requests == [] && roles + {} == roles && scopes + {} == scopes;
    } else {
      var front, q := requests[..|requests| - 1], requests[|requests| - 1];
      assert requests == front + [q];
      assert RedeemAll(p, requests) == RedeemOne(RedeemAll(p, front), q.role, q.scopes);
      var more := Members(ScopesForRole(q.role, q.scopes));
      var allRoles, allScopes := roles + RequestedRoles(front), scopes + RequestedScopes(front);
      hide RedeemAll;
      RequestedIsClean(front);
      EntriesClean(p.roles);
      EntriesClean(p.scopes);
      CleanUnion(roles, RequestedRoles(front));
      CleanUnion(scopes, RequestedScopes(front));
      hide Clean;
      RedeemedIsClosure(p, front);
      SnocRequests(front, q);
      RedeemOneAdds(allRoles, allScopes, q);
      assert allRoles + Entries([q.role]) == roles + RequestedRoles(requests);
      assert allScopes + more == scopes + RequestedScopes(requests);
    }
  }

  /** Redeeming the same requests, in any order and any number of times, ends in the same redeemed profile. */
  lemma {:induction false} RedeemOrderIrrelevant(p: Profile, a: seq<Request>, b: seq<Request>)
    requires Normalized(p) == p && forall q :: q in a <==> q in b
    ensures RedeemAll(p, a) == RedeemAll(p, b)
  {
    hide Strip, Entries, ScopesForRole, Canonical, RedeemAll, Normalized;
    RedeemedIsClosure(p, a);
    RedeemedIsClosure(p, b);
    assert RequestedRoles(a) == RequestedRoles(b) && RequestedScopes(a) == RequestedScopes(b);
  }

  predicate Redeems(s: Step, key: string) {
    s.Redeem? && Strip(s.token) == key
  }

  /** The redemptions of the token `key` in a run. */
  ghost function Requests(steps: seq<Step>, key: string): seq<Request>
    decreases |steps|
  {
    if |steps| == 0 then []
    else
      (if Redeems(steps[0], key) then [Request(steps[0].role, steps[0].requested)] else []) +
      Requests(steps[1..], key)
  }

  lemma {:induction false} RedeemAllFirst(p: Profile, q: Request, rest: seq<Request>)
    ensures RedeemAll(p, [q] + rest) == RedeemAll(RedeemOne(p, q.role, q.scopes), rest)
  {
    hide RedeemOne;
    if |rest| == 0 {
      assert [q] + rest == [q] && [q][..0] == [];
      assert RedeemAll(p, []) == p;
    } else {
      assert ([q] + rest)[..|rest|] == [q] + rest[..|rest| - 1];
      RedeemAllFirst(p, q, rest[..|rest| - 1]);
    }
  }

  lemma LiveNotEmpty(r: Record, key: string, now: int)
    requires r.token == key && !Expired(key, r, now)
    ensures key != ""
  {
    assert Trimmed("");
    hide LStrip, RStrip;
  }

  lemma NextRecord(canon: Canonicalizer, file: File, s: Step, key: string)
    requires key in file && key in Next(canon, file, s) && !Brings(s, key)
    ensures s.Verify? && Strip(s.token) == key && Verifies(canon, file, s) ==>
      Next(canon, file, s)[key] == Bind(canon, file[key], s)
    ensures s.Redeem? && Strip(s.token) == key && Find(file, s.token, s.now).Some? ==>
      Next(canon, file, s)[key] == Redeemed(file[key], s)
    ensures s.Verify? && !(Strip(s.token) == key && Verifies(canon, file, s)) ==> Next(canon, file, s)[key] == file[key]
    ensures s.Redeem? && !(Strip(s.token) == key && Find(file, s.token, s.now).Some?) ==>
      Next(canon, file, s)[key] == file[key]
    ensures !s.Verify? && !s.Redeem? ==> Next(canon, file, s)[key] == file[key]
  {
    hide IssueProfile, Expired, Strip, Verifies, Bind, Redeemed, Find;
  }

  lemma {:induction false} NextRedeems(canon: Canonicalizer, file: File, s: Step, key: string)
    requires key in file && file[key].token == key && !Expired(key, file[key], s.now) && !Brings(s, key) &&
      !Removes(s, key)
    requires key in Next(canon, file, s)
    ensures var n := Next(canon, file, s)[key];
      RedeemedProfile(n) == if Redeems(s, key) then RedeemOne(RedeemedProfile(file[key]), s.role, s.requested)
                            else RedeemedProfile(file[key])
  {
    LiveNotEmpty(file[key], key, s.now);
    hide Expired, Strip, IssuedProfile, RedeemedProfile, Verifies, Bind, Redeemed, RedeemOne, Next;
    NextRecord(canon, file, s, key);
    if s.Verify? && Strip(s.token) == key {
      BindKeepsProfiles(canon, file[key], s);
    } else if s.Redeem? && Strip(s.token) == key {
      assert Find(file, s.token, s.now).Some?;
      RedeemedIs(file[key], s);
    }
  }

  lemma RedeemedIs(r: Record, s: Step)
    requires s.Redeem?
    ensures RedeemedProfile(Redeemed(r, s)) == RedeemOne(RedeemedProfile(r), s.role, s.requested)
  {
    var p := RedeemedProfile(r);
    hide Normalized;
    NormalizeIdempotent(Profile(p.roles + [s.role], p.scopes + ScopesForRole(s.role, s.requested)));
  }

  lemma StepRedeems(canon: Canonicalizer, file: File, s: Step, key: string, until: int)
    requires Base64Url(canon) && key in file && file[key].token == key && !Expired(key, file[key], until)
    requires Quiet(s, key, until)
    ensures key in Next(canon, file, s)
    ensures var n := Next(canon, file, s)[key];
      n.token == key && !Expired(key, n, until) &&
      RedeemedProfile(n) == if Redeems(s, key) then RedeemOne(RedeemedProfile(file[key]), s.role, s.requested)
                            else RedeemedProfile(file[key])
  {
    assert !Expired(key, file[key], s.now);
    hide Next, Brings, Removes, Expired, RedeemedProfile, RedeemOne, Strip, Base64Url, IssuedProfile, Unbound,
      BindingMatches, Covers;
    NextKeepsLive(canon, file, s, key);
    NextRedeems(canon, file, s, key);
    NextContinues(canon, file, s, key);
    SameExpiry(canon, file[key], Next(canon, file, s)[key], key, until);
  }

  /** While a token lives, its redeemed profile is what its redemptions add up to, whatever else happens. */
  lemma {:induction false} RunRedeems(canon: Canonicalizer, file: File, steps: seq<Step>, key: string, until: int)
    requires Base64Url(canon) && key in file && file[key].token == key && !Expired(key, file[key], until)
    requires LeftAlone(steps, key, until)
    ensures key in Run(canon, file, steps)
    ensures RedeemedProfile(Run(canon, file, steps)[key]) == RedeemAll(RedeemedProfile(file[key]), Requests(steps, key))
    decreases |steps|
  {
    if |steps| != 0 {
      var s, n := steps[0], Next(canon, file, steps[0]);
      assert Run(canon, file, steps) == Run(canon, n, steps[1..]);
      assert Requests(steps, key) ==
        (if Redeems(s, key) then [Request(s.role, s.requested)] else []) + Requests(steps[1..], key);
      hide Next, Run, Requests, Quiet, LeftAlone, Expired, RedeemedProfile, RedeemOne, RedeemAll, Redeems, Base64Url;
      LeftAloneTail(steps, key, until);
      StepRedeems(canon, file, s, key, until);
      RunRedeems(canon, n, steps[1..], key, until);
      if Redeems(s, key) {
        RedeemAllFirst(RedeemedProfile(file[key]), Request(s.role, s.requested), Requests(steps[1..], key));
      } else {
        assert [] + Requests(steps[1..], key) == Requests(steps[1..], key);
      }
    } else {
      hide RedeemedProfile;
    }
  }

  /** So two runs that redeem the same requests, in whatever order and however often, end alike. */
  lemma {:induction false} RunsRedeemAlike(canon: Canonicalizer, file: File, a: seq<Step>, b: seq<Step>, key: string,
    until: int)
    requires Base64Url(canon) && key in file && file[key].token == key && !Expired(key, file[key], until)
    requires LeftAlone(a, key, until) && LeftAlone(b, key, until)
    requires forall q :: q in Requests(a, key) <==> q in Requests(b, key)
    ensures key in Run(canon, file, a) && key in Run(canon, file, b)
    ensures RedeemedProfile(Run(canon, file, a)[key]) == RedeemedProfile(Run(canon, file, b)[key])
  {
    NormalizeIdempotent(RawRedeemed(file[key]));
    hide Run, Requests, LeftAlone, Expired, Normalized, RedeemAll;
    RunRedeems(canon, file, a, key, until);
    RunRedeems(canon, file, b, key, until);
    RedeemOrderIrrelevant(RedeemedProfile(file[key]), Requests(a, key), Requests(b, key));
  }

  /** Being satisfied, in terms of sets: all roles, and for an operator all scopes that may be handed over. */
  lemma {:induction false} SatisfiesIff(actual: Profile, required: Profile)
    requires Normalized(actual) == actual && Normalized(required) == required
    ensures Satisfies(actual, required) <==>
      Entries(required.roles) <= Entries(actual.roles) &&
      HandedOver(required.roles, required.scopes) <= Closure(Entries(actual.scopes))
  {
    hide Strip, Entries, Closure, HANDOFF, OPERATOR, Normalized, ScopesForRole, AllowsRequest, HandedOver;
    RolesAreEntries(actual);
    RolesAreEntries(required);
    if OPERATOR in required.roles && OPERATOR in actual.roles { OperatorAllowedIff(actual, required); }
    forall role | role in required.roles && role != OPERATOR ensures ScopesForRole(role, required.scopes) == [] {
      OnlyOperators(role, required.scopes);
    }
    NothingHandedOver(required);
  }

  lemma NothingHandedOver(required: Profile)
    ensures OPERATOR !in Entries(required.roles) ==> HandedOver(required.roles, required.scopes) == {}
  {
  }

  lemma OperatorAllowedIff(actual: Profile, required: Profile)
    requires OPERATOR in Entries(required.roles) && OPERATOR in actual.roles
    ensures var resolved := ScopesForRole(OPERATOR, required.scopes);
      (resolved != [] ==> AllowsRequest(actual, OPERATOR, resolved)) <==>
      HandedOver(required.roles, required.scopes) <= Closure(Entries(actual.scopes))
  {
    var resolved, reach := ScopesForRole(OPERATOR, required.scopes), Closure(Entries(required.scopes)) * HANDOFF;
    hide Strip, Entries, HANDOFF, OPERATOR, ADMIN, READ, WRITE, Sorted, Less, ScopesForRole, Closure;
    OperatorScopes(required.scopes);
    HandoffClosed(Entries(required.scopes));
    EntriesClean(required.scopes);
    EntriesOfSorted(reach);
    if resolved == [] { assert reach == {}; }
  }

  lemma OperatorScopes(scopes: seq<string>)
    ensures ScopesForRole(OPERATOR, scopes) == SortedOf(Closure(Entries(scopes)) * HANDOFF)
  {
    assert Trimmed(OPERATOR) && Strip(OPERATOR) == OPERATOR;
    hide Strip, Entries, HANDOFF, Closure, SortedOf;
  }

  lemma RolesAreEntries(p: Profile)
    requires Normalized(p) == p
    ensures forall role :: role in p.roles <==> role in Entries(p.roles)
    ensures forall role :: role in p.roles ==> Strip(role) == role
  {
    EntriesClean(p.roles);
    assert forall role :: role in p.roles ==> Trimmed(role);
  }

  /** Once fully redeemed, a token stays so as long as it lives. */
  lemma {:induction false} FullyRedeemedForGood(canon: Canonicalizer, file: File, steps: seq<Step>, key: string)
    requires Base64Url(canon) && (forall i :: 0 <= i < |steps| ==> !Brings(steps[i], key))
    requires key in file && Satisfies(RedeemedProfile(file[key]), IssuedProfile(file[key]))
    requires key in Run(canon, file, steps)
    ensures var n := Run(canon, file, steps)[key]; Satisfies(RedeemedProfile(n), IssuedProfile(n))
  {
    RunContinues(canon, file, steps, key);
    var r, n := file[key], Run(canon, file, steps)[key];
    NormalizeIdempotent(RawProfile(r));
    NormalizeIdempotent(RawRedeemed(r));
    NormalizeIdempotent(RawRedeemed(n));
    hide Run, Satisfies, Normalized, Unbound, BindingMatches, HandedOver, Entries;
    SatisfiesIff(RedeemedProfile(r), IssuedProfile(r));
    SatisfiesIff(RedeemedProfile(n), IssuedProfile(n));
    ClosureMonotone(Entries(RedeemedProfile(r).scopes), Entries(RedeemedProfile(n).scopes));
  }

  lemma ClosureMonotone(s: set<string>, t: set<string>)
    requires s <= t
    ensures Closure(s) <= Closure(t)
  {
  }
}
