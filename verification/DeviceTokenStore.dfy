/** The token file and its operations, each one step of `DeviceTokens.Next`. */
module DeviceTokenStore {
  import opened PyText
  import opened SortedText
  import opened DeviceProfile
  import opened DeviceTokens

  method NormalizeProfile(p: Profile) returns (n: Profile)
    ensures n == Normalized(p)
  {
    var roles := NormalizeRoles(p.roles);
    var scopes := NormalizeScopes(p.scopes);
    n := Profile(roles, scopes);
  }

  /** `_issued_bootstrap_profile` */
  method IssuedBootstrapProfile(roles: Option<seq<string>>, scopes: Option<seq<string>>) returns (p: Profile)
    ensures p == IssueProfile(roles, scopes)
  {
    if roles.None? && scopes.None? {
      return Profile(["node", OPERATOR], ["operator.approvals", READ, "operator.talk.secrets", WRITE]);
    }
    var rs := if roles.Some? then roles.value else [];
    var ss := if scopes.Some? then scopes.value else [];
    var requested := NormalizeProfile(Profile(rs, ss));
    NormalizedTwice(rs, ss);
    hide Normalized;
    p := NormalizeHandoffProfile(requested.roles, requested.scopes);
  }

  lemma NormalizedTwice(roles: seq<string>, scopes: seq<string>)
    ensures var p := Normalized(Profile(roles, scopes));
      Roles(p.roles) == Roles(roles) && HandedOver(p.roles, p.scopes) == HandedOver(roles, scopes)
  {
    hide Strip, Entries, HANDOFF, Sorted, Less;
    EntriesClean(roles);
    EntriesClean(scopes);
    EntriesOfSorted(Entries(roles));
    EntriesOfSorted(Closure(Entries(scopes)));
    ClosureAbsorbs(Entries(scopes), {});
  }

  method Allows(p: Profile, role: string, scopes: seq<string>) returns (ok: bool)
    ensures ok == AllowsRequest(p, role, scopes)
  {
    hide Entries, Closure, OPERATOR;
    if role !in p.roles {
      return false;
    }
    var requested := NormalizeScopes(scopes);
    if requested == [] {
      assert Closure(Entries(scopes)) == {};
      return true;
    }
    var allowed := NormalizeScopes(p.scopes);
    if role != OPERATOR {
      return forall x :: x in requested ==> role + "." <= x && x in allowed;
    }
    return forall x :: x in requested ==> x in allowed;
  }

  method SatisfiesProfile(actual: Profile, required: Profile) returns (ok: bool)
    ensures ok == Satisfies(actual, required)
  {
    hide AllowsRequest, ScopesForRole;
    for i := 0 to |required.roles|
      invariant forall j :: 0 <= j < i ==> RoleSatisfied(actual, required, required.roles[j])
    {
      var role := required.roles[i];
      if role !in actual.roles {
        assert !RoleSatisfied(actual, required, role);
        return false;
      }
      var scopes := ResolveScopesForRole(role, required.scopes);
      if scopes != [] {
        var allowed := Allows(actual, role, scopes);
        if !allowed {
          assert !RoleSatisfied(actual, required, role);
          return false;
        }
      }
    }
    forall role | role in required.roles ensures RoleSatisfied(actual, required, role) {}
    return true;
  }

  ghost predicate RoleSatisfied(actual: Profile, required: Profile, role: string) {
    role in actual.roles &&
    (ScopesForRole(role, required.scopes) != [] ==> AllowsRequest(actual, role, ScopesForRole(role, required.scopes)))
  }

  class TokenFile {
    const canon: Canonicalizer
    var file: File

    constructor (canon: Canonicalizer)
      ensures file == map[] && this.canon == canon
    {
      this.canon := canon;
      file := map[];
    }

    /** `_read_bootstrap_state`: drops what is expired. */
    method ReadState(now: int) returns (state: File)
      ensures state == Live(file, now)
    {
      hide Expired;
      state := map[];
      var left := file.Keys;
      while left != {}
        invariant left <= file.Keys
        invariant forall key :: key in state <==> key in file && key !in left && !Expired(key, file[key], now)
        invariant forall key :: key in state ==> state[key] == file[key]
        decreases |left|
      {
        var key :| key in left;
        left := left - {key};
        if !Expired(key, file[key], now) {
          state := state[key := file[key]];
        }
      }
    }

    /** `_find_bootstrap_record_entry`: the search over all records. */
    method FindEntry(token: string, now: int) returns (key: Option<string>, state: File)
      ensures Answers(file, token, now, key) && (key.Some? ==> state == Live(file, now))
    {
      hide Live, Strip, Persisted;
      var provided := Strip(token);
      LiveStored(file, now);
      if provided == "" {
        return None, map[];
      }
      state := ReadState(now);
      var left := state.Keys;
      while left != {}
        invariant left <= state.Keys
        invariant forall k :: k in state && k !in left ==> Persisted(k, state[k]) != provided
        decreases |left|
      {
        var k :| k in left;
        if Persisted(k, state[k]) == provided {
          return Some(k), state;
        }
        left := left - {k};
      }
      return None, state;
    }

    /** `issue_device_bootstrap_token` */
    method Issue(now: int, token: string, roles: Option<seq<string>>, scopes: Option<seq<string>>)
      returns (expiresAt: int)
      modifies this`file
      ensures file == Next(canon, old(file), Step.Issue(now, token, roles, scopes)) && expiresAt == now + TTL_MS
    {
      hide IssueProfile, Live;
      var state := ReadState(now);
      var p := IssuedBootstrapProfile(roles, scopes);
      expiresAt := now + TTL_MS;
      file := state[token := Record(token, Some(now), Some(now), Some(expiresAt), Some(p), [], [],
        Some(Profile([], [])), "", "", None)];
    }

    /** `get_device_bootstrap_token_profile` */
    method GetProfile(now: int, token: string) returns (p: Option<Profile>, ghost at: Option<string>)
      ensures Answers(file, token, now, at)
      ensures p == if at.Some? then Some(IssuedProfile(file[at.value])) else None
      ensures WellKeyed(file) ==> at == Entry(file, token, now)
    {
      hide Live, WellKeyed, Strip, Normalized, Find, Answers, Entry;
      var key, state := FindEntry(token, now);
      AnswersInFile(file, token, now, key);
      if key.None? {
        return None, None;
      }
      var issued := NormalizeProfile(RawProfile(state[key.value]));
      return Some(issued), key;
    }

    /** `verify_device_bootstrap_token` */
    method Verify(now: int, token: string, deviceId: string, publicKey: string, role: string, scopes: seq<string>)
      returns (ok: bool, ghost at: Option<string>)
      modifies this`file
      ensures Answers(old(file), token, now, at)
      ensures var s := Step.Verify(now, token, deviceId, publicKey, role, scopes);
        ok == (at.Some? && Accepts(canon, old(file)[at.value], s)) &&
        file == (if ok then Live(old(file), now)[at.value := Bind(canon, old(file)[at.value], s)] else old(file))
      ensures var s := Step.Verify(now, token, deviceId, publicKey, role, scopes);
        WellKeyed(old(file)) ==> ok == Verifies(canon, old(file), s) && file == Next(canon, old(file), s)
    {
      hide Find, Strip, NormalizeKey, AllowsRequest, Normalized, Live, WellKeyed, IssueProfile, Redeemed, Answers;
      hide Entry;
      var key, state := FindEntry(token, now);
      AnswersInFile(file, token, now, key);
      at := key;
      if key.None? {
        return false, at;
      }
      var record := state[key.value];
      var device, publicKey', role' := Strip(deviceId), NormalizeKey(canon, publicKey), Strip(role);
      if device == "" || publicKey' == "" || role' == "" {
        return false, at;
      }
      var profile := NormalizeProfile(RawProfile(record));
      var allowed := Allows(profile, role', scopes);
      if !allowed {
        return false, at;
      }
      var boundDevice, boundKey := Strip(record.deviceId), NormalizeKey(canon, record.publicKey);
      if (boundDevice != "" || boundKey != "") && (boundDevice != device || boundKey != publicKey') {
        return false, at;
      }
      file := state[key.value := record.(profile := Some(profile), deviceId := device, publicKey := publicKey',
        lastUsed := Some(now))];
      return true, at;
    }

    /** `get_bound_device_bootstrap_profile` */
    method GetBound(now: int, token: string, deviceId: string, publicKey: string)
      returns (p: Option<Profile>, ghost at: Option<string>)
      ensures Answers(file, token, now, at)
      ensures p == if at.Some? then BoundProfileOf(canon, file[at.value], deviceId, publicKey) else None
      ensures WellKeyed(file) ==> p == BoundProfile(canon, file, now, token, deviceId, publicKey)
    {
      hide Find, Strip, NormalizeKey, Normalized, Live, WellKeyed, Answers, Entry;
      var key, state := FindEntry(token, now);
      AnswersInFile(file, token, now, key);
      at := key;
      if key.None? {
        return None, at;
      }
      var record := state[key.value];
      if Strip(deviceId) == "" || NormalizeKey(canon, publicKey) == "" {
        return None, at;
      }
      if Strip(record.deviceId) != Strip(deviceId) ||
        NormalizeKey(canon, record.publicKey) != NormalizeKey(canon, publicKey) {
        return None, at;
      }
      var profile := NormalizeProfile(RawProfile(record));
      return Some(profile), at;
    }

    /** `redeem_device_bootstrap_token_profile` */
    method Redeem(now: int, token: string, role: string, scopes: seq<string>)
      returns (recorded: bool, fullyRedeemed: bool, ghost at: Option<string>)
      modifies this`file
      ensures Answers(old(file), token, now, at) && recorded == at.Some?
      ensures file == if at.None? then old(file) else
        Live(old(file), now)[at.value := Redeemed(old(file)[at.value], Step.Redeem(now, token, role, scopes))]
      ensures fullyRedeemed ==
        (at.Some? && Satisfies(RedeemedProfile(file[at.value]), IssuedProfile(file[at.value])))
      ensures WellKeyed(old(file)) ==>
        at == Entry(old(file), token, now) && file == Next(canon, old(file), Step.Redeem(now, token, role, scopes))
    {
      hide Find, Strip, Satisfies, Normalized, Live, WellKeyed, ScopesForRole, IssueProfile, Verifies, Bind;
      hide Answers, Entry;
      var key, state := FindEntry(token, now);
      AnswersInFile(file, token, now, key);
      at := key;
      if key.None? {
        return false, false, at;
      }
      var record := state[key.value];
      var issued := NormalizeProfile(RawProfile(record));
      var redeemed := NormalizeProfile(RawRedeemed(record));
      var more := ResolveScopesForRole(role, scopes);
      var all := Profile(redeemed.roles + [role], redeemed.scopes + more);
      var next := NormalizeProfile(all);
      NormalizeIdempotent(all);
      NormalizeIdempotent(RawProfile(record));
      file := state[key.value := record.(profile := Some(issued), redeemed := Some(next))];
      fullyRedeemed := SatisfiesProfile(next, issued);
      recorded := true;
    }

    /** `revoke_device_bootstrap_token` */
    method Revoke(now: int, token: string) returns (removed: Option<Record>, ghost at: Option<string>)
      modifies this`file
      ensures Answers(old(file), token, now, at)
      ensures removed == if at.Some? then Some(old(file)[at.value]) else None
      ensures file == if at.Some? then Live(old(file), now) - {at.value} else old(file)
      ensures WellKeyed(old(file)) ==>
        removed == Find(old(file), token, now) && file == Next(canon, old(file), Step.Revoke(now, token))
    {
      hide Find, Strip, Live, WellKeyed, Normalized, IssueProfile, Verifies, Bind, Redeemed, Answers, Entry;
      var key, state := FindEntry(token, now);
      AnswersInFile(file, token, now, key);
      at := key;
      if key.None? {
        return None, at;
      }
      removed := Some(state[key.value]);
      file := state - {key.value};
    }

    /** `clear_device_bootstrap_tokens` */
    method Clear(now: int) returns (removed: nat)
      modifies this`file
      ensures removed == |Live(old(file), now)| && file == Next(canon, old(file), Step.Clear(now))
    {
      var state := ReadState(now);
      removed := |state|;
      file := map[];
    }

    /** `restore_device_bootstrap_token` */
    method Restore(now: int, record: Record)
      modifies this`file
      ensures file == Next(canon, old(file), Step.Restore(now, record))
    {
      hide Live, Strip;
      var token := Strip(record.token);
      if token == "" {
        return;
      }
      var state := ReadState(now);
      file := state[token := record];
    }
  }

  /** The token a record is compared by. */
  function Persisted(key: string, r: Record): string {
    if r.token != "" then r.token else key
  }

  /** Under `key` there is a live record with the token. */
  predicate FoundAt(file: File, token: string, now: int, key: string) {
    Strip(token) != "" && key in Live(file, now) && Persisted(key, Live(file, now)[key]) == Strip(token)
  }

  /** A live record with the token, if there is one. */
  ghost predicate Answers(file: File, token: string, now: int, at: Option<string>) {
    if at.Some? then at.value in file && FoundAt(file, token, now, at.value)
    else forall key :: key in Live(file, now) ==> !FoundAt(file, token, now, key)
  }

  /** Where the record is that the specification names. */
  function Entry(file: File, token: string, now: int): Option<string> {
    if Find(file, token, now).Some? then Some(Strip(token)) else None
  }

  /** Whether a found record passes `verify_device_bootstrap_token`. */
  ghost predicate Accepts(canon: Canonicalizer, r: Record, s: Step)
    requires s.Verify?
  {
    Strip(s.deviceId) != "" && NormalizeKey(canon, s.publicKey) != "" && Strip(s.role) != "" &&
    AllowsRequest(IssuedProfile(r), Strip(s.role), s.requested) &&
    (Unbound(canon, r) || BindingMatches(canon, r, s.deviceId, s.publicKey))
  }

  ghost function BoundProfileOf(canon: Canonicalizer, r: Record, deviceId: string, publicKey: string): Option<Profile> {
    if Strip(deviceId) != "" && NormalizeKey(canon, publicKey) != "" && BindingMatches(canon, r, deviceId, publicKey)
    then Some(IssuedProfile(r)) else None
  }

  lemma LiveStored(file: File, now: int)
    ensures forall k :: k in Live(file, now) ==> k in file && Live(file, now)[k] == file[k]
  {
    hide Expired;
  }

  /** In a well-keyed file the search can only find what the specification names. */
  lemma WellKeyedAnswers(file: File, token: string, now: int, at: Option<string>)
    requires WellKeyed(file) && Answers(file, token, now, at)
    ensures at == Entry(file, token, now)
  {
    hide Strip, Expired;
    LiveStored(file, now);
    var key := Strip(token);
    assert Trimmed("") && Trimmed(key);
    if Find(file, token, now).Some? { assert key in Live(file, now) && FoundAt(file, token, now, key); }
  }

  lemma AnswersInFile(file: File, token: string, now: int, at: Option<string>)
    requires Answers(file, token, now, at)
    ensures at.Some? ==> at.value in Live(file, now) && at.value in file && Live(file, now)[at.value] == file[at.value]
    ensures WellKeyed(file) ==> at == Entry(file, token, now)
    ensures Entry(file, token, now).None? ==> Find(file, token, now) == None
    ensures Entry(file, token, now).Some? ==> Entry(file, token, now) == Some(Strip(token))
    ensures Entry(file, token, now).Some? ==>
      Strip(token) in file && Find(file, token, now) == Some(file[Strip(token)])
  {
    LiveStored(file, now);
    hide Live, WellKeyed, Strip, Expired, Persisted;
    if WellKeyed(file) { WellKeyedAnswers(file, token, now, at); }
  }
}
