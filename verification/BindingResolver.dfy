/** Both resolvers of configured bindings, and how they fit together:
    `src/openzues/services/acp_persistent_bindings.py`. */
module BindingResolver {
  import opened PyText
  import opened SessionKeys
  import opened Bindings

  // ---- By conversation ----

  /** A conversation, normalised. */
  datatype Query = Query(channel: string, account: string, conversation: string, parent: Option<string>)

  function NormalizeQuery(channel: string, account: string, conversation: string, parent: Option<string>)
    : Option<Query>
  {
    var c, t := LowerCase(Some(channel)), Text(Some(conversation));
    if c.None? || t.None? then None else Some(Query(c.value, AccountId(Some(account)), t.value, Text(parent)))
  }

  datatype Rank = Rank(conversation: nat, account: nat)

  /** `_binding_matches_conversation` */
  function RankOf(b: Binding, q: Query): Option<Rank> {
    var account, exact, peer := BindingAccount(b), BindingAccount(b) == AccountId(Some(q.account)), Text(b.peer);
    if LowerCase(Some(q.channel)) != LowerCase(b.channel) then None
    else if !exact && account != "*" then None
    else if peer.None? then None
    else if peer.value == q.conversation then Some(Rank(0, if exact then 0 else 1))
    else if q.parent == peer then Some(Rank(1, if exact then 0 else 1))
    else None
  }

  /** Binding `i` matches the conversation and yields a spec. */
  predicate Candidate(cfg: Config, q: Query, i: int) {
    0 <= i < |cfg.bindings| && cfg.bindings[i].isAcp && RankOf(cfg.bindings[i], q).Some? &&
    SpecOf(cfg.agents, cfg.bindings[i], q.account, q.parent).Some?
  }

  /** Whether candidate `i` goes before candidate `j`: conversation rank, then account rank, then position. */
  predicate Earlier(cfg: Config, q: Query, i: int, j: int)
    requires Candidate(cfg, q, i) && Candidate(cfg, q, j)
  {
    var a, b := RankOf(cfg.bindings[i], q).value, RankOf(cfg.bindings[j], q).value;
    a.conversation < b.conversation ||
    (a.conversation == b.conversation && (a.account < b.account || (a.account == b.account && i < j)))
  }

  ghost predicate Chosen(cfg: Config, q: Query, i: int) {
    Candidate(cfg, q, i) && forall j :: Candidate(cfg, q, j) && j != i ==> Earlier(cfg, q, i, j)
  }

  // ---- Which binding is best, in terms of the texts ----

  /** The same text, not blank, but for outer white space. */
  ghost predicate SameText(a: Option<string>, b: Option<string>) {
    a.Some? && b.Some? && exists t :: t != "" && IsStripped(a.value, t) && IsStripped(b.value, t)
  }

  ghost predicate IsWildcard(b: Binding) {
    b.accountId.Some? && IsStripped(b.accountId.value, "*")
  }

  /** Its account, normalised, is that of the conversation. */
  ghost predicate NamesAccount(b: Binding, account: string) {
    !IsWildcard(b) && AccountId(b.accountId) == AccountId(Some(AccountId(Some(account))))
  }

  /** A conversation as the caller names it. */
  datatype Asked = Asked(channel: string, account: string, conversation: string, parent: Option<string>)

  /** Binding `i` is for the conversation or its parent, and for its account or all accounts, and names an agent. */
  ghost predicate Suits(cfg: Config, asked: Asked, i: int) {
    0 <= i < |cfg.bindings| &&
    var b := cfg.bindings[i];
    b.isAcp && b.agentId.Some? && !Blank(b.agentId.value) &&
    LowerCase(b.channel).Some? && LowerCase(b.channel) == LowerCase(Some(asked.channel)) &&
    (NamesAccount(b, asked.account) || IsWildcard(b)) &&
    (SameText(b.peer, Some(asked.conversation)) || SameText(b.peer, asked.parent)) &&
    !Blank(asked.conversation)
  }

  /** The conversation itself goes before its parent, then the account before all accounts, then the earlier binding. */
  ghost predicate GoesBefore(cfg: Config, asked: Asked, i: int, j: int)
    requires 0 <= i < |cfg.bindings| && 0 <= j < |cfg.bindings|
  {
    var a, b := cfg.bindings[i], cfg.bindings[j];
    var own, own' := SameText(a.peer, Some(asked.conversation)), SameText(b.peer, Some(asked.conversation));
    var names, names' := NamesAccount(a, asked.account), NamesAccount(b, asked.account);
    if own != own' then own else if names != names' then names else i < j
  }

  ghost predicate Best(cfg: Config, asked: Asked, i: int) {
    Suits(cfg, asked, i) && forall j :: Suits(cfg, asked, j) && j != i ==> GoesBefore(cfg, asked, i, j)
  }

  lemma TextIff(a: Option<string>, t: string)
    ensures Text(a) == Some(t) <==> a.Some? && t != "" && IsStripped(a.value, t)
    ensures Text(a).Some? <==> a.Some? && !Blank(a.value)
  {
    hide Strip, IsStripped, IsSpace;
    if a.Some? {
      StripIff(a.value, t);
      BlankIff(a.value);
    }
  }

  lemma SameTextIff(a: Option<string>, b: Option<string>)
    ensures SameText(a, b) <==> Text(a).Some? && Text(a) == Text(b)
  {
    hide Text, IsStripped;
    if Text(a).Some? {
      TextIff(a, Text(a).value);
      TextIff(b, Text(a).value);
    }
    if SameText(a, b) {
      var t :| t != "" && IsStripped(a.value, t) && IsStripped(b.value, t);
      TextIff(a, t);
      TextIff(b, t);
    }
  }

  lemma AccountIff(b: Binding, account: string)
    ensures BindingAccount(b) == "*" <==> IsWildcard(b)
    ensures BindingAccount(b) == AccountId(Some(AccountId(Some(account)))) <==> NamesAccount(b, account)
  {
    hide AccountId, Text, IsStripped, Given;
    TextIff(b.accountId, "*");
    NotTheWildcard(AccountId(Some(account)));
    if b.accountId.Some? { AccountOfBinding(b, b.accountId.value); NotTheWildcard(b.accountId.value); }
    else { NoAccount(); NotTheWildcard(""); }
  }

  lemma NoAccount()
    ensures Text(None) == None && AccountId(None) == AccountId(Some(""))
  {
    hide Strip, CanonicalId, Blocked;
  }

  lemma RankIff(b: Binding, asked: Asked, q: Query)
    requires NormalizeQuery(asked.channel, asked.account, asked.conversation, asked.parent) == Some(q)
    ensures RankOf(b, q).Some? <==>
      LowerCase(b.channel) == LowerCase(Some(asked.channel)) && (NamesAccount(b, asked.account) || IsWildcard(b)) &&
      (SameText(b.peer, Some(asked.conversation)) || SameText(b.peer, asked.parent))
    ensures RankOf(b, q).Some? ==>
      (RankOf(b, q).value.conversation == 0 <==> SameText(b.peer, Some(asked.conversation))) &&
      (RankOf(b, q).value.account == 0 <==> NamesAccount(b, asked.account)) &&
      RankOf(b, q).value.conversation <= 1 && RankOf(b, q).value.account <= 1
  {
    hide LowerCase, Text, AccountId, SameText, NamesAccount, IsWildcard, BindingAccount;
    LowerCaseSettles(Some(asked.channel));
    AccountIff(b, asked.account);
    SameTextIff(b.peer, Some(asked.conversation));
    SameTextIff(b.peer, asked.parent);
  }

  lemma SuitsIff(cfg: Config, asked: Asked, q: Query, i: int)
    requires NormalizeQuery(asked.channel, asked.account, asked.conversation, asked.parent) == Some(q)
    ensures Candidate(cfg, q, i) <==> Suits(cfg, asked, i)
  {
    hide LowerCase, Text, AccountId, SameText, NamesAccount, IsWildcard, RankOf, Blank, AgentConfig, RuntimeConfig;
    if 0 <= i < |cfg.bindings| {
      var b := cfg.bindings[i];
      RankIff(b, asked, q);
      TextIff(b.agentId, "");
      TextIff(Some(asked.conversation), "");
      SameTextIff(b.peer, Some(asked.conversation));
      SameTextIff(b.peer, asked.parent);
    }
  }

  /** Being chosen is being best. */
  lemma {:induction false} ChosenIsBest(cfg: Config, asked: Asked, q: Query, i: int)
    requires NormalizeQuery(asked.channel, asked.account, asked.conversation, asked.parent) == Some(q)
    ensures Chosen(cfg, q, i) <==> Best(cfg, asked, i)
  {
    hide NormalizeQuery, SameText, NamesAccount, IsWildcard, RankOf, Suits, Candidate;
    forall j ensures Candidate(cfg, q, j) <==> Suits(cfg, asked, j) { SuitsIff(cfg, asked, q, j); }
    if Candidate(cfg, q, i) {
      CandidateRank(cfg, q, i);
      RankIff(cfg.bindings[i], asked, q);
      forall j | Candidate(cfg, q, j)
        ensures 0 <= j < |cfg.bindings| && (j != i ==> (Earlier(cfg, q, i, j) <==> GoesBefore(cfg, asked, i, j)))
      {
        CandidateRank(cfg, q, j);
        RankIff(cfg.bindings[j], asked, q);
      }
    }
  }

  lemma ChosenIsCandidate(cfg: Config, q: Query, i: int)
    requires Chosen(cfg, q, i)
    ensures Candidate(cfg, q, i)
  {
  }

  lemma CandidateRank(cfg: Config, q: Query, i: int)
    requires Candidate(cfg, q, i)
    ensures 0 <= i < |cfg.bindings| && RankOf(cfg.bindings[i], q).Some?
  {
  }

  lemma NoQuerySuits(cfg: Config, asked: Asked, i: int)
    requires NormalizeQuery(asked.channel, asked.account, asked.conversation, asked.parent).None?
    ensures !Suits(cfg, asked, i)
  {
    hide LowerCase, Text, AccountId, SameText, NamesAccount, IsWildcard, Blank;
    TextIff(Some(asked.conversation), "");
  }

  // ---- The same account on both sides ----

  lemma TextGiven(t: string)
    ensures Given(Text(Some(t))) == Given(Some(t))
  {
    hide LStrip, RStrip;
    assert Trimmed("") && Trimmed(Strip(t));
  }

  lemma GivenDecides(v: Option<string>, w: Option<string>)
    requires Given(v) == Given(w)
    ensures AccountId(v) == AccountId(w)
  {
    hide Given, CanonicalId, Blocked;
  }

  lemma AccountOfBinding(b: Binding, t: string)
    requires b.accountId == Some(t)
    ensures BindingAccount(b) == if Text(Some(t)) == Some("*") then "*" else AccountId(Some(t))
  {
    hide AccountId, Text, Given;
    TextGiven(t);
    GivenDecides(Text(Some(t)), Some(t));
  }

  /** A normalised account is never the wildcard. */
  lemma NotTheWildcard(t: string)
    ensures AccountId(Some(t)) != "*"
  {
    hide AccountId, Blocked, Given, ValidForeign, Strict;
    AccountIdShape(Some(t));
    assert '*' in "*" by { assert "*"[0] == '*'; }
  }

  /** A binding configured with an account is normalised once and the account of a conversation twice: where all else
      matches, the binding matches a conversation that names the very same text if and only if that is the wildcard, or
      normalising it once is enough. */
  lemma {:induction false} SameAccountMatchesIff(b: Binding, t: string, channel: string, conversation: string,
                                                 parent: Option<string>)
    requires b.accountId == Some(t) && NormalizeQuery(channel, t, conversation, parent).Some?
    requires var q := NormalizeQuery(channel, t, conversation, parent).value;
      LowerCase(b.channel) == LowerCase(Some(q.channel)) && Text(b.peer) in {Some(q.conversation), q.parent} &&
      Text(b.peer).Some?
    ensures RankOf(b, NormalizeQuery(channel, t, conversation, parent).value).Some? <==>
      Text(Some(t)) == Some("*") || !Unsettled(Given(Some(t)))
  {
    hide AccountId, Text, LowerCase, Given, Unsettled, BindingAccount;
    AccountOfBinding(b, t);
    NotTheWildcard(t);
    AccountIdIdempotentIff(Some(t));
  }

  // ---- Sorting matches ----

  datatype Match = Match(first: int, second: int, index: nat)

  predicate Precedes(a: Match, b: Match) {
    a.first < b.first || (a.first == b.first && (a.second < b.second || (a.second == b.second && a.index < b.index)))
  }

  ghost predicate InOrder(ms: seq<Match>) {
    forall i, j :: 0 <= i < j < |ms| ==> Precedes(ms[i], ms[j])
  }

  function InsertMatch(ms: seq<Match>, m: Match): seq<Match> {
    if |ms| == 0 || Precedes(m, ms[0]) then [m] + ms else [ms[0]] + InsertMatch(ms[1..], m)
  }

  lemma {:induction false} InsertKeepsOrder(ms: seq<Match>, m: Match)
    requires InOrder(ms) && forall x :: x in ms ==> x.index != m.index
    ensures InOrder(InsertMatch(ms, m)) && forall x :: x in InsertMatch(ms, m) <==> x == m || x in ms
  {
    if |ms| != 0 {
      assert ms[0] in ms && forall x :: x in ms <==> x == ms[0] || x in ms[1..];
      if !Precedes(m, ms[0]) {
        InsertKeepsOrder(ms[1..], m);
        var rest := InsertMatch(ms[1..], m);
        forall i | 0 <= i < |rest| ensures Precedes(ms[0], rest[i]) {
          assert rest[i] in rest;
        }
      }
    }
  }

  /** `sorted` on matches with distinct positions. */
  method SortMatches(ms: seq<Match>) returns (r: seq<Match>)
    requires forall i, j :: 0 <= i < j < |ms| ==> ms[i].index < ms[j].index
    ensures InOrder(r) && forall x :: x in r <==> x in ms
  {
    r := [];
    for i := 0 to |ms|
      invariant InOrder(r) && forall x :: x in r <==> x in ms[..i]
    {
      assert ms[..i + 1] == ms[..i] + [ms[i]];
      InsertKeepsOrder(r, ms[i]);
      r := InsertMatch(r, ms[i]);
    }
    assert ms[..|ms|] == ms;
  }

  /** `resolve_configured_acp_binding_record`: the spec of the first candidate in rank order, if there is one. */
  method ResolveRecord(cfg: Config, channel: string, account: string, conversation: string, parent: Option<string>)
    returns (r: Option<Spec>, ghost at: int)
    ensures var q := NormalizeQuery(channel, account, conversation, parent);
      r.None? <==> q.None? || forall i :: !Candidate(cfg, q.value, i)
    ensures var q := NormalizeQuery(channel, account, conversation, parent);
      r.Some? ==> Chosen(cfg, q.value, at) && r == SpecOf(cfg.agents, cfg.bindings[at], q.value.account, q.value.parent)
    ensures var asked := Asked(channel, account, conversation, parent);
      if r.None? then forall i :: !Suits(cfg, asked, i) else Best(cfg, asked, at)
  {
    hide NormalizeQuery, RankOf, SpecOf, Candidate, Earlier, InOrder, Suits, Best, Chosen;
    at := -1;
    ghost var asked := Asked(channel, account, conversation, parent);
    var query := NormalizeQuery(channel, account, conversation, parent);
    if query.None? {
      forall i ensures !Suits(cfg, asked, i) { NoQuerySuits(cfg, asked, i); }
      return None, -1;
    }
    var q := query.value;
    var matches := RankedMatches(cfg, q);
    var sorted := SortMatches(matches);
    assert RanksAll(cfg, q, sorted);
    hide RanksAll;
    for k := 0 to |sorted|
      invariant forall j :: 0 <= j < k ==> NoSpec(cfg, q, sorted[j])
    {
      MatchInRange(cfg, q, sorted, k);
      var i := sorted[k].index;
      var spec := SpecOf(cfg.agents, cfg.bindings[i], q.account, q.parent);
      if spec.Some? {
        FirstSpecIsChosen(cfg, q, sorted, k);
        ChosenIsBest(cfg, asked, q, i);
        ChosenIsCandidate(cfg, q, i);
        return spec, i;
      }
    }
    NoCandidates(cfg, q, sorted);
    forall i ensures !Suits(cfg, asked, i) { SuitsIff(cfg, asked, q, i); }
    return None, -1;
  }

  /** The sorted list holds exactly the matching bindings with their ranks. */
  ghost predicate RanksAll(cfg: Config, q: Query, ms: seq<Match>) {
    forall m :: m in ms <==>
      m.index < |cfg.bindings| && cfg.bindings[m.index].isAcp && RankOf(cfg.bindings[m.index], q).Some? &&
      m == MatchOf(cfg, q, m.index)
  }

  ghost predicate NoSpec(cfg: Config, q: Query, m: Match) {
    m.index < |cfg.bindings| && SpecOf(cfg.agents, cfg.bindings[m.index], q.account, q.parent).None?
  }

  lemma MatchInRange(cfg: Config, q: Query, ms: seq<Match>, k: nat)
    requires RanksAll(cfg, q, ms) && k < |ms|
    ensures ms[k].index < |cfg.bindings|
  {
    hide RankOf;
    assert ms[k] in ms;
  }

  lemma FirstSpecIsChosen(cfg: Config, q: Query, ms: seq<Match>, k: nat)
    requires RanksAll(cfg, q, ms) && InOrder(ms) && k < |ms| && forall j :: 0 <= j < k ==> NoSpec(cfg, q, ms[j])
    requires ms[k].index < |cfg.bindings| && SpecOf(cfg.agents, cfg.bindings[ms[k].index], q.account, q.parent).Some?
    ensures Chosen(cfg, q, ms[k].index)
  {
    hide RankOf, SpecOf;
    var i := ms[k].index;
    assert ms[k] in ms;
    forall j | Candidate(cfg, q, j) && j != i ensures Earlier(cfg, q, i, j) {
      var m := MatchOf(cfg, q, j);
      assert m in ms;
      var p :| 0 <= p < |ms| && ms[p] == m;
      assert !NoSpec(cfg, q, m) && p != k;
    }
  }

  lemma NoCandidates(cfg: Config, q: Query, ms: seq<Match>)
    requires RanksAll(cfg, q, ms) && forall j :: 0 <= j < |ms| ==> NoSpec(cfg, q, ms[j])
    ensures forall i :: !Candidate(cfg, q, i)
  {
    hide RankOf, SpecOf;
    forall i ensures !Candidate(cfg, q, i) {
      if 0 <= i < |cfg.bindings| && RankOf(cfg.bindings[i], q).Some? {
        var m := MatchOf(cfg, q, i);
        assert m in ms ==> NoSpec(cfg, q, m);
      }
    }
  }

  function MatchOf(cfg: Config, q: Query, i: int): Match
    requires 0 <= i < |cfg.bindings| && RankOf(cfg.bindings[i], q).Some?
  {
    var rank := RankOf(cfg.bindings[i], q).value;
    Match(rank.conversation, rank.account, i)
  }

  /** The loop that collects the ranked matches. */
  method RankedMatches(cfg: Config, q: Query) returns (ms: seq<Match>)
    ensures forall i, j :: 0 <= i < j < |ms| ==> ms[i].index < ms[j].index
    ensures forall m :: m in ms <==>
      m.index < |cfg.bindings| && cfg.bindings[m.index].isAcp && RankOf(cfg.bindings[m.index], q).Some? &&
      m == MatchOf(cfg, q, m.index)
  {
    hide RankOf;
    ms := [];
    for i := 0 to |cfg.bindings|
      invariant forall i, j :: 0 <= i < j < |ms| ==> ms[i].index < ms[j].index
      invariant forall m :: m in ms <==>
        m.index < i && cfg.bindings[m.index].isAcp && RankOf(cfg.bindings[m.index], q).Some? &&
        m == MatchOf(cfg, q, m.index)
    {
      if cfg.bindings[i].isAcp {
        var rank := RankOf(cfg.bindings[i], q);
        if rank.Some? {
          forall j | 0 <= j < |ms| ensures ms[j].index < i { assert ms[j] in ms; }
          ms := ms + [Match(rank.value.conversation, rank.value.account, i)];
        }
      }
    }
  }

  // ---- By session key ----

  /** The spec that binding `i` has for a key, if it leads to that key. */
  function SpecByKey(hash: string -> string, cfg: Config, key: string, i: int): Option<Spec>
    requires 0 <= i < |cfg.bindings|
  {
    var parsed, b := ParseKey(key), cfg.bindings[i];
    if parsed.None? || !b.isAcp || LowerCase(b.channel) != Some(parsed.value.channel) then None
    else if BindingAccount(b) != parsed.value.accountId && BindingAccount(b) != "*" then None
    else
      var spec := SpecOf(cfg.agents, b, parsed.value.accountId, None);
      if spec.Some? && SessionKey(hash, spec.value) == Strip(key) then spec else None
  }

  predicate Leads(hash: string -> string, cfg: Config, key: string, i: int) {
    0 <= i < |cfg.bindings| && SpecByKey(hash, cfg, key, i).Some?
  }

  /** Whether the binding names the key's account, rather than all accounts. */
  predicate Exact(cfg: Config, key: string, i: int)
    requires 0 <= i < |cfg.bindings| && ParseKey(key).Some?
  {
    BindingAccount(cfg.bindings[i]) == ParseKey(key).value.accountId
  }

  function Weight(cfg: Config, key: string, i: int): int
    requires 0 <= i < |cfg.bindings| && ParseKey(key).Some?
  {
    (if Exact(cfg, key, i) then 0 else 1) * 1000 + i
  }

  /** Least weight; of equal weights the earlier position. */
  ghost predicate ChosenByKey(hash: string -> string, cfg: Config, key: string, i: int) {
    Leads(hash, cfg, key, i) &&
    forall j :: Leads(hash, cfg, key, j) && j != i ==>
      Weight(cfg, key, i) < Weight(cfg, key, j) || (Weight(cfg, key, i) == Weight(cfg, key, j) && i < j)
  }

  /** `resolve_configured_acp_binding_spec_by_session_key` */
  method ResolveBySessionKey(hash: string -> string, cfg: Config, key: string) returns (r: Option<Spec>, ghost at: int)
    ensures r.None? <==> forall i :: !Leads(hash, cfg, key, i)
    ensures r.Some? ==> ChosenByKey(hash, cfg, key, at) && r == SpecByKey(hash, cfg, key, at)
  {
    hide SpecByKey, SpecOf, SessionKey, ParseKey, BindingAccount, Strip, LowerCase, Exact, Weight, InOrder;
    var parsed := ParseKey(key);
    if parsed.None? {
      forall i ensures !Leads(hash, cfg, key, i) { LeadsInRange(hash, cfg, key, i); }
      return None, -1;
    }
    var matches: seq<Match> := [];
    for i := 0 to |cfg.bindings|
      invariant forall i, j :: 0 <= i < j < |matches| ==> matches[i].index < matches[j].index
      invariant forall m :: m in matches <==>
        m.index < i && Leads(hash, cfg, key, m.index) && m == Match(Weight(cfg, key, m.index), 0, m.index)
    {
      var b := cfg.bindings[i];
      LeadsIff(hash, cfg, key, i);
      if !b.isAcp || LowerCase(b.channel) != Some(parsed.value.channel) {
        continue;
      }
      var account := BindingAccount(b);
      if account != parsed.value.accountId && account != "*" {
        continue;
      }
      var spec := SpecOf(cfg.agents, b, parsed.value.accountId, None);
      if spec.None? || SessionKey(hash, spec.value) != Strip(key) {
        continue;
      }
      forall j | 0 <= j < |matches| ensures matches[j].index < i { assert matches[j] in matches; }
      matches := matches + [Match(Weight(cfg, key, i), 0, i)];
    }
    assert WeighsAll(hash, cfg, key, matches);
    if matches == [] {
      NothingLeads(hash, cfg, key, matches);
      return None, -1;
    }
    var sorted := SortMatches(matches);
    assert matches[0] in sorted;
    FirstIsChosen(hash, cfg, key, sorted);
    return SpecByKey(hash, cfg, key, sorted[0].index), sorted[0].index;
  }

  /** The list holds exactly the bindings that lead to the key, with their weights. */
  ghost predicate WeighsAll(hash: string -> string, cfg: Config, key: string, ms: seq<Match>)
    requires ParseKey(key).Some?
  {
    forall m :: m in ms <==>
      m.index < |cfg.bindings| && Leads(hash, cfg, key, m.index) && m == Match(Weight(cfg, key, m.index), 0, m.index)
  }

  lemma NothingLeads(hash: string -> string, cfg: Config, key: string, ms: seq<Match>)
    requires ParseKey(key).Some? && WeighsAll(hash, cfg, key, ms) && ms == []
    ensures forall i :: !Leads(hash, cfg, key, i)
  {
    hide SpecByKey, ParseKey, Weight;
    forall i ensures !Leads(hash, cfg, key, i) {
      if 0 <= i < |cfg.bindings| { assert Match(Weight(cfg, key, i), 0, i) !in ms; }
    }
  }

  lemma FirstIsChosen(hash: string -> string, cfg: Config, key: string, ms: seq<Match>)
    requires ParseKey(key).Some? && WeighsAll(hash, cfg, key, ms) && InOrder(ms) && |ms| > 0
    ensures ChosenByKey(hash, cfg, key, ms[0].index)
  {
    hide SpecByKey, ParseKey, Weight;
    assert ms[0] in ms;
    var i := ms[0].index;
    forall j | Leads(hash, cfg, key, j) && j != i
      ensures Weight(cfg, key, i) < Weight(cfg, key, j) || (Weight(cfg, key, i) == Weight(cfg, key, j) && i < j)
    {
      var m := Match(Weight(cfg, key, j), 0, j);
      assert m in ms;
      var p :| 0 <= p < |ms| && ms[p] == m;
    }
  }

  lemma LeadsIff(hash: string -> string, cfg: Config, key: string, i: int)
    requires 0 <= i < |cfg.bindings| && ParseKey(key).Some?
    ensures var parsed, b := ParseKey(key).value, cfg.bindings[i];
      var spec := SpecOf(cfg.agents, b, parsed.accountId, None);
      Leads(hash, cfg, key, i) <==>
      b.isAcp && LowerCase(b.channel) == Some(parsed.channel) && BindingAccount(b) in {parsed.accountId, "*"} &&
      spec.Some? && SessionKey(hash, spec.value) == Strip(key)
  {
    hide ParseKey, SpecOf, SessionKey, BindingAccount, Strip, LowerCase;
  }

  lemma LeadsInRange(hash: string -> string, cfg: Config, key: string, i: int)
    ensures Leads(hash, cfg, key, i) <==> 0 <= i < |cfg.bindings| && SpecByKey(hash, cfg, key, i).Some?
    ensures Leads(hash, cfg, key, i) ==> ParseKey(key).Some?
  {
  }

  // ---- The key of a resolved spec ----

  lemma LowerOfTrimmed(t: string)
    requires Trimmed(t) && t != ""
    ensures var l := LowerText(t); Trimmed(l) && l != "" && LowerText(l) == l
  {
    hide LowerText, LowerChar, IsSpace;
    var l := LowerText(t);
    LowerSettles(t);
    LowerFirst(t);
    LowerLast(t);
    var last := LowerChar(t[|t| - 1]);
    LowerCharSettles(t[0], LowerChar(t[0])[0]);
    LowerCharSettles(t[|t| - 1], last[|last| - 1]);
  }

  lemma LowerCaseSettles(value: Option<string>)
    ensures LowerCase(value).Some? ==> LowerCase(LowerCase(value)) == LowerCase(value)
  {
    hide Strip, LowerText, Trimmed;
    if LowerCase(value).Some? {
      LowerOfTrimmed(Text(value).value);
    }
  }

  lemma {:induction false} KeyOfCandidate(hash: string -> string, cfg: Config, q: Query, raw: string, i: int)
    requires HexHash(hash) && Candidate(cfg, q, i)
    requires LowerCase(Some(q.channel)) == Some(q.channel) && q.account == AccountId(Some(raw))
    ensures var s := SpecOf(cfg.agents, cfg.bindings[i], q.account, q.parent).value;
      var again := AccountId(Some(s.accountId));
      s.channel == q.channel && s.accountId == AccountId(Some(q.account)) && ':' !in s.accountId && ':' !in again &&
      (again == s.accountId <==> !UnsettledTwice(Given(Some(raw)))) && AccountId(Some(again)) == again &&
      ParseKey(SessionKey(hash, s)) == (if ':' in q.channel then None else Some(Parsed(q.channel, again)))
  {
    hide AccountId, LowerCase, SessionKey, ParseKey, AgentConfig, RuntimeConfig, NormalizeMode, Text, Shaped,
      UnsettledTwice;
    var s := SpecOf(cfg.agents, cfg.bindings[i], q.account, q.parent).value;
    AccountIdTwiceIff(Some(raw));
    AccountIdSettles(Some(raw));
    NoColon(q.account);
    NoColon(s.accountId);
    ParseBuiltKey(hash, s);
  }

  lemma NoColon(account: string)
    ensures ':' !in AccountId(Some(account))
  {
    hide AccountId, Shaped;
    AccountIdShape(Some(account));
    ShapedFacts(AccountId(Some(account)));
  }

  lemma CandidateLeads(hash: string -> string, cfg: Config, q: Query, raw: string, i: int)
    requires HexHash(hash) && Candidate(cfg, q, i)
    requires LowerCase(Some(q.channel)) == Some(q.channel) && q.account == AccountId(Some(raw))
    requires ':' !in q.channel && !UnsettledTwice(Given(Some(raw)))
    ensures Leads(hash, cfg, SessionKey(hash, SpecOf(cfg.agents, cfg.bindings[i], q.account, q.parent).value), i)
  {
    hide AccountId, LowerCase, ParseKey, AgentConfig, RuntimeConfig, NormalizeMode, Text, AgentId, Strip, HexHash,
      UnsettledTwice;
    KeyOfCandidate(hash, cfg, q, raw, i);
    var b := cfg.bindings[i];
    var s := SpecOf(cfg.agents, b, q.account, q.parent).value;
    KeyTrimmed(hash, s);
    var s' := SpecOf(cfg.agents, b, s.accountId, None);
    assert s'.Some? && s'.value == s.(parent := None);
    assert SessionKey(hash, s'.value) == SessionKey(hash, s);
  }

  /** The account of a key that leads anywhere is left alone by normalising it. */
  lemma LeadsOnlySettled(hash: string -> string, cfg: Config, q: Query, raw: string, i: int, k: int)
    requires HexHash(hash) && Candidate(cfg, q, i)
    requires LowerCase(Some(q.channel)) == Some(q.channel) && q.account == AccountId(Some(raw))
    requires Leads(hash, cfg, SessionKey(hash, SpecOf(cfg.agents, cfg.bindings[i], q.account, q.parent).value), k)
    ensures ':' !in q.channel && !UnsettledTwice(Given(Some(raw)))
  {
    hide AccountId, LowerCase, ParseKey, AgentConfig, RuntimeConfig, NormalizeMode, Text, SessionKey, HexHash, Strip,
      UnsettledTwice;
    KeyOfCandidate(hash, cfg, q, raw, i);
    var s := SpecOf(cfg.agents, cfg.bindings[i], q.account, q.parent).value;
    var found := SpecByKey(hash, cfg, SessionKey(hash, s), k).value;
    KeyTrimmed(hash, s);
    SameKeySameAccount(hash, s, found);
  }

  /** Binding `i` is the first that leads to the key exactly, or the first that does so by a wildcard. */
  ghost predicate First(hash: string -> string, cfg: Config, key: string, exact: bool, i: int) {
    Leads(hash, cfg, key, i) && Exact(cfg, key, i) == exact &&
    forall j :: 0 <= j < i && Leads(hash, cfg, key, j) ==> Exact(cfg, key, j) != exact
  }

  lemma {:induction false} FirstExists(hash: string -> string, cfg: Config, key: string, exact: bool, n: nat)
    returns (k: nat)
    requires Leads(hash, cfg, key, n) && Exact(cfg, key, n) == exact
    ensures First(hash, cfg, key, exact, k)
  {
    hide SpecByKey, ParseKey, Exact;
    LeadsInRange(hash, cfg, key, n);
    if m :| 0 <= m < n && Leads(hash, cfg, key, m) && Exact(cfg, key, m) == exact {
      k := FirstExists(hash, cfg, key, exact, m);
    } else {
      k := n;
    }
  }

  /** If any binding leads to a key, one is chosen. */
  lemma {:induction false} SomeChosen(hash: string -> string, cfg: Config, key: string, i: nat)
    requires Leads(hash, cfg, key, i)
    ensures exists k :: ChosenByKey(hash, cfg, key, k)
  {
    hide SpecByKey, ParseKey, Exact;
    LeadsInRange(hash, cfg, key, i);
    var same := Exact(cfg, key, i);
    var k := FirstExists(hash, cfg, key, same, i);
    if j :| Leads(hash, cfg, key, j) && Exact(cfg, key, j) != same {
      var l := FirstExists(hash, cfg, key, !same, j);
      var kFirst := Weight(cfg, key, k) < Weight(cfg, key, l) || (Weight(cfg, key, k) == Weight(cfg, key, l) && k < l);
      assert ChosenByKey(hash, cfg, key, if kFirst then k else l);
    } else {
      assert ChosenByKey(hash, cfg, key, k);
    }
  }

  lemma QuerySettled(channel: string, account: string, conversation: string, parent: Option<string>)
    requires NormalizeQuery(channel, account, conversation, parent).Some?
    ensures var q := NormalizeQuery(channel, account, conversation, parent).value;
      LowerCase(Some(q.channel)) == Some(q.channel) && q.account == AccountId(Some(account))
  {
    hide LowerCase, AccountId, Text;
    LowerCaseSettles(Some(channel));
  }

  lemma LeadsNeedsKey(hash: string -> string, cfg: Config, key: string, k: int)
    requires ChosenByKey(hash, cfg, key, k)
    ensures ParseKey(key).Some? && 0 <= k < |cfg.bindings| && SpecByKey(hash, cfg, key, k).Some? &&
      SessionKey(hash, SpecByKey(hash, cfg, key, k).value) == Strip(key)
  {
    hide ParseKey, SpecOf, SessionKey, BindingAccount, Strip, LowerCase, Exact, Weight;
  }

  /** The session key of whatever the conversation resolver finds leads back to a spec with that same key if and only
      if the channel has no colon and normalising the account twice is enough; otherwise it leads nowhere. */
  lemma {:induction false} KeyLeadsBackIff(hash: string -> string, cfg: Config, channel: string, account: string,
                                           conversation: string, parent: Option<string>, i: nat)
    requires HexHash(hash) && NormalizeQuery(channel, account, conversation, parent).Some?
    requires Candidate(cfg, NormalizeQuery(channel, account, conversation, parent).value, i)
    ensures var q := NormalizeQuery(channel, account, conversation, parent).value;
      var key := SessionKey(hash, SpecOf(cfg.agents, cfg.bindings[i], q.account, q.parent).value);
      ((exists k :: ChosenByKey(hash, cfg, key, k)) <==> ':' !in q.channel && !UnsettledTwice(Given(Some(account)))) &&
      forall k :: ChosenByKey(hash, cfg, key, k) ==> SessionKey(hash, SpecByKey(hash, cfg, key, k).value) == key
  {
    hide NormalizeQuery, RankOf, AccountId, LowerCase, ParseKey, SpecOf, SessionKey, Strip, HexHash, Exact, Weight;
    hide Given, UnsettledTwice, SpecByKey;
    var q := NormalizeQuery(channel, account, conversation, parent).value;
    QuerySettled(channel, account, conversation, parent);
    var s := SpecOf(cfg.agents, cfg.bindings[i], q.account, q.parent).value;
    KeyTrimmed(hash, s);
    var key := SessionKey(hash, s);
    forall k | ChosenByKey(hash, cfg, key, k)
      ensures ':' !in q.channel && !UnsettledTwice(Given(Some(account)))
      ensures 0 <= k < |cfg.bindings| && SpecByKey(hash, cfg, key, k).Some? &&
              SessionKey(hash, SpecByKey(hash, cfg, key, k).value) == key {
      LeadsNeedsKey(hash, cfg, key, k);
      LeadsOnlySettled(hash, cfg, q, account, i, k);
    }
    if ':' !in q.channel && !UnsettledTwice(Given(Some(account))) {
      CandidateLeads(hash, cfg, q, account, i);
      SomeChosen(hash, cfg, key, i);
    }
  }

  /** A spec the conversation resolver finds survives the trip through the record it is returned with if and only if
      normalising the account twice is enough. */
  lemma {:induction false} ResolvedSpecSurvivesRecordIff(
    hash: string -> string, agentOf: Option<string> -> Option<string>, cfg: Config,
    channel: string, account: string, conversation: string, parent: Option<string>, i: nat)
    requires forall key :: Settled(agentOf(key))
    requires NormalizeQuery(channel, account, conversation, parent).Some?
    requires Candidate(cfg, NormalizeQuery(channel, account, conversation, parent).value, i)
    ensures var q := NormalizeQuery(channel, account, conversation, parent).value;
      var s := SpecOf(cfg.agents, cfg.bindings[i], q.account, q.parent).value;
      FromRecord(agentOf, ToRecord(hash, s)) == Some(s) <==> !UnsettledTwice(Given(Some(account)))
  {
    hide RankOf, AccountId, LowerCase, AgentConfig, RuntimeConfig, NormalizeMode, Text, Settled, FromRecord, ToRecord,
      Shaped;
    hide Given, UnsettledTwice;
    var q := NormalizeQuery(channel, account, conversation, parent).value;
    var b := cfg.bindings[i];
    var s := SpecOf(cfg.agents, b, q.account, q.parent).value;
    var agent := AgentConfig(cfg.agents, s.agentId);
    var defaults := RuntimeConfig(agent);
    AccountIdShape(Some(q.account));
    AccountIdTwiceIff(Some(account));
    ShapedSettled(s.accountId);
    LowerCaseSettled(b.channel);
    TextSettles(b.peer);
    TextSettles(b.agentId);
    TextSettles(parent);
    TextSettles(defaults.agent);
    TextSettles(b.acp.cwd);
    TextSettles(defaults.cwd);
    TextSettles(agent.workspace);
    TextSettles(b.acp.backend);
    TextSettles(defaults.backend);
    TextSettles(b.acp.labelText);
    RecordRoundTripsIff(hash, agentOf, s);
  }

  lemma ShapedSettled(t: string)
    requires Shaped(t)
    ensures Text(Some(t)) == Some(t)
  {
    hide Strip;
    ShapedFacts(t);
  }

  lemma LowerCaseSettled(value: Option<string>)
    ensures Settled(LowerCase(value)) || LowerCase(value) == None
  {
    hide Strip, LowerText, Trimmed;
    if LowerCase(value).Some? {
      LowerOfTrimmed(Text(value).value);
    }
  }

  // ---- Weights ----

  /** Account rank first, position second. */
  ghost predicate LexicographicallyFirst(hash: string -> string, cfg: Config, key: string, i: int) {
    Leads(hash, cfg, key, i) &&
    forall j :: Leads(hash, cfg, key, j) && j != i ==>
      (Exact(cfg, key, i) && !Exact(cfg, key, j)) || (Exact(cfg, key, i) == Exact(cfg, key, j) && i < j)
  }

  /** Weighing 1000 for the account rank gives the lexicographic choice if and only if the first exact match, if there
      is one, stands less than 1000 places behind the first wildcard match, if there is one. */
  lemma {:induction false} WeightIsLexicographicIff(hash: string -> string, cfg: Config, key: string, i: int)
    requires ChosenByKey(hash, cfg, key, i)
    ensures LexicographicallyFirst(hash, cfg, key, i) <==>
      forall e, w :: First(hash, cfg, key, true, e) && First(hash, cfg, key, false, w) ==> e < 1000 + w
  {
    hide SpecByKey, ParseKey, Exact;
    LeadsInRange(hash, cfg, key, i);
    if Exact(cfg, key, i) {
      assert First(hash, cfg, key, true, i);
      forall e, w | First(hash, cfg, key, true, e) && First(hash, cfg, key, false, w) ensures e < 1000 + w {
        assert e == i;
        assert Weight(cfg, key, i) == i && Weight(cfg, key, w) == 1000 + w;
      }
    } else {
      assert First(hash, cfg, key, false, i);
      if j: nat :| Leads(hash, cfg, key, j) && Exact(cfg, key, j) {
        var e := FirstExists(hash, cfg, key, true, j);
        assert Weight(cfg, key, e) == e && Weight(cfg, key, i) == 1000 + i;
        assert !LexicographicallyFirst(hash, cfg, key, i);
      }
    }
  }

  /** With at most 1000 bindings it always does. */
  lemma {:induction false} UpToAThousand(hash: string -> string, cfg: Config, key: string, i: int)
    requires ChosenByKey(hash, cfg, key, i) && |cfg.bindings| <= 1000
    ensures LexicographicallyFirst(hash, cfg, key, i)
  {
    WeightIsLexicographicIff(hash, cfg, key, i);
  }

  // ---- Where the weights go wrong ----

  const WILDCARD := Binding(true, Some("a"), Some("c"), Some("*"), Some("p"), NO_ACP)
  const NAMED := WILDCARD.(accountId := Some("default"))
  const OTHER := WILDCARD.(isAcp := false)

  /** One wildcard for the conversation, 999 bindings of another kind, and one that names the account. */
  function WildcardFirst(): (cfg: Config)
    ensures |cfg.bindings| == 1001
  {
    Config([WILDCARD] + seq(999, _ => OTHER) + [NAMED], [])
  }

  lemma WildcardFirstFacts()
    ensures var cfg := WildcardFirst();
      cfg.bindings[0] == WILDCARD && cfg.bindings[1000] == NAMED && forall i :: 0 < i < 1000 ==> !cfg.bindings[i].isAcp
  {
  }

  lemma ShortText(t: string)
    requires |t| == 1 && !IsSpace(t[0]) && LowerChar(t[0]) == [t[0]]
    ensures Text(Some(t)) == LowerCase(Some(t)) == Some(t)
  {
    hide Strip, LowerText;
    LowerSame(t);
  }

  lemma DefaultAccount()
    ensures AccountId(Some("default")) == "default" && Text(Some("default")) == Some("default")
    ensures !UnsettledTwice(Given(Some("default")))
  {
    hide AccountId, ValidId, Strict, Shaped, Blocked, UnsettledTwice, Given, Text;
    DefaultIsValid();
    AccountIdAgain("default");
    AccountIdTwiceIff(Some("default"));
    ShapedSettled("default");
  }

  lemma Accounts()
    ensures BindingAccount(WILDCARD) == "*" && BindingAccount(NAMED) == "default"
  {
    hide AccountId, Text;
    ShortText("*");
    DefaultAccount();
    assert |"default"| == 7;
  }

  const QUERY := Query("c", "default", "p", None)

  lemma Fields()
    ensures Text(WILDCARD.agentId) == Some("a") && LowerCase(WILDCARD.channel) == Some("c") &&
      Text(WILDCARD.peer) == Some("p")
    ensures LowerCase(Some("c")) == Some("c") && Text(Some("p")) == Some("p") && Text(None) == None
  {
    hide Text, LowerCase;
    ShortText("c");
    ShortText("p");
    ShortText("a");
    NoText();
  }

  lemma NoText()
    ensures Text(None) == None
  {
  }

  lemma SameSpec()
    ensures SpecOf([], WILDCARD, "default", None) == SpecOf([], NAMED, "default", None)
    ensures SpecOf([], WILDCARD, "default", None).Some?
  {
    hide AccountId, Text, LowerCase, AgentConfig, RuntimeConfig, NormalizeMode;
    Fields();
  }

  lemma BothMatch()
    ensures RankOf(WILDCARD, QUERY).Some? && RankOf(NAMED, QUERY).Some?
    ensures NormalizeQuery("c", "default", "p", None) == Some(QUERY)
  {
    hide AccountId, Text, LowerCase, BindingAccount;
    Fields();
    Accounts();
    DefaultAccount();
  }

  lemma BothLead(hash: string -> string) returns (key: string)
    requires HexHash(hash)
    ensures var cfg := WildcardFirst();
      Leads(hash, cfg, key, 0) && Leads(hash, cfg, key, 1000) && ParseKey(key) == Some(Parsed("c", "default"))
  {
    hide AccountId, Text, LowerCase, RankOf, SpecOf, SessionKey, ParseKey, WildcardFirst, HexHash, Leads,
      NormalizeQuery;
    hide Given, UnsettledTwice;
    WildcardFirstFacts();
    SameSpec();
    BothMatch();
    DefaultAccount();
    NoAgents();
    QuerySettled("c", "default", "p", None);
    var cfg := WildcardFirst();
    var spec := SpecOf([], WILDCARD, "default", None).value;
    key := SessionKey(hash, spec);
    assert Candidate(cfg, QUERY, 0) && Candidate(cfg, QUERY, 1000);
    CandidateLeads(hash, cfg, QUERY, "default", 0);
    CandidateLeads(hash, cfg, QUERY, "default", 1000);
    KeyOfCandidate(hash, cfg, QUERY, "default", 0);
    assert ':' !in "c";
  }

  lemma NoAgents()
    ensures WildcardFirst().agents == []
  {
  }

  /** With 1001 bindings it can fail: the wildcard in the first place is chosen before the binding in the last that
      names the account, although both lead to the key. */
  lemma {:induction false} WildcardWins(hash: string -> string) returns (key: string)
    requires HexHash(hash)
    ensures var cfg := WildcardFirst();
      Leads(hash, cfg, key, 1000) && Exact(cfg, key, 1000) && !Exact(cfg, key, 0) &&
      ChosenByKey(hash, cfg, key, 0) && !LexicographicallyFirst(hash, cfg, key, 0)
  {
    hide SpecByKey, ParseKey, BindingAccount, WildcardFirst, HexHash;
    key := BothLead(hash);
    var cfg := WildcardFirst();
    WildcardFirstFacts();
    Accounts();
    forall j | Leads(hash, cfg, key, j) ensures j == 0 || j == 1000 { LeadsIff(hash, cfg, key, j); }
    assert "*" != "default" by { assert |"*"| != |"default"|; }
  }
}
