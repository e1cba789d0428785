/** Configured bindings: specs, records and session keys: `src/openzues/services/acp_persistent_bindings.py`. */
module Bindings {
  import opened PyText
  import opened SessionKeys

  // ---- Text ----

  /** `_normalize_text`; a value that is not a string is `None`. */
  function Text(value: Option<string>): Option<string> {
    if value.Some? && Strip(value.value) != "" then Some(Strip(value.value)) else None
  }

  function OrElse(a: Option<string>, b: Option<string>): Option<string> {
    if a.Some? then a else b
  }

  /** `_normalize_optional_lowercase_string` */
  function LowerCase(value: Option<string>): Option<string> {
    var t := Text(value);
    if t.Some? then Some(LowerText(t.value)) else None
  }

  datatype Mode = Persistent | Oneshot

  function ModeText(m: Mode): string {
    if m.Oneshot? then "oneshot" else "persistent"
  }

  function NormalizeMode(value: Option<string>): Mode {
    if LowerCase(value) == Some("oneshot") then Oneshot else Persistent
  }

  // ---- Configuration ----

  /** The fields the resolvers read; one of the wrong type reads as missing. */
  datatype Acp = Acp(mode: Option<string>, cwd: Option<string>, backend: Option<string>, labelText: Option<string>,
    agent: Option<string>)

  datatype Agent = Agent(id: Option<string>, workspace: Option<string>, runtimeType: Option<string>, acp: Acp)

  datatype Binding = Binding(isAcp: bool, agentId: Option<string>, channel: Option<string>, accountId: Option<string>,
                             peer: Option<string>, acp: Acp)

  datatype Config = Config(bindings: seq<Binding>, agents: seq<Agent>)

  const NO_ACP := Acp(None, None, None, None, None)

  /** `_agent_config`: the first agent with that normalised id, or an empty one. */
  function AgentConfig(agents: seq<Agent>, agentId: string): Agent {
    if |agents| == 0 then Agent(None, None, None, NO_ACP)
    else if AgentId(Text(agents[0].id)) == AgentId(Some(agentId)) then agents[0]
    else AgentConfig(agents[1..], agentId)
  }

  function RuntimeConfig(agent: Agent): Acp {
    if LowerCase(agent.runtimeType) == Some("acp") then agent.acp else NO_ACP
  }

  function BindingAccount(b: Binding): string {
    if Text(b.accountId) == Some("*") then "*" else AccountId(Text(b.accountId))
  }

  datatype Spec = Spec(
    channel: string, accountId: string, conversationId: string, agentId: string, mode: Mode,
    parent: Option<string>, acpAgentId: Option<string>, cwd: Option<string>, backend: Option<string>,
    labelText: Option<string>)

  /** `_configured_acp_spec_from_binding` */
  function SpecOf(agents: seq<Agent>, b: Binding, account: string, parent: Option<string>): Option<Spec> {
    var agentId, channel, peer := Text(b.agentId), LowerCase(b.channel), Text(b.peer);
    if agentId.None? || channel.None? || peer.None? then None
    else
      var agent := AgentConfig(agents, agentId.value);
      var defaults := RuntimeConfig(agent);
      Some(Spec(
        channel.value, AccountId(Some(account)), peer.value, agentId.value,
        NormalizeMode(OrElse(Text(b.acp.mode), Text(defaults.mode))), parent, Text(defaults.agent),
        OrElse(OrElse(Text(b.acp.cwd), Text(defaults.cwd)), Text(agent.workspace)),
        OrElse(Text(b.acp.backend), Text(defaults.backend)), Text(b.acp.labelText)))
  }

  // ---- Where the fields of a spec come from ----

  /** The first of the texts that is there and not blank, without its outer white space. */
  ghost predicate FirstText(texts: seq<Option<string>>, t: Option<string>) {
    if t.None? then forall i :: 0 <= i < |texts| ==> IsBlank(texts[i])
    else exists i :: 0 <= i < |texts| && FirstTextAt(texts, t.value, i)
  }

  ghost predicate FirstTextAt(texts: seq<Option<string>>, t: string, i: int)
    requires 0 <= i < |texts|
  {
    texts[i].Some? && t != "" && IsStripped(texts[i].value, t) && forall j :: 0 <= j < i ==> IsBlank(texts[j])
  }

  predicate IsBlank(t: Option<string>) {
    t.None? || Blank(t.value)
  }

  lemma FirstTextIs(a: Option<string>, b: Option<string>, c: Option<string>)
    ensures FirstText([a, b, c], OrElse(OrElse(Text(a), Text(b)), Text(c)))
    ensures FirstText([a, b], OrElse(Text(a), Text(b)))
    ensures FirstText([a], Text(a))
  {
    hide Strip, IsStripped, Blank;
    TextOr(a);
    TextOr(b);
    TextOr(c);
    var r := OrElse(OrElse(Text(a), Text(b)), Text(c));
    if r.Some? { assert FirstTextAt([a, b, c], r.value, if Text(a).Some? then 0 else if Text(b).Some? then 1 else 2); }
    var q := OrElse(Text(a), Text(b));
    if q.Some? { assert FirstTextAt([a, b], q.value, if Text(a).Some? then 0 else 1); }
    if Text(a).Some? { assert FirstTextAt([a], Text(a).value, 0); }
  }

  lemma TextOr(a: Option<string>)
    ensures Text(a).None? <==> IsBlank(a)
    ensures Text(a).Some? ==> a.Some? && Text(a).value != "" && IsStripped(a.value, Text(a).value)
  {
    hide Strip, IsStripped, Blank;
    if a.Some? {
      BlankIff(a.value);
      StripIff(a.value, Strip(a.value));
    }
  }

  /** The configuration of an agent is that of the first agent with the same normalised id. */
  lemma {:induction false} AgentConfigIs(agents: seq<Agent>, agentId: string) returns (i: int)
    ensures 0 <= i <= |agents| && forall j :: 0 <= j < i ==> AgentId(Text(agents[j].id)) != AgentId(Some(agentId))
    ensures i < |agents| ==>
      AgentId(Text(agents[i].id)) == AgentId(Some(agentId)) && AgentConfig(agents, agentId) == agents[i]
    ensures i == |agents| ==> AgentConfig(agents, agentId) == Agent(None, None, None, NO_ACP)
  {
    hide AgentId, Text;
    i := 0;
    if |agents| != 0 && AgentId(Text(agents[0].id)) != AgentId(Some(agentId)) {
      var k := AgentConfigIs(agents[1..], agentId);
      assert forall j :: 0 < j < |agents| ==> agents[1..][j - 1] == agents[j];
      i := k + 1;
    }
  }

  /** What the runtime of an agent configures, which counts only if it is of type acp. */
  ghost predicate RuntimeIs(agent: Agent, acp: Acp) {
    if LowerCase(agent.runtimeType) == Some("acp") then acp == agent.acp
    else acp.mode.None? && acp.cwd.None? && acp.backend.None? && acp.labelText.None? && acp.agent.None?
  }

  /** Every field of a spec: the binding decides, then the runtime of its agent, and for the directory then the agent's
      workspace. */
  lemma {:induction false} SpecFields(agents: seq<Agent>, b: Binding, account: string, parent: Option<string>)
    requires SpecOf(agents, b, account, parent).Some?
    ensures var s, agent := SpecOf(agents, b, account, parent).value, AgentConfig(agents, Text(b.agentId).value);
      b.agentId.Some? && s.agentId != "" && IsStripped(b.agentId.value, s.agentId) &&
      Some(s.channel) == LowerCase(b.channel) && FirstText([b.peer], Some(s.conversationId)) &&
      s.accountId == AccountId(Some(account)) && s.parent == parent && FirstText([b.acp.labelText], s.labelText) &&
      exists run :: RuntimeIs(agent, run) &&
        FirstText([run.agent], s.acpAgentId) && FirstText([b.acp.cwd, run.cwd, agent.workspace], s.cwd) &&
        FirstText([b.acp.backend, run.backend], s.backend) &&
        exists mode :: FirstText([b.acp.mode, run.mode], mode) &&
          (s.mode.Oneshot? <==> LowerCase(mode) == Some("oneshot"))
  {
    hide Text, LowerCase, AccountId, FirstText, IsStripped, AgentConfig;
    var agent := AgentConfig(agents, Text(b.agentId).value);
    var run := RuntimeConfig(agent);
    assert RuntimeIs(agent, run);
    TextOr(b.agentId);
    FirstTextIs(b.peer, None, None);
    FirstTextIs(b.acp.labelText, None, None);
    FirstTextIs(run.agent, None, None);
    FirstTextIs(b.acp.cwd, run.cwd, agent.workspace);
    FirstTextIs(b.acp.backend, run.backend, None);
    FirstTextIs(b.acp.mode, run.mode, None);
  }

  // ---- Records ----

  datatype Record = Record(
    isSession: bool, targetSessionKey: Option<string>,
    channel: Option<string>, accountId: Option<string>, conversationId: Option<string>,
    parentConversationId: Option<string>,
    agentId: Option<string>, mode: Option<string>, acpAgentId: Option<string>, labelText: Option<string>,
    backend: Option<string>, cwd: Option<string>)

  /** `to_configured_acp_binding_record` */
  function ToRecord(hash: string -> string, s: Spec): Record {
    Record(true, Some(SessionKey(hash, s)), Some(s.channel), Some(s.accountId), Some(s.conversationId), s.parent,
           Some(s.agentId), Some(ModeText(s.mode)), s.acpAgentId, s.labelText, s.backend, s.cwd)
  }

  /** `resolve_configured_acp_binding_spec_from_record`; `agentOf` reads the agent id from a session key. */
  function FromRecord(agentOf: Option<string> -> Option<string>, r: Record): Option<Spec> {
    var conversationId := Text(r.conversationId);
    var agentId := OrElse(Text(r.agentId), agentOf(Text(r.targetSessionKey)));
    if !r.isSession || conversationId.None? || agentId.None? || agentId.value == "" then None
    else
      Some(Spec(
        var channel := Text(r.channel); if channel.Some? then channel.value else "",
        AccountId(Text(r.accountId)), conversationId.value, agentId.value, NormalizeMode(r.mode),
        Text(r.parentConversationId), Text(r.acpAgentId), Text(r.cwd), Text(r.backend), Text(r.labelText)))
  }

  /** A record gives a spec if and only if it is of a session, names a conversation, and names an agent, or else its key
      does; and that is the agent. */
  lemma {:induction false} FromRecordIff(agentOf: Option<string> -> Option<string>, r: Record)
    requires forall key :: agentOf(key) != Some("")
    ensures FromRecord(agentOf, r).Some? <==>
      r.isSession && !IsBlank(r.conversationId) && (!IsBlank(r.agentId) || agentOf(Text(r.targetSessionKey)).Some?)
    ensures FromRecord(agentOf, r).Some? ==>
      var id := FromRecord(agentOf, r).value.agentId;
      if IsBlank(r.agentId) then agentOf(Text(r.targetSessionKey)) == Some(id) else FirstText([r.agentId], Some(id))
  {
    hide Text, IsBlank, FirstText, AccountId, NormalizeMode;
    TextOr(r.conversationId);
    TextOr(r.agentId);
    FirstTextIs(r.agentId, None, None);
  }

  /** Text that is already normalised. */
  predicate Settled(value: Option<string>) {
    Text(value) == value
  }

  lemma TextSettles(value: Option<string>)
    ensures Settled(Text(value))
  {
    hide LStrip, RStrip;
    if value.Some? { assert Trimmed(Strip(value.value)); }
  }

  lemma ModeRoundTrips(m: Mode)
    ensures NormalizeMode(Some(ModeText(m))) == m
  {
    hide Strip, LowerText;
    var t := ModeText(m);
    assert |"oneshot"| == 7 && |"persistent"| == 10;
    assert Trimmed(t) && t != "";
    assert Text(Some(t)) == Some(t);
    if m.Oneshot? {
      LowerSame(t);
    }
  }

  /** A spec survives the trip through its record if and only if its texts are already normalised. */
  lemma {:induction false} RecordRoundTripsIff(hash: string -> string, agentOf: Option<string> -> Option<string>,
    s: Spec)
    requires forall key :: Settled(agentOf(key))
    ensures FromRecord(agentOf, ToRecord(hash, s)) == Some(s) <==>
      (s.channel == "" || Settled(Some(s.channel))) && AccountId(Text(Some(s.accountId))) == s.accountId &&
      Settled(Some(s.conversationId)) && Settled(Some(s.agentId)) && Settled(s.parent) && Settled(s.acpAgentId) &&
      Settled(s.cwd) && Settled(s.backend) && Settled(s.labelText)
  {
    hide Text, AccountId, SessionKey, NormalizeMode, ModeText, Settled;
    ModeRoundTrips(s.mode);
    SettledIff(s.channel);
    SettledIff(s.conversationId);
    SettledIff(s.agentId);
    SettledSame(s.parent);
    SettledSame(s.acpAgentId);
    SettledSame(s.cwd);
    SettledSame(s.backend);
    SettledSame(s.labelText);
    var fallback := agentOf(Text(Some(SessionKey(hash, s))));
    assert Settled(fallback);
    if fallback.Some? { SettledIff(fallback.value); }
  }

  lemma SettledIff(t: string)
    ensures Settled(Some(t)) <==> Text(Some(t)) == Some(t)
    ensures Text(Some(t)).Some? ==> Text(Some(t)).value != ""
    ensures t == "" ==> Text(Some(t)) == None
  {
    hide LStrip, RStrip;
    assert Trimmed("");
  }

  lemma SettledSame(value: Option<string>)
    ensures Settled(value) <==> Text(value) == value
  {
  }

  // ---- Session keys ----

  /** `build_configured_acp_session_key`; `hash` is the first 16 hexadecimal digits of a digest. */
  function SessionKey(hash: string -> string, s: Spec): string {
    "agent:" + AgentId(Some(s.agentId)) + ":acp:binding:" + s.channel + ":" + s.accountId + ":" +
    hash(s.channel + ":" + s.accountId + ":" + s.conversationId)
  }

  predicate IsHex(c: char) {
    '0' <= c <= '9' || 'a' <= c <= 'f'
  }

  ghost predicate HexHash(hash: string -> string) {
    forall s :: |hash(s)| == 16 && forall i :: 0 <= i < 16 ==> IsHex(hash(s)[i])
  }

  /** `s.split(":")` */
  function Split(s: string): (parts: seq<string>)
    ensures |parts| > 0
  {
    if |s| == 0 then [""]
    else
      var rest := Split(s[1..]);
      if s[0] == ':' then [""] + rest else [[s[0]] + rest[0]] + rest[1..]
  }

  lemma {:induction false} SplitConcat(a: string, b: string)
    ensures Split(a + ":" + b) == Split(a) + Split(b)
  {
    var whole := a + ":" + b;
    if |a| == 0 {
      assert whole[0] == ':' && whole[1..] == b;
    } else {
      assert whole[0] == a[0] && whole[1..] == a[1..] + ":" + b;
      SplitConcat(a[1..], b);
    }
  }

  lemma {:induction false} SplitOne(a: string)
    ensures ':' !in a <==> |Split(a)| == 1
    ensures ':' !in a ==> Split(a) == [a]
  {
    if |a| != 0 {
      SplitOne(a[1..]);
      assert a == [a[0]] + a[1..];
    }
  }

  datatype Parsed = Parsed(channel: string, accountId: string)

  /** `parse_configured_acp_session_key`: the parts after `agent:` and the agent id. */
  function ParseKey(key: string): Option<Parsed> {
    var trimmed := Strip(key);
    if !("agent:" <= trimmed) then None
    else
      var parts := Split(trimmed[6..]);
      if |parts| != 6 || parts[1] != "acp" || parts[2] != "binding" then None
      else
        var channel := LowerCase(Some(parts[3]));
        if channel.None? then None else Some(Parsed(channel.value, AccountId(Some(parts[4]))))
  }

  lemma KeyTrimmed(hash: string -> string, s: Spec)
    requires HexHash(hash)
    ensures Strip(SessionKey(hash, s)) == SessionKey(hash, s) && "agent:" <= SessionKey(hash, s)
  {
    hide Strip, AgentId;
    var key, digest := SessionKey(hash, s), hash(s.channel + ":" + s.accountId + ":" + s.conversationId);
    assert key[|key| - 1] == digest[15] && IsHex(digest[15]);
    assert key[0] == "agent:"[0] == 'a';
    assert key[..6] == "agent:";
    assert Trimmed(key);
  }

  lemma {:induction false} KeyParts(hash: string -> string, s: Spec)
    requires HexHash(hash) && ':' !in s.accountId
    ensures var parts := Split(SessionKey(hash, s)[6..]);
      |parts| == 5 + |Split(s.channel)| && parts[1] == "acp" && parts[2] == "binding" &&
      parts[|parts| - 2] == s.accountId &&
      (|Split(s.channel)| == 1 ==> parts[3] == Split(s.channel)[0])
  {
    hide Strip, AgentId, Split, Shaped;
    var agent, digest := AgentId(Some(s.agentId)), hash(s.channel + ":" + s.accountId + ":" + s.conversationId);
    AgentIdShape(Some(s.agentId));
    ShapedFacts(agent);
    assert forall i :: 0 <= i < 16 ==> IsHex(digest[i]);
    SplitOne(digest);
    SplitOne(agent);
    SplitOne(s.accountId);
    SplitOne("acp");
    SplitOne("binding");
    var end := s.accountId + ":" + digest;
    SplitConcat(s.accountId, digest);
    SplitConcat(s.channel, end);
    SplitConcat("binding", s.channel + ":" + end);
    SplitConcat("acp", "binding" + ":" + (s.channel + ":" + end));
    SplitConcat(agent, "acp" + ":" + ("binding" + ":" + (s.channel + ":" + end)));
    KeySpelled(hash, s);
  }

  lemma KeySpelled(hash: string -> string, s: Spec)
    ensures var end := s.accountId + ":" + hash(s.channel + ":" + s.accountId + ":" + s.conversationId);
      SessionKey(hash, s)[6..] == AgentId(Some(s.agentId)) + ":" +
        ("acp" + ":" + ("binding" + ":" + (s.channel + ":" + end)))
  {
    hide AgentId;
    assert ":acp:binding:" == ":" + "acp" + ":" + "binding" + ":";
  }

  /** Parsing a built key gives back its channel and its account, normalised again, if the channel has no colon, and
      fails if it has. */
  lemma {:induction false} ParseBuiltKey(hash: string -> string, s: Spec)
    requires HexHash(hash) && LowerCase(Some(s.channel)) == Some(s.channel) && ':' !in s.accountId
    ensures ParseKey(SessionKey(hash, s)) ==
      if ':' in s.channel then None else Some(Parsed(s.channel, AccountId(Some(s.accountId))))
  {
    hide Strip, AgentId, Split, SessionKey, LowerCase, AccountId, HexHash;
    KeyTrimmed(hash, s);
    KeyParts(hash, s);
    SplitOne(s.channel);
    var parts := Split(SessionKey(hash, s)[6..]);
    assert Split(s.channel) == [s.channel] ==> parts[3] == s.channel && parts[4] == s.accountId;
  }

  /** One key is never built for two accounts. */
  lemma SameKeySameAccount(hash: string -> string, s: Spec, t: Spec)
    requires HexHash(hash) && ':' !in s.accountId && ':' !in t.accountId && SessionKey(hash, s) == SessionKey(hash, t)
    ensures s.accountId == t.accountId
  {
    hide Split, SessionKey, HexHash;
    KeyParts(hash, s);
    KeyParts(hash, t);
  }
}
