/** Interleavings of handlers, orderly up to their last step, that leave a prompt waiting for ever. */
module PromptRaces {
  import opened PyText
  import opened PyDict
  import opened Streaming
  import opened S = SessionStore
  import opened L = PromptLifecycle
  import opened PromptEvolution
  import opened PromptOutcome
  import opened PromptViews
  import opened PromptSafety

  /** An orderly run leads from `a` to `n`. */
  ghost predicate Leads(a: Agent, steps: seq<(int, Step)>, n: Agent) {
    OrderlyRun(a, steps) && L.Run(a, steps) == n && Basic(n)
  }

  lemma LeadsNowhere(a: Agent)
    requires Basic(a)
    ensures Leads(a, [], a)
  {
    hide Basic;
  }

  lemma {:induction false} LeadsThen(a: Agent, steps: seq<(int, Step)>, b: Agent, step: Step)
    requires Leads(a, steps, b) && Orderly(b, step)
    ensures Leads(a, steps + [(0, step)], L.Next(b, 0, step))
    decreases |steps|
  {
    hide Basic, L.Next, Orderly;
    if |steps| == 0 {
      assert a == b && steps + [(0, step)] == [(0, step)];
      OneOrderly(b, step);
      OrderlyKeepsBasic(b, step);
    } else {
      var all, second := steps + [(0, step)], L.Next(a, steps[0].0, steps[0].1);
      assert all[0] == steps[0] && all[1..] == steps[1..] + [(0, step)];
      assert L.Run(a, steps) == L.Run(second, steps[1..]) && OrderlyRun(second, steps[1..]);
      LeadsThen(second, steps[1..], b, step);
      assert L.Run(a, all) == L.Run(second, all[1..]);
    }
  }

  lemma OneOrderly(a: Agent, step: Step)
    requires Orderly(a, step)
    ensures OrderlyRun(a, [(0, step)]) && L.Run(a, [(0, step)]) == L.Next(a, 0, step)
  {
    hide Orderly, L.Next;
    assert [(0, step)][1..] == [];
  }

  lemma OrderlyKeepsBasic(a: Agent, step: Step)
    requires Basic(a) && Orderly(a, step)
    ensures Basic(L.Next(a, 0, step))
  {
    hide Basic, L.Next, Sequential, Displacing;
    NextKeeps(a, 0, step);
    KeptBasic(a, L.Next(a, 0, step));
  }

  /** Session `sid` is there, and nothing is pending or unreturned on it. */
  ghost predicate Idle(a: Agent, sid: string) {
    sid in a.store.sessions.vals && sid !in a.pending.vals &&
    forall i :: 0 <= i < |a.prompts| && a.prompts[i].sid == sid ==> Returned(a.prompts[i])
  }

  /** No prompt so far has this run id. */
  predicate Unused(a: Agent, run: string) {
    forall i :: 0 <= i < |a.prompts| ==> a.prompts[i].run != run
  }

  /** The last prompt is that of `sid`, pending and accepted, with nothing sent for it and no handler; every earlier one
      of the session has returned. */
  ghost predicate Running(a: Agent, sid: string, pid: int) {
    pid == |a.prompts| - 1 && pid >= 0 && a.prompts[pid].sid == sid && InTable(a, pid) &&
    a.prompts[pid].send.Accepted? &&
    a.prompts[pid].result.None? && a.prompts[pid].text == "" && a.prompts[pid].thought == "" &&
    sid in a.store.sessions.vals && forall i :: 0 <= i < pid && a.prompts[i].sid == sid ==> Returned(a.prompts[i])
  }

  /** `n` has the same prompts as `a`, but for prompt `pid`, which still has its session and run. */
  predicate Same(a: Agent, n: Agent, pid: int) {
    |n.prompts| == |a.prompts| && IsPrompt(a, pid) &&
    (forall i :: 0 <= i < |a.prompts| && i != pid ==> n.prompts[i] == a.prompts[i]) &&
    n.prompts[pid].sid == a.prompts[pid].sid && n.prompts[pid].run == a.prompts[pid].run
  }

  // ---- A prompt is begun and accepted ----

  lemma BeginIs(a: Agent, sid: string, run: string)
    requires sid in a.store.sessions.vals
    ensures var n := L.Next(a, 0, BeginPrompt(sid, run, true));
      n.prompts == a.prompts + [Prompt(sid, a.store.sessions.vals[sid].key, run, Sending, None, [], [], "", "")] &&
      n.pending.vals == a.pending.vals[sid := |a.prompts|] && n.tasks == a.tasks && sid in n.store.sessions.vals
  {
    var touched := AfterGet(a.store, 0, sid);
    var idle := if Active(touched.sessions.vals[sid]) then AfterCancelRun(touched, 0, sid) else touched;
    assert sid in idle.sessions.vals;
    assert sid in AfterSetRun(idle, 0, sid, run, |a.prompts|).sessions.vals;
  }

  lemma BeginOrderly(a: Agent, sid: string, run: string)
    requires Idle(a, sid) && Unused(a, run)
    ensures Orderly(a, BeginPrompt(sid, run, true))
  {
  }

  lemma HarmlessOrderly(a: Agent, step: Step)
    requires !step.BeginPrompt? && !step.CancelResume? && LateFor(a, step).None?
    ensures Orderly(a, step)
  {
  }

  lemma Begun(a: Agent, steps: seq<(int, Step)>, b: Agent, sid: string, run: string)
    returns (more: seq<(int, Step)>, n: Agent)
    requires Leads(a, steps, b) && Idle(b, sid) && Unused(b, run)
    ensures Leads(a, more, n) && n.tasks == b.tasks && n.pending.vals == b.pending.vals[sid := |b.prompts|]
    ensures sid in b.store.sessions.vals && sid in n.store.sessions.vals
    ensures n.prompts == b.prompts + [Prompt(sid, b.store.sessions.vals[sid].key, run, Sending, None, [], [], "", "")]
  {
    hide Leads, L.Next, Orderly;
    var step := BeginPrompt(sid, run, true);
    BeginOrderly(b, sid, run);
    BeginIs(b, sid, run);
    LeadsThen(a, steps, b, step);
    more, n := steps + [(0, step)], L.Next(b, 0, step);
  }

  /** Begun and accepted. */
  lemma Started(a: Agent, steps: seq<(int, Step)>, b: Agent, sid: string, run: string)
    returns (more: seq<(int, Step)>, n: Agent)
    requires Leads(a, steps, b) && Idle(b, sid) && Unused(b, run)
    ensures Leads(a, more, n) && Running(n, sid, |b.prompts|) && NoHandler(n, |b.prompts|) && n.tasks == b.tasks
    ensures |n.prompts| == |b.prompts| + 1 && n.prompts[..|b.prompts|] == b.prompts && n.prompts[|b.prompts|].run == run
  {
    var pid := |b.prompts|;
    hide Leads, L.Next, Orderly, Basic, OrderlyRun, L.Run;
    LeadsTo(a, steps, b);
    NewHasNoHandler(b);
    var m;
    more, m := Begun(a, steps, b, sid, run);
    var step := SendAccepted(pid);
    HarmlessOrderly(m, step);
    AcceptIs(m, pid);
    LeadsThen(a, more, m, step);
    more, n := more + [(0, step)], L.Next(m, 0, step);
  }

  lemma AcceptIs(a: Agent, pid: int)
    requires IsPrompt(a, pid) && a.prompts[pid].send.Sending?
    ensures L.Next(a, 0, SendAccepted(pid)) == SetPrompt(a, pid, a.prompts[pid].(send := Accepted))
  {
  }

  /** No handler waits for prompt `pid`. */
  ghost predicate NoHandler(a: Agent, pid: int) {
    forall t :: t in a.tasks ==> t.pid != pid
  }

  lemma NewHasNoHandler(a: Agent)
    requires Basic(a)
    ensures NoHandler(a, |a.prompts|)
  {
    hide Valid, TableOk, RunsDistinct, StreamsOk;
  }

  // ---- And left behind ----

  /** Whatever comes after `n`, prompt `q` waits. */
  ghost predicate WaitsForEver(n: Agent, q: int) {
    forall more :: FreshRuns(n, more) ==> Abandoned(L.Run(n, more), q)
  }

  /** Prompt `q` is pending for `sid` and sent, and no handler is at work that could resolve it. */
  ghost predicate AtRisk(a: Agent, sid: string, q: int) {
    IsPrompt(a, q) && a.prompts[q].sid == sid && InTable(a, q) && a.prompts[q].send.Accepted? && !HasResolver(a, q)
  }

  lemma RunningAtRisk(a: Agent, sid: string, q: int)
    requires Running(a, sid, q) && NoHandler(a, q)
    ensures AtRisk(a, sid, q)
  {
  }

  /** The last step of each race: a late handler of the first prompt drops the second, which waits for ever. */
  lemma LeftBehind(a: Agent, steps: seq<(int, Step)>, b: Agent, sid: string, step: Step, pid: int)
    requires Leads(a, steps, b) && LateFor(b, step) == Some(pid) && IsPrompt(b, pid) && b.prompts[pid].sid == sid
    requires AtRisk(b, sid, pid + 1)
    ensures OrderlyRun(a, steps) && WaitsForEver(L.Next(L.Run(a, steps), 0, step), pid + 1)
  {
    LeadsTo(a, steps, b);
    LateIsFresh(b, step);
    hide Leads, OrderlyRun, L.Run, Basic, L.Next, Abandoned, LateFor, HasResolver, FreshRuns, FreshRun, Hopeless;
    hide Resolvable;
    var n := L.Next(b, 0, step);
    NextKeeps(b, 0, step);
    KeptBasic(b, n);
    LateAbandonsIff(b, 0, step, pid, pid + 1);
    AbandonedIsHopeless(n, pid + 1);
    forall more | FreshRuns(n, more) ensures Abandoned(L.Run(n, more), pid + 1) {
      HopelessForGood(n, more, pid + 1);
    }
  }

  lemma AbandonedIsHopeless(a: Agent, q: int)
    requires Abandoned(a, q)
    ensures Hopeless(a, q)
  {
  }

  /** The second prompt is started, and the first one's late handler still waits. */
  lemma SecondStarted(a: Agent, steps: seq<(int, Step)>, b: Agent, sid: string, run: string, pid: int)
    returns (more: seq<(int, Step)>, n: Agent)
    requires Leads(a, steps, b) && Idle(b, sid) && Unused(b, run) && pid == |b.prompts| - 1 && pid >= 0
    requires b.prompts[pid].sid == sid
    ensures Leads(a, more, n) && Running(n, sid, pid + 1) && NoHandler(n, pid + 1) && n.tasks == b.tasks
    ensures IsPrompt(n, pid) && n.prompts[pid] == b.prompts[pid]
  {
    hide Leads, Idle, Running, NoHandler, Unused;
    more, n := Started(a, steps, b, sid, run);
    assert n.prompts[pid] == n.prompts[..pid + 1][pid];
  }

  // ---- A late answer to `agent.wait` ----

  lemma {:induction false} AsksForEach(pids: seq<int>, pid: int)
    requires pid in pids
    ensures Ask(pid) in AsksFor(pids)
  {
    if pids[0] != pid { AsksForEach(pids[1..], pid); }
  }

  lemma {:induction false} InDictOrderHas(pending: Dict<string, int>, sids: seq<string>, sid: string)
    requires sid in sids && sid in pending.vals
    ensures pending.vals[sid] in InDictOrder(pending, sids)
  {
    if sids[0] != sid { InDictOrderHas(pending, sids[1..], sid); }
  }

  lemma ReconnectIs(a: Agent, pid: int)
    requires TableOk(a) && IsPrompt(a, pid) && InTable(a, pid)
    ensures var n := L.Next(a, 0, ReconnectBegin);
      n == a.(tasks := n.tasks) && Ask(pid) in n.tasks
  {
    InDictOrderHas(a.pending, a.pending.keys, a.prompts[pid].sid);
    AsksForEach(InDictOrder(a.pending, a.pending.keys), pid);
    ReconnectFacts(a);
  }

  lemma AskIs(a: Agent, pid: int)
    requires IsPrompt(a, pid) && Ask(pid) in a.tasks && a.prompts[pid].send.Accepted?
    ensures var n := L.Next(a, 0, ReconnectAsk(pid)); n == a.(tasks := n.tasks) && Wait(pid) in n.tasks
  {
    AskFacts(a, pid);
    hide AfterAsk;
  }

  /** A reconnect asks about the running prompt. */
  lemma AskedAbout(a: Agent, steps: seq<(int, Step)>, b: Agent, sid: string, pid: int)
    returns (more: seq<(int, Step)>, n: Agent)
    requires Leads(a, steps, b) && Running(b, sid, pid)
    ensures Leads(a, more, n) && Running(n, sid, pid) && n.prompts == b.prompts && Wait(pid) in n.tasks
  {
    hide Leads, L.Next, Orderly, TableOk, Basic, OrderlyRun, L.Run;
    LeadsTo(a, steps, b);
    TableOf(b);
    ReconnectIs(b, pid);
    HarmlessOrderly(b, ReconnectBegin);
    LeadsThen(a, steps, b, ReconnectBegin);
    var m := L.Next(b, 0, ReconnectBegin);
    AskIs(m, pid);
    HarmlessOrderly(m, ReconnectAsk(pid));
    LeadsThen(a, steps + [(0, ReconnectBegin)], m, ReconnectAsk(pid));
    more, n := steps + [(0, ReconnectBegin)] + [(0, ReconnectAsk(pid))], L.Next(m, 0, ReconnectAsk(pid));
  }

  lemma FinalIs(a: Agent, pid: int)
    requires Basic(a) && IsPrompt(a, pid) && InTable(a, pid) && a.prompts[pid].sid in a.store.sessions.vals
    ensures var p := a.prompts[pid]; var n := L.Next(a, 0, Chat(p.key, Some(p.run), Final(false), None));
      n.prompts == a.prompts && n.pending.vals == a.pending.vals - {p.sid} && p.sid in n.store.sessions.vals &&
      n.tasks == a.tasks + multiset{Finish(pid, EndTurn)}
  {
    hide Basic, FindPending;
    EventFindsItsPrompt(a, pid);
  }

  lemma FinishIs(a: Agent, pid: int)
    requires IsPrompt(a, pid) && Finish(pid, EndTurn) in a.tasks && a.prompts[pid].result.None?
    ensures var n := L.Next(a, 0, FinishResume(pid, EndTurn));
      n.store == a.store && n.pending == a.pending && n.tasks == a.tasks - multiset{Finish(pid, EndTurn)} &&
      n.prompts == a.prompts[pid := a.prompts[pid].(result := Some(EndTurn))]
  {
  }

  /** Its final event arrives, and it returns. */
  lemma Finished(a: Agent, steps: seq<(int, Step)>, b: Agent, sid: string, pid: int)
    returns (more: seq<(int, Step)>, n: Agent)
    requires Leads(a, steps, b) && Running(b, sid, pid) && Wait(pid) in b.tasks
    ensures Leads(a, more, n) && Idle(n, sid) && Wait(pid) in n.tasks && Same(b, n, pid)
  {
    hide Leads, L.Next, Orderly, Basic, InTable, OrderlyRun, L.Run;
    LeadsTo(a, steps, b);
    var p := b.prompts[pid];
    var final := Chat(p.key, Some(p.run), Final(false), None);
    RunningInTable(b, sid, pid);
    FinalIs(b, pid);
    HarmlessOrderly(b, final);
    LeadsThen(a, steps, b, final);
    var m := L.Next(b, 0, final);
    assert Finish(pid, EndTurn) in m.tasks;
    FinishIs(m, pid);
    HarmlessOrderly(m, FinishResume(pid, EndTurn));
    LeadsThen(a, steps + [(0, final)], m, FinishResume(pid, EndTurn));
    more, n := steps + [(0, final)] + [(0, FinishResume(pid, EndTurn))], L.Next(m, 0, FinishResume(pid, EndTurn));
  }

  lemma RunningInTable(a: Agent, sid: string, pid: int)
    requires Running(a, sid, pid)
    ensures IsPrompt(a, pid) && InTable(a, pid)
  {
  }

  lemma StillUnused(b: Agent, n: Agent, pid: int, run: string)
    requires Same(b, n, pid) && Unused(b, run)
    ensures Unused(n, run)
  {
  }

  lemma OneMoreUnused(b: Agent, n: Agent, run: string)
    requires Unused(b, run) && |n.prompts| == |b.prompts| + 1 && n.prompts[..|b.prompts|] == b.prompts
    requires n.prompts[|b.prompts|].run != run
    ensures Unused(n, run)
  {
    forall i | 0 <= i < |n.prompts| ensures n.prompts[i].run != run {
      if i < |b.prompts| { assert n.prompts[..|b.prompts|][i] == b.prompts[i]; }
    }
  }

  /** From any basic state with an idle session: a prompt is accepted, a reconnect asks about it, its final event comes
      first and it returns, the next prompt is accepted, and then the answer to the reconnect drops that next prompt,
      which waits for ever. */
  lemma {:induction false} LateReplyAbandons(a: Agent, sid: string, run0: string, run1: string)
    returns (steps: seq<(int, Step)>)
    requires Basic(a) && Idle(a, sid) && Unused(a, run0) && Unused(a, run1) && run0 != run1
    ensures OrderlyRun(a, steps)
    ensures WaitsForEver(L.Next(L.Run(a, steps), 0, ReconnectReply(|a.prompts|, true)), |a.prompts| + 1)
  {
    hide Basic, L.Next, L.Run, Leads, OrderlyRun, Running, Idle, NoHandler, Unused, WaitsForEver, AtRisk;
    LeadsNowhere(a);
    var pid := |a.prompts|;
    var b, c, d, e;
    steps, b := Started(a, [], a, sid, run0);
    OneMoreUnused(a, b, run1);
    RunningSid(b, sid, pid);
    steps, c := AskedAbout(a, steps, b, sid, pid);
    SameUnused(b, c, run1);
    steps, d := Finished(a, steps, c, sid, pid);
    StillUnused(c, d, pid, run1);
    steps, e := SecondStarted(a, steps, d, sid, run1, pid);
    RunningAtRisk(e, sid, pid + 1);
    LeftBehind(a, steps, e, sid, ReconnectReply(pid, true), pid);
  }

  lemma SameUnused(b: Agent, c: Agent, run: string)
    requires c.prompts == b.prompts && Unused(b, run)
    ensures Unused(c, run)
  {
  }

  lemma RunningSid(a: Agent, sid: string, pid: int)
    requires Running(a, sid, pid)
    ensures IsPrompt(a, pid) && a.prompts[pid].sid == sid
  {
  }

  lemma LeadsTo(a: Agent, steps: seq<(int, Step)>, n: Agent)
    requires Leads(a, steps, n)
    ensures OrderlyRun(a, steps) && L.Run(a, steps) == n && Basic(n)
  {
    hide Basic, OrderlyRun, L.Run;
  }

  // ---- A late answer to `chat.abort` ----

  lemma CancelBeginIs(a: Agent, pid: int)
    requires IsPrompt(a, pid) && InTable(a, pid) && a.prompts[pid].sid in a.store.sessions.vals
    ensures var n := L.Next(a, 0, CancelBegin(a.prompts[pid].sid));
      n.prompts == a.prompts && n.pending == a.pending && a.prompts[pid].sid in n.store.sessions.vals &&
      n.tasks == a.tasks + multiset{CancelPending(pid)}
  {
  }

  lemma SendFailsIs(a: Agent, pid: int)
    requires IsPrompt(a, pid) && a.prompts[pid].send.Sending? && a.prompts[pid].sid in a.store.sessions.vals
    ensures var n := L.Next(a, 0, SendFailed(pid)); var sid := a.prompts[pid].sid;
      n.prompts == a.prompts[pid := a.prompts[pid].(send := Failed)] && n.tasks == a.tasks &&
      sid !in n.pending.vals && sid in n.store.sessions.vals
  {
  }

  /** Cancelled while it is being sent, it then fails to send, and the call raises. */
  lemma CancelledUnsent(a: Agent, steps: seq<(int, Step)>, b: Agent, sid: string, pid: int)
    returns (more: seq<(int, Step)>, n: Agent)
    requires Leads(a, steps, b) && IsPrompt(b, pid) && b.prompts[pid].sid == sid && InTable(b, pid)
    requires b.prompts[pid].send.Sending? && sid in b.store.sessions.vals
    requires forall i :: 0 <= i < |b.prompts| && i != pid && b.prompts[i].sid == sid ==> Returned(b.prompts[i])
    ensures Leads(a, more, n) && Idle(n, sid) && CancelPending(pid) in n.tasks && Same(b, n, pid)
    ensures n.prompts[pid].result == b.prompts[pid].result
  {
    hide Leads, L.Next, Orderly;
    CancelBeginIs(b, pid);
    HarmlessOrderly(b, CancelBegin(sid));
    LeadsThen(a, steps, b, CancelBegin(sid));
    var m := L.Next(b, 0, CancelBegin(sid));
    SendFailsIs(m, pid);
    HarmlessOrderly(m, SendFailed(pid));
    LeadsThen(a, steps + [(0, CancelBegin(sid))], m, SendFailed(pid));
    more, n := steps + [(0, CancelBegin(sid))] + [(0, SendFailed(pid))], L.Next(m, 0, SendFailed(pid));
  }

  lemma BegunStands(a: Agent, b: Agent, sid: string, p: Prompt)
    requires Idle(a, sid) && b.prompts == a.prompts + [p] && p.sid == sid &&
      b.pending.vals == a.pending.vals[sid := |a.prompts|]
    ensures InTable(b, |a.prompts|)
    ensures forall i :: 0 <= i < |b.prompts| && i != |a.prompts| && b.prompts[i].sid == sid ==> Returned(b.prompts[i])
  {
  }

  /** The same with a cancel: it begins while a prompt is being sent, the send fails and the call raises, the next
      prompt is accepted, and then the cancel drops that next prompt, which waits for ever. */
  lemma {:induction false} LateCancelAbandons(a: Agent, sid: string, run0: string, run1: string)
    returns (steps: seq<(int, Step)>)
    requires Basic(a) && Idle(a, sid) && Unused(a, run0) && Unused(a, run1) && run0 != run1
    ensures OrderlyRun(a, steps)
    ensures WaitsForEver(L.Next(L.Run(a, steps), 0, CancelResume(|a.prompts|)), |a.prompts| + 1)
  {
    hide Basic, L.Next, L.Run, Leads, OrderlyRun, Running, Idle, NoHandler, Unused, WaitsForEver, AtRisk;
    LeadsNowhere(a);
    var pid := |a.prompts|;
    var b, c, e;
    steps, b := Begun(a, [], a, sid, run0);
    BegunStands(a, b, sid, b.prompts[pid]);
    assert b.prompts[..pid] == a.prompts;
    OneMoreUnused(a, b, run1);
    steps, c := CancelledUnsent(a, steps, b, sid, pid);
    StillUnused(b, c, pid, run1);
    steps, e := SecondStarted(a, steps, c, sid, run1, pid);
    RunningAtRisk(e, sid, pid + 1);
    LeftBehind(a, steps, e, sid, CancelResume(pid), pid);
  }

  // ---- A late notification ----

  const WORD := [TextBlock("a")]

  lemma WordIsText(p: Prompt)
    requires p.text == "" && p.thought == ""
    ensures ThoughtChunk(p, WORD) == "" && TextChunk(p, WORD) != ""
  {
    assert WORD[..0] == [] && TextParts([]) == [] && ThoughtParts([]) == [];
    assert TextParts(WORD) == ["a"] && ThoughtParts(WORD) == [];
    assert Join(["a"]) == "a" && RStrip("a") == "a";
  }

  lemma WordIs(a: Agent, pid: int, state: ChatState)
    requires Basic(a) && IsPrompt(a, pid) && InTable(a, pid) && (state.Delta? || state.Final?)
    requires a.prompts[pid].text == "" && a.prompts[pid].thought == ""
    ensures var p := a.prompts[pid]; var n := L.Next(a, 0, Chat(p.key, Some(p.run), state, Some(WORD)));
      n.store == a.store && n.pending == a.pending && n.tasks == a.tasks + multiset{Told(pid, state)} &&
      Same(a, n, pid) && n.prompts[pid].send == a.prompts[pid].send && n.prompts[pid].result == a.prompts[pid].result
  {
    hide Basic, InTable, L.Next, AfterThought, WORD;
    ChatIsThought(a, pid, state);
    ThoughtIs(a, pid, state);
  }

  lemma ChatIsThought(a: Agent, pid: int, state: ChatState)
    requires Basic(a) && IsPrompt(a, pid) && InTable(a, pid) && (state.Delta? || state.Final?)
    ensures var p := a.prompts[pid];
      L.Next(a, 0, Chat(p.key, Some(p.run), state, Some(WORD))) == AfterThought(a, 0, pid, WORD, state)
  {
    hide Basic, InTable, FindPending, AfterThought, WORD;
    EventFindsItsPrompt(a, pid);
  }

  lemma ThoughtIs(a: Agent, pid: int, state: ChatState)
    requires IsPrompt(a, pid) && a.prompts[pid].text == "" && a.prompts[pid].thought == ""
    ensures var n := AfterThought(a, 0, pid, WORD, state);
      n.store == a.store && n.pending == a.pending && n.tasks == a.tasks + multiset{Told(pid, state)} &&
      Same(a, n, pid) && n.prompts[pid].send == a.prompts[pid].send && n.prompts[pid].result == a.prompts[pid].result
  {
    hide ThoughtChunk, TextChunk, WORD, AfterRest;
    WordIsText(a.prompts[pid]);
    SameChunk(a.prompts[pid], EmitThought(a.prompts[pid], WORD), WORD);
  }

  lemma CancelResumeIs(a: Agent, pid: int)
    requires IsPrompt(a, pid) && CancelPending(pid) in a.tasks && a.prompts[pid].result.None?
    ensures var n := L.Next(a, 0, CancelResume(pid));
      n.store == a.store && n.pending.vals == a.pending.vals - {a.prompts[pid].sid} &&
      n.tasks == a.tasks - multiset{CancelPending(pid)} &&
      n.prompts == a.prompts[pid := a.prompts[pid].(result := Some(Cancelled))]
  {
  }

  lemma CancelOrderly(a: Agent, pid: int)
    requires IsPrompt(a, pid) && InTable(a, pid)
    ensures Orderly(a, CancelResume(pid))
  {
    hide Settling;
  }

  /** Its final event arrives, and the text of it is on the way to the client. */
  lemma LastWord(a: Agent, steps: seq<(int, Step)>, b: Agent, sid: string, pid: int)
    returns (more: seq<(int, Step)>, n: Agent)
    requires Leads(a, steps, b) && Running(b, sid, pid)
    ensures Leads(a, more, n) && Told(pid, Final(false)) in n.tasks && Same(b, n, pid) && Settled(n, sid, pid)
  {
    LeadsTo(a, steps, b);
    hide Leads, L.Next, Orderly, Basic, WORD, OrderlyRun, L.Run;
    var p := b.prompts[pid];
    var final := Chat(p.key, Some(p.run), Final(false), Some(WORD));
    WordIs(b, pid, Final(false));
    HarmlessOrderly(b, final);
    LeadsThen(a, steps, b, final);
    more, n := steps + [(0, final)], L.Next(b, 0, final);
  }

  /** Prompt `pid` is pending for `sid` and accepted; the others of the session have returned. */
  ghost predicate Settled(a: Agent, sid: string, pid: int) {
    IsPrompt(a, pid) && a.prompts[pid].sid == sid && InTable(a, pid) && a.prompts[pid].send.Accepted? &&
    a.prompts[pid].result.None? && sid in a.store.sessions.vals &&
    forall i :: 0 <= i < |a.prompts| && i != pid && a.prompts[i].sid == sid ==> Returned(a.prompts[i])
  }

  /** Then it is cancelled, and returns. */
  lemma CancelledWhole(a: Agent, steps: seq<(int, Step)>, b: Agent, sid: string, pid: int)
    returns (more: seq<(int, Step)>, n: Agent)
    requires Leads(a, steps, b) && Settled(b, sid, pid)
    ensures Leads(a, more, n) && Idle(n, sid) && Same(b, n, pid)
    ensures forall t :: t in b.tasks && !t.CancelPending? ==> t in n.tasks
  {
    hide Leads, L.Next, Orderly;
    CancelBeginIs(b, pid);
    HarmlessOrderly(b, CancelBegin(sid));
    LeadsThen(a, steps, b, CancelBegin(sid));
    var d := L.Next(b, 0, CancelBegin(sid));
    CancelResumeIs(d, pid);
    CancelOrderly(d, pid);
    LeadsThen(a, steps + [(0, CancelBegin(sid))], d, CancelResume(pid));
    more, n := steps + [(0, CancelBegin(sid))] + [(0, CancelResume(pid))], L.Next(d, 0, CancelResume(pid));
  }

  /** And with a final event: its text is on the way to the client when the prompt is cancelled and returns, the next
      prompt is accepted, and then the rest of the event drops that next prompt, which waits for ever. */
  lemma {:induction false} LateFinalAbandons(a: Agent, sid: string, run0: string, run1: string)
    returns (steps: seq<(int, Step)>)
    requires Basic(a) && Idle(a, sid) && Unused(a, run0) && Unused(a, run1) && run0 != run1
    ensures OrderlyRun(a, steps)
    ensures WaitsForEver(L.Next(L.Run(a, steps), 0, ToldResume(|a.prompts|, Final(false))), |a.prompts| + 1)
  {
    hide Basic, L.Next, L.Run, Leads, OrderlyRun, Running, Idle, NoHandler, Unused, WaitsForEver, Settled, AtRisk;
    LeadsNowhere(a);
    var pid := |a.prompts|;
    var b, c, d, e;
    steps, b := Started(a, [], a, sid, run0);
    OneMoreUnused(a, b, run1);
    RunningSid(b, sid, pid);
    steps, c := LastWord(a, steps, b, sid, pid);
    StillUnused(b, c, pid, run1);
    steps, d := CancelledWhole(a, steps, c, sid, pid);
    StillUnused(c, d, pid, run1);
    steps, e := SecondStarted(a, steps, d, sid, run1, pid);
    RunningAtRisk(e, sid, pid + 1);
    LeftBehind(a, steps, e, sid, ToldResume(pid, Final(false)), pid);
  }

  /** Text of the running prompt is on the way to the client: it is no less at risk. */
  lemma Streams(a: Agent, steps: seq<(int, Step)>, b: Agent, sid: string, pid: int)
    returns (more: seq<(int, Step)>, n: Agent)
    requires Leads(a, steps, b) && Running(b, sid, pid) && NoHandler(b, pid)
    ensures Leads(a, more, n) && AtRisk(n, sid, pid) && Told(pid, Delta) in n.tasks
    ensures (forall t :: t in b.tasks ==> t in n.tasks) && Same(b, n, pid)
  {
    LeadsTo(a, steps, b);
    RunningInTable(b, sid, pid);
    RunningAtRisk(b, sid, pid);
    hide Leads, L.Next, Orderly, Basic, WORD, OrderlyRun, L.Run, AtRisk, NoHandler, InTable;
    var p := b.prompts[pid];
    var delta := Chat(p.key, Some(p.run), Delta, Some(WORD));
    WordIs(b, pid, Delta);
    HarmlessOrderly(b, delta);
    LeadsThen(a, steps, b, delta);
    more, n := steps + [(0, delta)], L.Next(b, 0, delta);
    StillAtRisk(b, n, sid, pid);
  }

  lemma StillAtRisk(b: Agent, n: Agent, sid: string, pid: int)
    requires AtRisk(b, sid, pid) && Same(b, n, pid) && n.prompts[pid].send == b.prompts[pid].send
    requires n.pending == b.pending && n.tasks == b.tasks + multiset{Told(pid, Delta)}
    ensures AtRisk(n, sid, pid)
  {
    forall t | t in n.tasks && t.pid == pid ensures !CanResolve(t, n.prompts[pid]) {
      if t in b.tasks { assert !CanResolve(t, b.prompts[pid]); }
    }
  }

  /** A prompt that is streaming is no safer: the first race, with text of the second prompt on its way to the client
      when the answer to the reconnect arrives. */
  lemma {:induction false} LateReplyAbandonsStreaming(a: Agent, sid: string, run0: string, run1: string)
    returns (steps: seq<(int, Step)>)
    requires Basic(a) && Idle(a, sid) && Unused(a, run0) && Unused(a, run1) && run0 != run1
    ensures OrderlyRun(a, steps) && Told(|a.prompts| + 1, Delta) in L.Run(a, steps).tasks
    ensures WaitsForEver(L.Next(L.Run(a, steps), 0, ReconnectReply(|a.prompts|, true)), |a.prompts| + 1)
  {
    hide Basic, L.Next, L.Run, Leads, OrderlyRun, Running, Idle, NoHandler, Unused, WaitsForEver, AtRisk;
    LeadsNowhere(a);
    var pid := |a.prompts|;
    var b, c, d, e, f;
    steps, b := Started(a, [], a, sid, run0);
    OneMoreUnused(a, b, run1);
    RunningSid(b, sid, pid);
    steps, c := AskedAbout(a, steps, b, sid, pid);
    SameUnused(b, c, run1);
    steps, d := Finished(a, steps, c, sid, pid);
    StillUnused(c, d, pid, run1);
    steps, e := SecondStarted(a, steps, d, sid, run1, pid);
    steps, f := Streams(a, steps, e, sid, pid + 1);
    LeadsTo(a, steps, f);
    LeftBehind(a, steps, f, sid, ReconnectReply(pid, true), pid);
  }
}
