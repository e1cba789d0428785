/** Which prompts can still be resolved, on some run with fresh run ids, and which never will be. */
module PromptOutcome {
  import opened PyText
  import opened PyDict
  import opened Streaming
  import opened S = SessionStore
  import opened L = PromptLifecycle
  import opened PromptEvolution

  /** A waiting handler that can resolve its prompt `p`: not an event that only streams, and not a reconnect that will
      find that the send has failed. */
  predicate CanResolve(t: Task, p: Prompt) {
    match t
    case Text(_, _, state) => Ends(state)
    case Told(_, state) => Ends(state)
    case Ask(_) => !p.send.Failed?
    case _ => true
  }

  ghost predicate HasResolver(a: Agent, pid: int)
    requires IsPrompt(a, pid)
  {
    exists t :: t in a.tasks && t.pid == pid && CanResolve(t, a.prompts[pid])
  }

  /** Unresolved, out of the table, and no handler that could resolve it. */
  ghost predicate Hopeless(a: Agent, pid: int) {
    IsPrompt(a, pid) && a.prompts[pid].result.None? && !InTable(a, pid) && !HasResolver(a, pid)
  }

  /** And sent, so that its call waits. */
  ghost predicate Abandoned(a: Agent, pid: int) {
    Hopeless(a, pid) && a.prompts[pid].send.Accepted?
  }

  // ---- Hopeless for good ----

  /** Unresolved and without such a handler. */
  ghost predicate Stuck(a: Agent, i: int) {
    IsPrompt(a, i) && a.prompts[i].result.None? && !HasResolver(a, i)
  }

  lemma StaysStuck(a: Agent, n: Agent, i: int)
    requires Stuck(a, i) && IsPrompt(n, i) && n.prompts[i].result.None?
    requires a.prompts[i].send.Failed? ==> n.prompts[i].send.Failed?
    requires forall t :: t in n.tasks && t.pid == i ==> t in a.tasks || !CanResolve(t, n.prompts[i])
    ensures Stuck(n, i)
  {
    forall t | t in n.tasks && t.pid == i ensures !CanResolve(t, n.prompts[i]) {
      if t in a.tasks { assert !CanResolve(t, a.prompts[i]); }
    }
  }

  lemma RestLeavesStuck(a: Agent, now: int, pid: int, state: ChatState, i: int)
    requires IsPrompt(a, pid) && (i != pid || !Ends(state)) && Stuck(a, i)
    ensures Stuck(AfterRest(a, now, pid, state), i)
  {
    hide AfterClearRun, HasResolver;
    StaysStuck(a, AfterRest(a, now, pid, state), i);
  }

  lemma TextLeavesStuck(a: Agent, now: int, pid: int, content: seq<Block>, state: ChatState, i: int)
    requires IsPrompt(a, pid) && (i != pid || !Ends(state)) && Stuck(a, i)
    ensures Stuck(AfterText(a, now, pid, content, state), i)
  {
    hide AfterRest, TextChunk, HasResolver;
    var b := SetPrompt(a, pid, EmitText(a.prompts[pid], content));
    StaysStuck(a, b, i);
    StaysStuck(b, b.(tasks := b.tasks + multiset{Told(pid, state)}), i);
    RestLeavesStuck(b, now, pid, state, i);
  }

  lemma ThoughtLeavesStuck(a: Agent, now: int, pid: int, content: seq<Block>, state: ChatState, i: int)
    requires IsPrompt(a, pid) && (i != pid || !Ends(state)) && Stuck(a, i)
    ensures Stuck(AfterThought(a, now, pid, content, state), i)
  {
    hide AfterText, ThoughtChunk, HasResolver;
    var b := SetPrompt(a, pid, EmitThought(a.prompts[pid], content));
    StaysStuck(a, b, i);
    StaysStuck(b, b.(tasks := b.tasks + multiset{Text(pid, content, state)}), i);
    TextLeavesStuck(b, now, pid, content, state, i);
  }

  lemma ChatLeavesStuck(a: Agent, now: int, key: string, run: Option<string>, state: ChatState,
                        message: Option<seq<Block>>, i: int)
    requires TableOk(a) && Stuck(a, i) && !InTable(a, i)
    ensures Stuck(AfterChat(a, now, key, run, state, message), i)
  {
    hide TableOk, FindPending, AfterRest, AfterThought, Stuck;
    FoundIsInTable(a, key, run);
    var found := FindPending(a, key, run);
    if found.Some? {
      RestLeavesStuck(a, now, found.value, state, i);
      if message.Some? { ThoughtLeavesStuck(a, now, found.value, message.value, state, i); }
    }
  }

  lemma TextResumeLeavesStuck(a: Agent, now: int, pid: int, content: seq<Block>, state: ChatState, i: int)
    requires Stuck(a, i)
    ensures Stuck(AfterTextResume(a, now, pid, content, state), i)
  {
    hide AfterText;
    var t := Text(pid, content, state);
    if t in a.tasks && IsPrompt(a, pid) {
      assert i == pid ==> !CanResolve(t, a.prompts[i]);
      StaysStuck(a, a.(tasks := a.tasks - multiset{t}), i);
      TextLeavesStuck(a.(tasks := a.tasks - multiset{t}), now, pid, content, state, i);
    }
  }

  lemma ToldResumeLeavesStuck(a: Agent, now: int, pid: int, state: ChatState, i: int)
    requires Stuck(a, i)
    ensures Stuck(AfterToldResume(a, now, pid, state), i)
  {
    hide AfterRest;
    var t := Told(pid, state);
    if t in a.tasks && IsPrompt(a, pid) {
      assert i == pid ==> !CanResolve(t, a.prompts[i]);
      StaysStuck(a, a.(tasks := a.tasks - multiset{t}), i);
      RestLeavesStuck(a.(tasks := a.tasks - multiset{t}), now, pid, state, i);
    }
  }

  lemma BeginLeavesStuck(a: Agent, now: int, sid: string, run: string, buildOk: bool, i: int)
    requires Stuck(a, i)
    ensures Stuck(AfterBegin(a, now, sid, run, buildOk), i)
  {
    hide AfterGet, AfterCancelRun, AfterSetRun, HasResolver;
    StaysStuck(a, AfterBegin(a, now, sid, run, buildOk), i);
  }

  lemma SendLeavesStuck(a: Agent, now: int, pid: int, ok: bool, i: int)
    requires Stuck(a, i)
    ensures Stuck(AfterSend(a, now, pid, ok), i)
  {
    hide AfterClearRun, HasResolver;
    StaysStuck(a, AfterSend(a, now, pid, ok), i);
  }

  lemma FinishLeavesStuck(a: Agent, pid: int, reason: StopReason, i: int)
    requires Stuck(a, i)
    ensures Stuck(AfterFinishResume(a, pid, reason), i)
  {
    assert Finish(pid, reason) in a.tasks && i == pid ==> !CanResolve(Finish(pid, reason), a.prompts[i]);
    hide HasResolver;
    StaysStuck(a, AfterFinishResume(a, pid, reason), i);
  }

  lemma CancelResumeLeavesStuck(a: Agent, pid: int, i: int)
    requires Stuck(a, i)
    ensures Stuck(AfterCancelResume(a, pid), i)
  {
    assert CancelPending(pid) in a.tasks && i == pid ==> !CanResolve(CancelPending(pid), a.prompts[i]);
    hide HasResolver;
    StaysStuck(a, AfterCancelResume(a, pid), i);
  }

  lemma ReplyLeavesStuck(a: Agent, now: int, pid: int, ok: bool, i: int)
    requires Stuck(a, i)
    ensures Stuck(AfterReply(a, now, pid, ok), i)
  {
    assert Wait(pid) in a.tasks && i == pid ==> !CanResolve(Wait(pid), a.prompts[i]);
    hide AfterClearRun, HasResolver;
    StaysStuck(a, AfterReply(a, now, pid, ok), i);
  }

  lemma CancelLeavesStuck(a: Agent, now: int, sid: string, i: int)
    requires TableOk(a) && Stuck(a, i) && !InTable(a, i)
    ensures Stuck(AfterCancelBegin(a, now, sid), i)
  {
    assert sid in a.pending.vals ==> a.pending.vals[sid] != i;
    hide TableOk, AfterGet, AfterCancelRun, HasResolver;
    StaysStuck(a, AfterCancelBegin(a, now, sid), i);
  }

  lemma {:induction false} ReconnectAsksTable(a: Agent)
    requires TableOk(a)
    ensures forall t :: t in AfterReconnectBegin(a).tasks ==> t in a.tasks || (IsPrompt(a, t.pid) && InTable(a, t.pid))
  {
    AsksOnly(InDictOrder(a.pending, a.pending.keys));
    InDictOrderAreValues(a.pending, a.pending.keys);
  }

  lemma ReconnectLeavesStuck(a: Agent, i: int)
    requires TableOk(a) && Stuck(a, i) && !InTable(a, i)
    ensures Stuck(AfterReconnectBegin(a), i)
  {
    hide TableOk, AfterReconnectBegin, HasResolver;
    ReconnectFacts(a);
    ReconnectAsksTable(a);
    StaysStuck(a, AfterReconnectBegin(a), i);
  }

  lemma AskLeavesStuck(a: Agent, pid: int, i: int)
    requires Stuck(a, i)
    ensures Stuck(AfterAsk(a, pid), i)
  {
    assert Ask(pid) in a.tasks && i == pid ==> !CanResolve(Ask(pid), a.prompts[i]);
    hide HasResolver;
    StaysStuck(a, AfterAsk(a, pid), i);
  }

  lemma CreateLeavesStuck(a: Agent, now: int, sid: string, key: string, cwd: string, i: int)
    requires Stuck(a, i)
    ensures Stuck(L.Next(a, now, CreateSession(sid, key, cwd)), i)
  {
    hide Valid, AfterCreate, HasResolver;
    StaysStuck(a, L.Next(a, now, CreateSession(sid, key, cwd)), i);
  }

  /** No step resolves a prompt that is stuck and out of the table, or gives it a handler that could. */
  lemma NextLeavesStuck(a: Agent, now: int, step: Step, i: int)
    requires TableOk(a) && Stuck(a, i) && !InTable(a, i)
    ensures Stuck(L.Next(a, now, step), i)
  {
    hide TableOk, Stuck, Valid, InTable, AfterCreate, AfterReconnectBegin, AfterAsk, AfterChat, AfterBegin, AfterSend;
    hide AfterCancelBegin, AfterCancelResume, AfterReply, AfterTextResume, AfterToldResume, AfterFinishResume;
    match step
    case CreateSession(sid, key, cwd) => CreateLeavesStuck(a, now, sid, key, cwd, i);
    case BeginPrompt(sid, run, buildOk) => BeginLeavesStuck(a, now, sid, run, buildOk, i);
    case SendAccepted(pid) => SendLeavesStuck(a, now, pid, true, i);
    case SendFailed(pid) => SendLeavesStuck(a, now, pid, false, i);
    case Chat(key, runId, state, message) => ChatLeavesStuck(a, now, key, runId, state, message, i);
    case TextResume(pid, content, state) => TextResumeLeavesStuck(a, now, pid, content, state, i);
    case ToldResume(pid, state) => ToldResumeLeavesStuck(a, now, pid, state, i);
    case FinishResume(pid, reason) => FinishLeavesStuck(a, pid, reason, i);
    case CancelBegin(sid) => CancelLeavesStuck(a, now, sid, i);
    case CancelResume(pid) => CancelResumeLeavesStuck(a, pid, i);
    case ReconnectBegin => ReconnectLeavesStuck(a, i);
    case ReconnectAsk(pid) => AskLeavesStuck(a, pid, i);
    case ReconnectReply(pid, ok) => ReplyLeavesStuck(a, now, pid, ok, i);
  }

  lemma {:induction false} NextHopeless(a: Agent, now: int, step: Step, pid: int)
    requires Basic(a) && FreshRun(a, step) && Hopeless(a, pid)
    ensures Basic(L.Next(a, now, step)) && Hopeless(L.Next(a, now, step), pid)
    ensures Abandoned(a, pid) ==> Abandoned(L.Next(a, now, step), pid)
  {
    assert TableOk(a);
    hide Basic, TableOk, L.Next, HasResolver, FreshRun, MaySpeak;
    NextLeavesStuck(a, now, step, pid);
    NextKeeps(a, now, step);
    KeptBasic(a, L.Next(a, now, step));
    assert PromptEvolves(a, L.Next(a, now, step), pid);
  }

  /** A hopeless prompt stays hopeless on every run with fresh run ids; and the call of one that was sent waits. */
  lemma {:induction false} HopelessForGood(a: Agent, steps: seq<(int, Step)>, pid: int)
    requires Basic(a) && FreshRuns(a, steps) && Hopeless(a, pid)
    ensures Hopeless(L.Run(a, steps), pid)
    ensures Abandoned(a, pid) ==> Abandoned(L.Run(a, steps), pid)
    decreases |steps|
  {
    hide Basic, L.Next, Hopeless, Abandoned, FreshRun;
    if |steps| != 0 {
      NextHopeless(a, steps[0].0, steps[0].1, pid);
      HopelessForGood(L.Next(a, steps[0].0, steps[0].1), steps[1..], pid);
    }
  }

  // ---- All others can still be resolved ----

  /** Some run resolves the prompt. */
  ghost predicate Resolvable(a: Agent, pid: int) {
    exists steps :: FreshRuns(a, steps) && ResolvedBy(a, steps, pid)
  }

  ghost predicate ResolvedBy(a: Agent, steps: seq<(int, Step)>, pid: int) {
    IsPrompt(L.Run(a, steps), pid) && L.Run(a, steps).prompts[pid].result.Some?
  }

  lemma ResolvableNow(a: Agent, pid: int)
    requires IsPrompt(a, pid) && a.prompts[pid].result.Some?
    ensures Resolvable(a, pid)
  {
    assert FreshRuns(a, []) && ResolvedBy(a, [], pid);
  }

  lemma ResolvableThen(a: Agent, step: Step, pid: int)
    requires FreshRun(a, step) && Resolvable(L.Next(a, 0, step), pid)
    ensures Resolvable(a, pid)
  {
    hide L.Next, FreshRun;
    var n := L.Next(a, 0, step);
    var rest :| FreshRuns(n, rest) && ResolvedBy(n, rest, pid);
    var steps := [(0, step)] + rest;
    assert steps[0] == (0, step) && steps[1..] == rest;
    assert FreshRuns(a, steps) && ResolvedBy(a, steps, pid);
  }

  lemma FinishResolves(a: Agent, pid: int, reason: StopReason)
    requires IsPrompt(a, pid) && Finish(pid, reason) in a.tasks
    ensures Resolvable(a, pid)
  {
    hide Resolvable;
    var step := FinishResume(pid, reason);
    ResolvableNow(L.Next(a, 0, step), pid);
    ResolvableThen(a, step, pid);
  }

  lemma RestResolves(a: Agent, pid: int, state: ChatState)
    requires IsPrompt(a, pid) && Ends(state)
    ensures Resolvable(AfterRest(a, 0, pid, state), pid)
  {
    hide Resolvable, AfterClearRun;
    FinishResolves(AfterRest(a, 0, pid, state), pid, FinishReason(state));
  }

  lemma ToldResolves(a: Agent, pid: int, state: ChatState)
    requires IsPrompt(a, pid) && Told(pid, state) in a.tasks && Ends(state)
    ensures Resolvable(a, pid)
  {
    hide Resolvable, AfterRest;
    RestResolves(a.(tasks := a.tasks - multiset{Told(pid, state)}), pid, state);
    ResolvableThen(a, ToldResume(pid, state), pid);
  }

  lemma TextResolves(a: Agent, pid: int, content: seq<Block>, state: ChatState)
    requires IsPrompt(a, pid) && Text(pid, content, state) in a.tasks && Ends(state)
    ensures Resolvable(a, pid)
  {
    hide Resolvable, AfterRest, TextChunk;
    var b := a.(tasks := a.tasks - multiset{Text(pid, content, state)});
    var c := SetPrompt(b, pid, EmitText(b.prompts[pid], content));
    RestResolves(c, pid, state);
    ToldResolves(c.(tasks := c.tasks + multiset{Told(pid, state)}), pid, state);
    ResolvableThen(a, TextResume(pid, content, state), pid);
  }

  lemma CancelResolves(a: Agent, pid: int)
    requires IsPrompt(a, pid) && CancelPending(pid) in a.tasks
    ensures Resolvable(a, pid)
  {
    hide Resolvable;
    ResolvableNow(L.Next(a, 0, CancelResume(pid)), pid);
    ResolvableThen(a, CancelResume(pid), pid);
  }

  lemma WaitResolves(a: Agent, pid: int)
    requires IsPrompt(a, pid) && Wait(pid) in a.tasks
    ensures Resolvable(a, pid)
  {
    hide Resolvable, AfterClearRun;
    FinishResolves(L.Next(a, 0, ReconnectReply(pid, true)), pid, EndTurn);
    ResolvableThen(a, ReconnectReply(pid, true), pid);
  }

  lemma AskResolves(a: Agent, pid: int)
    requires IsPrompt(a, pid) && Ask(pid) in a.tasks && a.prompts[pid].send.Accepted?
    ensures Resolvable(a, pid)
  {
    hide Resolvable, AfterAsk;
    AskFacts(a, pid);
    WaitResolves(L.Next(a, 0, ReconnectAsk(pid)), pid);
    ResolvableThen(a, ReconnectAsk(pid), pid);
  }

  lemma AskThenSentResolves(a: Agent, pid: int)
    requires IsPrompt(a, pid) && Ask(pid) in a.tasks && a.prompts[pid].send.Sending?
    ensures Resolvable(a, pid)
  {
    hide Resolvable;
    AskResolves(L.Next(a, 0, SendAccepted(pid)), pid);
    ResolvableThen(a, SendAccepted(pid), pid);
  }

  lemma PendingResolves(a: Agent, pid: int)
    requires Basic(a) && IsPrompt(a, pid) && InTable(a, pid)
    ensures Resolvable(a, pid)
  {
    hide Basic, Resolvable, FindPending, AfterRest;
    var p := a.prompts[pid];
    EventFindsItsPrompt(a, pid);
    RestResolves(a, pid, Aborted);
    ResolvableThen(a, Chat(p.key, Some(p.run), Aborted, None), pid);
  }

  lemma ResolverResolves(a: Agent, pid: int)
    requires IsPrompt(a, pid) && HasResolver(a, pid)
    ensures Resolvable(a, pid)
  {
    hide Resolvable;
    var t :| t in a.tasks && t.pid == pid && CanResolve(t, a.prompts[pid]);
    match t
    case Text(_, content, state) => TextResolves(a, pid, content, state);
    case Told(_, state) => ToldResolves(a, pid, state);
    case Finish(_, reason) => FinishResolves(a, pid, reason);
    case CancelPending(_) => CancelResolves(a, pid);
    case Ask(_) => if a.prompts[pid].send.Accepted? { AskResolves(a, pid); } else { AskThenSentResolves(a, pid); }
    case Wait(_) => WaitResolves(a, pid);
  }

  /** Some run with fresh run ids resolves a prompt, or finds it resolved, if and only if it is not hopeless. */
  lemma {:induction false} ResolvableIff(a: Agent, pid: int)
    requires Basic(a) && IsPrompt(a, pid)
    ensures Resolvable(a, pid) <==> !Hopeless(a, pid)
  {
    hide Basic, InTable, HasResolver, L.Run, FreshRuns;
    if Hopeless(a, pid) {
      forall steps | FreshRuns(a, steps) ensures !ResolvedBy(a, steps, pid) { HopelessForGood(a, steps, pid); }
    } else if a.prompts[pid].result.Some? {
      ResolvableNow(a, pid);
    } else if InTable(a, pid) {
      PendingResolves(a, pid);
    } else {
      ResolverResolves(a, pid);
    }
  }
}
