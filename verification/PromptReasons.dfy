/** Why a prompt ends as it does: its stop reason goes back to a step of the run. */
module PromptReasons {
  import opened PyText
  import opened PyDict
  import opened Streaming
  import opened S = SessionStore
  import opened L = PromptLifecycle
  import opened PromptEvolution

  /** An event with this state ends a prompt for this reason. */
  predicate Gives(state: ChatState, reason: StopReason) {
    match reason
    case Cancelled => state.Aborted?
    case Refusal => state.Error? && state.refusal
    case MaxTokens => state.Final? && state.maxTokens
    case EndTurn => (state.Final? && !state.maxTokens) || (state.Error? && !state.refusal)
  }

  /** The step begins to end prompt `pid` for `reason`: an event for it, the end of a cancel, or a reconnect that hears
      that its run is over. */
  predicate Causes(a: Agent, step: Step, pid: int, reason: StopReason) {
    match step
    case Chat(key, run, state, _) =>
      IsPrompt(a, pid) && InTable(a, pid) && a.prompts[pid].key == key &&
      (run.None? || run.value == a.prompts[pid].run) && Gives(state, reason)
    case CancelResume(q) => q == pid && reason.Cancelled?
    case ReconnectReply(q, ok) => q == pid && ok && reason.EndTurn?
    case _ => false
  }

  /** A waiting handler that is to end `pid` for `reason`. */
  predicate Carries(t: Task, pid: int, reason: StopReason) {
    t.pid == pid &&
    match t
    case Finish(_, r) => r == reason
    case Text(_, _, state) => Gives(state, reason)
    case Told(_, state) => Gives(state, reason)
    case _ => false
  }

  ghost predicate Carried(a: Agent, pid: int, reason: StopReason) {
    exists t :: t in a.tasks && Carries(t, pid, reason)
  }

  predicate Resolved(a: Agent, pid: int, reason: StopReason) {
    IsPrompt(a, pid) && a.prompts[pid].result == Some(reason)
  }

  /** `pid` has ended for `reason`, or a handler is to end it so. */
  ghost predicate Ending(a: Agent, pid: int, reason: StopReason) {
    Resolved(a, pid, reason) || Carried(a, pid, reason)
  }

  lemma StillOnly(a: Agent, n: Agent, pid: int, reason: StopReason, ok: bool)
    requires Ending(a, pid, reason) ==> ok
    requires Resolved(n, pid, reason) ==> Resolved(a, pid, reason) || ok
    requires forall t :: t in n.tasks && Carries(t, pid, reason) ==> t in a.tasks || ok
    ensures Ending(n, pid, reason) ==> ok
  {
  }

  lemma ReasonOfState(state: ChatState, reason: StopReason)
    requires Ends(state)
    ensures FinishReason(state) == reason <==> Gives(state, reason)
  {
  }

  /** The rest of an event can end its prompt for the reason that its state gives. */
  lemma RestEnds(a: Agent, now: int, q: int, state: ChatState, pid: int, reason: StopReason, ok: bool)
    requires IsPrompt(a, q) && (Ending(a, pid, reason) ==> ok) && (q == pid && Gives(state, reason) ==> ok)
    ensures Ending(AfterRest(a, now, q, state), pid, reason) ==> ok
  {
    hide AfterClearRun, Ending, Gives, FinishReason;
    if Ends(state) { ReasonOfState(state, reason); }
    StillOnly(a, AfterRest(a, now, q, state), pid, reason, ok);
  }

  lemma TextEnds(a: Agent, now: int, q: int, content: seq<Block>, state: ChatState, pid: int, reason: StopReason,
    ok: bool)
    requires IsPrompt(a, q) && (Ending(a, pid, reason) ==> ok) && (q == pid && Gives(state, reason) ==> ok)
    ensures Ending(AfterText(a, now, q, content, state), pid, reason) ==> ok
  {
    hide AfterRest, TextChunk, Ending, Gives;
    var b := SetPrompt(a, q, EmitText(a.prompts[q], content));
    StillOnly(a, b, pid, reason, ok);
    StillOnly(b, b.(tasks := b.tasks + multiset{Told(q, state)}), pid, reason, ok);
    RestEnds(b, now, q, state, pid, reason, ok);
  }

  lemma ThoughtEnds(a: Agent, now: int, q: int, content: seq<Block>, state: ChatState, pid: int, reason: StopReason,
                    ok: bool)
    requires IsPrompt(a, q) && (Ending(a, pid, reason) ==> ok) && (q == pid && Gives(state, reason) ==> ok)
    ensures Ending(AfterThought(a, now, q, content, state), pid, reason) ==> ok
  {
    hide AfterText, ThoughtChunk, Ending, Gives;
    var b := SetPrompt(a, q, EmitThought(a.prompts[q], content));
    StillOnly(a, b, pid, reason, ok);
    StillOnly(b, b.(tasks := b.tasks + multiset{Text(q, content, state)}), pid, reason, ok);
    TextEnds(b, now, q, content, state, pid, reason, ok);
  }

  lemma ChatEnds(a: Agent, now: int, step: Step, pid: int, reason: StopReason, ok: bool)
    requires TableOk(a) && step.Chat? && (Ending(a, pid, reason) || Causes(a, step, pid, reason) ==> ok)
    ensures Ending(L.Next(a, now, step), pid, reason) ==> ok
  {
    hide TableOk, FindPending, AfterRest, AfterThought, Ending, Gives;
    FoundIsInTable(a, step.key, step.runId);
    var found := FindPending(a, step.key, step.runId);
    if found.Some? {
      RestEnds(a, now, found.value, step.state, pid, reason, ok);
      if step.message.Some? { ThoughtEnds(a, now, found.value, step.message.value, step.state, pid, reason, ok); }
    }
  }

  lemma CarriedBy(a: Agent, t: Task, pid: int, reason: StopReason)
    requires t in a.tasks && Carries(t, pid, reason)
    ensures Ending(a, pid, reason)
  {
  }

  lemma ResumeEnds(a: Agent, now: int, step: Step, pid: int, reason: StopReason, ok: bool)
    requires (step.TextResume? || step.ToldResume?) && (Ending(a, pid, reason) ==> ok)
    ensures Ending(L.Next(a, now, step), pid, reason) ==> ok
  {
    hide AfterText, AfterRest, Ending, Gives;
    var t := if step.TextResume? then Text(step.pid, step.content, step.state) else Told(step.pid, step.state);
    if t in a.tasks && IsPrompt(a, step.pid) {
      var b := a.(tasks := a.tasks - multiset{t});
      StillOnly(a, b, pid, reason, ok);
      if Carries(t, pid, reason) { CarriedBy(a, t, pid, reason); }
      if step.TextResume? {
        TextEnds(b, now, step.pid, step.content, step.state, pid, reason, ok);
      } else {
        RestEnds(b, now, step.pid, step.state, pid, reason, ok);
      }
    }
  }

  lemma FinishEnds(a: Agent, q: int, r: StopReason, pid: int, reason: StopReason, ok: bool)
    requires Ending(a, pid, reason) ==> ok
    ensures Ending(AfterFinishResume(a, q, r), pid, reason) ==> ok
  {
    if Finish(q, r) in a.tasks && q == pid && r == reason { CarriedBy(a, Finish(q, r), pid, reason); }
    hide Ending;
    StillOnly(a, AfterFinishResume(a, q, r), pid, reason, ok);
  }

  lemma CancelEnds(a: Agent, q: int, pid: int, reason: StopReason, ok: bool)
    requires Ending(a, pid, reason) || Causes(a, CancelResume(q), pid, reason) ==> ok
    ensures Ending(AfterCancelResume(a, q), pid, reason) ==> ok
  {
    hide Ending;
    StillOnly(a, AfterCancelResume(a, q), pid, reason, ok);
  }

  lemma ReplyEnds(a: Agent, now: int, q: int, said: bool, pid: int, reason: StopReason, ok: bool)
    requires Ending(a, pid, reason) || Causes(a, ReconnectReply(q, said), pid, reason) ==> ok
    ensures Ending(AfterReply(a, now, q, said), pid, reason) ==> ok
  {
    hide Ending, AfterClearRun;
    StillOnly(a, AfterReply(a, now, q, said), pid, reason, ok);
  }

  lemma BeginEnds(a: Agent, now: int, sid: string, run: string, buildOk: bool, pid: int, reason: StopReason, ok: bool)
    requires Ending(a, pid, reason) ==> ok
    ensures Ending(AfterBegin(a, now, sid, run, buildOk), pid, reason) ==> ok
  {
    hide Ending, AfterGet, AfterCancelRun, AfterSetRun;
    StillOnly(a, AfterBegin(a, now, sid, run, buildOk), pid, reason, ok);
  }

  lemma SendEnds(a: Agent, now: int, q: int, sent: bool, pid: int, reason: StopReason, ok: bool)
    requires Ending(a, pid, reason) ==> ok
    ensures Ending(AfterSend(a, now, q, sent), pid, reason) ==> ok
  {
    hide Ending, AfterClearRun;
    StillOnly(a, AfterSend(a, now, q, sent), pid, reason, ok);
  }

  lemma ReconnectEnds(a: Agent, pid: int, reason: StopReason, ok: bool)
    requires TableOk(a) && (Ending(a, pid, reason) ==> ok)
    ensures Ending(AfterReconnectBegin(a), pid, reason) ==> ok
  {
    hide Ending, AfterReconnectBegin, TableOk;
    ReconnectFacts(a);
    StillOnly(a, AfterReconnectBegin(a), pid, reason, ok);
  }

  lemma AskEnds(a: Agent, q: int, pid: int, reason: StopReason, ok: bool)
    requires Ending(a, pid, reason) ==> ok
    ensures Ending(AfterAsk(a, q), pid, reason) ==> ok
  {
    hide Ending, AfterAsk;
    AskFacts(a, q);
    StillOnly(a, AfterAsk(a, q), pid, reason, ok);
  }

  lemma CreateEnds(a: Agent, now: int, step: Step, pid: int, reason: StopReason, ok: bool)
    requires (Ending(a, pid, reason) ==> ok) && step.CreateSession?
    ensures Ending(L.Next(a, now, step), pid, reason) ==> ok
  {
    hide Ending, Valid, AfterCreate;
    StillOnly(a, L.Next(a, now, step), pid, reason, ok);
  }

  lemma CancelBeginEnds(a: Agent, now: int, sid: string, pid: int, reason: StopReason, ok: bool)
    requires Ending(a, pid, reason) ==> ok
    ensures Ending(AfterCancelBegin(a, now, sid), pid, reason) ==> ok
  {
    hide Ending, AfterGet, AfterCancelRun;
    StillOnly(a, AfterCancelBegin(a, now, sid), pid, reason, ok);
  }

  /** One step: whatever ends `pid` was under way before it, or is caused by it. */
  lemma NextEnds(a: Agent, now: int, step: Step, pid: int, reason: StopReason)
    requires TableOk(a) && Ending(L.Next(a, now, step), pid, reason)
    ensures Ending(a, pid, reason) || Causes(a, step, pid, reason)
  {
    var ok := Ending(a, pid, reason) || Causes(a, step, pid, reason);
    hide TableOk, Ending, Causes, AfterCreate, AfterReconnectBegin, AfterAsk, AfterChat, AfterBegin, AfterSend;
    hide AfterCancelBegin, AfterCancelResume, AfterReply, AfterTextResume, AfterToldResume, AfterFinishResume;
    match step
    case BeginPrompt(sid, run, buildOk) => BeginEnds(a, now, sid, run, buildOk, pid, reason, ok);
    case SendAccepted(q) => SendEnds(a, now, q, true, pid, reason, ok);
    case SendFailed(q) => SendEnds(a, now, q, false, pid, reason, ok);
    case Chat(_, _, _, _) => ChatEnds(a, now, step, pid, reason, ok);
    case TextResume(_, _, _) => ResumeEnds(a, now, step, pid, reason, ok);
    case ToldResume(_, _) => ResumeEnds(a, now, step, pid, reason, ok);
    case FinishResume(q, r) => FinishEnds(a, q, r, pid, reason, ok);
    case CancelResume(q) => CancelEnds(a, q, pid, reason, ok);
    case ReconnectReply(q, said) => ReplyEnds(a, now, q, said, pid, reason, ok);
    case CreateSession(_, _, _) => CreateEnds(a, now, step, pid, reason, ok);
    case CancelBegin(sid) => CancelBeginEnds(a, now, sid, pid, reason, ok);
    case ReconnectBegin => ReconnectEnds(a, pid, reason, ok);
    case ReconnectAsk(q) => AskEnds(a, q, pid, reason, ok);
  }

  // ---- Over runs ----

  /** Step `k` of the run causes it. */
  ghost predicate CausedAt(a: Agent, steps: seq<(int, Step)>, k: int, pid: int, reason: StopReason) {
    0 <= k < |steps| && Causes(L.Run(a, steps[..k]), steps[k].1, pid, reason)
  }

  lemma {:induction false} RunEnds(a: Agent, steps: seq<(int, Step)>, pid: int, reason: StopReason) returns (k: int)
    requires Basic(a) && FreshRuns(a, steps) && Ending(L.Run(a, steps), pid, reason)
    ensures Ending(a, pid, reason) || CausedAt(a, steps, k, pid, reason)
    decreases |steps|
  {
    TableOf(a);
    hide Basic, L.Next, Ending, Causes, FreshRun, TableOk;
    k := 0;
    if |steps| != 0 {
      var (now, step) := steps[0];
      var n := L.Next(a, now, step);
      NextKeeps(a, now, step);
      KeptBasic(a, n);
      k := RunEnds(n, steps[1..], pid, reason);
      if Ending(n, pid, reason) {
        NextEnds(a, now, step, pid, reason);
        assert steps[..0] == [];
        k := 0;
      } else {
        assert steps[..k + 1][1..] == steps[1..][..k];
        assert L.Run(a, steps[..k + 1]) == L.Run(n, steps[1..][..k]);
        k := k + 1;
      }
    }
  }

  lemma NewHasNoEnd(a: Agent, pid: int, reason: StopReason)
    requires Basic(a) && pid >= |a.prompts|
    ensures !Ending(a, pid, reason)
  {
    hide Valid, TableOk, RunsDistinct, StreamsOk;
  }

  /** Over every run with fresh run ids: the stop reason of a prompt begun in it is that of a step of the run. It is
      `Cancelled` because of an aborted event or a cancel, `Refusal` because of an error of kind refusal, `MaxTokens`
      because of a final event that says so, and `EndTurn` because of another final or error event, or of a reconnect
      that hears that the run is over. */
  lemma {:induction false} ReasonHasCause(a: Agent, steps: seq<(int, Step)>, pid: int) returns (k: int)
    requires Basic(a) && FreshRuns(a, steps) && pid >= |a.prompts|
    requires IsPrompt(L.Run(a, steps), pid) && L.Run(a, steps).prompts[pid].result.Some?
    ensures CausedAt(a, steps, k, pid, L.Run(a, steps).prompts[pid].result.value)
  {
    var reason := L.Run(a, steps).prompts[pid].result.value;
    NewHasNoEnd(a, pid, reason);
    hide Basic, L.Run, FreshRuns, CausedAt, Carried;
    k := RunEnds(a, steps, pid, reason);
  }

  /** And the other way: an event that ends a pending prompt and has no message, once the snapshot is there, ends it for
      just that reason. */
  lemma {:induction false} EventEnds(a: Agent, now: int, pid: int, state: ChatState, reason: StopReason)
    requires Basic(a) && IsPrompt(a, pid) && InTable(a, pid) && Gives(state, reason)
    ensures var p := a.prompts[pid]; var n := L.Next(a, now, Chat(p.key, Some(p.run), state, None));
      Finish(pid, reason) in n.tasks && !InTable(n, pid) &&
      Resolved(L.Next(n, now, FinishResume(pid, reason)), pid, reason)
  {
    hide Basic, InTable, L.Next, Gives, AfterRest;
    ChatIsRest(a, now, pid, state);
    UnresolvedInTable(a, pid);
    RestFinishes(a, now, pid, state, reason);
    FinishGives(AfterRest(a, now, pid, state), now, pid, reason);
  }

  lemma ChatIsRest(a: Agent, now: int, pid: int, state: ChatState)
    requires Basic(a) && IsPrompt(a, pid) && InTable(a, pid)
    ensures var p := a.prompts[pid];
      L.Next(a, now, Chat(p.key, Some(p.run), state, None)) == AfterRest(a, now, pid, state)
  {
    hide Basic, InTable, FindPending, AfterRest;
    EventFindsItsPrompt(a, pid);
  }

  lemma UnresolvedInTable(a: Agent, pid: int)
    requires Basic(a) && IsPrompt(a, pid) && InTable(a, pid)
    ensures a.prompts[pid].result.None?
  {
    TableOf(a);
    hide Basic;
  }

  lemma RestFinishes(a: Agent, now: int, pid: int, state: ChatState, reason: StopReason)
    requires IsPrompt(a, pid) && Gives(state, reason)
    ensures var n := AfterRest(a, now, pid, state);
      n.prompts == a.prompts && Finish(pid, reason) in n.tasks && !InTable(n, pid)
  {
    ReasonOfState(state, reason);
    hide Gives, FinishReason, AfterClearRun;
  }

  lemma FinishGives(a: Agent, now: int, pid: int, reason: StopReason)
    requires IsPrompt(a, pid) && Finish(pid, reason) in a.tasks && a.prompts[pid].result.None?
    ensures Resolved(L.Next(a, now, FinishResume(pid, reason)), pid, reason)
  {
  }

  /** So does a cancel that resumes, and a reconnect that hears that the run is over. */
  lemma CancelReason(a: Agent, pid: int)
    requires IsPrompt(a, pid) && CancelPending(pid) in a.tasks && a.prompts[pid].result.None?
    ensures Resolved(L.Next(a, 0, CancelResume(pid)), pid, Cancelled)
  {
  }

  lemma ReplyReason(a: Agent, now: int, pid: int)
    requires IsPrompt(a, pid) && Wait(pid) in a.tasks && a.prompts[pid].result.None?
    ensures var n := L.Next(a, now, ReconnectReply(pid, true));
      Finish(pid, EndTurn) in n.tasks && Resolved(L.Next(n, now, FinishResume(pid, EndTurn)), pid, EndTurn)
  {
    hide AfterClearRun;
  }

  // ---- How a prompt begins, and what cancelling it calls ----

  /** The call of the abort handle that session `sid` has, if it has one. */
  function HandleOf(a: Agent, sid: string): seq<int> {
    if sid in a.store.sessions.vals && a.store.sessions.vals[sid].abort.Some?
    then [a.store.sessions.vals[sid].abort.value] else []
  }

  /** A prompt that begins is the session's pending one, being sent, and its run is the one found under its id; the run
      before it is cancelled first. One that cannot be built leaves nothing behind. */
  lemma {:induction false} BeginEffect(a: Agent, now: int, sid: string, run: string)
    requires Basic(a) && sid in a.store.sessions.vals
    ensures var n, pid := L.Next(a, now, BeginPrompt(sid, run, true)), |a.prompts|;
      |n.prompts| == pid + 1 && n.prompts[..pid] == a.prompts && InTable(n, pid) &&
      n.prompts[pid] == Prompt(sid, a.store.sessions.vals[sid].key, run, Sending, None, [], [], "", "") &&
      run in n.store.runs && n.store.runs[run] == sid && n.store.aborted == a.store.aborted + HandleOf(a, sid)
    ensures var n := L.Next(a, now, BeginPrompt(sid, run, false));
      n.prompts == a.prompts && n.pending == a.pending && n.store.aborted == a.store.aborted + HandleOf(a, sid)
  {
    hide TableOk, TasksOk, RunsDistinct, StreamsOk;
  }

  /** A cancel calls the handle of the session's run, leaves no run of it, and takes up its pending prompt. */
  lemma {:induction false} CancelEffect(a: Agent, now: int, sid: string)
    requires Basic(a) && sid in a.store.sessions.vals
    ensures var n := L.Next(a, now, CancelBegin(sid));
      n.store.aborted == a.store.aborted + HandleOf(a, sid) && sid in n.store.sessions.vals &&
      n.store.sessions.vals[sid].activeRunId.None? && n.prompts == a.prompts && n.pending == a.pending &&
      n.tasks == a.tasks + if sid in a.pending.vals then multiset{CancelPending(a.pending.vals[sid])} else multiset{}
  {
    hide TableOk, TasksOk, RunsDistinct, StreamsOk;
  }

  /** A send that fails takes the prompt out of table and store; one that is accepted changes only that. */
  lemma {:induction false} SendEffect(a: Agent, now: int, pid: int)
    requires IsPrompt(a, pid) && a.prompts[pid].send.Sending?
    ensures L.Next(a, now, SendAccepted(pid)) == a.(prompts := a.prompts[pid := a.prompts[pid].(send := Accepted)])
    ensures var n, sid := L.Next(a, now, SendFailed(pid)), a.prompts[pid].sid;
      n.prompts == a.prompts[pid := a.prompts[pid].(send := Failed)] && n.pending.vals == a.pending.vals - {sid} &&
      (sid in n.store.sessions.vals ==> n.store.sessions.vals[sid].activeRunId.None?) &&
      n.store.aborted == a.store.aborted && n.tasks == a.tasks
  {
  }
}
