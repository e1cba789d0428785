/** When a prompt is left behind: out of the table, with nobody to resolve it. */
module PromptSafety {
  import opened PyText
  import opened PyDict
  import opened Streaming
  import opened S = SessionStore
  import opened L = PromptLifecycle
  import opened PromptEvolution
  import opened PromptOutcome
  import opened PromptViews

  /** Its future is unresolved and `prompt` has not raised. */
  predicate Unsettled(p: Prompt) {
    p.result.None? && !p.send.Failed?
  }

  /** A handler that will resolve its prompt, whatever it is told. */
  predicate Resolves(t: Task) {
    t.Finish? || t.CancelPending? || ((t.Text? || t.Told?) && Ends(t.state))
  }

  ghost predicate Settling(a: Agent, pid: int) {
    exists t :: t in a.tasks && t.pid == pid && Resolves(t)
  }

  /** Events can still reach the prompt, or a handler is about to resolve it. */
  ghost predicate Secure(a: Agent, pid: int)
    requires IsPrompt(a, pid)
  {
    InTable(a, pid) || Settling(a, pid)
  }

  ghost predicate NoneStranded(a: Agent) {
    forall pid :: IsPrompt(a, pid) && Unsettled(a.prompts[pid]) ==> Secure(a, pid)
  }

  /** The prompt for which a handler that had been waiting takes whatever is pending for the session out of the table:
      the rest of a final event, the end of a cancel, or a reconnect that hears that the run is over. */
  function LateFor(a: Agent, step: Step): Option<int> {
    match step
    case TextResume(pid, content, state) =>
      if Text(pid, content, state) in a.tasks && IsPrompt(a, pid) && Ends(state) &&
        TextChunk(a.prompts[pid], content) == ""
      then Some(pid) else None
    case ToldResume(pid, state) =>
      if Told(pid, state) in a.tasks && IsPrompt(a, pid) && Ends(state) then Some(pid) else None
    case CancelResume(pid) =>
      if CancelPending(pid) in a.tasks && IsPrompt(a, pid) && a.prompts[pid].result.None? then Some(pid) else None
    case ReconnectReply(pid, ok) =>
      if ok && Wait(pid) in a.tasks && IsPrompt(a, pid) then Some(pid) else None
    case _ => None
  }

  /** A later prompt of the session has its place, and no handler is about to resolve that one. */
  ghost predicate Displaces(a: Agent, pid: int)
    requires IsPrompt(a, pid)
  {
    var sid := a.prompts[pid].sid;
    sid in a.pending.vals && a.pending.vals[sid] != pid && !Settling(a, a.pending.vals[sid])
  }

  ghost predicate Displacing(a: Agent, step: Step) {
    LateFor(a, step).Some? && Displaces(a, LateFor(a, step).value)
  }

  /** A step that keeps the views, and is not a late handler's that displaces a prompt. */
  ghost predicate Orderly(a: Agent, step: Step) {
    FreshRun(a, step) && Sequential(a, step) && !Displacing(a, step)
  }

  ghost predicate OrderlyRun(a: Agent, steps: seq<(int, Step)>)
    decreases |steps|
  {
    |steps| == 0 || (Orderly(a, steps[0].1) && OrderlyRun(L.Next(a, steps[0].0, steps[0].1), steps[1..]))
  }

  // ---- What a late handler does ----

  ghost predicate LateChange(a: Agent, n: Agent, pid: int)
    requires IsPrompt(a, pid)
  {
    n.pending == a.pending.Pop(a.prompts[pid].sid) && |n.prompts| == |a.prompts| &&
    (forall i :: IsPrompt(a, i) && i != pid ==> n.prompts[i] == a.prompts[i]) &&
    n.prompts[pid].sid == a.prompts[pid].sid && n.prompts[pid].send == a.prompts[pid].send &&
    (forall t: Task :: t.pid != pid ==> (t in n.tasks <==> t in a.tasks)) &&
    (n.prompts[pid].result.Some? || Settling(n, pid))
  }

  lemma FinishLate(a: Agent, now: int, pid: int, reason: StopReason)
    requires IsPrompt(a, pid)
    ensures LateChange(a, FinishBegin(a, now, pid, reason), pid)
  {
    hide AfterClearRun;
    assert Finish(pid, reason) in FinishBegin(a, now, pid, reason).tasks;
  }

  lemma LateVia(a: Agent, b: Agent, n: Agent, pid: int)
    requires IsPrompt(a, pid) && IsPrompt(b, pid) && LateChange(b, n, pid)
    requires b.pending == a.pending && |b.prompts| == |a.prompts|
    requires forall i :: IsPrompt(a, i) && i != pid ==> b.prompts[i] == a.prompts[i]
    requires b.prompts[pid].sid == a.prompts[pid].sid && b.prompts[pid].send == a.prompts[pid].send
    requires forall t: Task :: t.pid != pid ==> (t in b.tasks <==> t in a.tasks)
    ensures LateChange(a, n, pid)
  {
    hide Settling;
  }

  lemma LateEffect(a: Agent, now: int, step: Step, pid: int)
    requires LateFor(a, step) == Some(pid)
    ensures IsPrompt(a, pid) && LateChange(a, L.Next(a, now, step), pid)
    ensures HasResolver(a, pid)
  {
    hide FinishBegin, FinishReason, TextChunk, LateChange;
    hide HasResolver;
    match step
    case TextResume(_, content, state) =>
      OneResolver(a, Text(pid, content, state));
      var b := a.(tasks := a.tasks - multiset{Text(pid, content, state)});
      var c := SetPrompt(b, pid, EmitText(a.prompts[pid], content));
      FinishLate(c, now, pid, FinishReason(state));
      LateVia(a, c, FinishBegin(c, now, pid, FinishReason(state)), pid);
    case ToldResume(_, state) =>
      OneResolver(a, Told(pid, state));
      var b := a.(tasks := a.tasks - multiset{Told(pid, state)});
      FinishLate(b, now, pid, FinishReason(state));
      LateVia(a, b, FinishBegin(b, now, pid, FinishReason(state)), pid);
    case CancelResume(_) =>
      OneResolver(a, CancelPending(pid));
      CancelLate(a, pid);
    case ReconnectReply(_, _) =>
      OneResolver(a, Wait(pid));
      FinishLate(StopWaiting(a, pid), now, pid, EndTurn);
      LateVia(a, StopWaiting(a, pid), FinishBegin(StopWaiting(a, pid), now, pid, EndTurn), pid);
  }

  lemma OneResolver(a: Agent, t: Task)
    requires t in a.tasks && IsPrompt(a, t.pid) && CanResolve(t, a.prompts[t.pid])
    ensures HasResolver(a, t.pid)
  {
  }

  lemma CancelLate(a: Agent, pid: int)
    requires CancelPending(pid) in a.tasks && IsPrompt(a, pid) && a.prompts[pid].result.None?
    ensures LateChange(a, AfterCancelResume(a, pid), pid)
  {
  }

  // ---- Exactly whom a late handler leaves without hope ----

  /** Prompt `q` has the place of `pid`, and no handler is at work that could resolve it. */
  ghost predicate Loses(a: Agent, pid: int, q: int)
    requires IsPrompt(a, pid) && IsPrompt(a, q)
  {
    q != pid && a.prompts[q].sid == a.prompts[pid].sid && InTable(a, q) && !HasResolver(a, q)
  }

  /** A late handler for `pid` leaves without hope exactly the prompt that has its place, sent or not yet, if that one
      has no handler that could resolve it. */
  lemma {:induction false} LateAbandonsIff(a: Agent, now: int, step: Step, pid: int, q: int)
    requires Basic(a) && LateFor(a, step) == Some(pid) && IsPrompt(a, q)
    ensures Hopeless(L.Next(a, now, step), q) <==> Hopeless(a, q) || Loses(a, pid, q)
    ensures Resolvable(L.Next(a, now, step), q) <==> Resolvable(a, q) && !Loses(a, pid, q)
    ensures Loses(a, pid, q) && a.prompts[q].send.Accepted? ==> Abandoned(L.Next(a, now, step), q)
  {
    LateIsFresh(a, step);
    assert TableOk(a);
    hide Basic, L.Next, Hopeless, Resolvable, TableOk, LateFor, LateChange, Loses, FreshRun;
    var n := L.Next(a, now, step);
    LateEffect(a, now, step, pid);
    HopelessAfter(a, n, pid, q);
    NextKeeps(a, now, step);
    KeptBasic(a, n);
    ResolvableIff(a, q);
    ResolvableIff(n, q);
  }

  lemma LateIsFresh(a: Agent, step: Step)
    requires LateFor(a, step).Some?
    ensures FreshRun(a, step)
  {
  }

  lemma HopelessAfter(a: Agent, n: Agent, pid: int, q: int)
    requires TableOk(a) && IsPrompt(a, pid) && IsPrompt(a, q) && LateChange(a, n, pid) && HasResolver(a, pid)
    ensures Hopeless(n, q) <==> Hopeless(a, q) || Loses(a, pid, q)
    ensures Loses(a, pid, q) ==> n.prompts[q] == a.prompts[q]
  {
    assert n.pending.vals == a.pending.vals - {a.prompts[pid].sid};
    if q == pid {
      if Settling(n, pid) { SettlingHasResolver(n, pid); }
    } else {
      SameResolvers(a, n, q);
    }
  }

  lemma SettlingHasResolver(a: Agent, pid: int)
    requires IsPrompt(a, pid) && Settling(a, pid)
    ensures HasResolver(a, pid)
  {
    var t :| t in a.tasks && t.pid == pid && Resolves(t);
    assert CanResolve(t, a.prompts[pid]);
  }

  lemma SameResolvers(a: Agent, n: Agent, q: int)
    requires IsPrompt(a, q) && IsPrompt(n, q) && n.prompts[q] == a.prompts[q]
    requires forall t: Task :: t.pid == q ==> (t in n.tasks <==> t in a.tasks)
    ensures HasResolver(n, q) <==> HasResolver(a, q)
  {
    hide CanResolve;
  }

  // ---- Exactly when a step strands a prompt ----

  lemma SettlesStill(a: Agent, n: Agent, i: int)
    requires Settling(a, i) && forall t :: t in a.tasks && t.pid == i && Resolves(t) ==> t in n.tasks
    ensures Settling(n, i)
  {
    hide Resolves;
    var t :| t in a.tasks && t.pid == i && Resolves(t);
    assert t in n.tasks;
  }

  lemma LateSecure(a: Agent, n: Agent, pid: int, i: int)
    requires TableOk(a) && IsPrompt(a, pid) && IsPrompt(a, i) && LateChange(a, n, pid) && Secure(a, i)
    requires !Displaces(a, pid) && Unsettled(n.prompts[i])
    ensures Secure(n, i)
  {
    hide Resolves;
    assert n.pending.vals == a.pending.vals - {a.prompts[pid].sid};
    if i != pid && Settling(a, i) { SettlesStill(a, n, i); }
  }

  lemma LateStrands(a: Agent, n: Agent, pid: int)
    requires TableOk(a) && IsPrompt(a, pid) && LateChange(a, n, pid) && Displaces(a, pid)
    ensures !NoneStranded(n)
  {
    hide Resolves;
    var q := a.pending.vals[a.prompts[pid].sid];
    assert n.pending.vals == a.pending.vals - {a.prompts[pid].sid};
    assert !Settling(n, q) by {
      assert forall t :: t in n.tasks && t.pid == q ==> t in a.tasks;
      if Settling(n, q) { SettlesStill(n, a, q); }
    }
    assert IsPrompt(n, q) && Unsettled(n.prompts[q]) && !Secure(n, q);
  }

  /** Everything of prompt `i` that matters is as it was, or it settles. */
  lemma SecureStill(a: Agent, n: Agent, i: int)
    requires IsPrompt(a, i) && IsPrompt(n, i) && Secure(a, i)
    requires n.prompts[i].sid == a.prompts[i].sid && (InTable(a, i) ==> InTable(n, i))
    requires forall t :: t in a.tasks && t.pid == i && Resolves(t) ==> t in n.tasks
    ensures Secure(n, i)
  {
    hide Resolves;
    if Settling(a, i) { SettlesStill(a, n, i); }
  }

  lemma BeginSecure(a: Agent, now: int, sid: string, run: string, buildOk: bool, i: int)
    requires IsPrompt(a, i) && Secure(a, i) && Unsettled(a.prompts[i])
    requires forall j :: 0 <= j < |a.prompts| && a.prompts[j].sid == sid ==> Returned(a.prompts[j])
    ensures Secure(AfterBegin(a, now, sid, run, buildOk), i)
  {
    hide AfterGet, AfterCancelRun, AfterSetRun, Settling, Resolves;
    var n := AfterBegin(a, now, sid, run, buildOk);
    assert n.tasks == a.tasks && n.prompts[i] == a.prompts[i];
    SecureStill(a, n, i);
  }

  lemma SendSecure(a: Agent, now: int, pid: int, ok: bool, i: int)
    requires TableOk(a) && OneAtATime(a) && IsPrompt(a, i) && Secure(a, i)
    requires Unsettled(AfterSend(a, now, pid, ok).prompts[i])
    ensures Secure(AfterSend(a, now, pid, ok), i)
  {
    hide AfterClearRun, Settling, Resolves;
    var n := AfterSend(a, now, pid, ok);
    assert n.tasks == a.tasks;
    if InTable(a, i) && i != pid && IsPrompt(a, pid) && a.prompts[pid].send.Sending? {
      assert !Returned(a.prompts[i]) && !Returned(a.prompts[pid]);
      assert a.prompts[i].sid != a.prompts[pid].sid;
    }
    SecureStill(a, n, i);
  }

  /** Whoever found its prompt in the table displaces nobody. */
  lemma FinishFoundSecure(a: Agent, now: int, pid: int, state: ChatState, i: int)
    requires TableOk(a) && IsPrompt(a, pid) && IsPrompt(a, i) && Secure(a, i) && (Ends(state) ==> !Displaces(a, pid))
    requires Unsettled(AfterRest(a, now, pid, state).prompts[i])
    ensures Secure(AfterRest(a, now, pid, state), i)
  {
    hide FinishBegin, TableOk, Displaces, Settling;
    if Ends(state) {
      FinishLate(a, now, pid, FinishReason(state));
      LateSecure(a, FinishBegin(a, now, pid, FinishReason(state)), pid, i);
    }
  }

  lemma ChatTextSecure(a: Agent, now: int, pid: int, content: seq<Block>, state: ChatState, i: int)
    requires TableOk(a) && IsPrompt(a, pid) && InTable(a, pid) && IsPrompt(a, i) && Secure(a, i)
    requires Unsettled(AfterText(a, now, pid, content, state).prompts[i])
    ensures Secure(AfterText(a, now, pid, content, state), i)
  {
    var b := SetPrompt(a, pid, EmitText(a.prompts[pid], content));
    assert TableOk(b) by { PromptTableOk(a, pid, EmitText(a.prompts[pid], content)); }
    hide TableOk, Settling, Resolves, AfterRest, TextChunk;
    SecureStill(a, b, i);
    SecureStill(b, b.(tasks := b.tasks + multiset{Told(pid, state)}), i);
    if TextChunk(a.prompts[pid], content) == "" { FinishFoundSecure(b, now, pid, state, i); }
  }

  lemma ChatSecure(a: Agent, now: int, key: string, run: Option<string>, state: ChatState, message: Option<seq<Block>>,
                   i: int)
    requires TableOk(a) && IsPrompt(a, i) && Secure(a, i) && IsPrompt(AfterChat(a, now, key, run, state, message), i)
    requires Unsettled(AfterChat(a, now, key, run, state, message).prompts[i])
    ensures Secure(AfterChat(a, now, key, run, state, message), i)
  {
    hide TableOk, Settling, Resolves, AfterRest, AfterText, ThoughtChunk, FindPending;
    FoundIsInTable(a, key, run);
    var found := FindPending(a, key, run);
    if found.Some? {
      var pid := found.value;
      if message.Some? && (state.Delta? || state.Final?) {
        var q := EmitThought(a.prompts[pid], message.value);
        var b := SetPrompt(a, pid, q);
        ThoughtTableOk(a, pid, message.value);
        SecureStill(a, b, i);
        SecureStill(b, b.(tasks := b.tasks + multiset{Text(pid, message.value, state)}), i);
        if ThoughtChunk(a.prompts[pid], message.value) == "" { ChatTextSecure(b, now, pid, message.value, state, i); }
      } else {
        FinishFoundSecure(a, now, pid, state, i);
      }
    }
  }

  lemma ThoughtTableOk(a: Agent, pid: int, content: seq<Block>)
    requires TableOk(a) && IsPrompt(a, pid)
    ensures TableOk(SetPrompt(a, pid, EmitThought(a.prompts[pid], content)))
  {
    hide ThoughtChunk;
    PromptTableOk(a, pid, EmitThought(a.prompts[pid], content));
  }

  /** A handler that waited for the client goes on to wait, or is through with an event that does not end its prompt. */
  lemma ToldSecure(a: Agent, now: int, step: Step, i: int)
    requires (step.TextResume? || step.ToldResume?) && LateFor(a, step).None? && IsPrompt(a, i) && Secure(a, i)
    ensures IsPrompt(L.Next(a, now, step), i) && Secure(L.Next(a, now, step), i)
  {
    hide L.Next, LateFor, Settling, Resolves;
    var n := L.Next(a, now, step);
    ToldEffect(a, now, step);
    assert n.prompts[i].sid == a.prompts[i].sid;
    if Settling(a, i) { StillSettles(a, n, step, i); }
  }

  /** What such a step does to the handlers that will resolve a prompt: the one that resumes may wait again. */
  lemma ToldEffect(a: Agent, now: int, step: Step)
    requires (step.TextResume? || step.ToldResume?) && LateFor(a, step).None?
    ensures var n := L.Next(a, now, step);
      n.pending == a.pending && |n.prompts| == |a.prompts| &&
      (forall i :: 0 <= i < |a.prompts| ==> n.prompts[i].sid == a.prompts[i].sid) &&
      forall t :: t in a.tasks && Resolves(t) ==> t in n.tasks || WaitsAgain(n, step, t)
  {
    hide TextChunk, FinishBegin;
  }

  predicate WaitsAgain(n: Agent, step: Step, t: Task) {
    step.TextResume? && t.pid == step.pid && Ends(step.state) && Told(step.pid, step.state) in n.tasks
  }

  lemma StillSettles(a: Agent, n: Agent, step: Step, i: int)
    requires Settling(a, i)
    requires forall t :: t in a.tasks && Resolves(t) ==> t in n.tasks || WaitsAgain(n, step, t)
    ensures Settling(n, i)
  {
    var t :| t in a.tasks && t.pid == i && Resolves(t);
    if t !in n.tasks { SettlesBy(n, Told(step.pid, step.state)); }
  }

  lemma SettlesBy(a: Agent, t: Task)
    requires t in a.tasks && Resolves(t)
    ensures Settling(a, t.pid)
  {
  }

  // The other steps take no entry out of the table, and no handler away from an unresolved prompt.

  lemma WaitingSecure(a: Agent, n: Agent, i: int)
    requires IsPrompt(a, i) && Secure(a, i) && n.prompts == a.prompts && n.pending == a.pending
    requires forall t :: t in a.tasks && Resolves(t) ==> t in n.tasks
    ensures Secure(n, i)
  {
    hide Settling, Resolves;
    SecureStill(a, n, i);
  }

  lemma AskSecure(a: Agent, pid: int, i: int)
    requires IsPrompt(a, i) && Secure(a, i)
    ensures Secure(AfterAsk(a, pid), i)
  {
    hide AfterAsk, Secure;
    AskFacts(a, pid);
    WaitingSecure(a, AfterAsk(a, pid), i);
  }

  lemma ReconnectSecure(a: Agent, i: int)
    requires TableOk(a) && IsPrompt(a, i) && Secure(a, i)
    ensures Secure(AfterReconnectBegin(a), i)
  {
    hide AfterReconnectBegin, Secure, TableOk;
    ReconnectFacts(a);
    WaitingSecure(a, AfterReconnectBegin(a), i);
  }

  lemma NotOverSecure(a: Agent, now: int, pid: int, ok: bool, i: int)
    requires IsPrompt(a, i) && Secure(a, i) && LateFor(a, ReconnectReply(pid, ok)).None?
    ensures Secure(AfterReply(a, now, pid, ok), i)
  {
    hide Secure, FinishBegin;
    WaitingSecure(a, AfterReply(a, now, pid, ok), i);
  }

  lemma CancelBeginSecure(a: Agent, now: int, sid: string, i: int)
    requires IsPrompt(a, i) && Secure(a, i)
    ensures Secure(AfterCancelBegin(a, now, sid), i)
  {
    hide Secure, AfterGet, AfterCancelRun;
    WaitingSecure(a, AfterCancelBegin(a, now, sid), i);
  }

  lemma FinishResumeSecure(a: Agent, pid: int, reason: StopReason, i: int)
    requires IsPrompt(a, i) && Secure(a, i) && Unsettled(AfterFinishResume(a, pid, reason).prompts[i])
    ensures Secure(AfterFinishResume(a, pid, reason), i)
  {
    hide Settling, Resolves;
    var n := AfterFinishResume(a, pid, reason);
    assert n.pending == a.pending && n.prompts[i].sid == a.prompts[i].sid;
    SecureStill(a, n, i);
  }

  lemma CancelOverSecure(a: Agent, pid: int, i: int)
    requires IsPrompt(a, i) && Secure(a, i) && LateFor(a, CancelResume(pid)).None? && Unsettled(a.prompts[i])
    ensures IsPrompt(AfterCancelResume(a, pid), i) && Secure(AfterCancelResume(a, pid), i)
  {
    hide Settling, Resolves;
    var n := AfterCancelResume(a, pid);
    assert n.pending == a.pending && n.prompts == a.prompts;
    SecureStill(a, n, i);
  }

  lemma CreateSecure(a: Agent, st: Store, i: int)
    requires IsPrompt(a, i) && Secure(a, i)
    ensures Secure(a.(store := st), i)
  {
    hide Secure;
    WaitingSecure(a, a.(store := st), i);
  }

  lemma NextSecure(a: Agent, now: int, step: Step, i: int)
    requires TableOk(a) && OneAtATime(a) && OneByOne(a, step) && !Displacing(a, step)
    requires IsPrompt(a, i) && Secure(a, i) && IsPrompt(L.Next(a, now, step), i)
    requires Unsettled(a.prompts[i]) && Unsettled(L.Next(a, now, step).prompts[i])
    ensures Secure(L.Next(a, now, step), i)
  {
    if LateFor(a, step).Some? {
      hide TableOk, Displaces, Secure, L.Next, LateChange, LateFor;
      LateEffect(a, now, step, LateFor(a, step).value);
      LateSecure(a, L.Next(a, now, step), LateFor(a, step).value, i);
    } else {
      hide TableOk, Secure, AfterBegin, AfterSend, AfterChat, OneAtATime, LateFor, Displaces;
      hide AfterTextResume, AfterToldResume, AfterFinishResume, AfterCancelBegin, AfterCancelResume,
        AfterReconnectBegin;
      hide AfterAsk, AfterReply, AfterCreate, Valid;
      match step
      case BeginPrompt(sid, run, buildOk) => BeginSecure(a, now, sid, run, buildOk, i);
      case SendAccepted(pid) => SendSecure(a, now, pid, true, i);
      case SendFailed(pid) => SendSecure(a, now, pid, false, i);
      case Chat(key, runId, state, message) => ChatSecure(a, now, key, runId, state, message, i);
      case TextResume(_, _, _) => ToldSecure(a, now, step, i);
      case ToldResume(_, _) => ToldSecure(a, now, step, i);
      case CreateSession(sid, key, cwd) =>
        if Valid(a.store) { CreateSecure(a, AfterCreate(a.store, now, sid, key, cwd).0, i); }
      case FinishResume(pid, reason) => FinishResumeSecure(a, pid, reason, i);
      case CancelBegin(sid) => CancelBeginSecure(a, now, sid, i);
      case CancelResume(pid) => CancelOverSecure(a, pid, i);
      case ReconnectBegin => ReconnectSecure(a, i);
      case ReconnectAsk(pid) => AskSecure(a, pid, i);
      case ReconnectReply(pid, ok) => NotOverSecure(a, now, pid, ok, i);
    }
  }

  /** A new prompt is in the table. */
  lemma NewIsSecure(a: Agent, now: int, step: Step, i: int)
    requires IsPrompt(L.Next(a, now, step), i) && !IsPrompt(a, i)
    ensures Secure(L.Next(a, now, step), i)
  {
    NextPrompts(a, now, step);
    NewInTable(a, now, step);
    hide L.Next, Settling;
  }

  lemma NewInTable(a: Agent, now: int, step: Step)
    requires step.BeginPrompt? && |L.Next(a, now, step).prompts| == |a.prompts| + 1
    ensures InTable(L.Next(a, now, step), |a.prompts|)
  {
    hide AfterGet, AfterCancelRun, AfterSetRun;
  }

  lemma SettledBefore(a: Agent, now: int, step: Step, i: int)
    requires Basic(a) && FreshRun(a, step) && IsPrompt(a, i)
    ensures IsPrompt(L.Next(a, now, step), i)
    ensures Unsettled(L.Next(a, now, step).prompts[i]) ==> Unsettled(a.prompts[i])
  {
    hide Basic, L.Next, MaySpeak, InTable, FreshRun;
    NextKeeps(a, now, step);
    assert PromptEvolves(a, L.Next(a, now, step), i);
  }

  /** While prompts come one at a time and none is stranded, a step strands one if and only if it is that of a late
      handler that displaces a prompt. */
  lemma {:induction false} StrandsIff(a: Agent, now: int, step: Step)
    requires Basic(a) && OneAtATime(a) && NoneStranded(a) && FreshRun(a, step) && OneByOne(a, step)
    ensures NoneStranded(L.Next(a, now, step)) <==> !Displacing(a, step)
  {
    assert TableOk(a);
    var n := L.Next(a, now, step);
    hide Basic, L.Next, FreshRun, OneByOne, Displaces, LateChange, LateFor, TableOk, Secure, OneAtATime;
    if Displacing(a, step) {
      LateEffect(a, now, step, LateFor(a, step).value);
      LateStrands(a, n, LateFor(a, step).value);
    } else {
      forall i | IsPrompt(n, i) && Unsettled(n.prompts[i]) ensures Secure(n, i) {
        if IsPrompt(a, i) {
          SettledBefore(a, now, step, i);
          NextSecure(a, now, step, i);
        } else {
          NewIsSecure(a, now, step, i);
        }
      }
    }
  }

  ghost predicate Good(a: Agent) {
    Views(a) && NoneStranded(a)
  }

  lemma GoodParts(a: Agent)
    requires Good(a)
    ensures Views(a) && Basic(a) && OneAtATime(a) && NoneStranded(a)
  {
    hide Basic, OneAtATime, NoneStranded;
  }

  lemma {:induction false} NextGood(a: Agent, now: int, step: Step)
    requires Good(a) && Orderly(a, step)
    ensures Good(L.Next(a, now, step))
  {
    GoodParts(a);
    hide Views, Basic, OneAtATime, NoneStranded, L.Next, FreshRun, Sequential, Displacing;
    NextViews(a, now, step);
    StrandsIff(a, now, step);
  }

  lemma {:induction false} RunGood(a: Agent, steps: seq<(int, Step)>)
    requires Good(a) && OrderlyRun(a, steps)
    ensures Good(L.Run(a, steps))
    decreases |steps|
  {
    hide Good, L.Next, Orderly;
    if |steps| != 0 {
      NextGood(a, steps[0].0, steps[0].1);
      RunGood(L.Next(a, steps[0].0, steps[0].1), steps[1..]);
    }
  }

  /** Over every orderly run from the start, no prompt is stranded: each unsettled one can be reached by events or is
      about to be resolved. */
  lemma {:induction false} NoneStrandedInOrder(maxSessions: int, idleTtlMs: int, steps: seq<(int, Step)>)
    requires 1 <= maxSessions && OrderlyRun(Start(maxSessions, idleTtlMs), steps)
    ensures NoneStranded(L.Run(Start(maxSessions, idleTtlMs), steps)) &&
      Views(L.Run(Start(maxSessions, idleTtlMs), steps))
  {
    var a := Start(maxSessions, idleTtlMs);
    StartViews(maxSessions, idleTtlMs);
    assert NoneStranded(a);
    hide Views, L.Run, OrderlyRun, NoneStranded;
    RunGood(a, steps);
  }

  /** Once every handler has run to its end, the prompts still waiting are exactly those in the table, and exactly those
      their sessions are running. */
  lemma {:induction false} QuietMeansPending(a: Agent, pid: int)
    requires Good(a) && a.tasks == multiset{} && IsPrompt(a, pid)
    ensures Unsettled(a.prompts[pid]) <==> InTable(a, pid)
    ensures InTable(a, pid) <==> RunsIn(a.store, a.prompts[pid].sid, a.prompts[pid].run)
  {
    hide Valid, TasksOk, StreamsOk, Agrees, OneAtATime, RunsIn;
    var p := a.prompts[pid];
    if Unsettled(p) { assert Secure(a, pid) && !Settling(a, pid); }
    assert InTable(a, pid) ==> PendingRun(a, p.sid, p.run);
    if RunsIn(a.store, p.sid, p.run) { assert PendingRun(a, p.sid, p.run); }
  }
}
