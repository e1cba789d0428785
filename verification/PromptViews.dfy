/** When the run index, the sessions' active runs and the table of pending prompts name the same runs. */
module PromptViews {
  import opened PyText
  import opened PyDict
  import opened Streaming
  import opened S = SessionStore
  import opened L = PromptLifecycle
  import opened PromptEvolution

  /** The call of `prompt` is over. */
  predicate Returned(p: Prompt) {
    p.send.Failed? || (p.send.Accepted? && p.result.Some?)
  }

  ghost predicate OneAtATime(a: Agent) {
    forall i, j :: 0 <= i < j < |a.prompts| && a.prompts[i].sid == a.prompts[j].sid ==> Returned(a.prompts[i])
  }

  /** Session `sid` has pending a prompt whose run is `r`. */
  predicate PendingRun(a: Agent, sid: string, r: string) {
    sid in a.pending.vals && IsPrompt(a, a.pending.vals[sid]) && a.prompts[a.pending.vals[sid]].run == r
  }

  /** `cancel` has cleared the run of the prompt that session `sid` has pending, and waits for `chat.abort`. */
  predicate BeingCancelled(a: Agent, sid: string)
    requires sid in a.pending.vals
  {
    CancelPending(a.pending.vals[sid]) in a.tasks
  }

  /** A pending prompt's run is its session's active run if and only if it is not being cancelled. */
  ghost predicate TableInStore(a: Agent) {
    forall sid, r :: PendingRun(a, sid, r) ==> (RunsIn(a.store, sid, r) <==> !BeingCancelled(a, sid))
  }

  ghost predicate StoreInTable(a: Agent) {
    forall sid, r :: RunsIn(a.store, sid, r) ==> PendingRun(a, sid, r)
  }

  ghost predicate Views(a: Agent) {
    Basic(a) && Agrees(a.store) && OneAtATime(a) && TableInStore(a) && StoreInTable(a)
  }

  /** No later prompt has taken this one's place in the table. */
  predicate NotReplaced(a: Agent, pid: int)
    requires IsPrompt(a, pid)
  {
    a.prompts[pid].sid in a.pending.vals ==> a.pending.vals[a.prompts[pid].sid] == pid
  }

  /** A cancel may resume unless it would drop a later prompt that is running. */
  predicate MayResumeCancel(a: Agent, pid: int)
    requires IsPrompt(a, pid)
  {
    a.prompts[pid].result.Some? || NotReplaced(a, pid) || BeingCancelled(a, a.prompts[pid].sid)
  }

  /** A session is prompted only after its earlier prompts have returned. */
  predicate OneByOne(a: Agent, step: Step) {
    step.BeginPrompt? ==> forall i :: 0 <= i < |a.prompts| && a.prompts[i].sid == step.sid ==> Returned(a.prompts[i])
  }

  /** And a cancel resumes only if it may. */
  predicate Sequential(a: Agent, step: Step) {
    OneByOne(a, step) &&
    (step.CancelResume? && IsPrompt(a, step.pid) && CancelPending(step.pid) in a.tasks ==> MayResumeCancel(a, step.pid))
  }

  ghost predicate SequentialRun(a: Agent, steps: seq<(int, Step)>)
    decreases |steps|
  {
    |steps| == 0 ||
    (FreshRun(a, steps[0].1) && Sequential(a, steps[0].1) &&
      SequentialRun(L.Next(a, steps[0].0, steps[0].1), steps[1..]))
  }

  // ---- What each store call does to the runs ----

  lemma ClearRunEffect(st: Store, now: int, k: string)
    ensures forall x, r :: RunsIn(AfterClearRun(st, now, k), x, r) <==> RunsIn(st, x, r) && x != k
  {
  }

  lemma CancelRunEffect(st: Store, now: int, k: string)
    requires Valid(st) && Agrees(st)
    ensures forall x, r :: RunsIn(AfterCancelRun(st, now, k), x, r) <==> RunsIn(st, x, r) && x != k
    ensures Agrees(AfterCancelRun(st, now, k))
  {
    S.NextAgrees(st, now, CancelRun(k));
  }

  lemma GetEffect(st: Store, now: int, k: string)
    requires Valid(st) && Agrees(st)
    ensures forall x, r :: RunsIn(AfterGet(st, now, k), x, r) <==> RunsIn(st, x, r)
    ensures Agrees(AfterGet(st, now, k)) && Valid(AfterGet(st, now, k))
  {
    S.NextAgrees(st, now, Get(k));
  }

  lemma SetRunEffect(st: Store, now: int, k: string, run: string, abort: int)
    requires k in st.sessions.vals
    ensures forall x, r :: RunsIn(AfterSetRun(st, now, k, run, abort), x, r) <==>
      if x == k then r == run else RunsIn(st, x, r)
  {
  }

  // ---- One prompt at a time ----

  /** Prompts are only ever added one by one, by `prompt`. */
  lemma NextPrompts(a: Agent, now: int, step: Step)
    ensures |L.Next(a, now, step).prompts| == |a.prompts| ||
      (step.BeginPrompt? && |L.Next(a, now, step).prompts| == |a.prompts| + 1 &&
       L.Next(a, now, step).prompts[|a.prompts|].sid == step.sid)
  {
    hide AfterGet, AfterCancelRun, AfterSetRun, AfterClearRun, AfterCreate, Valid, FindPending, TextChunk, ThoughtChunk;
  }

  lemma NextOneAtATime(a: Agent, now: int, step: Step)
    requires Basic(a) && FreshRun(a, step) && OneByOne(a, step) && OneAtATime(a)
    ensures OneAtATime(L.Next(a, now, step))
  {
    var n := L.Next(a, now, step);
    hide Basic, L.Next, FreshRun, InTable, MaySpeak;
    NextKeeps(a, now, step);
    NextPrompts(a, now, step);
    forall i | 0 <= i < |a.prompts|
      ensures n.prompts[i].sid == a.prompts[i].sid && (Returned(a.prompts[i]) ==> Returned(n.prompts[i]))
    {
      assert PromptEvolves(a, n, i);
    }
  }

  // ---- The parts of a step keep the views ----

  /** What a step does to table and store is all that the views depend on. */
  ghost predicate SameViews(a: Agent, n: Agent) {
    |a.prompts| <= |n.prompts| && (forall i :: 0 <= i < |a.prompts| ==> n.prompts[i].run == a.prompts[i].run) &&
    n.pending == a.pending && Agrees(n.store) && (forall x, r :: RunsIn(n.store, x, r) <==> RunsIn(a.store, x, r)) &&
    forall sid :: sid in a.pending.vals ==>
      IsPrompt(a, a.pending.vals[sid]) && (BeingCancelled(n, sid) <==> BeingCancelled(a, sid))
  }

  ghost predicate TablesAgree(a: Agent) {
    Agrees(a.store) && TableInStore(a) && StoreInTable(a)
  }

  lemma SameViewsAgree(a: Agent, n: Agent)
    requires TablesAgree(a) && SameViews(a, n)
    ensures TablesAgree(n)
  {
    hide Agrees, RunsIn;
    assert forall sid, r :: PendingRun(n, sid, r) <==> PendingRun(a, sid, r);
  }

  /** Taking whatever is pending for `sid` out of table and store. */
  lemma DropAgrees(a: Agent, now: int, sid: string)
    requires TablesAgree(a) && a.pending.Valid()
    ensures TablesAgree(DropPending(a, now, sid))
  {
    var d := DropPending(a, now, sid);
    ClearRunEffect(a.store, now, sid);
    ClearRunAgrees(a.store, now, sid);
    hide Agrees, RunsIn, AfterClearRun;
    assert d.pending.vals == a.pending.vals - {sid} && d.tasks == a.tasks;
    assert forall x, r :: PendingRun(d, x, r) <==> PendingRun(a, x, r) && x != sid;
    forall x, r | PendingRun(d, x, r) ensures RunsIn(d.store, x, r) <==> !BeingCancelled(d, x) {
      assert PendingRun(a, x, r);
    }
    forall x, r | RunsIn(d.store, x, r) ensures PendingRun(d, x, r) { assert PendingRun(a, x, r); }
  }

  lemma FinishAgrees(a: Agent, now: int, pid: int, reason: StopReason)
    requires TablesAgree(a) && TableOk(a) && IsPrompt(a, pid)
    ensures TablesAgree(FinishBegin(a, now, pid, reason))
  {
    hide TablesAgree, DropPending, Agrees, RunsIn;
    var d := DropPending(a, now, a.prompts[pid].sid);
    DropAgreesOk(a, now, a.prompts[pid].sid);
    WaitingAgrees(d, d.tasks + multiset{Finish(pid, reason)});
  }

  lemma DropTableOk(a: Agent, now: int, sid: string)
    requires TableOk(a)
    ensures TableOk(DropPending(a, now, sid))
  {
    hide AfterClearRun;
  }

  /** Handlers other than cancels may start and stop waiting; so may the cancel of a prompt out of the table. */
  lemma WaitingAgrees(a: Agent, tasks: multiset<Task>)
    requires TablesAgree(a) && TableOk(a)
    requires forall i :: IsPrompt(a, i) && InTable(a, i) ==>
      (CancelPending(i) in tasks <==> CancelPending(i) in a.tasks)
    ensures TablesAgree(a.(tasks := tasks))
  {
    assert Agrees(a.store);
    hide TablesAgree, Agrees, RunsIn;
    SameViewsAgree(a, a.(tasks := tasks));
  }

  lemma PromptAgrees(a: Agent, pid: int, q: Prompt)
    requires TablesAgree(a) && TableOk(a) && IsPrompt(a, pid) && q.run == a.prompts[pid].run
    ensures TablesAgree(SetPrompt(a, pid, q))
  {
    assert Agrees(a.store);
    hide TablesAgree, Agrees, RunsIn;
    SameViewsAgree(a, SetPrompt(a, pid, q));
  }

  lemma StoreAgrees(a: Agent, st: Store)
    requires TablesAgree(a) && TableOk(a) && Agrees(st) && forall x, r :: RunsIn(st, x, r) <==> RunsIn(a.store, x, r)
    ensures TablesAgree(a.(store := st))
  {
    hide TablesAgree, Agrees, RunsIn;
    SameViewsAgree(a, a.(store := st));
  }

  lemma PromptTableOk(a: Agent, pid: int, q: Prompt)
    requires TableOk(a) && IsPrompt(a, pid) && q.sid == a.prompts[pid].sid
    requires InTable(a, pid) ==> q.result.None? && !q.send.Failed?
    ensures TableOk(SetPrompt(a, pid, q))
  {
  }

  // ---- The steps keep the views ----

  lemma RestAgrees(a: Agent, now: int, pid: int, state: ChatState)
    requires TablesAgree(a) && TableOk(a) && IsPrompt(a, pid)
    ensures TablesAgree(AfterRest(a, now, pid, state))
  {
    hide TablesAgree, TableOk, FinishBegin, FinishReason;
    if Ends(state) { FinishAgrees(a, now, pid, FinishReason(state)); }
  }

  lemma TextAgrees(a: Agent, now: int, pid: int, content: seq<Block>, state: ChatState)
    requires TablesAgree(a) && TableOk(a) && IsPrompt(a, pid)
    ensures TablesAgree(AfterText(a, now, pid, content, state))
  {
    var q := EmitText(a.prompts[pid], content);
    assert InTable(a, pid) ==> q.result.None? && !q.send.Failed?;
    hide TablesAgree, TableOk, AfterRest, TextChunk;
    PromptAgrees(a, pid, q);
    PromptTableOk(a, pid, q);
    var b := SetPrompt(a, pid, q);
    WaitingAgrees(b, b.tasks + multiset{Told(pid, state)});
    RestAgrees(b, now, pid, state);
  }

  lemma ThoughtAgrees(a: Agent, now: int, pid: int, content: seq<Block>, state: ChatState)
    requires TablesAgree(a) && TableOk(a) && IsPrompt(a, pid)
    ensures TablesAgree(AfterThought(a, now, pid, content, state))
  {
    var q := EmitThought(a.prompts[pid], content);
    assert InTable(a, pid) ==> q.result.None? && !q.send.Failed?;
    hide TablesAgree, TableOk, AfterText, ThoughtChunk;
    PromptAgrees(a, pid, q);
    PromptTableOk(a, pid, q);
    var b := SetPrompt(a, pid, q);
    WaitingAgrees(b, b.tasks + multiset{Text(pid, content, state)});
    TextAgrees(b, now, pid, content, state);
  }

  lemma ChatAgrees(a: Agent, now: int, key: string, run: Option<string>, state: ChatState, message: Option<seq<Block>>)
    requires TablesAgree(a) && TableOk(a)
    ensures TablesAgree(AfterChat(a, now, key, run, state, message))
  {
    hide TablesAgree, TableOk, AfterRest, AfterThought, FindPending;
    FoundIsInTable(a, key, run);
    var found := FindPending(a, key, run);
    if found.Some? {
      RestAgrees(a, now, found.value, state);
      if message.Some? { ThoughtAgrees(a, now, found.value, message.value, state); }
    }
  }

  lemma StopsTableOk(a: Agent, tasks: multiset<Task>)
    requires TableOk(a)
    ensures TableOk(a.(tasks := tasks))
  {
  }

  lemma TextResumeAgrees(a: Agent, now: int, pid: int, content: seq<Block>, state: ChatState)
    requires TablesAgree(a) && TableOk(a)
    ensures TablesAgree(AfterTextResume(a, now, pid, content, state))
  {
    hide TablesAgree, TableOk, AfterText;
    if Text(pid, content, state) in a.tasks && IsPrompt(a, pid) {
      var b := a.(tasks := a.tasks - multiset{Text(pid, content, state)});
      WaitingAgrees(a, b.tasks);
      StopsTableOk(a, b.tasks);
      TextAgrees(b, now, pid, content, state);
    }
  }

  lemma ToldResumeAgrees(a: Agent, now: int, pid: int, state: ChatState)
    requires TablesAgree(a) && TableOk(a)
    ensures TablesAgree(AfterToldResume(a, now, pid, state))
  {
    hide TablesAgree, TableOk, AfterRest;
    if Told(pid, state) in a.tasks && IsPrompt(a, pid) {
      var b := a.(tasks := a.tasks - multiset{Told(pid, state)});
      WaitingAgrees(a, b.tasks);
      StopsTableOk(a, b.tasks);
      RestAgrees(b, now, pid, state);
    }
  }

  lemma FinishResumeAgrees(a: Agent, pid: int, reason: StopReason)
    requires TablesAgree(a) && TableOk(a) && TasksOk(a)
    ensures TablesAgree(AfterFinishResume(a, pid, reason))
  {
    assert Finish(pid, reason) in a.tasks ==> IsPrompt(a, pid) && !InTable(a, pid);
    hide TablesAgree, TableOk, TasksOk;
    if Finish(pid, reason) in a.tasks {
      var b := a.(tasks := a.tasks - multiset{Finish(pid, reason)});
      WaitingAgrees(a, b.tasks);
      StopsTableOk(a, b.tasks);
      PromptAgrees(b, pid, a.prompts[pid].(result := Some(reason)));
    }
  }

  lemma SendAgrees(a: Agent, now: int, pid: int, ok: bool)
    requires TablesAgree(a) && TableOk(a)
    ensures TablesAgree(AfterSend(a, now, pid, ok))
  {
    hide TablesAgree, TableOk, DropPending;
    if IsPrompt(a, pid) && a.prompts[pid].send.Sending? {
      var p := a.prompts[pid];
      PromptAgrees(a, pid, p.(send := Accepted));
      DropAgreesOk(a, now, p.sid);
      PromptAgrees(DropPending(a, now, p.sid), pid, p.(send := Failed));
    }
  }

  lemma DropAgreesOk(a: Agent, now: int, sid: string)
    requires TablesAgree(a) && TableOk(a)
    ensures var d := DropPending(a, now, sid);
      TablesAgree(d) && TableOk(d) && d.prompts == a.prompts && d.tasks == a.tasks
  {
    hide TablesAgree;
    DropAgrees(a, now, sid);
    DropTableOk(a, now, sid);
  }

  lemma ReplyAgrees(a: Agent, now: int, pid: int, ok: bool)
    requires TablesAgree(a) && TableOk(a)
    ensures TablesAgree(AfterReply(a, now, pid, ok))
  {
    hide TablesAgree, TableOk, FinishBegin;
    if Wait(pid) in a.tasks && IsPrompt(a, pid) {
      WaitingAgrees(a, a.tasks - multiset{Wait(pid)});
      StopsTableOk(a, a.tasks - multiset{Wait(pid)});
      FinishAgrees(StopWaiting(a, pid), now, pid, EndTurn);
    }
  }

  lemma ReconnectAgrees(a: Agent)
    requires TablesAgree(a) && TableOk(a)
    ensures TablesAgree(AfterReconnectBegin(a))
  {
    hide TablesAgree, TableOk, AfterReconnectBegin;
    ReconnectFacts(a);
    WaitingAgrees(a, AfterReconnectBegin(a).tasks);
  }

  lemma AskAgrees(a: Agent, pid: int)
    requires TablesAgree(a) && TableOk(a)
    ensures TablesAgree(AfterAsk(a, pid))
  {
    hide TablesAgree, TableOk, AfterAsk;
    AskFacts(a, pid);
    WaitingAgrees(a, AfterAsk(a, pid).tasks);
  }

  lemma CancelAgrees(a: Agent, now: int, sid: string)
    requires TablesAgree(a) && TableOk(a) && Valid(a.store)
    ensures TablesAgree(AfterCancelBegin(a, now, sid))
  {
    if sid in a.store.sessions.vals {
      var n := AfterCancelBegin(a, now, sid);
      CancelBeginEffect(a, now, sid);
      hide AfterCancelBegin, Agrees, RunsIn, Valid;
      forall x, r | PendingRun(n, x, r) ensures RunsIn(n.store, x, r) <==> !BeingCancelled(n, x) {
        assert PendingRun(a, x, r);
        assert sid in a.pending.vals && x != sid ==> a.pending.vals[x] != a.pending.vals[sid];
      }
      forall x, r | RunsIn(n.store, x, r) ensures PendingRun(n, x, r) { assert PendingRun(a, x, r); }
    }
  }

  lemma CancelBeginEffect(a: Agent, now: int, sid: string)
    requires Agrees(a.store) && Valid(a.store) && sid in a.store.sessions.vals
    ensures var n := AfterCancelBegin(a, now, sid);
      Agrees(n.store) && n.prompts == a.prompts && n.pending == a.pending &&
      (forall x, r :: RunsIn(n.store, x, r) <==> RunsIn(a.store, x, r) && x != sid) &&
      forall t :: t in n.tasks <==>
        t in a.tasks || (sid in a.pending.vals && t == CancelPending(a.pending.vals[sid]))
  {
    hide AfterGet, AfterCancelRun, RunsIn;
    GetEffect(a.store, now, sid);
    CancelRunEffect(AfterGet(a.store, now, sid), now, sid);
  }

  /** Resuming a cancel: the table may lose the session's entry. */
  lemma CancelResumeEffect(a: Agent, pid: int)
    requires CancelPending(pid) in a.tasks && IsPrompt(a, pid)
    ensures var n := AfterCancelResume(a, pid);
      n.store == a.store && |n.prompts| == |a.prompts| &&
      (forall i :: IsPrompt(a, i) ==> n.prompts[i].run == a.prompts[i].run) &&
      (forall t :: t != CancelPending(pid) ==> (t in n.tasks <==> t in a.tasks)) &&
      n.pending.vals == if a.prompts[pid].result.Some? then a.pending.vals else a.pending.vals - {a.prompts[pid].sid}
  {
  }

  lemma CancelResumeAgrees(a: Agent, pid: int)
    requires TablesAgree(a) && TableOk(a) && IsPrompt(a, pid) && MayResumeCancel(a, pid)
    ensures TablesAgree(AfterCancelResume(a, pid))
  {
    if CancelPending(pid) in a.tasks {
      var n, sid := AfterCancelResume(a, pid), a.prompts[pid].sid;
      CancelResumeEffect(a, pid);
      assert InTable(a, pid) ==> a.prompts[pid].result.None?;
      assert a.prompts[pid].result.None? && sid in a.pending.vals ==> BeingCancelled(a, sid);
      hide AfterCancelResume, Agrees, RunsIn;
      forall x, r | PendingRun(n, x, r) ensures RunsIn(n.store, x, r) <==> !BeingCancelled(n, x) {
        assert PendingRun(a, x, r) && a.pending.vals[x] != pid;
      }
      forall x, r | RunsIn(n.store, x, r) ensures PendingRun(n, x, r) {
        assert PendingRun(a, x, r);
      }
    }
  }

  /** The exact condition for a cancel that resumes: while the views agree, the store still names only pending runs
      afterwards if and only if the cancel may resume. */
  lemma {:induction false} CancelKeepsViewsIff(a: Agent, pid: int)
    requires Views(a) && IsPrompt(a, pid) && CancelPending(pid) in a.tasks
    ensures StoreInTable(AfterCancelResume(a, pid)) <==> MayResumeCancel(a, pid)
  {
    if MayResumeCancel(a, pid) {
      CancelResumeAgrees(a, pid);
    } else {
      var n, sid := AfterCancelResume(a, pid), a.prompts[pid].sid;
      CancelResumeEffect(a, pid);
      assert IsPrompt(a, a.pending.vals[sid]);
      var r := a.prompts[a.pending.vals[sid]].run;
      hide AfterCancelResume, Agrees, RunsIn, Basic;
      assert PendingRun(a, sid, r);
      assert RunsIn(n.store, sid, r) && !PendingRun(n, sid, r);
    }
  }

  lemma BeginAgrees(a: Agent, now: int, sid: string, run: string, buildOk: bool)
    requires Views(a) && FreshRun(a, BeginPrompt(sid, run, buildOk)) && Sequential(a, BeginPrompt(sid, run, buildOk))
    ensures TablesAgree(AfterBegin(a, now, sid, run, buildOk))
  {
    if sid in a.store.sessions.vals {
      NothingPending(a, sid);
      BeginTouches(a, now, sid);
      BeginIs(a, now, sid, run, buildOk);
      hide Agrees, RunsIn, AfterBegin, Basic, FreshRun, Sequential, Views;
      ViewsTables(a);
      var touched := AfterGet(a.store, now, sid);
      if buildOk {
        BeginIndexed(a, touched, now, sid, run);
        SetRunEffect(touched, now, sid, run, |a.prompts|);
        var n := AfterBegin(a, now, sid, run, buildOk);
        hide AfterSetRun, AfterGet;
        BeginRest(a, n, sid, run);
      } else {
        StoreAgrees(a, touched);
      }
    }
  }

  lemma ViewsTables(a: Agent)
    requires Views(a)
    ensures TablesAgree(a) && TableOk(a) && TasksOk(a)
  {
  }

  lemma NothingPending(a: Agent, sid: string)
    requires Views(a) && forall i :: 0 <= i < |a.prompts| && a.prompts[i].sid == sid ==> Returned(a.prompts[i])
    ensures sid !in a.pending.vals && forall r :: !RunsIn(a.store, sid, r)
  {
    hide Valid, Agrees, RunsIn, TasksOk, RunsDistinct, StreamsOk, TableInStore, OneAtATime;
    forall r ensures !RunsIn(a.store, sid, r) { assert RunsIn(a.store, sid, r) ==> PendingRun(a, sid, r); }
  }

  /** Getting an idle session changes no run, and finds no abort handle to call. */
  lemma BeginTouches(a: Agent, now: int, sid: string)
    requires Basic(a) && Agrees(a.store) && sid in a.store.sessions.vals && forall r :: !RunsIn(a.store, sid, r)
    ensures var touched := AfterGet(a.store, now, sid);
      sid in touched.sessions.vals && !Active(touched.sessions.vals[sid]) && Agrees(touched) &&
      touched.sessions.vals[sid].activeRunId.None? &&
      forall x, r :: RunsIn(touched, x, r) <==> RunsIn(a.store, x, r)
  {
    GetEffect(a.store, now, sid);
    NoRunIdle(AfterGet(a.store, now, sid), sid);
  }

  lemma BeginIs(a: Agent, now: int, sid: string, run: string, buildOk: bool)
    requires sid in a.store.sessions.vals && sid in AfterGet(a.store, now, sid).sessions.vals
    requires !Active(AfterGet(a.store, now, sid).sessions.vals[sid])
    ensures var n, touched := AfterBegin(a, now, sid, run, buildOk), AfterGet(a.store, now, sid);
      n.tasks == a.tasks &&
      (!buildOk ==> n == a.(store := touched)) &&
      (buildOk ==> (
        n.store == AfterSetRun(touched, now, sid, run, |a.prompts|) &&
        n.pending.vals == a.pending.vals[sid := |a.prompts|] &&
        n.prompts == a.prompts + [Prompt(sid, a.store.sessions.vals[sid].key, run, Sending, None, [], [], "", "")]))
  {
    hide AfterGet, AfterSetRun;
  }

  /** A valid session without a run has no abort either. */
  lemma NoRunIdle(st: Store, sid: string)
    requires Valid(st) && sid in st.sessions.vals && forall r :: !RunsIn(st, sid, r)
    ensures st.sessions.vals[sid].activeRunId.None? && !Active(st.sessions.vals[sid])
  {
    var s := st.sessions.vals[sid];
    if s.activeRunId.Some? {
      assert RunsIn(st, sid, s.activeRunId.value);
    }
  }

  lemma Indexed(st: Store, run: string) returns (holder: string)
    requires Agrees(st)
    ensures run in st.runs ==> RunsIn(st, holder, run)
  {
    holder := if run in st.runs then st.runs[run] else "";
  }

  lemma BeginIndexed(a: Agent, touched: Store, now: int, sid: string, run: string)
    requires StoreInTable(a) && FreshRun(a, BeginPrompt(sid, run, true)) && Agrees(touched) &&
      sid in touched.sessions.vals
    requires forall x, r :: RunsIn(touched, x, r) <==> RunsIn(a.store, x, r)
    requires touched.sessions.vals[sid].activeRunId.None?
    ensures Agrees(AfterSetRun(touched, now, sid, run, |a.prompts|))
  {
    hide Agrees, RunsIn;
    var holder := Indexed(touched, run);
    forall x ensures !RunsIn(touched, x, run) {
      assert RunsIn(a.store, x, run) ==> PendingRun(a, x, run);
    }
    SetRunAgreesIff(touched, now, sid, run, |a.prompts|);
  }

  lemma BeginRest(a: Agent, n: Agent, sid: string, run: string)
    requires TablesAgree(a) && TableOk(a) && TasksOk(a) && Agrees(n.store) && sid !in a.pending.vals &&
      n.tasks == a.tasks
    requires |n.prompts| == |a.prompts| + 1 && n.prompts[..|a.prompts|] == a.prompts &&
      n.prompts[|a.prompts|].run == run
    requires n.pending.vals == a.pending.vals[sid := |a.prompts|]
    requires forall x, r :: RunsIn(n.store, x, r) <==> if x == sid then r == run else RunsIn(a.store, x, r)
    ensures TablesAgree(n)
  {
    hide Agrees, RunsIn;
    assert forall i :: 0 <= i < |a.prompts| ==> n.prompts[i] == a.prompts[i];
    assert CancelPending(|a.prompts|) !in a.tasks;
    forall x, r ensures PendingRun(n, x, r) <==> if x == sid then r == run else PendingRun(a, x, r) {}
  }

  lemma CreateSessionAgrees(a: Agent, now: int, sid: string, key: string, cwd: string)
    requires TablesAgree(a) && TableOk(a) && Valid(a.store)
    ensures TablesAgree(a.(store := AfterCreate(a.store, now, sid, key, cwd).0))
  {
    assert Agrees(a.store);
    hide TablesAgree, TableOk, Agrees, AfterCreate, RunsIn, Valid;
    CreateAgrees(a.store, now, sid, key, cwd);
    var st := AfterCreate(a.store, now, sid, key, cwd).0;
    forall x, r ensures RunsIn(st, x, r) <==> RunsIn(a.store, x, r) {
      CreateKeepsActive(a.store, now, sid, key, cwd, x);
    }
    StoreAgrees(a, st);
  }

  predicate IsEventStep(step: Step) {
    step.Chat? || step.TextResume? || step.ToldResume? || step.FinishResume? || step.ReconnectBegin? ||
    step.ReconnectAsk? || step.ReconnectReply?
  }

  lemma EventAgrees(a: Agent, now: int, step: Step)
    requires TablesAgree(a) && TableOk(a) && TasksOk(a) && IsEventStep(step)
    ensures TablesAgree(L.Next(a, now, step))
  {
    hide TablesAgree, TableOk, TasksOk, AfterReconnectBegin, AfterAsk, AfterChat, AfterReply, AfterTextResume;
    hide AfterToldResume, AfterFinishResume;
    match step
    case Chat(key, runId, state, message) => ChatAgrees(a, now, key, runId, state, message);
    case TextResume(pid, content, state) => TextResumeAgrees(a, now, pid, content, state);
    case ToldResume(pid, state) => ToldResumeAgrees(a, now, pid, state);
    case FinishResume(pid, reason) => FinishResumeAgrees(a, pid, reason);
    case ReconnectBegin => ReconnectAgrees(a);
    case ReconnectAsk(pid) => AskAgrees(a, pid);
    case ReconnectReply(pid, ok) => ReplyAgrees(a, now, pid, ok);
  }

  lemma NextAgree(a: Agent, now: int, step: Step)
    requires Views(a) && FreshRun(a, step) && Sequential(a, step)
    ensures TablesAgree(L.Next(a, now, step))
  {
    assert Valid(a.store);
    ViewsTables(a);
    if IsEventStep(step) {
      hide Views, TablesAgree, TableOk, TasksOk, L.Next;
      EventAgrees(a, now, step);
    } else {
      CallAgrees(a, now, step);
    }
  }

  lemma CallAgrees(a: Agent, now: int, step: Step)
    requires Views(a) && Valid(a.store) && FreshRun(a, step) && Sequential(a, step) && !IsEventStep(step)
    requires TablesAgree(a) && TableOk(a) && TasksOk(a)
    ensures TablesAgree(L.Next(a, now, step))
  {
    hide Views, TablesAgree, TableOk, TasksOk, Valid, AfterCreate, AfterBegin, AfterSend, AfterCancelBegin;
    hide AfterCancelResume, MayResumeCancel, FreshRun, OneByOne;
    match step
    case CreateSession(sid, key, cwd) => CreateSessionAgrees(a, now, sid, key, cwd);
    case BeginPrompt(sid, run, buildOk) => BeginAgrees(a, now, sid, run, buildOk);
    case SendAccepted(pid) => SendAgrees(a, now, pid, true);
    case SendFailed(pid) => SendAgrees(a, now, pid, false);
    case CancelBegin(sid) => CancelAgrees(a, now, sid);
    case CancelResume(pid) =>
      if IsPrompt(a, pid) && CancelPending(pid) in a.tasks { CancelResumeAgrees(a, pid); }
      else { NoCancel(a, pid); }
  }

  lemma NoCancel(a: Agent, pid: int)
    requires !(IsPrompt(a, pid) && CancelPending(pid) in a.tasks)
    ensures AfterCancelResume(a, pid) == a
  {
  }

  lemma NextViews(a: Agent, now: int, step: Step)
    requires Views(a) && FreshRun(a, step) && Sequential(a, step)
    ensures Views(L.Next(a, now, step))
  {
    assert Basic(a) && OneAtATime(a);
    hide Basic, L.Next, FreshRun, Sequential, Agrees, TableInStore, StoreInTable, OneAtATime;
    NextAgree(a, now, step);
    NextKeeps(a, now, step);
    KeptBasic(a, L.Next(a, now, step));
    NextOneAtATime(a, now, step);
  }

  lemma {:induction false} RunViews(a: Agent, steps: seq<(int, Step)>)
    requires Views(a) && SequentialRun(a, steps)
    ensures Views(L.Run(a, steps))
    decreases |steps|
  {
    hide Views, L.Next, FreshRun, Sequential;
    if |steps| != 0 {
      NextViews(a, steps[0].0, steps[0].1);
      RunViews(L.Next(a, steps[0].0, steps[0].1), steps[1..]);
    }
  }

  // ---- What that means ----

  /** No session, no prompt, nothing under way. */
  function Start(maxSessions: int, idleTtlMs: int): Agent {
    Agent(Store(maxSessions, idleTtlMs, Empty(), map[], []), Empty(), [], multiset{})
  }

  lemma StartViews(maxSessions: int, idleTtlMs: int)
    requires 1 <= maxSessions
    ensures Views(Start(maxSessions, idleTtlMs))
  {
  }

  /** Over every sequential run from the start, whatever answers, snapshots and notifications come late: the run index
      and the active runs of sessions name each other; every active run is pending; and a pending run is active if and
      only if it is not being cancelled. */
  lemma {:induction false} ThreeViewsAgree(maxSessions: int, idleTtlMs: int, steps: seq<(int, Step)>)
    requires 1 <= maxSessions && SequentialRun(Start(maxSessions, idleTtlMs), steps)
    ensures var a := L.Run(Start(maxSessions, idleTtlMs), steps);
      forall sid, r ::
        ((r in a.store.runs && a.store.runs[r] == sid) <==> RunsIn(a.store, sid, r)) &&
        (RunsIn(a.store, sid, r) <==> PendingRun(a, sid, r) && !BeingCancelled(a, sid))
  {
    StartViews(maxSessions, idleTtlMs);
    RunViews(Start(maxSessions, idleTtlMs), steps);
    hide Basic, OneAtATime, L.Run, SequentialRun;
  }
}
