/** What every run keeps, however the handlers interleave, as long as run ids are fresh: results stick, a prompt that
    has left the table stays out and falls silent, and what is sent is what the snapshots call for. */
module PromptEvolution {
  import opened PyText
  import opened PyDict
  import opened Streaming
  import opened S = SessionStore
  import opened L = PromptLifecycle

  ghost predicate TableOk(a: Agent) {
    a.pending.Valid() &&
    forall sid :: sid in a.pending.vals ==>
      IsPrompt(a, a.pending.vals[sid]) && a.prompts[a.pending.vals[sid]].sid == sid &&
      a.prompts[a.pending.vals[sid]].result.None? && !a.prompts[a.pending.vals[sid]].send.Failed?
  }

  ghost predicate TasksOk(a: Agent) {
    forall t :: t in a.tasks ==> IsPrompt(a, t.pid) && (t.Finish? ==> !InTable(a, t.pid))
  }

  ghost predicate RunsDistinct(a: Agent) {
    forall i, j :: 0 <= i < j < |a.prompts| ==> a.prompts[i].run != a.prompts[j].run
  }

  function TextsOf(snapshots: seq<seq<Block>>): seq<seq<string>> {
    seq(|snapshots|, i requires 0 <= i < |snapshots| => TextParts(snapshots[i]))
  }

  function ThoughtsOf(snapshots: seq<seq<Block>>): seq<seq<string>> {
    seq(|snapshots|, i requires 0 <= i < |snapshots| => ThoughtParts(snapshots[i]))
  }

  /** What a prompt has sent is what the snapshots handled for it call for. */
  predicate StreamOk(p: Prompt) {
    p.text == Sent(TextsOf(p.texts)) && p.thought == Sent(ThoughtsOf(p.thoughts))
  }

  ghost predicate StreamsOk(a: Agent) {
    forall i :: 0 <= i < |a.prompts| ==> StreamOk(a.prompts[i])
  }

  ghost predicate Basic(a: Agent) {
    Valid(a.store) && TableOk(a) && TasksOk(a) && RunsDistinct(a) && StreamsOk(a)
  }

  /** Run ids are fresh: no earlier prompt has the new one's. */
  predicate FreshRun(a: Agent, step: Step) {
    step.BeginPrompt? ==> forall i :: 0 <= i < |a.prompts| ==> a.prompts[i].run != step.run
  }

  ghost predicate FreshRuns(a: Agent, steps: seq<(int, Step)>)
    decreases |steps|
  {
    |steps| == 0 || (FreshRun(a, steps[0].1) && FreshRuns(L.Next(a, steps[0].0, steps[0].1), steps[1..]))
  }

  /** A handler that still has text of prompt `pid` to send. */
  predicate Speaks(p: Prompt, pid: int, t: Task) {
    t.Text? && t.pid == pid && TextChunk(p, t.content) != ""
  }

  ghost predicate MaySpeak(a: Agent, pid: int)
    requires IsPrompt(a, pid)
  {
    exists t :: t in a.tasks && Speaks(a.prompts[pid], pid, t)
  }

  /** Prompts keep who they are; a result, once set, stays, and so does the fate of the send; and a prompt that is out
      of the table stays out, and sends nothing more unless a handler still has text of it. */
  predicate Settles(p: Prompt, q: Prompt) {
    q.sid == p.sid && q.run == p.run && q.key == p.key &&
    (p.result.Some? ==> q.result == p.result) && (!p.send.Sending? ==> q.send == p.send)
  }

  ghost predicate PromptEvolves(a: Agent, n: Agent, i: int)
    requires IsPrompt(a, i) && IsPrompt(n, i)
  {
    Settles(a.prompts[i], n.prompts[i]) &&
    (!InTable(a, i) ==>
      !InTable(n, i) && n.prompts[i].thought == a.prompts[i].thought &&
      (!MaySpeak(a, i) ==> n.prompts[i].text == a.prompts[i].text && !MaySpeak(n, i)))
  }

  ghost predicate Evolves(a: Agent, n: Agent) {
    |a.prompts| <= |n.prompts| && forall i :: 0 <= i < |a.prompts| ==> PromptEvolves(a, n, i)
  }

  /** Basic is kept, and everything evolves. */
  ghost predicate Keeps(a: Agent, n: Agent) {
    Basic(n) && Evolves(a, n)
  }

  // ---- Searching the table ----

  lemma {:induction false} FoundAmong(a: Agent, sids: seq<string>, key: string, run: Option<string>)
    requires TableOk(a)
    ensures var f := FindAmong(a, sids, key, run);
      f.Some? ==> IsPrompt(a, f.value) && InTable(a, f.value) && Matches(a.prompts[f.value], key, run)
  {
    if |sids| != 0 { FoundAmong(a, sids[1..], key, run); }
  }

  lemma FoundIsInTable(a: Agent, key: string, run: Option<string>)
    requires TableOk(a)
    ensures var f := FindPending(a, key, run);
      f.Some? ==> IsPrompt(a, f.value) && InTable(a, f.value) && Matches(a.prompts[f.value], key, run)
  {
    FoundAmong(a, a.pending.keys, key, run);
  }

  /** An event that names the run of a pending prompt reaches that prompt and no other. */
  lemma {:induction false} EventFindsItsPrompt(a: Agent, pid: int)
    requires Basic(a) && IsPrompt(a, pid) && InTable(a, pid)
    ensures FindPending(a, a.prompts[pid].key, Some(a.prompts[pid].run)) == Some(pid)
  {
    FindsAmong(a, a.pending.keys, pid);
  }

  lemma {:induction false} FindsAmong(a: Agent, sids: seq<string>, pid: int)
    requires TableOk(a) && RunsDistinct(a) && IsPrompt(a, pid) && InTable(a, pid) && a.prompts[pid].sid in sids
    ensures FindAmong(a, sids, a.prompts[pid].key, Some(a.prompts[pid].run)) == Some(pid)
  {
    if sids[0] != a.prompts[pid].sid { FindsAmong(a, sids[1..], pid); }
  }

  lemma {:induction false} AsksOnly(pids: seq<int>)
    ensures forall t :: t in AsksFor(pids) ==> t.Ask? && t.pid in pids
  {
    if |pids| != 0 { AsksOnly(pids[1..]); }
  }

  lemma {:induction false} InDictOrderAreValues(pending: Dict<string, int>, sids: seq<string>)
    ensures forall pid :: pid in InDictOrder(pending, sids) ==>
      exists sid :: sid in pending.vals && pending.vals[sid] == pid
  {
    if |sids| != 0 { InDictOrderAreValues(pending, sids[1..]); }
  }

  // ---- The parts of a step ----

  lemma SelfKeeps(a: Agent)
    requires Basic(a)
    ensures Keeps(a, a)
  {
    hide Basic, MaySpeak;
  }

  lemma KeptBasic(a: Agent, n: Agent)
    requires Keeps(a, n)
    ensures Basic(n) && |a.prompts| <= |n.prompts|
  {
    hide Basic, PromptEvolves;
  }

  lemma KeepsTwice(a: Agent, b: Agent, c: Agent)
    requires Keeps(a, b) && Keeps(b, c)
    ensures Keeps(a, c)
  {
    hide Basic, MaySpeak, InTable;
    forall i | 0 <= i < |a.prompts| ensures PromptEvolves(a, c, i) {
      assert PromptEvolves(a, b, i) && PromptEvolves(b, c, i);
    }
  }

  lemma StoreKeeps(a: Agent, st: Store)
    requires Basic(a) && Valid(st)
    ensures Keeps(a, a.(store := st))
  {
    hide Valid, StreamOk, Speaks;
    var n := a.(store := st);
    assert forall t :: t in a.tasks && t.Finish? ==> !InTable(n, t.pid);
    forall i | 0 <= i < |a.prompts| ensures PromptEvolves(a, n, i) { SameSpeech(a, n, i); }
  }

  lemma SameSpeech(a: Agent, n: Agent, i: int)
    requires IsPrompt(a, i) && IsPrompt(n, i) && n.prompts[i].text == a.prompts[i].text
    requires forall t :: t in n.tasks && t.Text? && t.pid == i ==> t in a.tasks
    ensures MaySpeak(n, i) ==> MaySpeak(a, i)
  {
    hide TextChunk;
    if MaySpeak(n, i) {
      var t :| t in n.tasks && Speaks(n.prompts[i], i, t);
      SameChunk(a.prompts[i], n.prompts[i], t.content);
      assert Speaks(a.prompts[i], i, t);
    }
  }

  lemma SameChunk(p: Prompt, q: Prompt, content: seq<Block>)
    requires q.text == p.text
    ensures TextChunk(q, content) == TextChunk(p, content)
  {
  }

  predicate MayWait(a: Agent, t: Task) {
    IsPrompt(a, t.pid) && (t.Finish? ==> !InTable(a, t.pid)) && (t.Text? ==> InTable(a, t.pid))
  }

  /** Handlers may stop waiting; and new ones may wait, to finish a prompt out of the table or to send text of one
      in it. */
  lemma TasksKeep(a: Agent, tasks: multiset<Task>)
    requires Basic(a)
    requires forall t :: t in tasks ==> t in a.tasks || MayWait(a, t)
    ensures Keeps(a, a.(tasks := tasks))
  {
    hide Valid, StreamOk, Speaks;
    var n := a.(tasks := tasks);
    assert forall i :: IsPrompt(a, i) ==> InTable(n, i) == InTable(a, i);
    forall i | 0 <= i < |a.prompts| ensures PromptEvolves(a, n, i) {
      if !InTable(a, i) { SameSpeech(a, n, i); }
    }
  }

  lemma PopKeeps(a: Agent, sid: string)
    requires Basic(a)
    ensures var n := a.(pending := a.pending.Pop(sid));
      Keeps(a, n) && forall i :: IsPrompt(a, i) && a.prompts[i].sid == sid ==> !InTable(n, i)
  {
    assert a.pending.Valid();
    hide Basic, Keeps;
    PoppedKeeps(a, a.(pending := a.pending.Pop(sid)), sid);
  }

  lemma PoppedKeeps(a: Agent, n: Agent, sid: string)
    requires Basic(a) && n == a.(pending := n.pending) && n.pending.Valid() && n.pending.vals == a.pending.vals - {sid}
    ensures Keeps(a, n) && forall i :: IsPrompt(a, i) && a.prompts[i].sid == sid ==> !InTable(n, i)
  {
    hide Valid, StreamOk, Speaks;
    assert forall i :: IsPrompt(a, i) && InTable(n, i) ==> InTable(a, i);
    forall i | 0 <= i < |a.prompts| ensures PromptEvolves(a, n, i) { SameSpeech(a, n, i); }
  }

  lemma SetPromptBasic(a: Agent, pid: int, q: Prompt)
    requires Basic(a) && IsPrompt(a, pid) && StreamOk(q) && Settles(a.prompts[pid], q)
    requires InTable(a, pid) ==> q.result.None? && !q.send.Failed?
    ensures Basic(SetPrompt(a, pid, q)) &&
      forall i :: IsPrompt(a, i) ==> InTable(SetPrompt(a, pid, q), i) == InTable(a, i)
  {
    hide Valid, StreamOk;
    var n := SetPrompt(a, pid, q);
    assert forall i :: IsPrompt(a, i) ==> InTable(n, i) == InTable(a, i);
  }

  /** Replacing a prompt's send state, result or output. */
  lemma SetPromptKeeps(a: Agent, pid: int, q: Prompt)
    requires Basic(a) && IsPrompt(a, pid) && StreamOk(q) && Settles(a.prompts[pid], q)
    requires InTable(a, pid) ==> q.result.None? && !q.send.Failed?
    requires !InTable(a, pid) ==> q.thought == a.prompts[pid].thought
    requires !InTable(a, pid) && !MaySpeak(a, pid) ==> q.text == a.prompts[pid].text
    ensures Keeps(a, SetPrompt(a, pid, q))
  {
    hide Basic, InTable, StreamOk, Speaks;
    var n := SetPrompt(a, pid, q);
    SetPromptBasic(a, pid, q);
    forall i | 0 <= i < |a.prompts| ensures PromptEvolves(a, n, i) {
      if !InTable(a, i) && !MaySpeak(a, i) { SameSpeech(a, n, i); }
    }
  }

  lemma SameStream(p: Prompt, q: Prompt)
    requires StreamOk(p) && q.thoughts == p.thoughts && q.texts == p.texts && q.text == p.text && q.thought == p.thought
    ensures StreamOk(q)
  {
  }

  lemma StreamOkOf(a: Agent, pid: int)
    requires Basic(a) && IsPrompt(a, pid)
    ensures StreamOk(a.prompts[pid])
  {
    hide StreamOk, Valid;
  }

  lemma EmitTextStreams(p: Prompt, content: seq<Block>)
    requires StreamOk(p)
    ensures StreamOk(EmitText(p, content))
  {
    var texts := TextsOf(p.texts + [content]);
    assert texts[..|texts| - 1] == TextsOf(p.texts);
  }

  lemma EmitThoughtStreams(p: Prompt, content: seq<Block>)
    requires StreamOk(p)
    ensures StreamOk(EmitThought(p, content))
  {
    var thoughts := ThoughtsOf(p.thoughts + [content]);
    assert thoughts[..|thoughts| - 1] == ThoughtsOf(p.thoughts);
  }

  lemma AddPromptKeeps(a: Agent, p: Prompt)
    requires Basic(a) && StreamOk(p) && p.result.None? && p.send.Sending?
    requires forall i :: 0 <= i < |a.prompts| ==> a.prompts[i].run != p.run
    ensures Keeps(a, a.(pending := a.pending.Put(p.sid, |a.prompts|), prompts := a.prompts + [p]))
  {
    hide Valid, StreamOk, Speaks;
    var n := a.(pending := a.pending.Put(p.sid, |a.prompts|), prompts := a.prompts + [p]);
    assert n.pending.Valid() && n.pending.vals == a.pending.vals[p.sid := |a.prompts|];
    assert n.prompts[|a.prompts|] == p && forall i :: IsPrompt(a, i) ==> n.prompts[i] == a.prompts[i];
    AddPromptBasic(a, n, p);
    hide Basic;
    forall i | 0 <= i < |a.prompts| ensures PromptEvolves(a, n, i) { SameSpeech(a, n, i); }
  }

  lemma AddPromptBasic(a: Agent, n: Agent, p: Prompt)
    requires Basic(a) && StreamOk(p) && p.result.None? && p.send.Sending?
    requires forall i :: 0 <= i < |a.prompts| ==> a.prompts[i].run != p.run
    requires n.store == a.store && n.tasks == a.tasks && |n.prompts| == |a.prompts| + 1 && n.prompts[|a.prompts|] == p
    requires n.pending.Valid() && n.pending.vals == a.pending.vals[p.sid := |a.prompts|]
    requires forall i :: IsPrompt(a, i) ==> n.prompts[i] == a.prompts[i]
    ensures Basic(n)
  {
    hide Valid, StreamOk;
    assert forall t :: t in a.tasks && t.Finish? ==> !InTable(a, t.pid) && !InTable(n, t.pid);
  }

  lemma DropKeeps(a: Agent, now: int, sid: string)
    requires Basic(a)
    ensures var d := DropPending(a, now, sid);
      Keeps(a, d) && d.prompts == a.prompts && d.tasks == a.tasks && d.pending == a.pending.Pop(sid) &&
      forall i :: IsPrompt(a, i) && a.prompts[i].sid == sid ==> !InTable(d, i)
  {
    hide Keeps, AfterClearRun;
    ClearRunKeepsValid(a.store, now, sid, a);
    var b := a.(store := AfterClearRun(a.store, now, sid));
    StoreKeeps(a, b.store);
    KeptBasic(a, b);
    hide Basic;
    PopKeeps(b, sid);
    KeepsTwice(a, b, DropPending(a, now, sid));
  }

  lemma ClearRunKeepsValid(st: Store, now: int, sid: string, a: Agent)
    requires Basic(a) && st == a.store
    ensures Valid(AfterClearRun(st, now, sid))
  {
    hide Basic, Valid, AfterClearRun;
    ValidOf(a);
    OpsKeepValid(st, now, sid, "", 0);
  }

  lemma FinishKeeps(a: Agent, now: int, pid: int, reason: StopReason)
    requires Basic(a) && IsPrompt(a, pid)
    ensures Keeps(a, FinishBegin(a, now, pid, reason))
  {
    hide Basic, Keeps, DropPending;
    var d := DropPending(a, now, a.prompts[pid].sid);
    DropKeeps(a, now, a.prompts[pid].sid);
    KeptBasic(a, d);
    TasksKeep(d, d.tasks + multiset{Finish(pid, reason)});
    KeepsTwice(a, d, FinishBegin(a, now, pid, reason));
  }

  // ---- The steps ----

  lemma RestKeeps(a: Agent, now: int, pid: int, state: ChatState)
    requires Basic(a) && IsPrompt(a, pid)
    ensures Keeps(a, AfterRest(a, now, pid, state))
  {
    hide Basic, Keeps, FinishBegin, FinishReason;
    SelfKeeps(a);
    if Ends(state) { FinishKeeps(a, now, pid, FinishReason(state)); }
  }

  lemma EmitTextKeeps(a: Agent, pid: int, content: seq<Block>)
    requires Basic(a) && IsPrompt(a, pid)
    requires InTable(a, pid) || MaySpeak(a, pid) || TextChunk(a.prompts[pid], content) == ""
    ensures var n := SetPrompt(a, pid, EmitText(a.prompts[pid], content));
      Keeps(a, n) && InTable(n, pid) == InTable(a, pid)
  {
    assert InTable(a, pid) ==> a.prompts[pid].result.None? && !a.prompts[pid].send.Failed?;
    hide Basic, Keeps, StreamOk, TextChunk, MaySpeak;
    StreamOkOf(a, pid);
    EmitTextStreams(a.prompts[pid], content);
    assert TextChunk(a.prompts[pid], content) == "" ==> EmitText(a.prompts[pid], content).text == a.prompts[pid].text;
    SetPromptKeeps(a, pid, EmitText(a.prompts[pid], content));
  }

  /** Waiting for the client to take the text, or going on. */
  lemma ToldOrRestKeeps(a: Agent, now: int, pid: int, state: ChatState)
    requires Basic(a) && IsPrompt(a, pid)
    ensures Keeps(a, a.(tasks := a.tasks + multiset{Told(pid, state)})) && Keeps(a, AfterRest(a, now, pid, state))
  {
    hide Basic, Keeps, AfterRest;
    TasksKeep(a, a.tasks + multiset{Told(pid, state)});
    RestKeeps(a, now, pid, state);
  }

  lemma TextKeeps(a: Agent, now: int, pid: int, content: seq<Block>, state: ChatState)
    requires Basic(a) && IsPrompt(a, pid) && InTable(a, pid)
    ensures Keeps(a, AfterText(a, now, pid, content, state))
  {
    hide Basic, Keeps, AfterRest, TextChunk, EmitText;
    var b := SetPrompt(a, pid, EmitText(a.prompts[pid], content));
    EmitTextKeeps(a, pid, content);
    KeptBasic(a, b);
    ToldOrRestKeeps(b, now, pid, state);
    KeepsTwice(a, b, AfterText(a, now, pid, content, state));
  }

  lemma ThoughtKeeps(a: Agent, now: int, pid: int, content: seq<Block>, state: ChatState)
    requires Basic(a) && IsPrompt(a, pid) && InTable(a, pid)
    ensures Keeps(a, AfterThought(a, now, pid, content, state))
  {
    var b := SetPrompt(a, pid, EmitThought(a.prompts[pid], content));
    assert a.prompts[pid].result.None? && !a.prompts[pid].send.Failed? && InTable(b, pid);
    hide Basic, Keeps, AfterText, StreamOk, ThoughtChunk;
    StreamOkOf(a, pid);
    EmitThoughtStreams(a.prompts[pid], content);
    SetPromptKeeps(a, pid, EmitThought(a.prompts[pid], content));
    KeptBasic(a, b);
    TasksKeep(b, b.tasks + multiset{Text(pid, content, state)});
    TextKeeps(b, now, pid, content, state);
    KeepsTwice(a, b, AfterThought(a, now, pid, content, state));
  }

  lemma ChatKeeps(a: Agent, now: int, key: string, run: Option<string>, state: ChatState, message: Option<seq<Block>>)
    requires Basic(a)
    ensures Keeps(a, AfterChat(a, now, key, run, state, message))
  {
    assert TableOk(a);
    hide Basic, Keeps, AfterRest, AfterThought, FindPending, TableOk;
    SelfKeeps(a);
    FoundIsInTable(a, key, run);
    var found := FindPending(a, key, run);
    if found.Some? {
      RestKeeps(a, now, found.value, state);
      if message.Some? { ThoughtKeeps(a, now, found.value, message.value, state); }
    }
  }

  lemma TextResumeKeeps(a: Agent, now: int, pid: int, content: seq<Block>, state: ChatState)
    requires Basic(a)
    ensures Keeps(a, AfterTextResume(a, now, pid, content, state))
  {
    hide Basic, Keeps, AfterRest, TextChunk, EmitText;
    SelfKeeps(a);
    var task := Text(pid, content, state);
    if task in a.tasks && IsPrompt(a, pid) {
      assert Speaks(a.prompts[pid], pid, task) || TextChunk(a.prompts[pid], content) == "";
      EmitTextKeeps(a, pid, content);
      var b := SetPrompt(a, pid, EmitText(a.prompts[pid], content));
      KeptBasic(a, b);
      var c := b.(tasks := b.tasks - multiset{task});
      TasksKeep(b, c.tasks);
      KeptBasic(b, c);
      KeepsTwice(a, b, c);
      ToldOrRestKeeps(c, now, pid, state);
      KeepsTwice(a, c, AfterTextResume(a, now, pid, content, state));
    }
  }

  lemma ToldResumeKeeps(a: Agent, now: int, pid: int, state: ChatState)
    requires Basic(a)
    ensures Keeps(a, AfterToldResume(a, now, pid, state))
  {
    hide Basic, Keeps, AfterRest;
    SelfKeeps(a);
    if Told(pid, state) in a.tasks && IsPrompt(a, pid) {
      var b := a.(tasks := a.tasks - multiset{Told(pid, state)});
      TasksKeep(a, b.tasks);
      KeptBasic(a, b);
      RestKeeps(b, now, pid, state);
      KeepsTwice(a, b, AfterRest(b, now, pid, state));
    }
  }

  lemma ResultKeeps(a: Agent, pid: int, reason: StopReason)
    requires Basic(a) && IsPrompt(a, pid) && !InTable(a, pid)
    ensures Keeps(a, SetResult(a, pid, reason))
  {
    hide Basic, Keeps, StreamOk, MaySpeak;
    SelfKeeps(a);
    if a.prompts[pid].result.None? {
      var q := a.prompts[pid].(result := Some(reason));
      StreamOkOf(a, pid);
      SameStream(a.prompts[pid], q);
      SetPromptKeeps(a, pid, q);
    }
  }

  lemma FinishResumeKeeps(a: Agent, pid: int, reason: StopReason)
    requires Basic(a)
    ensures Keeps(a, AfterFinishResume(a, pid, reason))
  {
    assert Finish(pid, reason) in a.tasks ==> IsPrompt(a, pid) && !InTable(a, pid);
    hide Basic, Keeps, SetResult;
    SelfKeeps(a);
    if Finish(pid, reason) in a.tasks {
      var b := a.(tasks := a.tasks - multiset{Finish(pid, reason)});
      TasksKeep(a, b.tasks);
      KeptBasic(a, b);
      ResultKeeps(b, pid, reason);
      KeepsTwice(a, b, SetResult(b, pid, reason));
    }
  }

  lemma OpsKeepValid(st: Store, now: int, sid: string, run: string, abort: int)
    requires Valid(st)
    ensures Valid(AfterGet(st, now, sid)) && Valid(AfterCancelRun(st, now, sid))
    ensures Valid(AfterSetRun(st, now, sid, run, abort)) && Valid(AfterClearRun(st, now, sid))
  {
    hide Valid, AfterGet, AfterCancelRun, AfterSetRun, AfterClearRun, AfterCreate;
    S.NextValid(st, now, Get(sid));
    S.NextValid(st, now, CancelRun(sid));
    S.NextValid(st, now, SetRun(sid, run, abort));
    S.NextValid(st, now, ClearRun(sid));
  }

  lemma BeginStoreValid(a: Agent, now: int, sid: string, run: string)
    requires Basic(a)
    ensures var touched := AfterGet(a.store, now, sid);
      Valid(touched) && Valid(AfterCancelRun(touched, now, sid)) &&
      Valid(AfterSetRun(touched, now, sid, run, |a.prompts|)) &&
      Valid(AfterSetRun(AfterCancelRun(touched, now, sid), now, sid, run, |a.prompts|))
  {
    ValidOf(a);
    hide Basic, Valid, AfterGet, AfterCancelRun, AfterSetRun, AfterClearRun;
    OpsKeepValid(a.store, now, sid, run, |a.prompts|);
    var touched := AfterGet(a.store, now, sid);
    OpsKeepValid(touched, now, sid, run, |a.prompts|);
    OpsKeepValid(AfterCancelRun(touched, now, sid), now, sid, run, |a.prompts|);
  }

  lemma ValidOf(a: Agent)
    requires Basic(a)
    ensures Valid(a.store)
  {
    hide Valid, StreamOk;
  }

  lemma BeginKeeps(a: Agent, now: int, sid: string, run: string, buildOk: bool)
    requires Basic(a) && FreshRun(a, BeginPrompt(sid, run, buildOk))
    ensures Keeps(a, AfterBegin(a, now, sid, run, buildOk))
  {
    hide Basic, Keeps, Valid, AfterGet, AfterCancelRun, AfterSetRun, StreamOk;
    SelfKeeps(a);
    if sid in a.store.sessions.vals {
      BeginStoreValid(a, now, sid, run);
      GetKeepsSession(a.store, now, sid);
      var touched := AfterGet(a.store, now, sid);
      var idle := if Active(touched.sessions.vals[sid]) then AfterCancelRun(touched, now, sid) else touched;
      StoreKeeps(a, idle);
      if buildOk {
        var p := Prompt(sid, a.store.sessions.vals[sid].key, run, Sending, None, [], [], "", "");
        NewStream(p);
        var b := a.(store := AfterSetRun(idle, now, sid, run, |a.prompts|));
        StoreKeeps(a, b.store);
        KeptBasic(a, b);
        AddPromptKeeps(b, p);
        KeepsTwice(a, b, AfterBegin(a, now, sid, run, buildOk));
      }
    }
  }

  lemma GetKeepsSession(st: Store, now: int, sid: string)
    requires sid in st.sessions.vals
    ensures sid in AfterGet(st, now, sid).sessions.vals
  {
  }

  lemma NewStream(p: Prompt)
    requires p.texts == [] && p.thoughts == [] && p.text == "" && p.thought == ""
    ensures StreamOk(p)
  {
  }

  lemma SendKeeps(a: Agent, now: int, pid: int, ok: bool)
    requires Basic(a)
    ensures Keeps(a, AfterSend(a, now, pid, ok))
  {
    assert IsPrompt(a, pid) && InTable(a, pid) ==> a.prompts[pid].result.None?;
    hide Basic, Keeps, StreamOk, MaySpeak, DropPending;
    SelfKeeps(a);
    if IsPrompt(a, pid) && a.prompts[pid].send.Sending? {
      var p := a.prompts[pid];
      StreamOkOf(a, pid);
      SameStream(p, p.(send := Accepted));
      SameStream(p, p.(send := Failed));
      if ok {
        SetPromptKeeps(a, pid, p.(send := Accepted));
      } else {
        DropKeeps(a, now, p.sid);
        var d := DropPending(a, now, p.sid);
        KeptBasic(a, d);
        SetPromptKeeps(d, pid, p.(send := Failed));
        KeepsTwice(a, d, SetPrompt(d, pid, p.(send := Failed)));
      }
    }
  }

  lemma CancelKeeps(a: Agent, now: int, sid: string)
    requires Basic(a)
    ensures Keeps(a, AfterCancelBegin(a, now, sid))
  {
    assert sid in a.pending.vals ==> IsPrompt(a, a.pending.vals[sid]);
    hide Basic, Keeps, Valid, AfterGet, AfterCancelRun;
    SelfKeeps(a);
    if sid in a.store.sessions.vals {
      BeginStoreValid(a, now, sid, "");
      var b := a.(store := AfterCancelRun(AfterGet(a.store, now, sid), now, sid));
      StoreKeeps(a, b.store);
      KeptBasic(a, b);
      TasksKeep(b, AfterCancelBegin(a, now, sid).tasks);
      KeepsTwice(a, b, AfterCancelBegin(a, now, sid));
    }
  }

  lemma CancelResumeKeeps(a: Agent, pid: int)
    requires Basic(a)
    ensures Keeps(a, AfterCancelResume(a, pid))
  {
    hide Basic, Keeps, SetResult;
    SelfKeeps(a);
    if CancelPending(pid) in a.tasks && IsPrompt(a, pid) {
      var b := a.(tasks := a.tasks - multiset{CancelPending(pid)});
      TasksKeep(a, b.tasks);
      KeptBasic(a, b);
      if a.prompts[pid].result.None? {
        var c := b.(pending := b.pending.Pop(a.prompts[pid].sid));
        PopKeeps(b, a.prompts[pid].sid);
        KeptBasic(b, c);
        KeepsTwice(a, b, c);
        ResultKeeps(c, pid, Cancelled);
        KeepsTwice(a, c, SetResult(c, pid, Cancelled));
      }
    }
  }

  lemma ReplyKeeps(a: Agent, now: int, pid: int, ok: bool)
    requires Basic(a)
    ensures Keeps(a, AfterReply(a, now, pid, ok))
  {
    hide Basic, Keeps, FinishBegin;
    SelfKeeps(a);
    if Wait(pid) in a.tasks && IsPrompt(a, pid) {
      var b := StopWaiting(a, pid);
      TasksKeep(a, b.tasks);
      KeptBasic(a, b);
      FinishKeeps(b, now, pid, EndTurn);
      KeepsTwice(a, b, FinishBegin(b, now, pid, EndTurn));
    }
  }

  lemma ReconnectFacts(a: Agent)
    requires TableOk(a)
    ensures var n := AfterReconnectBegin(a);
      n == a.(tasks := n.tasks) && (forall t :: t in a.tasks ==> t in n.tasks) &&
      forall t :: t in n.tasks ==> t in a.tasks || (t.Ask? && IsPrompt(a, t.pid))
  {
    AsksOnly(InDictOrder(a.pending, a.pending.keys));
    InDictOrderAreValues(a.pending, a.pending.keys);
  }

  lemma ReconnectKeeps(a: Agent)
    requires Basic(a)
    ensures Keeps(a, AfterReconnectBegin(a))
  {
    assert TableOk(a);
    hide AfterReconnectBegin, Basic, Keeps, TableOk;
    ReconnectFacts(a);
    TasksKeep(a, AfterReconnectBegin(a).tasks);
  }

  lemma AskFacts(a: Agent, pid: int)
    ensures var n := AfterAsk(a, pid); n == a.(tasks := n.tasks)
    ensures forall t :: t in AfterAsk(a, pid).tasks ==> t in a.tasks || (t == Wait(pid) && IsPrompt(a, pid))
    ensures forall t :: t in a.tasks && !t.Ask? ==> t in AfterAsk(a, pid).tasks
    ensures Ask(pid) in a.tasks && IsPrompt(a, pid) && a.prompts[pid].send.Accepted? ==>
      Wait(pid) in AfterAsk(a, pid).tasks
  {
  }

  lemma AskKeeps(a: Agent, pid: int)
    requires Basic(a)
    ensures Keeps(a, AfterAsk(a, pid))
  {
    hide AfterAsk, Basic, Keeps;
    AskFacts(a, pid);
    TasksKeep(a, AfterAsk(a, pid).tasks);
  }

  lemma CreateSessionKeeps(a: Agent, now: int, sid: string, key: string, cwd: string)
    requires Basic(a)
    ensures Valid(a.store) && Keeps(a, a.(store := AfterCreate(a.store, now, sid, key, cwd).0))
  {
    assert Valid(a.store);
    hide Basic, Keeps;
    S.NextValid(a.store, now, S.Create(sid, key, cwd));
    StoreKeeps(a, AfterCreate(a.store, now, sid, key, cwd).0);
  }

  lemma NextKeeps(a: Agent, now: int, step: Step)
    requires Basic(a) && FreshRun(a, step)
    ensures Keeps(a, L.Next(a, now, step))
  {
    hide Basic, Keeps, Valid, AfterCreate, AfterReconnectBegin, AfterAsk, AfterChat, AfterBegin, AfterCancelBegin;
    hide AfterCancelResume, AfterReply, AfterSend, AfterTextResume, AfterToldResume, AfterFinishResume, FreshRun;
    match step
    case CreateSession(sid, key, cwd) => CreateSessionKeeps(a, now, sid, key, cwd);
    case BeginPrompt(sid, run, buildOk) => BeginKeeps(a, now, sid, run, buildOk);
    case SendAccepted(pid) => SendKeeps(a, now, pid, true);
    case SendFailed(pid) => SendKeeps(a, now, pid, false);
    case Chat(key, runId, state, message) => ChatKeeps(a, now, key, runId, state, message);
    case TextResume(pid, content, state) => TextResumeKeeps(a, now, pid, content, state);
    case ToldResume(pid, state) => ToldResumeKeeps(a, now, pid, state);
    case FinishResume(pid, reason) => FinishResumeKeeps(a, pid, reason);
    case CancelBegin(sid) => CancelKeeps(a, now, sid);
    case CancelResume(pid) => CancelResumeKeeps(a, pid);
    case ReconnectBegin => ReconnectKeeps(a);
    case ReconnectAsk(pid) => AskKeeps(a, pid);
    case ReconnectReply(pid, ok) => ReplyKeeps(a, now, pid, ok);
  }

  lemma {:induction false} RunKeeps(a: Agent, steps: seq<(int, Step)>)
    requires Basic(a) && FreshRuns(a, steps)
    ensures Keeps(a, L.Run(a, steps))
    decreases |steps|
  {
    hide Basic, Keeps, L.Next, FreshRun;
    SelfKeeps(a);
    if |steps| != 0 {
      var n := L.Next(a, steps[0].0, steps[0].1);
      NextKeeps(a, steps[0].0, steps[0].1);
      KeptBasic(a, n);
      RunKeeps(n, steps[1..]);
      KeepsTwice(a, n, L.Run(n, steps[1..]));
    }
  }

  // ---- What that means for one prompt ----

  lemma {:induction false} RunEvolves(a: Agent, steps: seq<(int, Step)>, pid: int)
    requires Basic(a) && FreshRuns(a, steps) && IsPrompt(a, pid)
    ensures IsPrompt(L.Run(a, steps), pid) && Basic(L.Run(a, steps)) && PromptEvolves(a, L.Run(a, steps), pid)
  {
    RunKeeps(a, steps);
    hide Basic, L.Run, PromptEvolves;
  }

  /** Each future is resolved at most once; and a finished, cancelled or failed prompt is out of the table, never
      returns to it, and thinks no more. */
  lemma {:induction false} ResolvedOnceThenOut(a: Agent, steps: seq<(int, Step)>, pid: int)
    requires Basic(a) && FreshRuns(a, steps) && IsPrompt(a, pid)
    ensures IsPrompt(L.Run(a, steps), pid)
    ensures a.prompts[pid].result.Some? ==> L.Run(a, steps).prompts[pid].result == a.prompts[pid].result
    ensures a.prompts[pid].result.Some? || a.prompts[pid].send.Failed? ==> !InTable(a, pid)
    ensures !InTable(a, pid) ==>
      !InTable(L.Run(a, steps), pid) && L.Run(a, steps).prompts[pid].thought == a.prompts[pid].thought
  {
    assert InTable(a, pid) ==> a.prompts[pid].result.None? && !a.prompts[pid].send.Failed?;
    hide Basic, L.Run;
    RunEvolves(a, steps, pid);
  }

  /** A prompt out of the table is silent for ever if and only if no handler that was waiting for the client to take
      its thoughts still has new text of it. */
  lemma {:induction false} SilentIff(a: Agent, pid: int)
    requires Basic(a) && IsPrompt(a, pid) && !InTable(a, pid)
    ensures (forall steps :: FreshRuns(a, steps) ==> SaidNoMore(a, steps, pid)) <==> !MaySpeak(a, pid)
  {
    hide Basic, L.Run, L.Next, FreshRuns, SaidNoMore, MaySpeak, FreshRun;
    if MaySpeak(a, pid) {
      var step := SpeaksOnResume(a, pid);
      OneStep(a, step);
      assert FreshRuns(a, [(0, step)]);
    } else {
      forall steps | FreshRuns(a, steps) ensures SaidNoMore(a, steps, pid) { StaysSilent(a, steps, pid); }
    }
  }

  ghost predicate SaidNoMore(a: Agent, steps: seq<(int, Step)>, pid: int)
    requires IsPrompt(a, pid)
  {
    var n := L.Run(a, steps);
    IsPrompt(n, pid) && n.prompts[pid].text == a.prompts[pid].text
  }

  lemma StaysSilent(a: Agent, steps: seq<(int, Step)>, pid: int)
    requires Basic(a) && IsPrompt(a, pid) && !InTable(a, pid) && !MaySpeak(a, pid) && FreshRuns(a, steps)
    ensures SaidNoMore(a, steps, pid)
  {
    hide Basic, L.Run, FreshRuns, MaySpeak;
    RunEvolves(a, steps, pid);
  }

  lemma SpeaksOnResume(a: Agent, pid: int) returns (step: Step)
    requires IsPrompt(a, pid) && MaySpeak(a, pid)
    ensures FreshRun(a, step) && !SaidNoMore(a, [(0, step)], pid)
  {
    hide TextChunk, AfterRest;
    var t :| t in a.tasks && Speaks(a.prompts[pid], pid, t);
    step := TextResume(pid, t.content, t.state);
    assert |EmitText(a.prompts[pid], t.content).text| > |a.prompts[pid].text|;
    assert L.Next(a, 0, step).prompts[pid].text != a.prompts[pid].text;
    OneStep(a, step);
  }

  lemma OneStep(a: Agent, step: Step)
    requires FreshRun(a, step)
    ensures FreshRuns(a, [(0, step)]) && L.Run(a, [(0, step)]) == L.Next(a, 0, step)
  {
    hide L.Next, FreshRun;
    assert [(0, step)][1..] == [];
  }

  /** A chat event that names the run of a prompt no longer in the table changes nothing at all. */
  lemma {:induction false} StaleEventIgnored(a: Agent, now: int, pid: int, key: string, state: ChatState,
                                             message: Option<seq<Block>>)
    requires Basic(a) && IsPrompt(a, pid) && !InTable(a, pid)
    ensures AfterChat(a, now, key, Some(a.prompts[pid].run), state, message) == a
  {
    hide Basic, FindPending, AfterChatFor;
    OutOfTableNotFound(a, pid, key);
  }

  lemma OutOfTableNotFound(a: Agent, pid: int, key: string)
    requires Basic(a) && IsPrompt(a, pid) && !InTable(a, pid)
    ensures FindPending(a, key, Some(a.prompts[pid].run)) == None
  {
    TableOf(a);
    hide Basic, FindPending, TableOk;
    FoundIsInTable(a, key, Some(a.prompts[pid].run));
  }

  lemma TableOf(a: Agent)
    requires Basic(a)
    ensures TableOk(a) && RunsDistinct(a)
  {
    hide Valid, StreamOk;
  }

  /** On any run with fresh run ids and for every prompt begun in it: while the snapshots handled only grow, the text
      sent is exactly the latest one, right-stripped; and whatever they are, as much is sent as the longest of them.
      The same goes for thoughts. */
  lemma {:induction false} StreamsFaithfully(a: Agent, steps: seq<(int, Step)>, pid: int)
    requires Basic(a) && FreshRuns(a, steps) && IsPrompt(L.Run(a, steps), pid)
    ensures var p := L.Run(a, steps).prompts[pid];
      UpToDate(TextsOf(p.texts), p.text) && UpToDate(ThoughtsOf(p.thoughts), p.thought)
  {
    hide Basic, Keeps, L.Run, StreamOk, UpToDate;
    RunKeeps(a, steps);
    KeptBasic(a, L.Run(a, steps));
    StreamOkOf(L.Run(a, steps), pid);
    StreamOkIsUpToDate(L.Run(a, steps).prompts[pid]);
  }

  lemma StreamOkIsUpToDate(p: Prompt)
    requires StreamOk(p)
    ensures UpToDate(TextsOf(p.texts), p.text) && UpToDate(ThoughtsOf(p.thoughts), p.thought)
  {
    hide TextsOf, ThoughtsOf, UpToDate;
    SentIsUpToDate(TextsOf(p.texts));
    SentIsUpToDate(ThoughtsOf(p.thoughts));
  }
}
