/** Prompts in flight in `AcpGatewayAgent` (`src/openzues/services/acp_agent.py`), as a state machine whose
    steps are the stretches of handler code between two points where a handler waits. */
module PromptLifecycle {
  import opened PyText
  import opened PyDict
  import opened Streaming
  import opened S = SessionStore

  datatype StopReason = EndTurn | MaxTokens | Refusal | Cancelled

  /** How `chat.send` fared: `Failed` means `prompt` raised. */
  datatype Send = Sending | Accepted | Failed

  /** One `_PendingPrompt` and its future. `thoughts` and `texts` record the snapshots whose thoughts and whose text
      have been handled for it, and `thought` and `text` everything sent to the client for it. */
  datatype Prompt = Prompt(
    sid: string, key: string, run: string, send: Send, result: Option<StopReason>,
    thoughts: seq<seq<Block>>, texts: seq<seq<Block>>, thought: string, text: string)

  datatype ChatState = Delta | Final(maxTokens: bool) | Aborted | Error(refusal: bool) | OtherState

  /** A waiting handler. A chat event waits for the client to take its thoughts (`Text`: the text is still to come)
      and then its text (`Told`); `_finish_prompt` waits for a snapshot, `cancel` for `chat.abort`, and
      `handle_gateway_reconnect` for `agent.wait` (before and after it has asked). */
  datatype Task =
    | Text(pid: int, content: seq<Block>, state: ChatState)
    | Told(pid: int, state: ChatState)
    | Finish(pid: int, reason: StopReason)
    | CancelPending(pid: int)
    | Ask(pid: int)
    | Wait(pid: int)

  /** `pending` is `_pending_prompts`, by position in `prompts`, the list of all prompts ever begun. */
  datatype Agent = Agent(store: Store, pending: Dict<string, int>, prompts: seq<Prompt>, tasks: multiset<Task>)

  datatype Step =
    | CreateSession(sid: string, key: string, cwd: string)
    | BeginPrompt(sid: string, run: string, buildOk: bool)
    | SendAccepted(pid: int)
    | SendFailed(pid: int)
    | Chat(key: string, runId: Option<string>, state: ChatState, message: Option<seq<Block>>)
    | TextResume(pid: int, content: seq<Block>, state: ChatState)
    | ToldResume(pid: int, state: ChatState)
    | FinishResume(pid: int, reason: StopReason)
    | CancelBegin(sid: string)
    | CancelResume(pid: int)
    | ReconnectBegin
    | ReconnectAsk(pid: int)
    | ReconnectReply(pid: int, ok: bool)

  predicate IsPrompt(a: Agent, pid: int) {
    0 <= pid < |a.prompts|
  }

  predicate InTable(a: Agent, pid: int)
    requires IsPrompt(a, pid)
  {
    a.prompts[pid].sid in a.pending.vals && a.pending.vals[a.prompts[pid].sid] == pid
  }

  function SetPrompt(a: Agent, pid: int, p: Prompt): Agent
    requires IsPrompt(a, pid)
  {
    a.(prompts := a.prompts[pid := p])
  }

  function SetResult(a: Agent, pid: int, reason: StopReason): Agent
    requires IsPrompt(a, pid)
  {
    if a.prompts[pid].result.None? then SetPrompt(a, pid, a.prompts[pid].(result := Some(reason))) else a
  }

  /** Drop whatever prompt is pending for session `sid` and clear the session's run. */
  function DropPending(a: Agent, now: int, sid: string): Agent {
    a.(pending := a.pending.Pop(sid), store := AfterClearRun(a.store, now, sid))
  }

  /** `_finish_prompt` up to its await. */
  function FinishBegin(a: Agent, now: int, pid: int, reason: StopReason): Agent
    requires IsPrompt(a, pid)
  {
    DropPending(a, now, a.prompts[pid].sid).(tasks := a.tasks + multiset{Finish(pid, reason)})
  }

  function Matches(p: Prompt, key: string, run: Option<string>): bool {
    p.key == key && (run.None? || p.run == run.value)
  }

  function FindAmong(a: Agent, sids: seq<string>, key: string, run: Option<string>): Option<int> {
    if |sids| == 0 then None
    else
      var pid := if sids[0] in a.pending.vals then a.pending.vals[sids[0]] else -1;
      if IsPrompt(a, pid) && Matches(a.prompts[pid], key, run) then Some(pid)
      else FindAmong(a, sids[1..], key, run)
  }

  /** `_find_pending_by_session_key`: the first match in dict order. */
  function FindPending(a: Agent, key: string, run: Option<string>): Option<int> {
    FindAmong(a, a.pending.keys, key, run)
  }

  function ThoughtChunk(p: Prompt, content: seq<Block>): string {
    NewChunk(FullText(ThoughtParts(content)), |p.thought|)
  }

  function TextChunk(p: Prompt, content: seq<Block>): string {
    NewChunk(FullText(TextParts(content)), |p.text|)
  }

  /** The thoughts of a snapshot, as `_handle_delta_event` sends them. */
  function EmitThought(p: Prompt, content: seq<Block>): Prompt {
    p.(thoughts := p.thoughts + [content], thought := p.thought + ThoughtChunk(p, content))
  }

  /** Its text. */
  function EmitText(p: Prompt, content: seq<Block>): Prompt {
    p.(texts := p.texts + [content], text := p.text + TextChunk(p, content))
  }

  function FinishReason(state: ChatState): StopReason {
    match state
    case Final(maxTokens) => if maxTokens then MaxTokens else EndTurn
    case Aborted => Cancelled
    case Error(refusal) => if refusal then Refusal else EndTurn
    case _ => EndTurn
  }

  predicate Ends(state: ChatState) {
    state.Final? || state.Aborted? || state.Error?
  }

  /** What is left of a chat event once its message is dealt with. */
  function AfterRest(a: Agent, now: int, pid: int, state: ChatState): Agent
    requires IsPrompt(a, pid)
  {
    if Ends(state) then FinishBegin(a, now, pid, FinishReason(state)) else a
  }

  /** From the text of the message on: nothing new to send is nothing to wait for. */
  function AfterText(a: Agent, now: int, pid: int, content: seq<Block>, state: ChatState): Agent
    requires IsPrompt(a, pid)
  {
    var b := SetPrompt(a, pid, EmitText(a.prompts[pid], content));
    if TextChunk(a.prompts[pid], content) != "" then b.(tasks := b.tasks + multiset{Told(pid, state)})
    else AfterRest(b, now, pid, state)
  }

  /** From its thoughts on. */
  function AfterThought(a: Agent, now: int, pid: int, content: seq<Block>, state: ChatState): Agent
    requires IsPrompt(a, pid)
  {
    var b := SetPrompt(a, pid, EmitThought(a.prompts[pid], content));
    if ThoughtChunk(a.prompts[pid], content) != "" then b.(tasks := b.tasks + multiset{Text(pid, content, state)})
    else AfterText(b, now, pid, content, state)
  }

  /** A chat event for prompt `pid`: delta and final events that carry a message stream it first. */
  function AfterChatFor(a: Agent, now: int, pid: int, state: ChatState, message: Option<seq<Block>>): Agent
    requires IsPrompt(a, pid)
  {
    if message.Some? && (state.Delta? || state.Final?) then AfterThought(a, now, pid, message.value, state)
    else AfterRest(a, now, pid, state)
  }

  function AfterChat(a: Agent, now: int, key: string, run: Option<string>, state: ChatState,
                     message: Option<seq<Block>>): Agent
  {
    var found := FindPending(a, key, run);
    if found.Some? && IsPrompt(a, found.value) then AfterChatFor(a, now, found.value, state, message) else a
  }

  function AfterTextResume(a: Agent, now: int, pid: int, content: seq<Block>, state: ChatState): Agent {
    if Text(pid, content, state) in a.tasks && IsPrompt(a, pid) then
      AfterText(a.(tasks := a.tasks - multiset{Text(pid, content, state)}), now, pid, content, state)
    else a
  }

  function AfterToldResume(a: Agent, now: int, pid: int, state: ChatState): Agent {
    if Told(pid, state) in a.tasks && IsPrompt(a, pid) then
      AfterRest(a.(tasks := a.tasks - multiset{Told(pid, state)}), now, pid, state)
    else a
  }

  /** `prompt` up to `chat.send`; the run id serves as its own abort handle's number. */
  function AfterBegin(a: Agent, now: int, sid: string, run: string, buildOk: bool): Agent {
    if sid !in a.store.sessions.vals then a
    else
      var touched := AfterGet(a.store, now, sid);
      var idle := if Active(touched.sessions.vals[sid]) then AfterCancelRun(touched, now, sid) else touched;
      if !buildOk then a.(store := idle)
      else
        Agent(AfterSetRun(idle, now, sid, run, |a.prompts|),
              a.pending.Put(sid, |a.prompts|),
              a.prompts + [Prompt(sid, a.store.sessions.vals[sid].key, run, Sending, None, [], [], "", "")],
              a.tasks)
  }

  /** The rest of `prompt`: accepted, or failed and out of table and store. */
  function AfterSend(a: Agent, now: int, pid: int, ok: bool): Agent {
    if !IsPrompt(a, pid) || !a.prompts[pid].send.Sending? then a
    else if ok then SetPrompt(a, pid, a.prompts[pid].(send := Accepted))
    else SetPrompt(DropPending(a, now, a.prompts[pid].sid), pid, a.prompts[pid].(send := Failed))
  }

  /** The end of `_finish_prompt`. */
  function AfterFinishResume(a: Agent, pid: int, reason: StopReason): Agent {
    if Finish(pid, reason) in a.tasks && IsPrompt(a, pid) then
      SetResult(a.(tasks := a.tasks - multiset{Finish(pid, reason)}), pid, reason)
    else a
  }

  /** `cancel` up to `chat.abort`. */
  function AfterCancelBegin(a: Agent, now: int, sid: string): Agent {
    if sid !in a.store.sessions.vals then a
    else
      a.(store := AfterCancelRun(AfterGet(a.store, now, sid), now, sid),
         tasks := a.tasks + if sid in a.pending.vals then multiset{CancelPending(a.pending.vals[sid])} else multiset{})
  }

  function AfterCancelResume(a: Agent, pid: int): Agent {
    if CancelPending(pid) !in a.tasks || !IsPrompt(a, pid) then a
    else
      var b := a.(tasks := a.tasks - multiset{CancelPending(pid)});
      if a.prompts[pid].result.Some? then b
      else SetResult(b.(pending := b.pending.Pop(a.prompts[pid].sid)), pid, Cancelled)
  }

  function StopWaiting(a: Agent, pid: int): (b: Agent)
    ensures IsPrompt(a, pid) ==> IsPrompt(b, pid)
  {
    a.(tasks := a.tasks - multiset{Wait(pid)})
  }

  function AfterReply(a: Agent, now: int, pid: int, ok: bool): Agent {
    if Wait(pid) !in a.tasks || !IsPrompt(a, pid) then a
    else if ok then FinishBegin(StopWaiting(a, pid), now, pid, EndTurn)
    else StopWaiting(a, pid)
  }

  ghost function AsksFor(pids: seq<int>): multiset<Task> {
    if |pids| == 0 then multiset{} else multiset{Ask(pids[0])} + AsksFor(pids[1..])
  }

  /** The prompts in the table, in dict order. */
  function InDictOrder(pending: Dict<string, int>, sids: seq<string>): seq<int> {
    if |sids| == 0 then []
    else (if sids[0] in pending.vals then [pending.vals[sids[0]]] else []) + InDictOrder(pending, sids[1..])
  }

  /** `handle_gateway_reconnect` sets out to ask about everything in the table. */
  ghost function AfterReconnectBegin(a: Agent): Agent {
    a.(tasks := a.tasks + AsksFor(InDictOrder(a.pending, a.pending.keys)))
  }

  /** Only prompts whose send was accepted are asked about. */
  function AfterAsk(a: Agent, pid: int): Agent {
    if Ask(pid) !in a.tasks || !IsPrompt(a, pid) then a
    else
      a.(tasks := a.tasks - multiset{Ask(pid)} +
                  if a.prompts[pid].send.Accepted? then multiset{Wait(pid)} else multiset{})
  }

  ghost function Next(a: Agent, now: int, step: Step): Agent {
    match step
    case CreateSession(sid, key, cwd) =>
      if Valid(a.store) then a.(store := AfterCreate(a.store, now, sid, key, cwd).0) else a
    case BeginPrompt(sid, run, buildOk) => AfterBegin(a, now, sid, run, buildOk)
    case SendAccepted(pid) => AfterSend(a, now, pid, true)
    case SendFailed(pid) => AfterSend(a, now, pid, false)
    case Chat(key, runId, state, message) => AfterChat(a, now, key, runId, state, message)
    case TextResume(pid, content, state) => AfterTextResume(a, now, pid, content, state)
    case ToldResume(pid, state) => AfterToldResume(a, now, pid, state)
    case FinishResume(pid, reason) => AfterFinishResume(a, pid, reason)
    case CancelBegin(sid) => AfterCancelBegin(a, now, sid)
    case CancelResume(pid) => AfterCancelResume(a, pid)
    case ReconnectBegin => AfterReconnectBegin(a)
    case ReconnectAsk(pid) => AfterAsk(a, pid)
    case ReconnectReply(pid, ok) => AfterReply(a, now, pid, ok)
  }

  /** A run: each step with the clock reading it sees. */
  ghost function Run(a: Agent, steps: seq<(int, Step)>): Agent
    decreases |steps|
  {
    if |steps| == 0 then a else Run(Next(a, steps[0].0, steps[0].1), steps[1..])
  }
}
