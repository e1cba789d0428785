/** The prompt handlers of `AcpGatewayAgent`, cut where they wait. */
module PromptAgent {
  import opened PyText
  import opened PyDict
  import opened Streaming
  import opened SessionTable
  import S = SessionStore
  import opened L = PromptLifecycle

  class AcpGatewayAgent {
    const store: InMemoryAcpSessionStore
    var pending: Dict<string, int>
    var prompts: seq<Prompt>
    ghost var tasks: multiset<Task>

    ghost function View(): Agent
      reads this, store
    {
      Agent(store.View(), pending, prompts, tasks)
    }

    constructor (store: InMemoryAcpSessionStore)
      ensures this.store == store && View() == Agent(store.View(), Empty(), [], multiset{})
    {
      this.store := store;
      pending, prompts, tasks := Empty(), [], multiset{};
    }

    /** `prompt`, up to `chat.send`; `None` where it raises. */
    method BeginPrompt(now: int, sid: string, run: string, buildOk: bool) returns (pid: Option<int>)
      modifies this, store
      ensures View() == AfterBegin(old(View()), now, sid, run, buildOk)
      ensures pid == if sid in old(store.sessions.vals) && buildOk then Some(|old(prompts)|) else None
    {
      var found := store.GetSession(now, sid);
      if found.None? {
        return None;
      }
      if S.Active(found.value) {
        var _ := store.CancelActiveRun(now, sid);
      }
      if !buildOk {
        return None;
      }
      pid := Some(|prompts|);
      pending := pending.Put(sid, |prompts|);
      store.SetActiveRun(now, sid, run, |prompts|);
      prompts := prompts + [Prompt(sid, found.value.key, run, Sending, None, [], [], "", "")];
    }

    /** What follows `chat.send`. */
    method SendReturned(now: int, pid: int, ok: bool)
      requires IsPrompt(View(), pid) && prompts[pid].send.Sending?
      modifies this, store
      ensures View() == AfterSend(old(View()), now, pid, ok)
    {
      if ok {
        prompts := prompts[pid := prompts[pid].(send := Accepted)];
      } else {
        pending := pending.Pop(prompts[pid].sid);
        store.ClearActiveRun(now, prompts[pid].sid);
        prompts := prompts[pid := prompts[pid].(send := Failed)];
      }
    }

    /** The first pending prompt, in dict order, for this session key and (if given) run id. */
    method FindPendingBySessionKey(key: string, run: Option<string>) returns (found: Option<int>)
      ensures found == FindPending(View(), key, run)
    {
      for i := 0 to |pending.keys|
        invariant FindPending(View(), key, run) == FindAmong(View(), pending.keys[i..], key, run)
      {
        assert pending.keys[i..][1..] == pending.keys[i + 1..];
        var sid := pending.keys[i];
        if sid in pending.vals && 0 <= pending.vals[sid] < |prompts| && Matches(prompts[pending.vals[sid]], key, run) {
          return Some(pending.vals[sid]);
        }
      }
      return None;
    }

    /** The loop of `_handle_delta_event` over the blocks. */
    method Parts(content: seq<Block>) returns (thoughtParts: seq<string>, textParts: seq<string>)
      ensures thoughtParts == ThoughtParts(content) && textParts == TextParts(content)
    {
      thoughtParts, textParts := [], [];
      for i := 0 to |content|
        invariant thoughtParts == ThoughtParts(content[..i]) && textParts == TextParts(content[..i])
      {
        assert content[..i + 1][..i] == content[..i];
        match content[i]
        case ThinkingBlock(thinking) => thoughtParts := thoughtParts + [thinking];
        case TextBlock(text) => textParts := textParts + [text];
        case OtherBlock =>
      }
      assert content[..|content|] == content;
    }

    /** The first half of `_handle_delta_event`: `sent` is what goes to the client, if anything does. */
    method SendThought(pid: int, content: seq<Block>) returns (sent: string)
      requires IsPrompt(View(), pid)
      modifies this`prompts
      ensures sent == ThoughtChunk(old(prompts)[pid], content)
      ensures View() == SetPrompt(old(View()), pid, EmitThought(old(prompts)[pid], content))
    {
      var thoughtParts, _ := Parts(content);
      hide ThoughtParts, TextParts, Join, RStrip;
      var p, full := prompts[pid], RStrip(Join(thoughtParts));
      assert p.thought + "" == p.thought;
      sent := if full != "" && |full| > |p.thought| then full[|p.thought|..] else "";
      prompts := prompts[pid := p.(thoughts := p.thoughts + [content], thought := p.thought + sent)];
    }

    /** The second half. */
    method SendText(pid: int, content: seq<Block>) returns (sent: string)
      requires IsPrompt(View(), pid)
      modifies this`prompts
      ensures sent == TextChunk(old(prompts)[pid], content)
      ensures View() == SetPrompt(old(View()), pid, EmitText(old(prompts)[pid], content))
    {
      var _, textParts := Parts(content);
      hide ThoughtParts, TextParts, Join, RStrip;
      var p, full := prompts[pid], RStrip(Join(textParts));
      assert p.text + "" == p.text;
      sent := if full != "" && |full| > |p.text| then full[|p.text|..] else "";
      prompts := prompts[pid := p.(texts := p.texts + [content], text := p.text + sent)];
    }

    /** A chat event from the text of its message on, until it waits or ends. */
    method TextOn(now: int, pid: int, content: seq<Block>, state: ChatState)
      requires IsPrompt(View(), pid)
      modifies this, store
      ensures View() == AfterText(old(View()), now, pid, content, state)
    {
      hide TextChunk, FinishBegin;
      var sent := SendText(pid, content);
      if sent != "" {
        tasks := tasks + multiset{Told(pid, state)};
      } else {
        Rest(now, pid, state);
      }
    }

    /** What is left of it after its message. */
    method Rest(now: int, pid: int, state: ChatState)
      requires IsPrompt(View(), pid)
      modifies this, store
      ensures View() == AfterRest(old(View()), now, pid, state)
    {
      hide FinishBegin;
      match state
      case Final(maxTokens) => FinishPrompt(now, pid, if maxTokens then MaxTokens else EndTurn);
      case Aborted => FinishPrompt(now, pid, Cancelled);
      case Error(refusal) => FinishPrompt(now, pid, if refusal then Refusal else EndTurn);
      case _ =>
    }

    method TextResume(now: int, pid: int, content: seq<Block>, state: ChatState)
      requires Text(pid, content, state) in tasks && IsPrompt(View(), pid)
      modifies this, store
      ensures View() == AfterTextResume(old(View()), now, pid, content, state)
    {
      hide AfterText;
      tasks := tasks - multiset{Text(pid, content, state)};
      TextOn(now, pid, content, state);
    }

    method ToldResume(now: int, pid: int, state: ChatState)
      requires Told(pid, state) in tasks && IsPrompt(View(), pid)
      modifies this, store
      ensures View() == AfterToldResume(old(View()), now, pid, state)
    {
      hide AfterRest;
      tasks := tasks - multiset{Told(pid, state)};
      Rest(now, pid, state);
    }

    /** `_finish_prompt`, up to its await. */
    method FinishPrompt(now: int, pid: int, reason: StopReason)
      requires IsPrompt(View(), pid)
      modifies this, store
      ensures View() == FinishBegin(old(View()), now, pid, reason)
    {
      pending := pending.Pop(prompts[pid].sid);
      store.ClearActiveRun(now, prompts[pid].sid);
      tasks := tasks + multiset{Finish(pid, reason)};
    }

    /** Its end. */
    method FinishPromptResume(pid: int, reason: StopReason)
      requires Finish(pid, reason) in tasks && IsPrompt(View(), pid)
      modifies this
      ensures View() == AfterFinishResume(old(View()), pid, reason)
    {
      tasks := tasks - multiset{Finish(pid, reason)};
      if prompts[pid].result.None? {
        prompts := prompts[pid := prompts[pid].(result := Some(reason))];
      }
    }

    /** The chat branch of `handle_gateway_event`, until it waits or ends. */
    method HandleChatEvent(now: int, key: string, run: Option<string>, state: ChatState, message: Option<seq<Block>>)
      modifies this, store
      ensures View() == AfterChat(old(View()), now, key, run, state, message)
    {
      hide FindPending, AfterText, AfterRest, ThoughtChunk;
      var found := FindPendingBySessionKey(key, run);
      if found.None? || !(0 <= found.value < |prompts|) {
        return;
      }
      if message.Some? && (state.Delta? || state.Final?) {
        var sent := SendThought(found.value, message.value);
        if sent != "" {
          tasks := tasks + multiset{Text(found.value, message.value, state)};
        } else {
          TextOn(now, found.value, message.value, state);
        }
      } else {
        Rest(now, found.value, state);
      }
    }

    /** `cancel`, up to `chat.abort`; returns the prompt it will settle, if there is one. */
    method Cancel(now: int, sid: string) returns (captured: Option<int>)
      modifies this, store
      ensures View() == AfterCancelBegin(old(View()), now, sid)
      ensures captured == if sid in old(store.sessions.vals) then old(pending).Get(sid) else None
    {
      var found := store.GetSession(now, sid);
      if found.None? {
        return None;
      }
      captured := pending.Get(sid);
      var _ := store.CancelActiveRun(now, sid);
      if captured.Some? {
        tasks := tasks + multiset{CancelPending(captured.value)};
      }
    }

    method CancelResume(pid: int)
      requires CancelPending(pid) in tasks && IsPrompt(View(), pid)
      modifies this
      ensures View() == AfterCancelResume(old(View()), pid)
    {
      tasks := tasks - multiset{CancelPending(pid)};
      if prompts[pid].result.None? {
        pending := pending.Pop(prompts[pid].sid);
        prompts := prompts[pid := prompts[pid].(result := Some(Cancelled))];
      }
    }

    /** The list `handle_gateway_reconnect` goes through. */
    method HandleGatewayReconnect() returns (pids: seq<int>)
      modifies this`tasks
      ensures pids == InDictOrder(pending, pending.keys) && View() == AfterReconnectBegin(old(View()))
    {
      pids := [];
      for i := 0 to |pending.keys|
        invariant pids + InDictOrder(pending, pending.keys[i..]) == InDictOrder(pending, pending.keys)
      {
        assert pending.keys[i..][1..] == pending.keys[i + 1..];
        if pending.keys[i] in pending.vals {
          pids := pids + [pending.vals[pending.keys[i]]];
        }
      }
      tasks := tasks + AsksFor(InDictOrder(pending, pending.keys));
    }

    /** Whether to ask `agent.wait` about a listed prompt. */
    method ReconnectShouldAsk(pid: int) returns (ask: bool)
      requires Ask(pid) in tasks && IsPrompt(View(), pid)
      modifies this`tasks
      ensures View() == AfterAsk(old(View()), pid) && ask == prompts[pid].send.Accepted?
    {
      ask := prompts[pid].send.Accepted?;
      tasks := tasks - multiset{Ask(pid)} + if ask then multiset{Wait(pid)} else multiset{};
    }

    method ReconnectAnswered(now: int, pid: int, ok: bool)
      requires Wait(pid) in tasks && IsPrompt(View(), pid)
      modifies this, store
      ensures View() == AfterReply(old(View()), now, pid, ok)
    {
      tasks := tasks - multiset{Wait(pid)};
      if ok {
        FinishPrompt(now, pid, EndTurn);
      }
    }
  }
}
