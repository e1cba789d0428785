/** Matching JSON-RPC responses to calls: `src/openzues/services/codex_rpc.py`. */
module JsonRpc {
  import opened PyText

  // ---- State ----

  datatype Outcome = Result(value: string) | Error(message: string) | Cancelled

  datatype Future = Unresolved | Done(outcome: Outcome)

  /** Where a caller of `call` is: still sending, awaiting its future, failed in sending, or done. */
  datatype Caller = Sending | Awaiting | SendFailed | Finished(end: End)

  datatype End = Returned(outcome: Outcome) | TimedOut

  /** One future is created for each call, so the call's id also names its future; `pending` holds the ids under
      which a future is registered. */
  datatype Client = Client(nextId: nat, pending: set<int>, futures: map<int, Future>, callers: map<int, Caller>)

  const START := Client(0, {}, map[], map[])

  datatype Event =
    | Call                                // up to the first byte sent
    | SendDone(id: int)
    | SendFails(id: int)
    | Response(id: int, outcome: Outcome)  // an incoming message with an id and no method
    | Timeout(id: int)                     // or the caller's task is cancelled, before it has seen its future done
    | Resume(id: int)                      // the caller sees its future done
    | Close

  predicate Enabled(c: Client, e: Event) {
    match e
    case Call | Close => true
    case SendDone(id) => id in c.callers && c.callers[id] == Sending
    case SendFails(id) => id in c.callers && c.callers[id] == Sending
    case Response(id, outcome) => !outcome.Cancelled?
    case Timeout(id) => id in c.callers && c.callers[id] == Awaiting && id in c.futures
    case Resume(id) => id in c.callers && c.callers[id] == Awaiting && id in c.futures && c.futures[id].Done?
  }

  function Next(c: Client, e: Event): Client
    requires Enabled(c, e)
  {
    match e
    case Call =>
      Client(c.nextId + 1, c.pending + {c.nextId}, c.futures[c.nextId := Unresolved], c.callers[c.nextId := Sending])
    case SendDone(id) => c.(callers := c.callers[id := Awaiting])
    case SendFails(id) => c.(callers := c.callers[id := SendFailed])
    case Response(id, outcome) =>
      if id in c.pending && id in c.futures && c.futures[id] == Unresolved
      then c.(futures := c.futures[id := Done(outcome)])
      else c
    case Timeout(id) =>
      var future := if c.futures[id] == Unresolved then Done(Cancelled) else c.futures[id];
      c.(pending := c.pending - {id}, futures := c.futures[id := future],
         callers := c.callers[id := Finished(TimedOut)])
    case Resume(id) =>
      c.(pending := c.pending - {id}, callers := c.callers[id := Finished(Returned(c.futures[id].outcome))])
    case Close => c.(pending := {}, futures := CancelAll(c.pending, c.futures))
  }

  function CancelAll(pending: set<int>, futures: map<int, Future>): map<int, Future> {
    map id | id in futures :: if id in pending && futures[id] == Unresolved then Done(Cancelled) else futures[id]
  }

  ghost predicate Possible(trace: seq<Event>)
    decreases |trace|, 0
  {
    |trace| == 0 ||
    (Possible(trace[..|trace| - 1]) && Enabled(Run(trace[..|trace| - 1]), trace[|trace| - 1]))
  }

  ghost function Run(trace: seq<Event>): Client
    requires Possible(trace)
    decreases |trace|, 1
  {
    if |trace| == 0 then START else Next(Run(trace[..|trace| - 1]), trace[|trace| - 1])
  }

  // ---- What a trace alone says ----

  function Calls(trace: seq<Event>): nat {
    if |trace| == 0 then 0 else Calls(trace[..|trace| - 1]) + if trace[|trace| - 1].Call? then 1 else 0
  }

  /** Whether an event decides the call `id`, if nothing has decided it before. */
  predicate Decides(e: Event, id: int) {
    e.Close? || (e.Response? && e.id == id) || (e.Timeout? && e.id == id)
  }

  function Verdict(e: Event): Outcome {
    if e.Response? then e.outcome else Cancelled
  }

  /** What the first deciding event from position `from` on decides. */
  function FirstVerdict(trace: seq<Event>, from: nat, id: int): Future
    decreases |trace| - from
  {
    if from >= |trace| then Unresolved
    else if Decides(trace[from], id) then Done(Verdict(trace[from]))
    else FirstVerdict(trace, from + 1, id)
  }

  /** Position `at` holds the call that got the id: the calls before it got the smaller ones. */
  predicate CallAt(trace: seq<Event>, at: int, id: int) {
    0 <= at < |trace| && trace[at].Call? && Calls(trace[..at]) == id
  }

  lemma {:induction false} FirstVerdictSnoc(trace: seq<Event>, e: Event, from: nat, id: int)
    requires from <= |trace|
    ensures FirstVerdict(trace + [e], from, id) ==
      if FirstVerdict(trace, from, id).Done? then FirstVerdict(trace, from, id)
      else if Decides(e, id) then Done(Verdict(e)) else Unresolved
    decreases |trace| - from
  {
    if from < |trace| {
      assert (trace + [e])[from] == trace[from];
      if !Decides(trace[from], id) { FirstVerdictSnoc(trace, e, from + 1, id); }
    } else {
      assert (trace + [e])[from] == e;
      assert FirstVerdict(trace + [e], from + 1, id) == Unresolved;
    }
  }

  // ---- Invariant ----

  /** Ids are handed out in order; an unresolved future is registered; and a future is registered as long as its
      caller is not finished and the client has not been closed since. */
  ghost predicate Good(c: Client) {
    (forall id :: id in c.futures <==> 0 <= id < c.nextId) &&
    (forall id :: id in c.callers <==> 0 <= id < c.nextId) &&
    (forall id :: id in c.pending ==> id in c.futures && !c.callers[id].Finished?) &&
    (forall id :: id in c.futures && c.futures[id] == Unresolved ==> id in c.pending) &&
    (forall id :: id in c.callers && c.callers[id].Finished? ==>
      c.futures[id].Done? && (c.callers[id].end.Returned? ==> c.futures[id].outcome == c.callers[id].end.outcome))
  }

  lemma {:induction false} NextGood(c: Client, e: Event)
    requires Good(c) && Enabled(c, e)
    ensures Good(Next(c, e))
  {
    match e
    case Close =>
      var n := Next(c, e);
      assert forall id :: id in n.futures <==> id in c.futures;
    case _ =>
  }

  lemma {:induction false} RunGood(trace: seq<Event>)
    requires Possible(trace)
    ensures Good(Run(trace)) && Run(trace).nextId == Calls(trace)
  {
    if |trace| != 0 {
      RunGood(trace[..|trace| - 1]);
      NextGood(Run(trace[..|trace| - 1]), trace[|trace| - 1]);
    }
  }

  // ---- Matching ----

  lemma {:induction false} CallsMonotone(trace: seq<Event>, k: nat)
    requires k <= |trace|
    ensures Calls(trace[..k]) <= Calls(trace)
    ensures k < |trace| && trace[k].Call? ==> Calls(trace[..k]) < Calls(trace)
  {
    if k == |trace| {
      assert trace[..k] == trace;
    } else {
      var front := trace[..|trace| - 1];
      assert front[..k] == trace[..k];
      if k < |front| { assert front[k] == trace[k]; }
      CallsMonotone(front, k);
    }
  }

  /** Ids are never reused: no two calls of a run get the same id, and a new call's id has no future yet. */
  lemma {:induction false} IdsNeverReused(trace: seq<Event>, a: int, b: int, id: int)
    requires Possible(trace) && CallAt(trace, a, id) && CallAt(trace, b, id)
    ensures a == b && id < Run(trace).nextId && Run(trace).nextId !in Run(trace).futures
  {
    RunGood(trace);
    CallsMonotone(trace, a);
    if a < b {
      assert trace[..b][..a] == trace[..a];
      CallsMonotone(trace[..b], a);
    } else if b < a {
      assert trace[..a][..b] == trace[..b];
      CallsMonotone(trace[..a], b);
    }
  }

  /** In every run, a call's future holds exactly what the first deciding event after the call decides: the first
      response with its id, a timeout of the call, or closing the client, whichever comes first. */
  lemma {:induction false} FirstDecides(trace: seq<Event>, at: int, id: int)
    requires Possible(trace) && CallAt(trace, at, id)
    ensures id in Run(trace).futures && Run(trace).futures[id] == FirstVerdict(trace, at + 1, id)
  {
    var front, e := trace[..|trace| - 1], trace[|trace| - 1];
    var c := Run(front);
    RunGood(front);
    assert trace == front + [e];
    if at == |front| {
      assert trace[..at] == front;
      assert FirstVerdict(trace, at + 1, id) == Unresolved;
    } else {
      assert front[..at] == trace[..at] && front[at] == trace[at];
      FirstDecides(front, at, id);
      FirstVerdictSnoc(front, e, at + 1, id);
      CallsMonotone(front, at);
      NextDecides(c, e, id);
    }
  }

  /** One step: a resolved future stays as it is; an unresolved one changes if and only if the event decides it. */
  lemma {:induction false} NextDecides(c: Client, e: Event, id: int)
    requires Good(c) && Enabled(c, e) && id in c.futures
    ensures id in Next(c, e).futures
    ensures Next(c, e).futures[id] ==
      if c.futures[id].Done? then c.futures[id] else if Decides(e, id) then Done(Verdict(e)) else Unresolved
  {
    match e
    case Close => assert c.futures[id] == Unresolved ==> id in c.pending;
    case _ =>
  }

  /** The call of a caller that is finished is decided; and one that returns a result or an error returns that of the
      first response with its own id. */
  lemma {:induction false} ReturnsFirstResponse(trace: seq<Event>, at: int, id: int)
    requires Possible(trace) && CallAt(trace, at, id)
    requires id in Run(trace).callers && Run(trace).callers[id].Finished?
    ensures var end, verdict := Run(trace).callers[id].end, FirstVerdict(trace, at + 1, id);
      verdict.Done? && (end.Returned? ==> verdict.outcome == end.outcome)
    ensures var end := Run(trace).callers[id].end;
      end.Returned? && !end.outcome.Cancelled? ==>
        exists i :: at < i < |trace| && trace[i] == Response(id, end.outcome) &&
          forall j :: at < j < i ==> !Decides(trace[j], id)
  {
    RunGood(trace);
    FirstDecides(trace, at, id);
    var end := Run(trace).callers[id].end;
    if end.Returned? && !end.outcome.Cancelled? {
      var i := FindVerdict(trace, at + 1, id);
    }
  }

  lemma {:induction false} FindVerdict(trace: seq<Event>, from: nat, id: int) returns (i: nat)
    requires FirstVerdict(trace, from, id).Done?
    ensures from <= i < |trace| && Decides(trace[i], id) && FirstVerdict(trace, from, id) == Done(Verdict(trace[i]))
    ensures forall j :: from <= j < i ==> !Decides(trace[j], id)
    decreases |trace| - from
  {
    if Decides(trace[from], id) {
      i := from;
    } else {
      i := FindVerdict(trace, from + 1, id);
    }
  }

  /** A late, repeated or unknown response changes nothing: it is one whose id was never handed out, or whose call is
      already decided. */
  lemma {:induction false} OtherResponsesIgnored(trace: seq<Event>, id: int, outcome: Outcome)
    requires Possible(trace) && !outcome.Cancelled?
    ensures Next(Run(trace), Response(id, outcome)) == Run(trace) <==>
      !(0 <= id < Calls(trace)) || (id in Run(trace).futures && Run(trace).futures[id].Done?)
  {
    RunGood(trace);
    var c := Run(trace);
    var n := Next(c, Response(id, outcome));
    if id in c.futures && c.futures[id] == Unresolved {
      assert n.futures[id] != c.futures[id];
    }
  }

  /** A call whose send goes through, and whose response comes in time, returns it, and is registered no more. */
  lemma {:induction false} CallReturns(c: Client, id: int, outcome: Outcome)
    requires Good(c) && id in c.callers && c.callers[id] == Sending && id in c.futures && c.futures[id] == Unresolved
    requires !outcome.Cancelled?
    ensures Enabled(c, SendDone(id)) && Enabled(Next(c, SendDone(id)), Response(id, outcome))
    ensures var n := Next(Next(c, SendDone(id)), Response(id, outcome));
      Enabled(n, Resume(id)) && Next(n, Resume(id)).callers[id] == Finished(Returned(outcome)) &&
      id !in Next(n, Resume(id)).pending
    ensures var n := Next(c, SendDone(id));
      Enabled(n, Timeout(id)) && Next(n, Timeout(id)).callers[id] == Finished(TimedOut) &&
        id !in Next(n, Timeout(id)).pending
  {
  }

  // ---- Closing ----

  /** Right after closing no future is unresolved and none is registered, and this lasts until the next call. */
  lemma {:induction false} ClosedUntilNextCall(trace: seq<Event>, after: seq<Event>)
    requires Possible(trace + [Close] + after) && forall e :: e in after ==> !e.Call?
    ensures var c := Run(trace + [Close] + after);
      c.pending == {} && forall id :: id in c.futures ==> c.futures[id].Done?
  {
    var whole := trace + [Close] + after;
    RunGood(whole);
    if |after| == 0 {
      assert whole[..|whole| - 1] == trace && whole[|whole| - 1] == Close;
      RunGood(trace);
    } else {
      var front, e := after[..|after| - 1], after[|after| - 1];
      assert whole[..|whole| - 1] == trace + [Close] + front && whole[|whole| - 1] == e;
      assert e in after && forall x :: x in front ==> x in after;
      ClosedUntilNextCall(trace, front);
      RunGood(trace + [Close] + front);
    }
  }

  /** What can still decide a call whose send failed: nobody awaits it, so nothing but a response or closing. */
  predicate DecidesUnsent(e: Event, id: int) {
    e.Close? || (e.Response? && e.id == id)
  }

  lemma NotTimedOut(c: Client, e: Event, id: int)
    requires Good(c) && Enabled(c, e) && id in c.callers
    ensures Next(c, e).callers[id].SendFailed? ==>
      !(e.Timeout? && e.id == id) && (c.callers[id].SendFailed? || c.callers[id] == Sending)
    ensures c.callers[id] == Sending && Next(c, e).callers[id] == Sending ==> !(e.Timeout? && e.id == id)
    ensures Next(c, e).callers[id] == Sending ==> c.callers[id] == Sending
  {
  }

  lemma {:induction false} CallerBefore(trace: seq<Event>, at: int, id: int)
    requires Possible(trace) && CallAt(trace, at, id) && at < |trace| - 1
    ensures var front := trace[..|trace| - 1]; CallAt(front, at, id) && id in Run(front).callers && Good(Run(front))
  {
    var front := trace[..|trace| - 1];
    assert front[..at] == trace[..at] && front[at] == trace[at];
    RunGood(front);
    CallsMonotone(front, at);
  }

  /** Over every run: no timeout ever decided a call that is still being sent or whose send failed, so what the first
      deciding event says depends on responses and closing alone. */
  lemma {:induction false} UnsentTimesNotOut(trace: seq<Event>, at: int, id: int, i: int)
    requires Possible(trace) && CallAt(trace, at, id) && id in Run(trace).callers && at < i < |trace|
    requires Run(trace).callers[id] in {Sending, SendFailed}
    ensures !(trace[i].Timeout? && trace[i].id == id)
  {
    var front := trace[..|trace| - 1];
    CallerBefore(trace, at, id);
    NotTimedOut(Run(front), trace[|trace| - 1], id);
    if i < |trace| - 1 {
      assert front[i] == trace[i];
      UnsentTimesNotOut(front, at, id, i);
    }
  }

  lemma {:induction false} UndecidedIff(trace: seq<Event>, from: nat, id: int)
    requires from <= |trace|
    ensures FirstVerdict(trace, from, id) == Unresolved <==> forall i :: from <= i < |trace| ==> !Decides(trace[i], id)
    decreases |trace| - from
  {
    if from < |trace| { UndecidedIff(trace, from + 1, id); }
  }

  /** Over every run: the future of a call whose send failed is unresolved if and only if neither a response with its id
      nor a close has come since the call; and it stays registered until a close, response or not. */
  lemma {:induction false} FailedSendUnresolvedIff(trace: seq<Event>, at: int, id: int)
    requires Possible(trace) && CallAt(trace, at, id)
    requires id in Run(trace).callers && Run(trace).callers[id] == SendFailed
    ensures id in Run(trace).futures
    ensures Run(trace).futures[id] == Unresolved <==> forall i :: at < i < |trace| ==> !DecidesUnsent(trace[i], id)
    ensures id in Run(trace).pending <==> forall i :: at < i < |trace| ==> !trace[i].Close?
  {
    FirstDecides(trace, at, id);
    UndecidedIff(trace, at + 1, id);
    UnsentRegisteredIff(trace, at, id);
    forall i | at < i < |trace| ensures Decides(trace[i], id) <==> DecidesUnsent(trace[i], id) {
      UnsentTimesNotOut(trace, at, id, i);
    }
  }

  lemma {:induction false} UnsentRegisteredIff(trace: seq<Event>, at: int, id: int)
    requires Possible(trace) && CallAt(trace, at, id) && id in Run(trace).callers
    requires Run(trace).callers[id] in {Sending, SendFailed}
    ensures id in Run(trace).pending <==> forall i :: at < i < |trace| ==> !trace[i].Close?
  {
    var front, e := trace[..|trace| - 1], trace[|trace| - 1];
    if at < |trace| - 1 {
      CallerBefore(trace, at, id);
      NotTimedOut(Run(front), e, id);
      UnsentRegisteredIff(front, at, id);
      assert forall i :: at < i < |front| ==> front[i] == trace[i];
    } else {
      assert front == trace[..at];
      RunGood(front);
    }
  }

  /** So a call made after closing, which cannot send, leaves an unresolved future behind. */
  lemma {:induction false} CallAfterCloseLeaks()
    ensures var trace := [Close, Call, SendFails(0)];
      Possible(trace) && Run(trace).pending == {0} && Run(trace).futures[0] == Unresolved
  {
    var t := [Close, Call, SendFails(0)];
    assert t[..2] == [Close, Call] && t[..2][..1] == [Close] && t[..1] == [Close] && [Close][..0] == [];
    assert Run([]) == START && Run([Close]) == START;
    assert Run([Close, Call]) == Next(START, Call);
    assert Run(t) == Next(Run([Close, Call]), SendFails(0));
  }
}
