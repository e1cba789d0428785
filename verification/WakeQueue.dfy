/** The gateway wake queue of `src/openzues/database.py` as a state machine over whole method calls. */
module WakeQueue {
  import opened PyText

  datatype Status = Pending | Claimed | Dispatched

  /** What rows are coalesced on: mode, agent and session. */
  datatype Key = Key(mode: string, agent: Option<string>, session: Option<string>)

  /** One row of `gateway_wake_requests`; its id is its key in the table. */
  datatype Row = Row(key: Key, text: string, reason: Option<string>, status: Status)

  /** The arguments of one `create_gateway_wake_request` call. */
  datatype Wake = Wake(key: Key, text: string, reason: Option<string>)

  function NormalizeReason(reason: Option<string>): (r: string)
    ensures r != "" && Trimmed(r)
  {
    var trimmed := if reason.Some? then Strip(reason.value) else "";
    if trimmed == "" then "wake" else trimmed
  }

  /** retry 0, interval 1, default 2, action 3. */
  function PriorityOf(normalized: string): nat {
    if normalized == "retry" then 0
    else if normalized == "interval" then 1
    else if normalized == "manual" || normalized == "exec-event" || "hook:" <= normalized then 3
    else 2
  }

  function ReasonPriority(reason: Option<string>): nat {
    PriorityOf(NormalizeReason(reason))
  }

  type Rows = map<int, Row>

  /** The table, plus a record of what happened to each accepted call: `accepted` lists the calls in
      order, and `holder[r]` is the row that now stands for call `r`. */
  datatype Queue = Queue(rows: Rows, nextId: int, accepted: seq<Wake>, holder: seq<int>)

  const EMPTY := Queue(map[], 1, [], [])

  ghost function Min(s: set<int>): (m: int)
    requires s != {}
    ensures m in s && forall x :: x in s ==> m <= x
  {
    var x := AnyOf(s);
    if s == {x} then x
    else
      var m := Min(s - {x});
      assert forall y :: y in s ==> y == x || y in s - {x};
      if m <= x then m else x
  }

  predicate IsPending(rows: Rows, id: int) {
    id in rows && rows[id].status.Pending?
  }

  ghost function PendingFor(rows: Rows, key: Key): set<int> {
    set id | id in rows && IsPending(rows, id) && rows[id].key == key
  }

  predicate PendingInModes(rows: Rows, id: int, modes: seq<string>) {
    IsPending(rows, id) && (|modes| == 0 || rows[id].key.mode in modes)
  }

  ghost function PendingIn(rows: Rows, modes: seq<string>): set<int> {
    set id | id in rows && PendingInModes(rows, id, modes)
  }

  predicate Outranks(rows: Rows, a: int, b: int)
    requires a in rows && b in rows
  {
    var pa, pb := ReasonPriority(rows[a].reason), ReasonPriority(rows[b].reason);
    pb < pa || (pb == pa && b <= a)
  }

  /** `w` is the lexicographic maximum of (priority, id) over `ids`. */
  ghost predicate IsWinner(rows: Rows, ids: set<int>, w: int)
    requires ids <= rows.Keys
  {
    w in ids && forall i :: i in ids ==> Outranks(rows, w, i)
  }

  lemma {:induction false} WinnerExists(rows: Rows, ids: set<int>)
    requires ids <= rows.Keys && ids != {}
    ensures exists w :: IsWinner(rows, ids, w)
  {
    var x := AnyOf(ids);
    if ids == {x} {
      assert IsWinner(rows, ids, x);
    } else {
      WinnerExists(rows, ids - {x});
      var v :| IsWinner(rows, ids - {x}, v);
      assert forall y :: y in ids ==> y == x || y in ids - {x};
      assert IsWinner(rows, ids, if Outranks(rows, v, x) then v else x);
    }
  }

  ghost function Winner(rows: Rows, ids: set<int>): (w: int)
    requires ids <= rows.Keys && ids != {}
    ensures IsWinner(rows, ids, w)
  {
    WinnerExists(rows, ids);
    var w :| IsWinner(rows, ids, w);
    w
  }

  /** Keep the oldest of `ids`, give it `text` and `reason` and everything the others stood for, and
      delete the others. */
  ghost function Coalesce(q: Queue, ids: set<int>, text: string, reason: Option<string>): Queue
    requires ids <= q.rows.Keys && ids != {}
  {
    var canonical := Min(ids);
    q.(rows := map id | id in q.rows && (id !in ids || id == canonical) ::
                 if id == canonical then q.rows[id].(text := text, reason := reason) else q.rows[id],
       holder := seq(|q.holder|, r requires 0 <= r < |q.holder| =>
         if q.holder[r] in ids then canonical else q.holder[r]))
  }

  datatype Step = Create(wake: Wake) | Claim(modes: seq<string>) | Release(id: int) | Dispatch(id: int)

  ghost function AfterInsert(q: Queue, wake: Wake): Queue {
    Queue(q.rows[q.nextId := Row(wake.key, wake.text, Some(NormalizeReason(wake.reason)), Pending)],
          q.nextId + 1, q.accepted + [wake], q.holder + [q.nextId])
  }

  /** The text and reason a row keeps when `wake` meets the pending row `winner`. */
  function Contest(winner: Row, wake: Wake): (string, Option<string>) {
    var reason := Some(NormalizeReason(wake.reason));
    if ReasonPriority(winner.reason) <= ReasonPriority(reason) then (wake.text, reason)
    else (winner.text, winner.reason)
  }

  /** A pending row takes in one more call of its key. */
  ghost function AbsorbInto(m: Queue, id: int, wake: Wake): Queue
    requires id in m.rows
  {
    var kept := Contest(m.rows[id], wake);
    m.(rows := m.rows[id := m.rows[id].(text := kept.0, reason := kept.1)],
       accepted := m.accepted + [wake],
       holder := m.holder + [id])
  }

  /** Coalesce `ids` into the oldest of them, shown as the winning row. */
  ghost function CoalesceToWinner(q: Queue, ids: set<int>): Queue
    requires ids <= q.rows.Keys && ids != {}
  {
    var w := q.rows[Winner(q.rows, ids)];
    Coalesce(q, ids, w.text, w.reason)
  }

  ghost function AfterMerge(q: Queue, wake: Wake): Queue
    requires PendingFor(q.rows, wake.key) != {}
  {
    var ids := PendingFor(q.rows, wake.key);
    AbsorbInto(CoalesceToWinner(q, ids), Min(ids), wake)
  }

  ghost function AfterCreate(q: Queue, wake: Wake): Queue {
    if PendingFor(q.rows, wake.key) == {} then AfterInsert(q, wake) else AfterMerge(q, wake)
  }

  /** The id `create_gateway_wake_request` returns. */
  ghost function CreatedId(q: Queue, wake: Wake): int {
    var ids := PendingFor(q.rows, wake.key);
    if ids == {} then q.nextId else Min(ids)
  }

  function SetStatus(q: Queue, id: int, status: Status): Queue {
    if id in q.rows then q.(rows := q.rows[id := q.rows[id].(status := status)]) else q
  }

  /** The pending row a claim picks, if any. */
  ghost function NextToClaim(rows: Rows, modes: seq<string>): Option<int> {
    var candidates := PendingIn(rows, modes);
    if candidates == {} then None else Some(Min(candidates))
  }

  ghost function AfterClaim(q: Queue, modes: seq<string>): Queue {
    match NextToClaim(q.rows, modes)
    case None => q
    case Some(id) =>
      var ids := PendingFor(q.rows, q.rows[id].key);
      assert id in ids;
      SetStatus(CoalesceToWinner(q, ids), Min(ids), Claimed)
  }

  ghost function Next(q: Queue, step: Step): Queue {
    match step
    case Create(wake) => AfterCreate(q, wake)
    case Claim(modes) => AfterClaim(q, modes)
    case Release(id) => SetStatus(q, id, Pending)
    case Dispatch(id) => SetStatus(q, id, Dispatched)
  }

  ghost function Run(q: Queue, steps: seq<Step>): Queue
    decreases |steps|
  {
    if |steps| == 0 then q else Run(Next(q, steps[0]), steps[1..])
  }

  // ---- Conservation: no wake is lost, on any run whatever ----

  /** Row `id` stands for call `r`. */
  predicate Holds(q: Queue, id: int, r: int) {
    0 <= r < |q.holder| && q.holder[r] == id
  }

  /** Row `id` has the target of call `r`, and a priority at least that of the call. */
  predicate Covers(q: Queue, id: int, r: int)
    requires id in q.rows && 0 <= r < |q.accepted|
  {
    q.rows[id].key == q.accepted[r].key &&
    ReasonPriority(q.accepted[r].reason) <= ReasonPriority(q.rows[id].reason)
  }

  /** The row shows the text and reason of call `r`. */
  predicate Shows(q: Queue, id: int, r: int)
    requires id in q.rows && 0 <= r < |q.accepted|
  {
    q.rows[id].text == q.accepted[r].text && q.rows[id].reason == Some(NormalizeReason(q.accepted[r].reason))
  }

  /** Every accepted call is held by a row that is still there. */
  ghost predicate WellFormed(q: Queue) {
    0 < q.nextId &&
    (forall id :: id in q.rows ==> 0 < id < q.nextId) &&
    |q.holder| == |q.accepted| &&
    forall r :: 0 <= r < |q.holder| ==> q.holder[r] in q.rows
  }

  ghost predicate Covering(q: Queue)
    requires WellFormed(q)
  {
    forall r :: 0 <= r < |q.holder| ==> Covers(q, q.holder[r], r)
  }

  /** Every row still shows some call it holds. */
  ghost predicate Attributed(q: Queue)
    requires WellFormed(q)
  {
    forall id :: id in q.rows ==> exists r :: Holds(q, id, r) && Shows(q, id, r)
  }

  ghost predicate Conserved(q: Queue) {
    WellFormed(q) && Covering(q) && Attributed(q)
  }

  lemma StoredReasonKeepsPriority(reason: Option<string>)
    ensures ReasonPriority(Some(NormalizeReason(reason))) == ReasonPriority(reason)
  {
    hide PriorityOf, Trimmed;
    var normalized := NormalizeReason(reason);
    assert Strip(normalized) == normalized;
  }

  /** Coalescing rows of one key, shown as one of their number, conserves. */
  lemma {:induction false} CoalesceConserves(q: Queue, ids: set<int>, w: int)
    requires Conserved(q) && ids <= q.rows.Keys && IsWinner(q.rows, ids, w)
    requires forall i :: i in ids ==> q.rows[i].key == q.rows[w].key
    ensures Conserved(Coalesce(q, ids, q.rows[w].text, q.rows[w].reason))
  {
    hide ReasonPriority, NormalizeReason;
    var m := Coalesce(q, ids, q.rows[w].text, q.rows[w].reason);
    forall r | 0 <= r < |m.holder| ensures Covers(m, m.holder[r], r) {
      assert Covers(q, q.holder[r], r);
      assert q.holder[r] in ids ==> Outranks(q.rows, w, q.holder[r]);
    }
    hide Covers, Outranks;
    forall id | id in m.rows
      ensures exists r :: Holds(m, id, r) && Shows(m, id, r)
    {
      var source := if id == Min(ids) then w else id;
      var r :| Holds(q, source, r) && Shows(q, source, r);
      assert Holds(m, id, r) && Shows(m, id, r);
    }
  }

  /** Coalescing a single row changes nothing. */
  lemma CoalesceOne(q: Queue, id: int)
    requires id in q.rows
    ensures CoalesceToWinner(q, {id}) == q
  {
    hide ReasonPriority, NormalizeReason;
    assert Min({id}) == id && Winner(q.rows, {id}) == id;
    var m := CoalesceToWinner(q, {id});
    assert m.rows == q.rows && m.holder == q.holder;
  }

  lemma {:induction false} InsertConserves(q: Queue, wake: Wake)
    requires Conserved(q)
    ensures Conserved(AfterInsert(q, wake))
  {
    hide ReasonPriority, NormalizeReason;
    var n := AfterInsert(q, wake);
    StoredReasonKeepsPriority(wake.reason);
    forall r | 0 <= r < |n.holder| ensures Covers(n, n.holder[r], r) {
      if r < |q.holder| { assert Covers(q, q.holder[r], r); }
    }
    forall id | id in n.rows
      ensures exists r :: Holds(n, id, r) && Shows(n, id, r)
    {
      if id == q.nextId {
        assert Holds(n, id, |q.holder|) && Shows(n, id, |q.holder|);
      } else {
        var r :| Holds(q, id, r) && Shows(q, id, r);
        assert Holds(n, id, r) && Shows(n, id, r);
      }
    }
  }

  lemma {:induction false} AbsorbConserves(m: Queue, id: int, wake: Wake)
    requires Conserved(m) && id in m.rows && m.rows[id].key == wake.key
    ensures Conserved(AbsorbInto(m, id, wake))
  {
    hide ReasonPriority, NormalizeReason;
    var n := AbsorbInto(m, id, wake);
    StoredReasonKeepsPriority(wake.reason);
    forall r | 0 <= r < |n.holder| ensures Covers(n, n.holder[r], r) {
      if r < |m.holder| { assert Covers(m, m.holder[r], r); }
    }
    forall i | i in n.rows
      ensures exists r :: Holds(n, i, r) && Shows(n, i, r)
    {
      var r :| Holds(m, i, r) && Shows(m, i, r);
      assert Holds(n, i, r) && (Shows(n, i, r) || (i == id && Holds(n, i, |m.holder|) && Shows(n, i, |m.holder|)));
    }
  }

  lemma {:induction false} MergeConserves(q: Queue, wake: Wake)
    requires Conserved(q) && PendingFor(q.rows, wake.key) != {}
    ensures Conserved(AfterMerge(q, wake))
  {
    hide ReasonPriority, NormalizeReason;
    var ids := PendingFor(q.rows, wake.key);
    CoalesceConserves(q, ids, Winner(q.rows, ids));
    AbsorbConserves(CoalesceToWinner(q, ids), Min(ids), wake);
  }

  lemma {:induction false} SetStatusConserves(q: Queue, id: int, status: Status)
    requires Conserved(q)
    ensures Conserved(SetStatus(q, id, status))
  {
    hide ReasonPriority, NormalizeReason;
    var n := SetStatus(q, id, status);
    forall r | 0 <= r < |n.holder| ensures Covers(n, n.holder[r], r) { assert Covers(q, q.holder[r], r); }
    forall i | i in n.rows
      ensures exists r :: Holds(n, i, r) && Shows(n, i, r)
    {
      var r :| Holds(q, i, r) && Shows(q, i, r);
      assert Holds(n, i, r) && Shows(n, i, r);
    }
  }

  lemma {:induction false} ClaimConserves(q: Queue, modes: seq<string>)
    requires Conserved(q)
    ensures Conserved(AfterClaim(q, modes))
  {
    hide ReasonPriority, NormalizeReason;
    if NextToClaim(q.rows, modes).Some? {
      var id := NextToClaim(q.rows, modes).value;
      var ids := PendingFor(q.rows, q.rows[id].key);
      assert id in ids;
      CoalesceConserves(q, ids, Winner(q.rows, ids));
      SetStatusConserves(CoalesceToWinner(q, ids), Min(ids), Claimed);
    }
  }

  lemma {:induction false} NextConserves(q: Queue, step: Step)
    requires Conserved(q)
    ensures Conserved(Next(q, step))
  {
    hide Conserved, AfterClaim, AfterInsert, AfterMerge;
    match step
    case Create(wake) =>
      if PendingFor(q.rows, wake.key) == {} { InsertConserves(q, wake); } else { MergeConserves(q, wake); }
    case Claim(modes) => ClaimConserves(q, modes);
    case Release(id) => SetStatusConserves(q, id, Pending);
    case Dispatch(id) => SetStatusConserves(q, id, Dispatched);
  }

  lemma {:induction false} RunConserves(q: Queue, steps: seq<Step>)
    requires Conserved(q)
    ensures Conserved(Run(q, steps))
    decreases |steps|
  {
    hide Conserved, Next;
    if |steps| != 0 {
      NextConserves(q, steps[0]);
      RunConserves(Next(q, steps[0]), steps[1..]);
    }
  }

  /** The calls a run makes to `create_gateway_wake_request`, in order. */
  function Creates(steps: seq<Step>): seq<Wake> {
    if |steps| == 0 then []
    else (if steps[0].Create? then [steps[0].wake] else []) + Creates(steps[1..])
  }

  lemma {:induction false} RunAccepts(q: Queue, steps: seq<Step>)
    ensures Run(q, steps).accepted == q.accepted + Creates(steps)
    decreases |steps|
  {
    hide ReasonPriority, NormalizeReason;
    if |steps| != 0 {
      RunAccepts(Next(q, steps[0]), steps[1..]);
    }
  }

  /** No wake is lost: whatever the calls and their order, the table ends up holding every wake that was
      ever created, each in exactly one row, which has its target and at least its priority; and every
      row shows one of the wakes it stands for. */
  lemma {:induction false} NoWakeIsLost(steps: seq<Step>)
    ensures Run(EMPTY, steps).accepted == Creates(steps)
    ensures Conserved(Run(EMPTY, steps))
  {
    RunAccepts(EMPTY, steps);
    RunConserves(EMPTY, steps);
  }
}
