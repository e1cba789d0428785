/** What the reasons of wakes decide, in terms of their texts, and which calls change the status of a row. */
module WakeReasons {
  import opened PyText
  import opened WakeQueue

  // ---- The reason a row stores ----

  /** `r` is what a row stores for `reason`: "wake" for a missing or blank one, and otherwise the text itself without
      its outer white space. */
  ghost predicate Stores(reason: Option<string>, r: string) {
    if reason.None? || Blank(reason.value) then r == "wake"
    else r != "" && IsStripped(reason.value, r)
  }

  lemma {:induction false} StoredReasonIff(reason: Option<string>, r: string)
    ensures NormalizeReason(reason) == r <==> Stores(reason, r)
  {
    hide Strip, Trimmed;
    if reason.Some? {
      StripIff(reason.value, Strip(reason.value));
      StripIff(reason.value, r);
      BlankIff(reason.value);
    }
  }

  // ---- Which reason displaces which ----

  predicate IsAction(r: string) {
    r == "manual" || r == "exec-event" || "hook:" <= r
  }

  predicate IsOther(r: string) {
    !IsAction(r) && r != "interval" && r != "retry"
  }

  /** A wake with the stored reason `r` takes the place of a pending one with the stored reason `shown`. */
  predicate Displaces(r: string, shown: string) {
    IsAction(r) || (IsOther(r) && !IsAction(shown)) || (r == "interval" && shown in {"interval", "retry"}) ||
    (r == "retry" && shown == "retry")
  }

  /** The row shows `wake`. */
  ghost predicate ShowsWake(row: Row, wake: Wake) {
    row.text == wake.text && row.reason.Some? && Stores(wake.reason, row.reason.value)
  }

  ghost predicate DisplacesRow(wake: Wake, row: Row) {
    forall r, shown :: Stores(wake.reason, r) && Stores(row.reason, shown) ==> Displaces(r, shown)
  }

  /** Row `i` is shown rather than row `j`: the later one, if each displaces the other. */
  ghost predicate RowDisplaces(rows: Rows, i: int, j: int)
    requires i in rows && j in rows
  {
    forall r, s :: Stores(rows[i].reason, r) && Stores(rows[j].reason, s) ==>
      Displaces(r, s) && (Displaces(s, r) ==> j <= i)
  }

  /** `row` shows the pending row `w` of the key, which displaces the others, and which the wake does not displace. */
  ghost predicate ShowsBest(q: Queue, wake: Wake, w: int, row: Row) {
    w in PendingFor(q.rows, wake.key) && !DisplacesRow(wake, q.rows[w]) &&
    (forall i :: i in PendingFor(q.rows, wake.key) ==> RowDisplaces(q.rows, w, i)) &&
    row.text == q.rows[w].text && row.reason == q.rows[w].reason
  }

  lemma PriorityIff(r: string, shown: string)
    ensures PriorityOf(shown) <= PriorityOf(r) <==> Displaces(r, shown)
  {
    assert |"retry"| == 5 && |"interval"| == 8 && |"manual"| == 6 && |"exec-event"| == 10 && |"hook:"| == 5;
    assert "hook:"[0] == 'h' && "retry"[0] == 'r' && "interval"[0] == 'i';
  }

  lemma ReasonPriorityIff(a: Option<string>, b: Option<string>)
    ensures ReasonPriority(b) <= ReasonPriority(a) <==>
      forall r, s :: Stores(a, r) && Stores(b, s) ==> Displaces(r, s)
  {
    hide NormalizeReason, PriorityOf, Stores, Displaces;
    var r, s := NormalizeReason(a), NormalizeReason(b);
    StoredReasonIff(a, r);
    StoredReasonIff(b, s);
    PriorityIff(r, s);
    forall x | Stores(a, x) ensures x == r { StoredReasonIff(a, x); }
    forall x | Stores(b, x) ensures x == s { StoredReasonIff(b, x); }
  }

  lemma OutranksIff(rows: Rows, i: int, j: int)
    requires i in rows && j in rows
    ensures Outranks(rows, i, j) <==> RowDisplaces(rows, i, j)
  {
    hide NormalizeReason, PriorityOf, Stores, Displaces;
    var a, b := rows[i].reason, rows[j].reason;
    ReasonPriorityIff(a, b);
    ReasonPriorityIff(b, a);
    StoredReasonIff(a, NormalizeReason(a));
    StoredReasonIff(b, NormalizeReason(b));
    forall r, s | Stores(a, r) && Stores(b, s) ensures r == NormalizeReason(a) && s == NormalizeReason(b) {
      StoredReasonIff(a, r);
      StoredReasonIff(b, s);
    }
  }

  /** Whatever is pending for the key: a create with nothing pending adds a row that shows the wake; otherwise the
      oldest pending row shows the wake if that displaces every pending one, and if not, the one of them that displaces
      the others. */
  lemma {:induction false} CreateShows(q: Queue, wake: Wake)
    requires 0 < q.nextId && q.nextId !in q.rows
    ensures var n, id, ids := AfterCreate(q, wake), CreatedId(q, wake), PendingFor(q.rows, wake.key);
      id in n.rows && n.rows[id].key == wake.key && n.rows[id].status.Pending? &&
      (if forall i :: i in ids ==> DisplacesRow(wake, q.rows[i]) then ShowsWake(n.rows[id], wake)
       else exists w :: ShowsBest(q, wake, w, n.rows[id]))
    ensures var n, id, ids := AfterCreate(q, wake), CreatedId(q, wake), PendingFor(q.rows, wake.key);
      (if ids == {} then id == q.nextId else id in ids && forall i :: i in ids ==> id <= i) &&
      forall i :: i in q.rows && i !in ids ==> i in n.rows && n.rows[i] == q.rows[i]
  {
    hide NormalizeReason, PriorityOf, Stores, Displaces, RowDisplaces, DisplacesRow;
    var ids := PendingFor(q.rows, wake.key);
    StoredReasonIff(wake.reason, NormalizeReason(wake.reason));
    if ids != {} {
      var w := Winner(q.rows, ids);
      forall i | i in ids
        ensures RowDisplaces(q.rows, w, i)
        ensures DisplacesRow(wake, q.rows[i]) <==> ReasonPriority(q.rows[i].reason) <= ReasonPriority(wake.reason)
      {
        assert Outranks(q.rows, w, i);
        OutranksIff(q.rows, w, i);
        DisplacesRowIff(wake, q.rows[i]);
      }
      StoredReasonKeepsPriority(wake.reason);
      assert forall i :: i in ids ==> Outranks(q.rows, w, i);
      assert ShowsBest(q, wake, w, AfterCreate(q, wake).rows[Min(ids)]) || DisplacesRow(wake, q.rows[w]);
    }
  }

  lemma DisplacesRowIff(wake: Wake, row: Row)
    ensures DisplacesRow(wake, row) <==> ReasonPriority(row.reason) <= ReasonPriority(wake.reason)
  {
    hide ReasonPriority, Stores, Displaces;
    ReasonPriorityIff(wake.reason, row.reason);
  }

  // ---- Which steps change a status ----

  /** The oldest pending row in the given modes. */
  ghost predicate OldestPending(q: Queue, modes: seq<string>, id: int) {
    PendingInModes(q.rows, id, modes) && forall i :: PendingInModes(q.rows, i, modes) ==> id <= i
  }

  ghost predicate WasAndStays(q: Queue, step: Step, id: int, status: Status) {
    id in q.rows && q.rows[id].status == status && step != Release(id) && step != Dispatch(id)
  }

  /** A row that is there after a step is dispatched if and only if the step dispatched it or it was and is not
      released; and claimed if and only if the step is a claim that finds it oldest, or it was and neither happens. */
  lemma {:induction false} StatusIff(q: Queue, step: Step, id: int)
    requires 0 < q.nextId && q.nextId !in q.rows && id in Next(q, step).rows
    ensures Next(q, step).rows[id].status.Dispatched? <==>
      (step == Dispatch(id) && id in q.rows) || WasAndStays(q, step, id, Dispatched)
    ensures Next(q, step).rows[id].status.Claimed? <==>
      (step.Claim? && OldestPending(q, step.modes, id)) || WasAndStays(q, step, id, Claimed)
  {
    hide NormalizeReason, ReasonPriority, PendingInModes;
    match step
    case Create(wake) =>
      assert forall i :: i in PendingFor(q.rows, wake.key) ==> q.rows[i].status.Pending?;
    case Claim(modes) => ClaimStatus(q, modes, id);
    case _ =>
  }

  lemma ClaimStatus(q: Queue, modes: seq<string>, id: int)
    requires id in AfterClaim(q, modes).rows
    ensures AfterClaim(q, modes).rows[id].status ==
      if OldestPending(q, modes, id) then Claimed else if id in q.rows then q.rows[id].status else Pending
    ensures id in q.rows && (OldestPending(q, modes, id) ==> q.rows[id].status.Pending?)
  {
    hide NormalizeReason, ReasonPriority;
    if NextToClaim(q.rows, modes).Some? {
      var c := NextToClaim(q.rows, modes).value;
      var ids := PendingFor(q.rows, q.rows[c].key);
      assert c in ids && c in PendingIn(q.rows, modes);
      assert forall i :: i in ids ==> PendingInModes(q.rows, i, modes) && i in PendingIn(q.rows, modes);
      assert Min(ids) == c;
      assert forall i :: PendingInModes(q.rows, i, modes) ==> i in PendingIn(q.rows, modes);
      assert OldestPending(q, modes, c);
    } else {
      assert forall i :: PendingInModes(q.rows, i, modes) ==> i in PendingIn(q.rows, modes);
    }
  }
}
