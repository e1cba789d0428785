/** The wake methods of `Database`, each one atomic, over the table itself. */
module WakeDatabase {
  import opened PyText
  import opened WakeQueue

  predicate Ascending(ids: seq<int>) {
    forall i, j :: 0 <= i < j < |ids| ==> ids[i] < ids[j]
  }

  ghost function Ids(ids: seq<int>): set<int> {
    set i | i in ids
  }

  lemma AscendingAppend(ids: seq<int>, id: int)
    requires Ascending(ids) && forall i :: i in ids ==> i < id
    ensures Ascending(ids + [id]) && forall i :: i in ids + [id] <==> i in ids || i == id
  {
    assert forall k :: 0 <= k < |ids| ==> ids[k] in ids;
  }

  lemma FirstIsMin(ids: seq<int>)
    requires Ascending(ids) && ids != []
    ensures Ids(ids) != {} && Min(Ids(ids)) == ids[0]
  {
    assert ids[0] in Ids(ids);
  }

  lemma WinnerIsUnique(rows: Rows, ids: set<int>, w: int)
    requires ids <= rows.Keys && IsWinner(rows, ids, w)
    ensures ids != {} && Winner(rows, ids) == w
  {
    hide ReasonPriority;
    assert Outranks(rows, w, Winner(rows, ids)) && Outranks(rows, Winner(rows, ids), w);
  }

  lemma ClaimTakes(q: Queue, modes: seq<string>, id: int)
    requires NextToClaim(q.rows, modes) == Some(id)
    ensures id in q.rows && id in PendingFor(q.rows, q.rows[id].key) && Min(PendingFor(q.rows, q.rows[id].key)) == id
    ensures AfterClaim(q, modes) == SetStatus(CoalesceToWinner(q, PendingFor(q.rows, q.rows[id].key)), id, Claimed)
  {
    hide ReasonPriority, NormalizeReason, Coalesce;
    var ids := PendingFor(q.rows, q.rows[id].key);
    assert id in ids;
    assert forall i :: i in ids ==> i in PendingIn(q.rows, modes);
  }

  lemma CoalesceFrame(q: Queue, ids: set<int>)
    requires ids <= q.rows.Keys && ids != {}
    ensures var m := CoalesceToWinner(q, ids);
      Min(ids) in m.rows && m == q.(rows := m.rows, holder := m.holder)
  {
  }

  /** What a create that finds pending rows of its key comes to. */
  lemma CreateMerges(q: Queue, wake: Wake, ids: set<int>, text: string, reason: Option<string>)
    requires ids == PendingFor(q.rows, wake.key) && ids != {}
    requires (text, reason) == Contest(q.rows[Winner(q.rows, ids)], wake)
    ensures CreatedId(q, wake) == Min(ids)
    ensures AfterCreate(q, wake) ==
      q.(rows := Coalesce(q, ids, text, reason).rows, accepted := q.accepted + [wake],
         holder := AfterCreate(q, wake).holder)
  {
    hide ReasonPriority, NormalizeReason;
    assert AfterCreate(q, wake).rows == Coalesce(q, ids, text, reason).rows;
  }

  class Database {
    var rows: Rows
    var nextId: int
    ghost var accepted: seq<Wake>
    ghost var holder: seq<int>

    ghost function View(): Queue
      reads this
    {
      Queue(rows, nextId, accepted, holder)
    }

    /** Every id in the table has been allotted. That nothing is lost follows, from `View` and the
        lemmas about `Next`, for any sequence of these calls. */
    ghost predicate Valid()
      reads this
    {
      0 < nextId && forall id :: id in rows ==> 0 < id < nextId
    }

    constructor ()
      ensures Valid() && View() == EMPTY
    {
      rows, nextId, accepted, holder := map[], 1, [], [];
    }

    /** `SELECT id ... WHERE status = 'pending' [AND mode IN (...)] ORDER BY id ASC` */
    method SelectPending(modes: seq<string>) returns (ids: seq<int>)
      requires Valid()
      ensures Ascending(ids) && Ids(ids) == PendingIn(rows, modes)
    {
      ids := [];
      for id := 1 to nextId
        invariant Ascending(ids)
        invariant forall i :: i in ids ==> i < id && PendingInModes(rows, i, modes)
        invariant forall i :: 0 < i < id && PendingInModes(rows, i, modes) ==> i in ids
      {
        if PendingInModes(rows, id, modes) {
          AscendingAppend(ids, id);
          ids := ids + [id];
        }
      }
      forall i | i in PendingIn(rows, modes) ensures i in ids {
        assert PendingInModes(rows, i, modes);
      }
      assert forall i :: i in Ids(ids) ==> i in PendingIn(rows, modes);
    }

    /** The candidates whose agent and session match the target. */
    method MatchingTargets(candidates: seq<int>, key: Key) returns (ids: seq<int>)
      requires Ascending(candidates) && Ids(candidates) == PendingIn(rows, [key.mode])
      ensures Ascending(ids) && Ids(ids) == PendingFor(rows, key)
    {
      ids := [];
      assert forall c :: c in candidates ==> c in Ids(candidates);
      for k := 0 to |candidates|
        invariant Ascending(ids)
        invariant forall i, j :: i in ids && k <= j < |candidates| ==> i < candidates[j]
        invariant forall i :: i in ids ==> i in PendingFor(rows, key)
        invariant forall j :: 0 <= j < k && candidates[j] in PendingFor(rows, key) ==> candidates[j] in ids
      {
        var id := candidates[k];
        assert id in PendingIn(rows, [key.mode]);
        var row := rows[id];
        if row.key.agent == key.agent && row.key.session == key.session {
          AscendingAppend(ids, id);
          ids := ids + [id];
        }
      }
      forall i | i in PendingFor(rows, key) ensures i in ids {
        assert i in PendingIn(rows, [key.mode]) && i in Ids(candidates);
        var j :| 0 <= j < |candidates| && candidates[j] == i;
      }
      assert forall i :: i in Ids(ids) ==> i in PendingFor(rows, key);
    }

    /** One pass that keeps the row with the highest (priority, id). */
    method SelectWinner(ids: seq<int>) returns (text: string, reason: Option<string>, priority: nat)
      requires ids != [] && Ids(ids) <= rows.Keys
      ensures Ids(ids) != {}
      ensures var w := rows[Winner(rows, Ids(ids))];
        text == w.text && reason == w.reason && priority == ReasonPriority(w.reason)
    {
      hide ReasonPriority;
      var winner := ids[0];
      assert ids[0] in Ids(ids);
      text, reason, priority := rows[winner].text, rows[winner].reason, ReasonPriority(rows[winner].reason);
      for k := 1 to |ids|
        invariant winner in ids && winner in rows
        invariant text == rows[winner].text && reason == rows[winner].reason
        invariant priority == ReasonPriority(rows[winner].reason)
        invariant forall i :: 0 <= i < k ==> ids[i] in rows && Outranks(rows, winner, ids[i])
      {
        var id := ids[k];
        assert id in Ids(ids);
        var rowReason := rows[id].reason;
        var rowPriority := ReasonPriority(rowReason);
        if rowPriority > priority || (rowPriority == priority && id >= winner) {
          winner, text, reason, priority := id, rows[id].text, rowReason, rowPriority;
        }
      }
      assert IsWinner(rows, Ids(ids), winner);
      WinnerIsUnique(rows, Ids(ids), winner);
    }

    /** `UPDATE ... WHERE id = canonical; DELETE ... WHERE id IN duplicates` */
    method UpdateAndDelete(matching: seq<int>, text: string, reason: Option<string>)
      requires Valid() && Ascending(matching) && matching != [] && Ids(matching) <= rows.Keys
      modifies this`rows
      ensures Valid() && Ids(matching) != {} && rows == Coalesce(old(View()), Ids(matching), text, reason).rows
    {
      FirstIsMin(matching);
      var id := matching[0];
      var duplicates := set i | i in matching[1..];
      assert Ids(matching) == duplicates + {id};
      rows := rows[id := rows[id].(text := text, reason := reason)] - duplicates;
    }

    /** `INSERT INTO gateway_wake_requests ... VALUES (..., 'pending', ...)`; ids are never reused. */
    method InsertPending(key: Key, text: string, reason: string) returns (id: int)
      requires Valid()
      modifies this`rows, this`nextId
      ensures Valid() && id == old(nextId) && nextId == old(nextId) + 1
      ensures rows == old(rows)[id := Row(key, text, Some(reason), Pending)]
    {
      id := nextId;
      rows := rows[id := Row(key, text, Some(reason), Pending)];
      nextId := nextId + 1;
    }

    method CreateGatewayWakeRequest(key: Key, text: string, reason: Option<string>) returns (id: int)
      requires Valid()
      modifies this
      ensures Valid()
      ensures View() == AfterCreate(old(View()), Wake(key, text, reason))
      ensures id == CreatedId(old(View()), Wake(key, text, reason))
    {
      hide ReasonPriority, NormalizeReason, PendingIn, Winner;
      ghost var q, wake := View(), Wake(key, text, reason);
      var normalizedReason := NormalizeReason(reason);
      var existing := SelectPending([key.mode]);
      var matching := MatchingTargets(existing, key);
      if matching != [] {
        FirstIsMin(matching);
        var winningText, winningReason, winningPriority := SelectWinner(matching);
        var nextPriority := ReasonPriority(Some(normalizedReason));
        if nextPriority >= winningPriority {
          winningText, winningReason := text, Some(normalizedReason);
        }
        CreateMerges(q, wake, Ids(matching), winningText, winningReason);
        UpdateAndDelete(matching, winningText, winningReason);
        accepted, holder := accepted + [wake], AfterCreate(q, wake).holder;
        id := matching[0];
      } else {
        assert Ids(matching) == {};
        id := InsertPending(key, text, normalizedReason);
        accepted, holder := accepted + [wake], holder + [id];
      }
    }

    /** `UPDATE ... SET status = ? WHERE id = ?` */
    method UpdateStatus(id: int, status: Status)
      requires Valid()
      modifies this`rows
      ensures Valid() && View() == SetStatus(old(View()), id, status)
    {
      if id in rows {
        rows := rows[id := rows[id].(status := status)];
      }
    }

    /** Merge the rows of one key into the oldest, if there are several. */
    method MergeDuplicates(matching: seq<int>)
      requires Valid() && Ascending(matching) && matching != [] && Ids(matching) <= rows.Keys
      modifies this
      ensures Valid() && Ids(matching) != {} && View() == CoalesceToWinner(old(View()), Ids(matching))
    {
      hide ReasonPriority, NormalizeReason;
      FirstIsMin(matching);
      CoalesceFrame(View(), Ids(matching));
      ghost var m := CoalesceToWinner(View(), Ids(matching));
      if |matching| > 1 {
        var winningText, winningReason, _ := SelectWinner(matching);
        UpdateAndDelete(matching, winningText, winningReason);
      } else {
        assert Ids(matching) == {matching[0]};
        CoalesceOne(View(), matching[0]);
      }
      holder := m.holder;
    }

    method ClaimNextGatewayWakeRequest(modes: seq<string>) returns (claimed: Option<(int, Row)>)
      requires Valid()
      modifies this
      ensures Valid()
      ensures View() == AfterClaim(old(View()), modes)
      ensures match NextToClaim(old(rows), modes)
        case None => claimed == None
        case Some(id) => id in rows && claimed == Some((id, rows[id]))
    {
      hide ReasonPriority, NormalizeReason, PendingIn, Winner, Coalesce;
      ghost var q := View();
      var candidates := SelectPending(modes);
      if candidates == [] {
        assert Ids(candidates) == {};
        return None;
      }
      FirstIsMin(candidates);
      var id := candidates[0];
      ClaimTakes(q, modes, id);
      hide AfterClaim;
      var key := rows[id].key;
      var sameMode := SelectPending([key.mode]);
      var matching := MatchingTargets(sameMode, key);
      assert id in Ids(matching);
      CoalesceFrame(q, Ids(matching));
      MergeDuplicates(matching);
      hide CoalesceToWinner, PendingFor;
      UpdateStatus(id, Claimed);
      claimed := Some((id, rows[id]));
    }

    method ReleaseGatewayWakeRequest(id: int)
      requires Valid()
      modifies this
      ensures Valid() && View() == SetStatus(old(View()), id, Pending)
    {
      UpdateStatus(id, Pending);
    }

    method MarkGatewayWakeRequestDispatched(id: int)
      requires Valid()
      modifies this
      ensures Valid() && View() == SetStatus(old(View()), id, Dispatched)
    {
      UpdateStatus(id, Dispatched);
    }
  }
}
