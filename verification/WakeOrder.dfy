/** Which of the wakes it stands for a row shows, and how long a wake waits. */
module WakeOrder {
  import opened PyText
  import opened WakeQueue

  // ---- A row shows the latest of its highest-priority wakes, while claims do not overlap ----

  predicate Below(q: Queue, r: int, s: int)
    requires 0 <= r < |q.accepted| && 0 <= s < |q.accepted|
  {
    var pr, ps := ReasonPriority(q.accepted[r].reason), ReasonPriority(q.accepted[s].reason);
    pr < ps || (pr == ps && r <= s)
  }

  /** `r` is the latest of the highest-priority calls that row `id` holds. */
  ghost predicate IsTop(q: Queue, id: int, r: int)
    requires WellFormed(q)
  {
    Holds(q, id, r) && forall s :: Holds(q, id, s) ==> Below(q, s, r)
  }

  ghost predicate Faithful(q: Queue)
    requires WellFormed(q)
  {
    forall id, r :: IsTop(q, id, r) ==> Shows(q, id, r)
  }

  predicate Live(q: Queue, id: int) {
    id in q.rows && !q.rows[id].status.Dispatched?
  }

  /** Of two live rows of one key, everything the older holds came first, and only the older may be
      claimed. */
  predicate InOrder(q: Queue, a: int, b: int)
    requires Live(q, a) && Live(q, b)
  {
    !q.rows[b].status.Claimed? &&
    forall r, s :: 0 <= r < |q.holder| && 0 <= s < |q.holder| && q.holder[r] == a && q.holder[s] == b ==> r < s
  }

  ghost predicate Ordered(q: Queue) {
    forall a, b :: Live(q, a) && Live(q, b) && q.rows[a].key == q.rows[b].key && a < b ==> InOrder(q, a, b)
  }

  /** Claim a key only while no claim on it is outstanding; release no dispatched row. */
  ghost predicate Disciplined(q: Queue, step: Step) {
    match step
    case Claim(modes) =>
      var next := NextToClaim(q.rows, modes);
      next.Some? ==>
        forall id :: id in q.rows && q.rows[id].key == q.rows[next.value].key ==> !q.rows[id].status.Claimed?
    case Release(id) => id in q.rows ==> !q.rows[id].status.Dispatched?
    case _ => true
  }

  ghost predicate DisciplinedRun(q: Queue, steps: seq<Step>)
    decreases |steps|
  {
    |steps| == 0 || (Disciplined(q, steps[0]) && DisciplinedRun(Next(q, steps[0]), steps[1..]))
  }

  ghost predicate Sound(q: Queue) {
    Conserved(q) && Faithful(q) && Ordered(q)
  }

  /** The highest-priority latest call that row `id` holds among the first `n`, given one it holds. */
  lemma {:induction false} TopAmong(q: Queue, id: int, n: nat, some: int) returns (top: int)
    requires |q.holder| == |q.accepted| && n <= |q.holder| && some < n && Holds(q, id, some)
    ensures Holds(q, id, top) && top < n && forall s :: s < n && Holds(q, id, s) ==> Below(q, s, top)
  {
    hide ReasonPriority;
    top := some;
    var k := 0;
    while k < n
      invariant 0 <= k <= n && Holds(q, id, top) && top < n
      invariant forall s :: s < k && Holds(q, id, s) ==> Below(q, s, top)
    {
      if Holds(q, id, k) && Below(q, top, k) { top := k; }
      k := k + 1;
    }
  }

  lemma TopOf(q: Queue, id: int) returns (top: int)
    requires Conserved(q) && id in q.rows
    ensures IsTop(q, id, top)
  {
    hide ReasonPriority;
    var r :| Holds(q, id, r) && Shows(q, id, r);
    top := TopAmong(q, id, |q.holder|, r);
  }

  /** A faithful row's own priority is that of its top call. */
  lemma TopPriority(q: Queue, id: int, top: int)
    requires Conserved(q) && Faithful(q) && IsTop(q, id, top)
    ensures ReasonPriority(q.rows[id].reason) == ReasonPriority(q.accepted[top].reason)
  {
    hide ReasonPriority, NormalizeReason;
    StoredReasonKeepsPriority(q.accepted[top].reason);
    assert Shows(q, id, top);
  }

  ghost predicate NoneOvertakes(q: Queue, ids: set<int>, w: int, top: int)
    requires WellFormed(q) && ids <= q.rows.Keys && w in ids
  {
    forall i, r ::
      i in ids && ReasonPriority(q.rows[i].reason) == ReasonPriority(q.rows[w].reason) && IsTop(q, i, r) ==> r <= top
  }

  /** Choosing the row with the highest (priority, id) is right exactly when no other row of that
      priority holds a later top call. */
  lemma {:induction false} WinnerIsLatestIff(q: Queue, ids: set<int>, top: int)
    requires Conserved(q) && Faithful(q) && ids <= q.rows.Keys && ids != {}
    requires IsTop(q, Winner(q.rows, ids), top)
    ensures WellFormed(CoalesceToWinner(q, ids))
    ensures IsTop(CoalesceToWinner(q, ids), Min(ids), top) <==> NoneOvertakes(q, ids, Winner(q.rows, ids), top)
  {
    hide ReasonPriority, NormalizeReason;
    var w := Winner(q.rows, ids);
    var m := CoalesceToWinner(q, ids);
    TopPriority(q, w, top);
    if NoneOvertakes(q, ids, w, top) {
      forall s | Holds(m, Min(ids), s) ensures Below(m, s, top) {
        var i := q.holder[s];
        var t := TopOf(q, i);
        TopPriority(q, i, t);
        assert Below(q, s, t) && Outranks(q.rows, w, i);
      }
    }
    if IsTop(m, Min(ids), top) {
      forall i, r | i in ids && ReasonPriority(q.rows[i].reason) == ReasonPriority(q.rows[w].reason) && IsTop(q, i, r)
        ensures r <= top
      {
        TopPriority(q, i, r);
        assert Holds(m, Min(ids), r);
        assert Below(m, r, top);
      }
    }
  }

  lemma {:induction false} OlderNeverOvertakes(q: Queue, key: Key, ids: set<int>, top: int)
    requires Sound(q) && ids == PendingFor(q.rows, key) && ids != {}
    requires IsTop(q, Winner(q.rows, ids), top)
    ensures NoneOvertakes(q, ids, Winner(q.rows, ids), top)
  {
    hide ReasonPriority, NormalizeReason, Covering, Attributed;
    var w := Winner(q.rows, ids);
    forall i, r | i in ids && ReasonPriority(q.rows[i].reason) == ReasonPriority(q.rows[w].reason) && IsTop(q, i, r)
      ensures r <= top
    {
      assert Outranks(q.rows, w, i);
      assert Live(q, i) && Live(q, w);
      if i == w { assert Below(q, r, top); } else { assert InOrder(q, i, w); }
    }
  }

  lemma {:induction false} CoalesceFaithful(q: Queue, ids: set<int>, top: int)
    requires Conserved(q) && Faithful(q) && ids <= q.rows.Keys && ids != {}
    requires IsTop(q, Winner(q.rows, ids), top)
    requires WellFormed(CoalesceToWinner(q, ids)) && IsTop(CoalesceToWinner(q, ids), Min(ids), top)
    ensures Faithful(CoalesceToWinner(q, ids))
  {
    hide ReasonPriority, NormalizeReason;
    var w := Winner(q.rows, ids);
    var m := CoalesceToWinner(q, ids);
    forall id, r | IsTop(m, id, r) ensures Shows(m, id, r) {
      if id == Min(ids) {
        assert Below(m, r, top) && Below(m, top, r);
        assert Shows(q, w, top);
      } else {
        forall s | Holds(q, id, s) ensures Below(q, s, r) { assert Holds(m, id, s) && Below(m, s, r); }
        assert IsTop(q, id, r);
      }
    }
  }

  lemma {:induction false} CoalesceInOrder(q: Queue, key: Key, ids: set<int>, a: int, b: int)
    requires Ordered(q) && ids == PendingFor(q.rows, key) && ids != {}
    requires var m := CoalesceToWinner(q, ids); Live(m, a) && Live(m, b) && m.rows[a].key == m.rows[b].key && a < b
    ensures InOrder(CoalesceToWinner(q, ids), a, b)
  {
    hide ReasonPriority, NormalizeReason;
    var m := CoalesceToWinner(q, ids);
    assert Live(q, a) && Live(q, b) && InOrder(q, a, b);
    forall r, s | 0 <= r < |m.holder| && 0 <= s < |m.holder| && m.holder[r] == a && m.holder[s] == b ensures r < s {
      assert a != Min(ids) && q.holder[r] == a;
      if b == Min(ids) && q.holder[s] != b {
        assert Live(q, q.holder[s]) && InOrder(q, a, q.holder[s]);
      }
    }
  }

  /** Coalescing all pending rows of a key keeps the queue sound. */
  lemma {:induction false} CoalesceSound(q: Queue, key: Key, ids: set<int>)
    requires Sound(q) && ids == PendingFor(q.rows, key) && ids != {}
    ensures Sound(CoalesceToWinner(q, ids))
  {
    var w := Winner(q.rows, ids);
    var m := CoalesceToWinner(q, ids);
    var top := TopOf(q, w);
    OlderNeverOvertakes(q, key, ids, top);
    WinnerIsLatestIff(q, ids, top);
    CoalesceFaithful(q, ids, top);
    CoalesceConserves(q, ids, w);
    hide Coalesce, Conserved, Faithful, Winner, IsTop;
    forall a, b | Live(m, a) && Live(m, b) && m.rows[a].key == m.rows[b].key && a < b
      ensures InOrder(m, a, b)
    {
      CoalesceInOrder(q, key, ids, a, b);
    }
  }

  lemma {:induction false} InsertSound(q: Queue, wake: Wake)
    requires Sound(q) && PendingFor(q.rows, wake.key) == {}
    ensures Sound(AfterInsert(q, wake))
  {
    hide ReasonPriority, NormalizeReason;
    var n := AfterInsert(q, wake);
    InsertConserves(q, wake);
    forall id, r | IsTop(n, id, r) ensures Shows(n, id, r) {
      if id != q.nextId {
        forall s | Holds(q, id, s) ensures Below(q, s, r) { assert Holds(n, id, s) && Below(n, s, r); }
        assert IsTop(q, id, r);
      }
    }
    forall a, b | Live(n, a) && Live(n, b) && n.rows[a].key == n.rows[b].key && a < b
      ensures InOrder(n, a, b)
    {
      assert Live(q, a) && (b != q.nextId ==> Live(q, b) && InOrder(q, a, b));
    }
  }

  lemma {:induction false} AbsorbSound(m: Queue, id: int, wake: Wake)
    requires Sound(m) && id in m.rows && m.rows[id].key == wake.key
    requires forall b :: Live(m, b) && m.rows[b].key == wake.key ==> b <= id
    ensures Sound(AbsorbInto(m, id, wake))
  {
    hide ReasonPriority, NormalizeReason;
    var n := AbsorbInto(m, id, wake);
    var latest := |m.accepted|;
    AbsorbConserves(m, id, wake);
    var top := TopOf(m, id);
    TopPriority(m, id, top);
    StoredReasonKeepsPriority(wake.reason);
    forall i, r | IsTop(n, i, r) ensures Shows(n, i, r) {
      if i != id || r != latest {
        forall s | Holds(m, i, s) ensures Below(m, s, r) { assert Holds(n, i, s) && Below(n, s, r); }
        assert IsTop(m, i, r);
        if i == id {
          assert Holds(n, id, latest) && Below(n, latest, r);
          assert Below(m, top, r) && Below(m, r, top);
        }
      } else {
        assert Holds(n, id, top) && Below(n, top, latest);
      }
    }
    forall a, b | Live(n, a) && Live(n, b) && n.rows[a].key == n.rows[b].key && a < b
      ensures InOrder(n, a, b)
    {
      assert Live(m, a) && Live(m, b) && InOrder(m, a, b);
      assert a != id;
    }
  }

  lemma {:induction false} SetStatusSound(q: Queue, id: int, status: Status)
    requires Sound(q)
    requires id in q.rows && !status.Dispatched? ==> Live(q, id)
    requires id in q.rows && status.Claimed? ==>
      forall b :: Live(q, b) && q.rows[b].key == q.rows[id].key ==> id <= b
    ensures Sound(SetStatus(q, id, status))
  {
    hide ReasonPriority, NormalizeReason;
    var n := SetStatus(q, id, status);
    SetStatusConserves(q, id, status);
    forall i, r | IsTop(n, i, r) ensures Shows(n, i, r) {
      forall s | Holds(q, i, s) ensures Below(q, s, r) { assert Holds(n, i, s) && Below(n, s, r); }
      assert IsTop(q, i, r);
    }
    forall a, b | Live(n, a) && Live(n, b) && n.rows[a].key == n.rows[b].key && a < b
      ensures InOrder(n, a, b)
    {
      assert Live(q, a) && Live(q, b) && InOrder(q, a, b);
    }
  }

  /** A live row of a key is pending, or older than every pending row of it. */
  lemma OnlyOlderClaimed(q: Queue, key: Key, b: int)
    requires Ordered(q) && PendingFor(q.rows, key) != {} && Live(q, b) && q.rows[b].key == key
    ensures b in PendingFor(q.rows, key) || b < Min(PendingFor(q.rows, key))
  {
    assert Live(q, Min(PendingFor(q.rows, key)));
  }

  /** After coalescing, a live row of the key is the oldest pending one, or an older claimed one. */
  lemma LiveAfterCoalesce(q: Queue, key: Key, b: int)
    requires Ordered(q) && PendingFor(q.rows, key) != {}
    requires Live(CoalesceToWinner(q, PendingFor(q.rows, key)), b)
    requires CoalesceToWinner(q, PendingFor(q.rows, key)).rows[b].key == key
    ensures Live(q, b) && q.rows[b].key == key
    ensures b == Min(PendingFor(q.rows, key)) || (b < Min(PendingFor(q.rows, key)) && q.rows[b].status.Claimed?)
  {
    hide ReasonPriority, NormalizeReason, Winner;
    OnlyOlderClaimed(q, key, b);
  }

  lemma {:induction false} CreateSound(q: Queue, wake: Wake)
    requires Sound(q)
    ensures Sound(AfterCreate(q, wake))
  {
    var ids := PendingFor(q.rows, wake.key);
    if ids == {} {
      InsertSound(q, wake);
    } else {
      CoalesceSound(q, wake.key, ids);
      var m := CoalesceToWinner(q, ids);
      assert Ordered(q) && AfterCreate(q, wake) == AbsorbInto(m, Min(ids), wake);
      assert Min(ids) in m.rows && m.rows[Min(ids)].key == wake.key;
      hide AfterCreate, CoalesceToWinner, Sound, Ordered, Live, PendingFor;
      forall b | Live(m, b) && m.rows[b].key == wake.key ensures b <= Min(ids) {
        LiveAfterCoalesce(q, wake.key, b);
      }
      AbsorbSound(m, Min(ids), wake);
    }
  }

  lemma {:induction false} ClaimSound(q: Queue, modes: seq<string>)
    requires Sound(q) && Disciplined(q, Claim(modes))
    ensures Sound(AfterClaim(q, modes))
  {
    if NextToClaim(q.rows, modes).Some? {
      var id := NextToClaim(q.rows, modes).value;
      var key := q.rows[id].key;
      var ids := PendingFor(q.rows, key);
      assert id in ids;
      CoalesceSound(q, key, ids);
      var m := CoalesceToWinner(q, ids);
      assert Ordered(q) && AfterClaim(q, modes) == SetStatus(m, Min(ids), Claimed);
      assert Min(ids) in m.rows && m.rows[Min(ids)].key == key && Live(m, Min(ids));
      assert forall b :: b in q.rows && q.rows[b].key == key ==> !q.rows[b].status.Claimed?;
      hide AfterClaim, CoalesceToWinner, Sound, Ordered, PendingFor, Disciplined, Live;
      forall b | Live(m, b) && m.rows[b].key == key ensures b == Min(ids) {
        LiveAfterCoalesce(q, key, b);
        assert b in q.rows by { LiveInRows(q, b); }
      }
      SetStatusSound(m, Min(ids), Claimed);
    }
  }

  lemma LiveInRows(q: Queue, b: int)
    requires Live(q, b)
    ensures b in q.rows
  {
  }

  lemma {:induction false} NextSound(q: Queue, step: Step)
    requires Sound(q) && Disciplined(q, step)
    ensures Sound(Next(q, step))
  {
    hide AfterCreate, AfterClaim, Sound;
    match step
    case Create(wake) => CreateSound(q, wake);
    case Claim(modes) => ClaimSound(q, modes);
    case Release(id) => SetStatusSound(q, id, Pending);
    case Dispatch(id) => SetStatusSound(q, id, Dispatched);
  }

  lemma {:induction false} RunSound(q: Queue, steps: seq<Step>)
    requires Sound(q) && DisciplinedRun(q, steps)
    ensures Sound(Run(q, steps))
    decreases |steps|
  {
    hide Sound, Next, Disciplined;
    if |steps| != 0 {
      NextSound(q, steps[0]);
      RunSound(Next(q, steps[0]), steps[1..]);
    }
  }

  /** With at most one outstanding claim per key, every row always shows the latest of the
      highest-priority wakes it stands for, across releases that leave two pending rows to merge. */
  lemma {:induction false} RowsShowLatestOfHighest(steps: seq<Step>, id: int, r: int)
    requires DisciplinedRun(EMPTY, steps)
    ensures WellFormed(Run(EMPTY, steps))
    ensures IsTop(Run(EMPTY, steps), id, r) ==> Shows(Run(EMPTY, steps), id, r)
  {
    RunSound(EMPTY, steps);
  }

  // ---- Without that discipline the order is lost ----

  lemma ClaimOnlyPending(q: Queue, id: int)
    requires PendingIn(q.rows, []) == {id}
    ensures AfterClaim(q, []) == SetStatus(q, id, Claimed)
  {
    hide ReasonPriority, NormalizeReason;
    assert id in PendingIn(q.rows, []);
    assert Min({id}) == id;
    assert PendingFor(q.rows, q.rows[id].key) == {id};
    CoalesceOne(q, id);
  }

  lemma CreateOnOnlyPending(q: Queue, wake: Wake, id: int)
    requires PendingFor(q.rows, wake.key) == {id}
    ensures AfterCreate(q, wake) == AbsorbInto(q, id, wake)
  {
    hide ReasonPriority, NormalizeReason;
    assert id in PendingFor(q.rows, wake.key);
    assert Min({id}) == id;
    CoalesceOne(q, id);
  }

  /** Two claims on one key outstanding together: row 1 is released, takes in a later wake of the same
      priority, and still loses the merge to row 2, whose id is larger. */
  lemma {:induction false} OverlappingClaimsLoseLatest(key: Key)
    ensures
      var first, second, third := Wake(key, "first", None), Wake(key, "second", None), Wake(key, "third", None);
      var q4 := Next(Next(Next(Next(EMPTY, Create(first)), Claim([])), Create(second)), Claim([]));
      var q := Next(Next(Next(Next(q4, Release(1)), Create(third)), Release(2)), Claim([]));
      WellFormed(q) && IsTop(q, 1, 2) && q.accepted[2] == third && q.rows[1].text == "second"
  {
    hide ReasonPriority, Coalesce;
    var first, second, third := Wake(key, "first", None), Wake(key, "second", None), Wake(key, "third", None);
    var reason := Some(NormalizeReason(None));
    hide NormalizeReason;
    var q1 := Queue(map[1 := Row(key, "first", reason, Pending)], 2, [first], [1]);
    assert Next(EMPTY, Create(first)) == q1;
    var q2 := q1.(rows := map[1 := Row(key, "first", reason, Claimed)]);
    assert PendingIn(q1.rows, []) == {1};
    ClaimOnlyPending(q1, 1);
    assert Next(q1, Claim([])) == q2;
    var q3 := Queue(q2.rows[2 := Row(key, "second", reason, Pending)], 3, [first, second], [1, 2]);
    assert PendingFor(q2.rows, key) == {};
    assert Next(q2, Create(second)) == q3;
    var q4 := q3.(rows := q3.rows[2 := Row(key, "second", reason, Claimed)]);
    assert PendingIn(q3.rows, []) == {2};
    ClaimOnlyPending(q3, 2);
    assert Next(q3, Claim([])) == q4;
    var q5 := q4.(rows := q4.rows[1 := Row(key, "first", reason, Pending)]);
    assert Next(q4, Release(1)) == q5;
    hide AfterClaim, AfterCreate, PendingIn, PendingFor;
    LoseLatestFromHere(key, q5);
  }

  lemma {:induction false} LoseLatestFromHere(key: Key, q5: Queue)
    requires q5.rows == map[1 := Row(key, "first", Some(NormalizeReason(None)), Pending),
                            2 := Row(key, "second", Some(NormalizeReason(None)), Claimed)]
    requires q5.nextId == 3 && q5.holder == [1, 2]
    requires q5.accepted == [Wake(key, "first", None), Wake(key, "second", None)]
    ensures var third := Wake(key, "third", None);
      var q := Next(Next(Next(q5, Create(third)), Release(2)), Claim([]));
      WellFormed(q) && IsTop(q, 1, 2) && q.accepted[2] == third && q.rows[1].text == "second"
  {
    hide ReasonPriority, Coalesce;
    var reason := Some(NormalizeReason(None));
    hide NormalizeReason;
    var third := Wake(key, "third", None);
    var q6 := AbsorbInto(q5, 1, third);
    assert PendingFor(q5.rows, key) == {1};
    CreateOnOnlyPending(q5, third, 1);
    assert q6.rows == map[1 := Row(key, "third", reason, Pending), 2 := Row(key, "second", reason, Claimed)];
    LoseLatestInMerge(key, q6);
    hide AfterCreate, AfterClaim, PendingFor, IsTop, WellFormed;
  }

  lemma {:induction false} LoseLatestInMerge(key: Key, q6: Queue)
    requires q6.rows == map[1 := Row(key, "third", Some(NormalizeReason(None)), Pending),
                            2 := Row(key, "second", Some(NormalizeReason(None)), Claimed)]
    requires q6.nextId == 3 && q6.holder == [1, 2, 1]
    requires |q6.accepted| == 3 && forall i :: 0 <= i < 3 ==> q6.accepted[i].reason == None
    ensures var q := Next(Next(q6, Release(2)), Claim([]));
      WellFormed(q) && IsTop(q, 1, 2) && q.accepted == q6.accepted && q.rows[1].text == "second"
  {
    hide ReasonPriority, NormalizeReason;
    var q7 := q6.(rows := q6.rows[2 := q6.rows[2].(status := Pending)]);
    assert Next(q6, Release(2)) == q7;
    var ids := {1, 2};
    assert ids == PendingIn(q7.rows, []) == PendingFor(q7.rows, key);
    assert Min(ids) == 1;
    assert Outranks(q7.rows, 2, 1) && !Outranks(q7.rows, 1, 2);
    assert Winner(q7.rows, ids) == 2;
    hide PendingFor, PendingIn;
    var q := Next(q7, Claim([]));
    assert q == SetStatus(CoalesceToWinner(q7, ids), 1, Claimed);
    assert q.holder == [1, 1, 1];
  }

  // ---- Bounded waiting ----

  /** The pending rows a claim would take before row `id`. */
  ghost function Ahead(q: Queue, id: int): set<int> {
    set j | j in q.rows && IsPending(q.rows, j) && j < id
  }

  ghost predicate NoRelease(steps: seq<Step>) {
    forall i :: 0 <= i < |steps| ==> !steps[i].Release?
  }

  function UnfilteredClaims(steps: seq<Step>): nat {
    if |steps| == 0 then 0
    else (if steps[0] == Claim([]) then 1 else 0) + UnfilteredClaims(steps[1..])
  }

  lemma SubsetSize(a: set<int>, b: set<int>)
    requires a <= b
    ensures |a| <= |b| && (a != b ==> |a| < |b|)
  {
    if a != b {
      assert b == a + (b - a);
      var x := AnyOf(b - a);
    }
  }

  ghost predicate StillWaits(n: Queue, h: int, q: Queue, id: int, gain: int) {
    IsPending(n.rows, h) ==> IsPending(q.rows, id) && |Ahead(n, h)| + gain <= |Ahead(q, id)|
  }

  lemma AheadShrinks(n: Queue, h: int, q: Queue, id: int, gone: Option<int>)
    requires h <= id && forall j :: j < h && IsPending(n.rows, j) ==> IsPending(q.rows, j)
    requires gone.Some? ==> IsPending(q.rows, gone.value) && gone.value < id && !IsPending(n.rows, gone.value)
    ensures |Ahead(n, h)| + (if gone.Some? then 1 else 0) <= |Ahead(q, id)|
  {
    if gone.Some? {
      assert gone.value in Ahead(q, id) && gone.value !in Ahead(n, h);
    }
    SubsetSize(Ahead(n, h), Ahead(q, id));
  }

  lemma {:induction false} WaitThroughCreate(q: Queue, wake: Wake, r: int)
    requires WellFormed(q) && 0 <= r < |q.holder|
    ensures r < |AfterCreate(q, wake).holder|
    ensures StillWaits(AfterCreate(q, wake), AfterCreate(q, wake).holder[r], q, q.holder[r], 0)
  {
    hide ReasonPriority, NormalizeReason, Winner;
    var n := AfterCreate(q, wake);
    var ids := PendingFor(q.rows, wake.key);
    if ids != {} {
      var m := CoalesceToWinner(q, ids);
      assert n.holder[r] == m.holder[r];
    }
    AheadShrinks(n, n.holder[r], q, q.holder[r], None);
  }

  lemma {:induction false} WaitThroughClaim(q: Queue, modes: seq<string>, r: int)
    requires WellFormed(q) && 0 <= r < |q.holder|
    ensures r < |AfterClaim(q, modes).holder|
    ensures StillWaits(AfterClaim(q, modes), AfterClaim(q, modes).holder[r], q, q.holder[r],
                       if modes == [] then 1 else 0)
  {
    hide ReasonPriority, NormalizeReason, Winner, Ahead;
    var n := AfterClaim(q, modes);
    var next := NextToClaim(q.rows, modes);
    assert modes == [] && IsPending(q.rows, q.holder[r]) ==> q.holder[r] in PendingIn(q.rows, modes);
    if next.Some? {
      var taken := next.value;
      var ids := PendingFor(q.rows, q.rows[taken].key);
      assert taken in ids;
      assert forall x :: x in ids ==> x in PendingIn(q.rows, modes);
      assert Min(ids) == taken && !IsPending(n.rows, taken);
      if IsPending(n.rows, n.holder[r]) {
        assert q.holder[r] !in ids && n.holder[r] == q.holder[r];
        AheadShrinks(n, n.holder[r], q, q.holder[r], if modes == [] then Some(taken) else None);
      }
    }
  }

  lemma {:induction false} WaitThroughDispatch(q: Queue, id: int, r: int)
    requires WellFormed(q) && 0 <= r < |q.holder|
    ensures r < |SetStatus(q, id, Dispatched).holder|
    ensures StillWaits(SetStatus(q, id, Dispatched), SetStatus(q, id, Dispatched).holder[r], q, q.holder[r], 0)
  {
    AheadShrinks(SetStatus(q, id, Dispatched), q.holder[r], q, q.holder[r], None);
  }

  /** One step never puts anything ahead of a waiting wake, and an unfiltered claim takes the wake or
      something ahead of it. */
  lemma {:induction false} WaitStep(q: Queue, step: Step, r: int)
    requires WellFormed(q) && 0 <= r < |q.holder| && !step.Release?
    ensures r < |Next(q, step).holder|
    ensures StillWaits(Next(q, step), Next(q, step).holder[r], q, q.holder[r], if step == Claim([]) then 1 else 0)
  {
    hide AfterCreate, AfterClaim, StillWaits;
    match step
    case Create(wake) => WaitThroughCreate(q, wake, r);
    case Claim(modes) => WaitThroughClaim(q, modes, r);
    case Dispatch(d) => WaitThroughDispatch(q, d, r);
  }

  /** A wake whose row has k pending rows ahead of it is taken within k+1 unfiltered claims, however many
      creates, filtered claims and dispatches come between, as long as nothing is released. */
  lemma {:induction false} WaitIsBounded(q: Queue, steps: seq<Step>, r: int)
    requires Conserved(q) && 0 <= r < |q.holder| && NoRelease(steps)
    requires IsPending(q.rows, q.holder[r]) ==> |Ahead(q, q.holder[r])| < UnfilteredClaims(steps)
    ensures r < |Run(q, steps).holder| && !IsPending(Run(q, steps).rows, Run(q, steps).holder[r])
    decreases |steps|
  {
    hide Next, Ahead, IsPending;
    if |steps| != 0 {
      assert WellFormed(q);
      WaitStep(q, steps[0], r);
      NextConserves(q, steps[0]);
      hide Conserved, WellFormed;
      WaitIsBounded(Next(q, steps[0]), steps[1..], r);
    }
  }

  // ---- What one create or claim leaves pending ----

  /** A create leaves exactly one pending row of its key: the oldest there was, or a new one. */
  lemma CreateLeavesOne(q: Queue, wake: Wake)
    requires WellFormed(q)
    ensures PendingFor(AfterCreate(q, wake).rows, wake.key) == {CreatedId(q, wake)}
    ensures Holds(AfterCreate(q, wake), CreatedId(q, wake), |q.accepted|)
  {
    hide ReasonPriority, NormalizeReason, Winner;
    var ids := PendingFor(q.rows, wake.key);
    if ids != {} {
      assert PendingFor(CoalesceToWinner(q, ids).rows, wake.key) == {Min(ids)};
    }
  }

  /** A claim takes the oldest pending row there is (in the given modes), leaves none of its key, and
      leaves every other key alone. */
  lemma ClaimLeavesNone(q: Queue, modes: seq<string>, id: int)
    requires NextToClaim(q.rows, modes) == Some(id)
    ensures var n := AfterClaim(q, modes);
      id in n.rows && n.rows[id].status.Claimed? && n.rows[id].key == q.rows[id].key &&
      PendingFor(n.rows, q.rows[id].key) == {} &&
      forall j :: j in q.rows && q.rows[j].key != q.rows[id].key ==> j in n.rows && n.rows[j] == q.rows[j]
  {
    hide ReasonPriority, NormalizeReason, Winner;
    var ids := PendingFor(q.rows, q.rows[id].key);
    assert id in ids;
    assert forall x :: x in ids ==> x in PendingIn(q.rows, modes);
  }
}
