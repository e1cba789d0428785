/** The bounded session table of `src/openzues/services/acp_session_store.py`. */
module SessionStore {
  import opened PyText
  import opened PyDict

  /** One session record. `abort` is the handle of its abort callback. */
  datatype Session = Session(key: string, cwd: string, createdAt: int, lastTouchedAt: int,
                             abort: Option<int>, activeRunId: Option<string>)

  /** `runs` maps a run id to its session; `aborted` lists the abort callbacks called so far. */
  datatype Store = Store(maxSessions: int, idleTtlMs: int, sessions: Dict<string, Session>,
                         runs: map<string, string>, aborted: seq<int>)

  predicate Active(s: Session) {
    (s.activeRunId.Some? && s.activeRunId.value != "") || s.abort.Some?
  }

  predicate Expired(s: Session, idleBefore: int) {
    !Active(s) && s.lastTouchedAt <= idleBefore
  }

  ghost predicate Valid(st: Store) {
    1 <= st.maxSessions && st.sessions.Valid() && |st.sessions.keys| <= st.maxSessions &&
    forall k :: k in st.sessions.vals ==> (st.sessions.vals[k].abort.Some? <==> st.sessions.vals[k].activeRunId.Some?)
  }

  /** The run index and the sessions name each other. */
  ghost predicate Agrees(st: Store) {
    forall r, k :: (r in st.runs && st.runs[r] == k) <==> RunsIn(st, k, r)
  }

  predicate RunsIn(st: Store, k: string, r: string) {
    k in st.sessions.vals && st.sessions.vals[k].activeRunId == Some(r)
  }

  function Unindex(runs: map<string, string>, run: Option<string>): map<string, string> {
    if run.Some? then runs - {run.value} else runs
  }

  function Called(aborted: seq<int>, abort: Option<int>): seq<int> {
    if abort.Some? then aborted + [abort.value] else aborted
  }

  /** `_remove_session` */
  function Remove(st: Store, k: string): Store {
    if k !in st.sessions.vals then st
    else
      var s := st.sessions.vals[k];
      st.(runs := Unindex(st.runs, s.activeRunId), aborted := Called(st.aborted, s.abort),
          sessions := st.sessions.Pop(k))
  }

  /** `_reap_idle_sessions`, over a snapshot of the keys. */
  function Reap(st: Store, snapshot: seq<string>, idleBefore: int): Store {
    if |snapshot| == 0 then st
    else
      var k, before := snapshot[|snapshot| - 1], Reap(st, snapshot[..|snapshot| - 1], idleBefore);
      if k in before.sessions.vals && Expired(before.sessions.vals[k], idleBefore) then Remove(before, k) else before
  }

  function ReapIdle(st: Store, now: int): Store {
    Reap(st, st.sessions.keys, now - st.idleTtlMs)
  }

  /** The idle session `_evict_oldest_idle_session` settles on. */
  function OldestIdle(vals: map<string, Session>, keys: seq<string>): Option<string>
    requires forall k :: k in keys ==> k in vals
  {
    if |keys| == 0 then None
    else
      var k, best := keys[|keys| - 1], OldestIdle(vals, keys[..|keys| - 1]);
      if Active(vals[k]) then best
      else if best.None? || best.value !in vals || vals[k].lastTouchedAt < vals[best.value].lastTouchedAt then Some(k)
      else best
  }

  function NewSession(key: string, cwd: string, now: int): Session {
    Session(key, cwd, now, now, None, None)
  }

  function Update(st: Store, k: string, s: Session): Store {
    st.(sessions := st.sessions.Put(k, s))
  }

  /** Add a session to a reaped store, evicting the oldest idle one if the store is full; the second
      component is whether the call returned rather than raised. */
  function Admit(st: Store, now: int, k: string, key: string, cwd: string): (Store, bool)
    requires forall x :: x in st.sessions.keys ==> x in st.sessions.vals
  {
    if |st.sessions.keys| < st.maxSessions then
      (Update(st, k, NewSession(key, cwd, now)), true)
    else
      var oldest := OldestIdle(st.sessions.vals, st.sessions.keys);
      if oldest.None? then (st, false)
      else (Update(Remove(st, oldest.value), k, NewSession(key, cwd, now)), true)
  }

  /** `create_session` */
  ghost function AfterCreate(st: Store, now: int, k: string, key: string, cwd: string): (Store, bool)
    requires Valid(st)
  {
    if k in st.sessions.vals then
      (Update(st, k, st.sessions.vals[k].(key := key, cwd := cwd, lastTouchedAt := now)), true)
    else
      ReapIdleKeeps(st, now);
      Admit(ReapIdle(st, now), now, k, key, cwd)
  }

  /** `get_session`: a hit touches the session. */
  function AfterGet(st: Store, now: int, k: string): Store {
    if k in st.sessions.vals then Update(st, k, st.sessions.vals[k].(lastTouchedAt := now)) else st
  }

  function AfterSetRun(st: Store, now: int, k: string, run: string, abort: int): Store {
    if k in st.sessions.vals then
      var s := st.sessions.vals[k].(activeRunId := Some(run), abort := Some(abort), lastTouchedAt := now);
      Update(st, k, s).(runs := st.runs[run := k])
    else st
  }

  function AfterClearRun(st: Store, now: int, k: string): Store {
    if k in st.sessions.vals then
      var s := st.sessions.vals[k];
      var n := Update(st, k, s.(activeRunId := None, abort := None, lastTouchedAt := now));
      n.(runs := Unindex(st.runs, s.activeRunId))
    else st
  }

  /** `cancel_active_run` calls the abort callback first, and does nothing without one. */
  function AfterCancelRun(st: Store, now: int, k: string): Store {
    if k in st.sessions.vals && st.sessions.vals[k].abort.Some? then
      AfterClearRun(st, now, k).(aborted := Called(st.aborted, st.sessions.vals[k].abort))
    else st
  }

  // ---- Reaping and eviction ----

  /** Reaping removes exactly the expired sessions of the snapshot, keeps the rest as they were, and
      calls no abort. */
  lemma {:induction false} ReapKeeps(st: Store, snapshot: seq<string>, idleBefore: int)
    requires Valid(st)
    ensures var r := Reap(st, snapshot, idleBefore);
      Valid(r) && r == st.(sessions := r.sessions) && |r.sessions.keys| <= |st.sessions.keys|
    ensures var r := Reap(st, snapshot, idleBefore);
      forall k :: k in r.sessions.vals <==>
        k in st.sessions.vals && !(k in snapshot && Expired(st.sessions.vals[k], idleBefore))
    ensures var r := Reap(st, snapshot, idleBefore);
      forall k :: k in r.sessions.vals ==> r.sessions.vals[k] == st.sessions.vals[k]
  {
    if |snapshot| != 0 {
      var front, k := snapshot[..|snapshot| - 1], snapshot[|snapshot| - 1];
      ReapKeeps(st, front, idleBefore);
      assert forall x :: x in snapshot <==> x in front || x == k;
      PopShrinks(Reap(st, front, idleBefore).sessions, k);
    }
  }

  /** The sessions a reap at `idleBefore` keeps. */
  ghost function Unexpired(vals: map<string, Session>, idleBefore: int): map<string, Session> {
    map k | k in vals && !Expired(vals[k], idleBefore) :: vals[k]
  }

  lemma {:induction false} ReapIdleKeeps(st: Store, now: int)
    requires Valid(st)
    ensures Valid(ReapIdle(st, now)) && ReapIdle(st, now) == st.(sessions := ReapIdle(st, now).sessions)
    ensures ReapIdle(st, now).sessions.vals == Unexpired(st.sessions.vals, now - st.idleTtlMs)
  {
    ReapKeeps(st, st.sessions.keys, now - st.idleTtlMs);
  }

  lemma PopShrinks(d: Dict<string, Session>, k: string)
    requires d.Valid()
    ensures |d.Pop(k).keys| == if k in d.vals then |d.keys| - 1 else |d.keys|
  {
    DistinctSize(d.keys, d.vals.Keys);
    DistinctSize(d.Pop(k).keys, d.vals.Keys - {k});
  }

  predicate OlderIdle(vals: map<string, Session>, a: string, b: string)
    requires a in vals && b in vals
  {
    vals[a].lastTouchedAt < vals[b].lastTouchedAt
  }

  /** `keys[i]` is idle, touched no later than any idle key, and strictly earlier than those before it. */
  ghost predicate OldestAt(vals: map<string, Session>, keys: seq<string>, i: int) {
    0 <= i < |keys| && keys[i] in vals && !Active(vals[keys[i]]) &&
    forall j :: 0 <= j < |keys| && keys[j] in vals && !Active(vals[keys[j]]) ==>
      (if j < i then OlderIdle(vals, keys[i], keys[j]) else !OlderIdle(vals, keys[j], keys[i]))
  }

  /** The session evicted is the idle one touched longest ago, and of those the one inserted first;
      there is none exactly when every session is active. */
  lemma {:induction false} OldestIdleIsLru(vals: map<string, Session>, keys: seq<string>)
    requires forall k :: k in keys ==> k in vals
    ensures OldestIdle(vals, keys).None? <==> forall k :: k in keys ==> Active(vals[k])
    ensures OldestIdle(vals, keys).Some? ==>
      exists i :: OldestAt(vals, keys, i) && keys[i] == OldestIdle(vals, keys).value
  {
    if |keys| != 0 {
      var front, n := keys[..|keys| - 1], |keys| - 1;
      OldestIdleIsLru(vals, front);
      assert forall k :: k in keys <==> k in front || k == keys[n];
      assert forall j :: 0 <= j < n ==> front[j] == keys[j] && keys[j] in front;
      var best := OldestIdle(vals, front);
      if best.Some? {
        var i :| OldestAt(vals, front, i) && front[i] == best.value;
        assert OldestAt(vals, keys, if OldestIdle(vals, keys) == best then i else n);
      } else if !Active(vals[keys[n]]) {
        assert OldestAt(vals, keys, n);
      }
    }
  }

  ghost predicate AllActive(vals: map<string, Session>) {
    forall k :: k in vals ==> Active(vals[k])
  }

  /** An idle session touched no later than any other. */
  ghost predicate IsLru(vals: map<string, Session>, v: string) {
    v in vals && !Active(vals[v]) && forall u :: u in vals && !Active(vals[u]) ==> !OlderIdle(vals, u, v)
  }

  lemma OldestIsLru(st: Store)
    requires Valid(st)
    ensures OldestIdle(st.sessions.vals, st.sessions.keys).None? <==> AllActive(st.sessions.vals)
    ensures OldestIdle(st.sessions.vals, st.sessions.keys).Some? ==>
      IsLru(st.sessions.vals, OldestIdle(st.sessions.vals, st.sessions.keys).value)
  {
    var vals, keys := st.sessions.vals, st.sessions.keys;
    OldestIdleIsLru(vals, keys);
    if OldestIdle(vals, keys).Some? {
      var v := OldestIdle(vals, keys).value;
      var i :| OldestAt(vals, keys, i) && keys[i] == v;
      forall u | u in vals && !Active(vals[u]) ensures !OlderIdle(vals, u, v) {
        assert u in keys;
        var j :| 0 <= j < |keys| && keys[j] == u;
      }
    }
  }

  /** How adding session `s` as `k` to sessions `left` may end: `vals` and `ok` are the sessions and
      whether the call returned. */
  ghost predicate Added(left: map<string, Session>, max: int, k: string, s: Session, vals: map<string, Session>,
    ok: bool) {
    if |left| < max then ok && vals == left[k := s]
    else if AllActive(left) then !ok && vals == left
    else ok && exists v :: IsLru(left, v) && vals == (left - {v})[k := s]
  }

  lemma {:induction false} AdmitOutcome(st: Store, now: int, k: string, key: string, cwd: string)
    requires Valid(st) && k !in st.sessions.vals
    ensures Valid(Admit(st, now, k, key, cwd).0)
    ensures var (n, ok) := Admit(st, now, k, key, cwd);
      n == st.(sessions := n.sessions) &&
      Added(st.sessions.vals, st.maxSessions, k, NewSession(key, cwd, now), n.sessions.vals, ok)
  {
    DistinctSize(st.sessions.keys, st.sessions.vals.Keys);
    OldestIsLru(st);
    hide IsLru, AllActive;
    var oldest := OldestIdle(st.sessions.vals, st.sessions.keys);
    if oldest.Some? {
      LruIsIdle(st.sessions.vals, oldest.value);
      PopShrinks(st.sessions, oldest.value);
    }
  }

  lemma LruIsIdle(vals: map<string, Session>, v: string)
    requires IsLru(vals, v)
    ensures v in vals && !Active(vals[v])
  {
  }

  /** A call for a new session raises exactly when what is left after reaping fills the table and is all
      active. Otherwise the new session is there, no expired idle session is, and at most one unexpired
      one is gone, an idle one touched no later than any other. No active session is ever touched, and
      no abort callback is called. */
  lemma {:induction false} CreateOutcome(st: Store, now: int, k: string, key: string, cwd: string)
    requires Valid(st) && k !in st.sessions.vals
    ensures var (n, ok) := AfterCreate(st, now, k, key, cwd);
      Added(Unexpired(st.sessions.vals, now - st.idleTtlMs), st.maxSessions, k, NewSession(key, cwd, now),
        n.sessions.vals, ok)
    ensures Valid(AfterCreate(st, now, k, key, cwd).0)
    ensures AfterCreate(st, now, k, key, cwd).0 == st.(sessions := AfterCreate(st, now, k, key, cwd).0.sessions)
  {
    ReapIdleKeeps(st, now);
    AdmitOutcome(ReapIdle(st, now), now, k, key, cwd);
    hide ReapIdle, Admit, Added, Unexpired, Valid;
  }

  // ---- The run index ----

  datatype Op =
    | Create(k: string, key: string, cwd: string)
    | Get(k: string)
    | SetRun(k: string, run: string, abort: int)
    | ClearRun(k: string)
    | CancelRun(k: string)

  ghost function Next(st: Store, now: int, op: Op): Store
    requires Valid(st)
  {
    match op
    case Create(k, key, cwd) => AfterCreate(st, now, k, key, cwd).0
    case Get(k) => AfterGet(st, now, k)
    case SetRun(k, run, abort) => AfterSetRun(st, now, k, run, abort)
    case ClearRun(k) => AfterClearRun(st, now, k)
    case CancelRun(k) => AfterCancelRun(st, now, k)
  }

  /** Whether a caller may start `run` on session `k`: the session has no other run, and no other
      session has this one. */
  predicate MaySetRun(st: Store, k: string, run: string) {
    k in st.sessions.vals ==>
      st.sessions.vals[k].activeRunId in {None, Some(run)} && (run in st.runs ==> st.runs[run] == k)
  }

  /** Starting a run keeps index and sessions in step exactly when that check holds. */
  lemma {:induction false} SetRunAgreesIff(st: Store, now: int, k: string, run: string, abort: int)
    requires Agrees(st)
    ensures Agrees(AfterSetRun(st, now, k, run, abort)) <==> MaySetRun(st, k, run)
  {
    var n := AfterSetRun(st, now, k, run, abort);
    if k in st.sessions.vals {
      var old_ := st.sessions.vals[k].activeRunId;
      if MaySetRun(st, k, run) {
        forall r, x ensures (r in n.runs && n.runs[r] == x) <==> RunsIn(n, x, r) {
          assert (r in st.runs && st.runs[r] == x) <==> RunsIn(st, x, r);
          assert RunsIn(st, k, r) <==> old_ == Some(r);
        }
      } else if old_.Some? && old_.value != run {
        assert RunsIn(st, k, old_.value) && !RunsIn(n, k, old_.value);
      } else {
        var x := st.runs[run];
        assert RunsIn(st, x, run) && RunsIn(n, x, run);
      }
    } else {
      assert n == st;
    }
  }

  lemma {:induction false} ClearRunAgrees(st: Store, now: int, k: string)
    requires Agrees(st)
    ensures Agrees(AfterClearRun(st, now, k))
  {
    var n := AfterClearRun(st, now, k);
    forall r, x ensures (r in n.runs && n.runs[r] == x) <==> RunsIn(n, x, r) {
      assert (r in st.runs && st.runs[r] == x) <==> RunsIn(st, x, r);
      assert (r in st.runs && st.runs[r] == k) <==> RunsIn(st, k, r);
    }
  }

  /** Dropping idle sessions and adding new ones leaves the runs in step. */
  lemma {:induction false} CreateAgrees(st: Store, now: int, k: string, key: string, cwd: string)
    requires Valid(st) && Agrees(st)
    ensures Agrees(AfterCreate(st, now, k, key, cwd).0)
    ensures Valid(AfterCreate(st, now, k, key, cwd).0)
  {
    var n := AfterCreate(st, now, k, key, cwd).0;
    if k !in st.sessions.vals { CreateOutcome(st, now, k, key, cwd); }
    forall r, x ensures RunsIn(n, x, r) <==> RunsIn(st, x, r) {
      CreateKeepsActive(st, now, k, key, cwd, x);
    }
    assert n.runs == st.runs;
  }

  /** A session with an active run survives every create, unless it is the one re-created, which keeps
      its run too; and create starts no run. */
  lemma {:induction false} CreateKeepsActive(st: Store, now: int, k: string, key: string, cwd: string, x: string)
    requires Valid(st)
    ensures var n := AfterCreate(st, now, k, key, cwd).0;
      x in st.sessions.vals && Active(st.sessions.vals[x]) && x != k ==>
        x in n.sessions.vals && n.sessions.vals[x] == st.sessions.vals[x]
    ensures var n := AfterCreate(st, now, k, key, cwd).0;
      forall r :: RunsIn(n, x, r) <==> RunsIn(st, x, r)
  {
    if k !in st.sessions.vals {
      CreateOutcome(st, now, k, key, cwd);
      var n := AfterCreate(st, now, k, key, cwd).0;
      var left := Unexpired(st.sessions.vals, now - st.idleTtlMs);
      assert forall v :: IsLru(left, v) ==> v in left && !Active(left[v]);
      assert x in left ==> left[x] == st.sessions.vals[x];
      assert x in st.sessions.vals && x !in left ==> !Active(st.sessions.vals[x]);
    }
  }

  lemma {:induction false} NextAgrees(st: Store, now: int, op: Op)
    requires Valid(st) && Agrees(st)
    requires op.SetRun? ==> MaySetRun(st, op.k, op.run)
    ensures Valid(Next(st, now, op)) && Agrees(Next(st, now, op))
  {
    match op
    case Create(k, key, cwd) => CreateAgrees(st, now, k, key, cwd);
    case Get(k) => assert forall r, x :: RunsIn(Next(st, now, op), x, r) == RunsIn(st, x, r);
    case SetRun(k, run, abort) => SetRunAgreesIff(st, now, k, run, abort);
    case ClearRun(k) => ClearRunAgrees(st, now, k);
    case CancelRun(k) =>
      ClearRunAgrees(st, now, k);
      assert forall r, x ::
        RunsIn(Next(st, now, op), x, r) ==
        (if k in st.sessions.vals && st.sessions.vals[k].abort.Some? then RunsIn(AfterClearRun(st, now, k), x, r)
         else RunsIn(st, x, r));
  }

  /** The calls of a run, each with the clock reading it saw. */
  ghost function Run(st: Store, ops: seq<(int, Op)>): Store
    requires Valid(st)
    decreases |ops|
  {
    if |ops| == 0 then st
    else
      NextValid(st, ops[0].0, ops[0].1);
      Run(Next(st, ops[0].0, ops[0].1), ops[1..])
  }

  lemma {:induction false} NextValid(st: Store, now: int, op: Op)
    requires Valid(st)
    ensures Valid(Next(st, now, op))
  {
    match op
    case Create(k, key, cwd) => if k !in st.sessions.vals { CreateOutcome(st, now, k, key, cwd); }
    case _ =>
  }

  ghost predicate MayRun(st: Store, ops: seq<(int, Op)>)
    requires Valid(st)
    decreases |ops|
  {
    |ops| == 0 ||
    (NextValid(st, ops[0].0, ops[0].1);
     (ops[0].1.SetRun? ==> MaySetRun(st, ops[0].1.k, ops[0].1.run)) && MayRun(Next(st, ops[0].0, ops[0].1), ops[1..]))
  }

  /** Whatever the calls and the clock, the table never outgrows its limit; and if every run was started
      on an idle session under an id no other session has, index and sessions stay in step. */
  lemma {:induction false} RunKeepsStore(st: Store, ops: seq<(int, Op)>)
    requires Valid(st)
    ensures Valid(Run(st, ops)) && |Run(st, ops).sessions.keys| <= st.maxSessions
    ensures Agrees(st) && MayRun(st, ops) ==> Agrees(Run(st, ops))
    decreases |ops|
  {
    if |ops| != 0 {
      var (now, op) := ops[0];
      NextValid(st, now, op);
      if Agrees(st) && MayRun(st, ops) { NextAgrees(st, now, op); }
      if op.Create? && op.k !in st.sessions.vals { CreateOutcome(st, now, op.k, op.key, op.cwd); }
      assert Next(st, now, op).maxSessions == st.maxSessions;
      RunKeepsStore(Next(st, now, op), ops[1..]);
    }
  }
}
