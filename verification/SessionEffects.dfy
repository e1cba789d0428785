/** What each call does to the session it names, and what that means for when sessions go. */
module SessionEffects {
  import opened PyText
  import opened PyDict
  import opened SessionStore

  // ---- Touching and reaping ----

  /** Neither a run nor an abort handle. */
  predicate IsIdle(s: Session) {
    (s.activeRunId.None? || s.activeRunId == Some("")) && s.abort.None?
  }

  /** Reaping drops exactly the idle sessions that were last touched at least the time to live ago. */
  lemma {:induction false} ReapedIff(st: Store, now: int, k: string)
    requires Valid(st)
    ensures k in ReapIdle(st, now).sessions.vals <==>
      k in st.sessions.vals &&
      !(IsIdle(st.sessions.vals[k]) && now - st.sessions.vals[k].lastTouchedAt >= st.idleTtlMs)
    ensures k in ReapIdle(st, now).sessions.vals ==> ReapIdle(st, now).sessions.vals[k] == st.sessions.vals[k]
  {
    hide ReapIdle;
    ReapIdleKeeps(st, now);
  }

  /** The call renews the time of session `k`: it names it, and finds it or makes it; a cancel only if there is
      something to cancel. */
  predicate Touches(st: Store, op: Op, k: string) {
    op.k == k &&
    (op.Create? ||
     (k in st.sessions.vals &&
       (op.Get? || op.SetRun? || op.ClearRun? || (op.CancelRun? && st.sessions.vals[k].abort.Some?))))
  }

  /** A session that is there after a call was touched just now, or was there before with the time it has. */
  lemma {:induction false} TouchIff(st: Store, now: int, op: Op, k: string)
    requires Valid(st) && k in Next(st, now, op).sessions.vals
    ensures Touches(st, op, k) ==> Next(st, now, op).sessions.vals[k].lastTouchedAt == now
    ensures !Touches(st, op, k) ==>
      k in st.sessions.vals && Next(st, now, op).sessions.vals[k].lastTouchedAt == st.sessions.vals[k].lastTouchedAt
  {
    if op.Create? && op.k !in st.sessions.vals {
      CreateOutcome(st, now, op.k, op.key, op.cwd);
    }
  }

  /** Call `i` of the run touched `k`, and none after it did. */
  ghost predicate LastTouchAt(st: Store, ops: seq<(int, Op)>, k: string, i: int)
    requires Valid(st)
  {
    0 <= i < |ops| && TouchesAt(st, ops, k, i) && forall j :: i < j < |ops| ==> !TouchesAt(st, ops, k, j)
  }

  ghost predicate TouchesAt(st: Store, ops: seq<(int, Op)>, k: string, i: int)
    requires Valid(st) && 0 <= i < |ops|
  {
    Touches(Run(st, ops[..i]), ops[i].1, k)
  }

  /** Over every run: the time of a session is the clock reading of the last call that touched it, if one did. */
  lemma {:induction false} TimeIsLastTouch(st: Store, ops: seq<(int, Op)>, k: string) returns (i: int)
    requires Valid(st) && k in Run(st, ops).sessions.vals
    ensures LastTouchAt(st, ops, k, i) ==> Run(st, ops).sessions.vals[k].lastTouchedAt == ops[i].0
    ensures !LastTouchAt(st, ops, k, i) ==>
      (forall j :: 0 <= j < |ops| ==> !TouchesAt(st, ops, k, j)) && k in st.sessions.vals &&
      Run(st, ops).sessions.vals[k].lastTouchedAt == st.sessions.vals[k].lastTouchedAt
    decreases |ops|
  {
    hide Next, Touches;
    i := -1;
    if |ops| != 0 {
      var front, last := ops[..|ops| - 1], ops[|ops| - 1];
      RunSnoc(st, ops);
      var before := Run(st, front);
      RunValid(st, front);
      TouchIff(before, last.0, last.1, k);
      assert ops[..|ops| - 1] == front;
      if Touches(before, last.1, k) {
        i := |ops| - 1;
      } else {
        i := TimeIsLastTouch(st, front, k);
        forall j | 0 <= j < |front| ensures TouchesAt(st, ops, k, j) <==> TouchesAt(st, front, k, j) {
          assert ops[..j] == front[..j] && ops[j] == front[j];
        }
        assert !TouchesAt(st, ops, k, |ops| - 1);
      }
    }
  }

  lemma {:induction false} RunValid(st: Store, ops: seq<(int, Op)>)
    requires Valid(st)
    ensures Valid(Run(st, ops))
  {
    RunKeepsStore(st, ops);
  }

  lemma {:induction false} RunSnoc(st: Store, ops: seq<(int, Op)>)
    requires Valid(st) && |ops| != 0
    ensures var front, last := ops[..|ops| - 1], ops[|ops| - 1];
      Valid(Run(st, front)) && Run(st, ops) == Next(Run(st, front), last.0, last.1)
    decreases |ops|
  {
    hide Next;
    var front := ops[..|ops| - 1];
    RunValid(st, front);
    NextValid(st, ops[0].0, ops[0].1);
    if |ops| > 1 {
      RunSnoc(Next(st, ops[0].0, ops[0].1), ops[1..]);
      assert ops[1..][..|ops[1..]| - 1] == front[1..] && front[0] == ops[0];
      assert ops[1..][|ops[1..]| - 1] == ops[|ops| - 1];
    } else {
      assert ops[1..] == [] && front == [];
    }
  }

  // ---- Creating ----

  /** A session that is created has the given key and directory, the present time, and nothing to run; one that is there
      already keeps its age and its run, and no other session changes. */
  lemma {:induction false} CreatedIs(st: Store, now: int, k: string, key: string, cwd: string)
    requires Valid(st) && AfterCreate(st, now, k, key, cwd).1
    ensures var n := AfterCreate(st, now, k, key, cwd).0;
      k in n.sessions.vals &&
      var s := n.sessions.vals[k];
      s.key == key && s.cwd == cwd && s.lastTouchedAt == now &&
      (if k in st.sessions.vals then
         var was := st.sessions.vals[k];
         s.createdAt == was.createdAt && s.activeRunId == was.activeRunId && s.abort == was.abort &&
         n.sessions.vals.Keys == st.sessions.vals.Keys &&
         forall x :: x in st.sessions.vals && x != k ==> n.sessions.vals[x] == st.sessions.vals[x]
       else s.createdAt == now && s.activeRunId.None? && s.abort.None?)
  {
    if k !in st.sessions.vals { CreateOutcome(st, now, k, key, cwd); }
  }

  // ---- Running ----

  /** A run that is started is found under its id; clearing it calls nothing; cancelling it calls its abort handle,
      once; and either leaves the session idle and the id unknown. */
  lemma {:induction false} StartedRunEnds(st: Store, now: int, k: string, run: string, abort: int, later: int)
    requires k in st.sessions.vals
    ensures var n := AfterSetRun(st, now, k, run, abort);
      k in n.sessions.vals && run in n.runs && n.runs[run] == k && n.sessions.vals[k].activeRunId == Some(run) &&
      n.sessions.vals[k].abort == Some(abort) && n.aborted == st.aborted
    ensures var n := AfterSetRun(st, now, k, run, abort); var c := AfterClearRun(n, later, k);
      c.aborted == st.aborted && run !in c.runs && k in c.sessions.vals && IsIdle(c.sessions.vals[k])
    ensures var n := AfterSetRun(st, now, k, run, abort); var c := AfterCancelRun(n, later, k);
      c.aborted == st.aborted + [abort] && run !in c.runs && k in c.sessions.vals && IsIdle(c.sessions.vals[k]) &&
      AfterCancelRun(c, later, k) == c
  {
  }

  /** Getting a session changes nothing but its time, and dropping an active one calls its handle. */
  lemma GetAndRemove(st: Store, now: int, k: string)
    requires st.sessions.Valid() && k in st.sessions.vals
    ensures AfterGet(st, now, k) ==
      st.(sessions := Dict(st.sessions.keys, st.sessions.vals[k := st.sessions.vals[k].(lastTouchedAt := now)]))
    ensures var n, s := Remove(st, k), st.sessions.vals[k];
      n.sessions.vals == st.sessions.vals - {k} && (s.activeRunId.Some? ==> s.activeRunId.value !in n.runs) &&
      n.aborted == if s.abort.Some? then st.aborted + [s.abort.value] else st.aborted
  {
  }
}
