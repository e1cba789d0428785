/** `InMemoryAcpSessionStore`, whose methods update the table in place. */
module SessionTable {
  import opened PyText
  import opened PyDict
  import opened SessionStore

  class InMemoryAcpSessionStore {
    const maxSessions: int
    const idleTtlMs: int
    var sessions: Dict<string, Session>
    var runs: map<string, string>
    var aborted: seq<int>

    ghost function View(): Store
      reads this
    {
      Store(maxSessions, idleTtlMs, sessions, runs, aborted)
    }

    constructor (maxSessions: int, idleTtlMs: int)
      ensures Valid(View()) && Agrees(View())
      ensures View() == Store(if maxSessions < 1 then 1 else maxSessions,
                              if idleTtlMs < 1000 then 1000 else idleTtlMs, Empty(), map[], [])
    {
      this.maxSessions := if maxSessions < 1 then 1 else maxSessions;
      this.idleTtlMs := if idleTtlMs < 1000 then 1000 else idleTtlMs;
      sessions, runs, aborted := Empty(), map[], [];
    }

    method RemoveSession(k: string) returns (removed: bool)
      modifies this
      ensures View() == Remove(old(View()), k) && removed == (k in old(sessions.vals))
    {
      if k !in sessions.vals {
        return false;
      }
      var s := sessions.vals[k];
      if s.activeRunId.Some? {
        runs := runs - {s.activeRunId.value};
      }
      if s.abort.Some? {
        aborted := aborted + [s.abort.value];
      }
      sessions := sessions.Pop(k);
      return true;
    }

    method ReapIdleSessions(now: int)
      modifies this
      ensures View() == ReapIdle(old(View()), now)
    {
      hide Remove;
      var idleBefore := now - idleTtlMs;
      var snapshot := sessions.keys;
      for i := 0 to |snapshot|
        invariant View() == Reap(old(View()), snapshot[..i], idleBefore)
      {
        assert snapshot[..i + 1][..i] == snapshot[..i];
        var k := snapshot[i];
        if k in sessions.vals && Expired(sessions.vals[k], idleBefore) {
          var _ := RemoveSession(k);
        }
      }
      assert snapshot[..|snapshot|] == snapshot;
    }

    /** Keeps the first idle session with the least `lastTouchedAt`, starting from infinity. */
    method FindOldestIdle() returns (oldest: Option<string>)
      requires sessions.Valid()
      ensures oldest == OldestIdle(sessions.vals, sessions.keys)
    {
      oldest := None;
      for i := 0 to |sessions.keys|
        invariant oldest == OldestIdle(sessions.vals, sessions.keys[..i])
        invariant oldest.Some? ==> oldest.value in sessions.vals
      {
        assert sessions.keys[..i + 1][..i] == sessions.keys[..i];
        var k := sessions.keys[i];
        if !Active(sessions.vals[k]) {
          if oldest.None? || sessions.vals[k].lastTouchedAt < sessions.vals[oldest.value].lastTouchedAt {
            oldest := Some(k);
          }
        }
      }
      assert sessions.keys[..|sessions.keys|] == sessions.keys;
    }

    method EvictOldestIdleSession() returns (evicted: bool)
      requires sessions.Valid()
      modifies this
      ensures var oldest := OldestIdle(old(sessions.vals), old(sessions.keys));
        evicted == oldest.Some? &&
        View() == if oldest.Some? then Remove(old(View()), oldest.value) else old(View())
    {
      var oldest := FindOldestIdle();
      evicted := oldest.Some?;
      if oldest.Some? {
        OldestIdleIsLru(sessions.vals, sessions.keys);
        var _ := RemoveSession(oldest.value);
      }
    }

    /** `ok` is false where the source raises "ACP session limit reached". */
    method CreateSession(now: int, k: string, key: string, cwd: string) returns (ok: bool)
      requires Valid(View())
      modifies this
      ensures (View(), ok) == AfterCreate(old(View()), now, k, key, cwd)
    {
      if k in sessions.vals {
        sessions := sessions.Put(k, sessions.vals[k].(key := key, cwd := cwd, lastTouchedAt := now));
        return true;
      }
      ReapIdleKeeps(View(), now);
      ReapIdleSessions(now);
      hide ReapIdle;
      if |sessions.keys| >= maxSessions {
        var evicted := EvictOldestIdleSession();
        if !evicted {
          return false;
        }
      }
      sessions := sessions.Put(k, NewSession(key, cwd, now));
      return true;
    }

    method GetSession(now: int, k: string) returns (found: Option<Session>)
      modifies this
      ensures View() == AfterGet(old(View()), now, k) && found == sessions.Get(k)
    {
      if k in sessions.vals {
        sessions := sessions.Put(k, sessions.vals[k].(lastTouchedAt := now));
      }
      return sessions.Get(k);
    }

    method GetSessionByRunId(now: int, run: string) returns (found: Option<Session>)
      modifies this
      ensures View() == if run in old(runs) then AfterGet(old(View()), now, old(runs)[run]) else old(View())
      ensures found == if run in old(runs) then sessions.Get(old(runs)[run]) else None
    {
      if run !in runs {
        return None;
      }
      found := GetSession(now, runs[run]);
    }

    method SetActiveRun(now: int, k: string, run: string, abort: int)
      modifies this
      ensures View() == AfterSetRun(old(View()), now, k, run, abort)
    {
      if k in sessions.vals {
        sessions := sessions.Put(k,
          sessions.vals[k].(activeRunId := Some(run), abort := Some(abort), lastTouchedAt := now));
        runs := runs[run := k];
      }
    }

    method ClearActiveRun(now: int, k: string)
      modifies this
      ensures View() == AfterClearRun(old(View()), now, k)
    {
      if k in sessions.vals {
        var s := sessions.vals[k];
        if s.activeRunId.Some? {
          runs := runs - {s.activeRunId.value};
        }
        sessions := sessions.Put(k, s.(activeRunId := None, abort := None, lastTouchedAt := now));
      }
    }

    method CancelActiveRun(now: int, k: string) returns (cancelled: bool)
      modifies this
      ensures View() == AfterCancelRun(old(View()), now, k)
      ensures cancelled == (k in old(sessions.vals) && old(sessions.vals)[k].abort.Some?)
    {
      if k !in sessions.vals || sessions.vals[k].abort.None? {
        return false;
      }
      aborted := aborted + [sessions.vals[k].abort.value];
      ClearActiveRun(now, k);
      return true;
    }
  }
}
