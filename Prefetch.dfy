/**
  The prefetch bookkeeping of the reader (`app.py`): while one chunk is
  played, the script of the next one is generated in the background. The
  session keeps a cache of finished scripts by chunk index, at most one
  pending task, and a run token that a reset raises so that work started
  before it is never used after it.

  A background task is seen through its future: whether it has finished,
  and what `result()` gives (or will give) — `None` standing for a task
  that raised. The three session keys for the pending task (future, target
  index, task token) are always written together, so they are one optional
  record here.
*/
module Prefetch {
  import opened Wrappers
  import opened ScriptItems

  datatype Future = Future(done: bool, outcome: Option<Script>)

  datatype Task = Task(future: Future, target: int, token: int)

  datatype Prefetch = Prefetch(cache: map<int, Script>, pending: Option<Task>, runToken: int)

  /** `int(token or -1)`: a task token of 0 reads as -1. */
  function TokenOrMinusOne(token: int): (r: int)
    ensures token != 0 ==> r == token
    ensures r != 0
  {
    if token == 0 then -1 else token
  }

  /** The task may deliver into the current run. */
  predicate Current(t: Task, runToken: int) {
    TokenOrMinusOne(t.token) == runToken
  }

  /**
    `_collect_prefetch_if_ready`: a finished pending task leaves the slot,
    and its script goes into the cache under its target index if it
    produced one and belongs to the current run. Nothing happens while the
    task runs or when there is none.
  */
  function Collect(p: Prefetch): (r: Prefetch)
    ensures r.runToken == p.runToken
    ensures (p.pending.None? || !p.pending.value.future.done) ==> r == p
    ensures p.pending.Some? && p.pending.value.future.done ==>
              var t := p.pending.value;
              && r.pending.None?
              && r.cache == (if t.future.outcome.Some? && Current(t, p.runToken)
                             then p.cache[t.target := t.future.outcome.value] else p.cache)
    ensures r.pending.Some? ==> !r.pending.value.future.done
  {
    match p.pending
    case None => p
    case Some(t) =>
      if !t.future.done then p
      else
        var cleared := p.(pending := None);
        if t.future.outcome.None? then cleared
        else if !Current(t, p.runToken) then cleared
        else cleared.(cache := p.cache[t.target := t.future.outcome.value])
  }

  /**
    `_take_prefetched_script`: after collecting, a cached script for the
    chunk is handed out and removed from the cache; otherwise the pending
    task's result is handed out (and the slot cleared) if it is for this
    chunk and this run and is finished or may be waited for. Every other
    case hands out nothing and leaves the collected state alone.
  */
  function Take(p: Prefetch, chunkIdx: int, waitIfRunning: bool): (r: (Prefetch, Option<Script>))
    ensures r.0.runToken == p.runToken
    ensures chunkIdx !in r.0.cache
    ensures chunkIdx in Collect(p).cache ==> r.0.pending == Collect(p).pending && r.1 == Some(Collect(p).cache[chunkIdx])
  {
    var c := Collect(p);
    if chunkIdx in c.cache then (c.(cache := c.cache - {chunkIdx}), Some(c.cache[chunkIdx]))
    else
      match c.pending
      case None => (c, None)
      case Some(t) =>
        if t.target != chunkIdx then (c, None)
        else if !Current(t, c.runToken) then (c, None)
        else if !waitIfRunning && !t.future.done then (c, None)
        else (c.(pending := None), t.future.outcome)
  }

  /**
    `_ensure_next_chunk_prefetch`: start generating the chunk after
    `current` unless it is out of range, already cached, already pending for
    this run, or another task is still running. A new task is tagged with
    the current run token; `submitted` is the future the executor hands back.
  */
  function Ensure(p: Prefetch, chunkCount: int, current: int, submitted: Future): (r: Prefetch)
    ensures r.runToken == p.runToken
    ensures r.pending.Some? && r.pending != p.pending && r.pending != Collect(p).pending
            ==> r.pending == Some(Task(submitted, current + 1, p.runToken))
  {
    var next := current + 1;
    if next < 0 || next >= chunkCount then p
    else
      var c := Collect(p);
      if next in c.cache then c
      else if c.pending.Some? && c.pending.value.target == next && Current(c.pending.value, c.runToken) then c
      else if c.pending.Some? && !c.pending.value.future.done then c
      else c.(pending := Some(Task(submitted, next, c.runToken)))
  }

  /** `_clear_prefetch_buffer`: forget the cache and the pending task; optionally start a new run. */
  function Clear(p: Prefetch, bumpRunToken: bool): (r: Prefetch)
    ensures r.runToken >= p.runToken
    ensures Collect(r) == r
  {
    Prefetch(map[], None, if bumpRunToken then p.runToken + 1 else p.runToken)
  }

  /**
    The pending task finishes in the background: from then on `done()` is
    true, and `result()` gives the outcome it was always going to give.
  */
  function Finish(p: Prefetch): (r: Prefetch)
    ensures r.cache == p.cache && r.runToken == p.runToken
    ensures r.pending.Some? <==> p.pending.Some?
    ensures r.pending.Some? ==>
              var t := p.pending.value;
              && r.pending.value.future == Future(true, t.future.outcome)
              && r.pending.value.target == t.target && r.pending.value.token == t.token
  {
    match p.pending
    case None => p
    case Some(t) => p.(pending := Some(t.(future := t.future.(done := true))))
  }

  /** The state the session starts in. */
  const Initial := Prefetch(map[], None, 0)

  /** What every reachable state satisfies: a pending task belongs to the current run. */
  predicate Inv(p: Prefetch) {
    p.runToken >= 0 && (p.pending.Some? ==> p.pending.value.token == p.runToken)
  }

  // ---------------------------------------------------------------------------
  // Properties

  /** Taking a cached script consumes it: the same cache entry is never handed out twice. */
  lemma TakeConsumes(p: Prefetch, chunkIdx: int, waitIfRunning: bool)
    ensures var (q, script) := Take(p, chunkIdx, waitIfRunning);
      && chunkIdx !in q.cache
      && (chunkIdx in Collect(p).cache ==> script == Some(Collect(p).cache[chunkIdx]))
      && q.cache == Collect(p).cache - {chunkIdx}
      && (chunkIdx in Collect(p).cache ==> q == Collect(p).(cache := Collect(p).cache - {chunkIdx}))
  {
    var c := Collect(p);
    if chunkIdx !in c.cache {
      match c.pending
      case None =>
      case Some(t) =>
        if t.target == chunkIdx && Current(t, c.runToken) && (waitIfRunning || t.future.done) {
          assert Take(p, chunkIdx, waitIfRunning).0.cache == c.cache;
        }
    }
  }

  /**
    Without waiting, only a cached script is handed out: a task that had
    finished was collected first, and a running one is not waited for.
  */
  lemma TakeWithoutWaitOnlyFromCache(p: Prefetch, chunkIdx: int)
    ensures Take(p, chunkIdx, false).1.Some? ==> chunkIdx in Collect(p).cache
  {
  }

  /**
    Outside the cache, the pending task's result is handed out exactly when
    the task is for this chunk and this run and is finished or may be waited
    for; the slot is then cleared. Otherwise nothing is handed out and the
    state is as collecting left it.
  */
  lemma TakeFromPending(p: Prefetch, chunkIdx: int, waitIfRunning: bool)
    requires chunkIdx !in Collect(p).cache
    ensures var c := Collect(p);
      var (q, script) := Take(p, chunkIdx, waitIfRunning);
      var hit := c.pending.Some? && c.pending.value.target == chunkIdx && Current(c.pending.value, c.runToken)
                 && (waitIfRunning || c.pending.value.future.done);
      && (hit ==> q == c.(pending := None) && script == c.pending.value.future.outcome)
      && (!hit ==> q == c && script == None)
  {
  }

  /** A task tagged with token 0 never delivers, whatever the run token. */
  lemma TokenZeroNeverMatches(t: Task, runToken: int)
    requires t.token == 0 && runToken >= 0
    ensures !Current(t, runToken)
  {
  }

  /** A task from another run is never cached. */
  lemma StaleNeverCached(p: Prefetch)
    requires p.pending.Some? && !Current(p.pending.value, p.runToken)
    ensures Collect(p).cache == p.cache
  {
  }

  /** A task from another run never hands out its script. */
  lemma StaleNeverTaken(p: Prefetch, chunkIdx: int, waitIfRunning: bool)
    requires p.pending.Some? && !Current(p.pending.value, p.runToken)
    ensures var (q, script) := Take(p, chunkIdx, waitIfRunning);
      script.Some? ==> chunkIdx in p.cache && script == Some(p.cache[chunkIdx])
  {
  }

  /** After a reset nothing started earlier is cached or handed out. */
  lemma ResetForgetsEverything(p: Prefetch, chunkIdx: int, waitIfRunning: bool)
    ensures Take(Clear(p, true), chunkIdx, waitIfRunning).1 == None
    ensures Collect(Clear(p, true)) == Clear(p, true)
  {
  }

  /** Clearing empties the buffer, and the run token only ever grows, by exactly one per bump. */
  lemma ClearBumps(p: Prefetch, bumpRunToken: bool)
    ensures Clear(p, bumpRunToken).cache == map[] && Clear(p, bumpRunToken).pending.None?
    ensures Clear(p, bumpRunToken).runToken == p.runToken + (if bumpRunToken then 1 else 0)
  {
  }

  /** Collecting, taking and prefetching never change the run token. */
  lemma RunTokenOnlyClearChanges(p: Prefetch, chunkIdx: int, waitIfRunning: bool, chunkCount: int, current: int, f: Future)
    ensures Collect(p).runToken == p.runToken
    ensures Take(p, chunkIdx, waitIfRunning).0.runToken == p.runToken
    ensures Ensure(p, chunkCount, current, f).runToken == p.runToken
    ensures Finish(p).runToken == p.runToken
  {
  }

  /**
    Prefetching does nothing for an out-of-range chunk, and starts a task
    exactly when no task is left after collecting and the next chunk is
    not cached; the task is for the next chunk and the current run.
  */
  lemma EnsureLaunches(p: Prefetch, chunkCount: int, current: int, submitted: Future)
    ensures current + 1 < 0 || current + 1 >= chunkCount ==> Ensure(p, chunkCount, current, submitted) == p
    ensures 0 <= current + 1 < chunkCount ==>
              var c := Collect(p);
              var r := Ensure(p, chunkCount, current, submitted);
              && r.cache == c.cache && r.runToken == p.runToken
              && (if c.pending.None? && current + 1 !in c.cache
                  then r.pending == Some(Task(submitted, current + 1, p.runToken))
                  else r.pending == c.pending)
  {
  }

  /** Calling the prefetcher twice in a row starts at most one task while the first is running. */
  lemma EnsureTwice(p: Prefetch, chunkCount: int, current: int, f1: Future, f2: Future)
    requires !f1.done
    ensures var p1 := Ensure(p, chunkCount, current, f1);
      Ensure(p1, chunkCount, current, f2) == p1
  {
    var p1 := Ensure(p, chunkCount, current, f1);
    EnsureLaunches(p, chunkCount, current, f1);
    if 0 <= current + 1 < chunkCount {
      assert Collect(p1) == p1;
    }
  }

  /**
    If the task started by the first call has already failed by the
    second, the second call starts another one for the same chunk.
  */
  lemma EnsureRelaunchesAfterFailure(p: Prefetch, chunkCount: int, current: int, f1: Future, f2: Future)
    requires 0 <= current + 1 < chunkCount
    requires Collect(p).pending.None? && current + 1 !in Collect(p).cache
    requires f1.done && f1.outcome.None?
    ensures Ensure(Ensure(p, chunkCount, current, f1), chunkCount, current, f2).pending
         == Some(Task(f2, current + 1, p.runToken))
  {
    var p1 := Ensure(p, chunkCount, current, f1);
    EnsureLaunches(p, chunkCount, current, f1);
    EnsureLaunches(p1, chunkCount, current, f2);
  }

  /**
    A prefetched script reaches the reader: a task started for the next
    chunk is not handed out while it runs unless the caller waits, and once
    it has finished it is collected and handed out without waiting. A task
    that raised hands out nothing.
  */
  lemma PrefetchThenTake(p: Prefetch, chunkCount: int, current: int, submitted: Future)
    requires Inv(p) && p.runToken != 0
    requires 0 <= current + 1 < chunkCount
    requires Collect(p).pending.None? && current + 1 !in Collect(p).cache
    requires !submitted.done
    ensures var p1 := Ensure(p, chunkCount, current, submitted);
      && Take(p1, current + 1, false).1 == None
      && Take(p1, current + 1, true).1 == submitted.outcome
      && Take(Finish(p1), current + 1, false).1 == submitted.outcome
      && Take(Finish(p1), current + 1, false).0.pending.None?
  {
    var p1 := Ensure(p, chunkCount, current, submitted);
    EnsureLaunches(p, chunkCount, current, submitted);
    assert p1.pending == Some(Task(submitted, current + 1, p.runToken));
    assert Collect(p1) == p1;
  }

  /** Every operation keeps the invariant, starting from the initial state. */
  lemma InvPreserved(p: Prefetch, chunkIdx: int, waitIfRunning: bool, chunkCount: int, current: int,
                     f: Future, bumpRunToken: bool)
    requires Inv(p)
    ensures Inv(Initial)
    ensures Inv(Collect(p))
    ensures Inv(Take(p, chunkIdx, waitIfRunning).0)
    ensures Inv(Ensure(p, chunkCount, current, f))
    ensures Inv(Clear(p, bumpRunToken))
    ensures Inv(Finish(p))
  {
  }

  /**
    In a reachable state with a positive run token, the pending task is
    always current: the token comparison in collect and take never rejects
    anything there, and only the run-0 tasks are lost to `or -1`.
  */
  lemma ReachableTasksAreCurrent(p: Prefetch)
    requires Inv(p) && p.pending.Some?
    ensures Current(p.pending.value, p.runToken) <==> p.runToken != 0
  {
  }
}
