/**
  The reader's session state (`st.session_state` in `app.py`) and the
  functions that update it in place: the playback cursor and the prefetch
  buffer. Each method does what the source does, step by step, and states
  its effect through the functions of `Playback` and `Prefetch`.
*/
module Session {
  import opened Wrappers
  import opened ScriptItems
  import opened Prefetch
  import opened Playback

  class Session {
    var screen: Screen
    var chunks: seq<Chunk>
    var chunkIdx: int
    var scriptItems: Script
    var scriptIdx: int
    var currentFeedback: Option<string>
    var answered: bool
    var generatorReady: bool
    var prefetchCache: map<int, Script>
    var pending: Option<Task>
    var runToken: int

    /** The prefetch part of the session. */
    function PrefetchState(): Prefetch
      reads this`prefetchCache, this`pending, this`runToken
    {
      Prefetch(prefetchCache, pending, runToken)
    }

    /** The playback part of the session. */
    function CursorState(): Cursor
      reads this`screen, this`chunkIdx, this`scriptItems, this`scriptIdx,
            this`currentFeedback, this`answered, this`generatorReady
    {
      Cursor(screen, chunkIdx, scriptItems, scriptIdx, currentFeedback, answered, generatorReady)
    }

    /** The defaults `init_state` puts in place. */
    constructor ()
      ensures CursorState() == Fresh && chunks == []
      ensures PrefetchState() == Initial && Inv(PrefetchState())
    {
      screen := Landing;
      chunks := [];
      chunkIdx := 0;
      scriptItems := [];
      scriptIdx := 0;
      currentFeedback := None;
      answered := false;
      generatorReady := false;
      prefetchCache := map[];
      pending := None;
      runToken := 0;
    }

    /** `get_current_item`. */
    function CurrentItem(): (r: Option<Item>)
      reads this`scriptItems, this`scriptIdx
      ensures r.Some? <==> 0 <= scriptIdx < |scriptItems|
      ensures r.Some? ==> r.value == scriptItems[scriptIdx]
    {
      ItemAt(scriptItems, scriptIdx)
    }

    /** `_clear_prefetch_buffer`; cancelling a running future is left to the executor. */
    method ClearPrefetchBuffer(bumpRunToken: bool)
      modifies this`prefetchCache, this`pending, this`runToken
      ensures PrefetchState() == Clear(old(PrefetchState()), bumpRunToken)
    {
      prefetchCache := map[];
      pending := None;
      if bumpRunToken {
        runToken := runToken + 1;
      }
    }

    /** `_collect_prefetch_if_ready`. */
    method CollectPrefetchIfReady()
      modifies this`prefetchCache, this`pending
      ensures PrefetchState() == Collect(old(PrefetchState()))
    {
      if pending.None? {
        return;
      }
      var task := pending.value;
      if !task.future.done {
        return;
      }
      var script := task.future.outcome;
      pending := None;
      if script.None? {
        return;
      }
      if TokenOrMinusOne(task.token) != runToken {
        return;
      }
      var cache := prefetchCache;
      cache := cache[task.target := script.value];
      prefetchCache := cache;
    }

    /** `_take_prefetched_script`; waiting on a running future yields its eventual outcome. */
    method TakePrefetchedScript(idx: int, waitIfRunning: bool) returns (script: Option<Script>)
      modifies this`prefetchCache, this`pending
      ensures (PrefetchState(), script) == Take(old(PrefetchState()), idx, waitIfRunning)
    {
      CollectPrefetchIfReady();
      var cache := prefetchCache;
      if idx in cache {
        script := Some(cache[idx]);
        cache := cache - {idx};
        prefetchCache := cache;
        return;
      }
      if pending.None? || pending.value.target != idx {
        return None;
      }
      var task := pending.value;
      if TokenOrMinusOne(task.token) != runToken {
        return None;
      }
      if !waitIfRunning && !task.future.done {
        return None;
      }
      script := task.future.outcome;
      pending := None;
    }

    /** `_ensure_next_chunk_prefetch`; `submitted` is what the executor returns for the new task. */
    method EnsureNextChunkPrefetch(chunkList: seq<Chunk>, current: int, submitted: Future)
      modifies this`prefetchCache, this`pending
      ensures PrefetchState() == Ensure(old(PrefetchState()), |chunkList|, current, submitted)
    {
      var next := current + 1;
      if next < 0 || next >= |chunkList| {
        return;
      }
      CollectPrefetchIfReady();
      if next in prefetchCache {
        return;
      }
      if pending.Some? {
        var task := pending.value;
        if task.target == next && TokenOrMinusOne(task.token) == runToken {
          return;
        }
        if !task.future.done {
          return;
        }
      }
      pending := Some(Task(submitted, next, runToken));
    }

    /** `_reset_session`: back to the landing screen, and a new run that disowns every earlier task. */
    method ResetSession()
      modifies this
      ensures CursorState() == Fresh && chunks == []
      ensures PrefetchState() == Clear(old(PrefetchState()), true)
    {
      screen := Landing;
      chunks := [];
      chunkIdx := 0;
      scriptItems := [];
      scriptIdx := 0;
      currentFeedback := None;
      answered := false;
      generatorReady := false;
      ClearPrefetchBuffer(true);
    }

    /** `_apply_script_items`. */
    method ApplyScriptItems(script: Script)
      modifies this`scriptItems, this`scriptIdx, this`currentFeedback, this`answered, this`generatorReady
      ensures CursorState() == Apply(old(CursorState()), script)
    {
      scriptItems := script;
      scriptIdx := 0;
      currentFeedback := None;
      answered := false;
      generatorReady := true;
    }

    /** `advance`; the rerun that follows a move to the processing screen is left to the caller. */
    method Advance()
      modifies this`screen, this`chunkIdx, this`scriptItems, this`scriptIdx,
               this`currentFeedback, this`answered, this`generatorReady
      ensures CursorState() == Playback.Advance(old(CursorState()), |chunks|)
    {
      var items := scriptItems;
      currentFeedback := None;
      answered := false;
      if items == [] {
        return;
      }
      scriptIdx := scriptIdx + 1;
      if scriptIdx >= |items| {
        chunkIdx := chunkIdx + 1;
        if chunkIdx >= |chunks| {
          scriptItems := [ClosingLine];
          scriptIdx := 0;
          return;
        }
        generatorReady := false;
        screen := Processing;
      }
    }
  }
}
