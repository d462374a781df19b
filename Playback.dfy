/**
  The playback cursor of the reader (`app.py`): which chunk of the paper is
  being read, the script generated for it, and which item of that script is
  on screen. Advancing walks through the script, then asks for the next
  chunk's script, and ends with a closing line after the last chunk.
*/
module Playback {
  import opened Wrappers
  import opened ScriptItems
  import opened Normalizer

  /** The screen the app shows: `LANDING`, `PROCESSING` or `GAME_LOOP`. */
  datatype Screen = Landing | Processing | GameLoop

  /** A piece of the paper: its position and text. */
  datatype Chunk = Chunk(index: int, text: string)

  datatype Cursor = Cursor(
    screen: Screen,
    chunkIdx: int,
    items: Script,
    scriptIdx: int,
    feedback: Option<string>,
    answered: bool,
    generatorReady: bool)

  const ClosingText := "呼……总算读完了！笨蛋主人，能坚持到最后还算有点出息喵。"

  /** The line shown once the last chunk has been read. */
  const ClosingLine := Dialogue(Narrator, ClosingText, Happy)

  /** `get_current_item`: the item at the cursor, if the cursor is inside the script. */
  function ItemAt(items: Script, idx: int): (r: Option<Item>)
    ensures r.Some? <==> 0 <= idx < |items|
    ensures r.Some? ==> r.value == items[idx]
  {
    if 0 <= idx < |items| then Some(items[idx]) else None
  }

  /**
    `advance`: clear the feedback, step to the next item, and past the end of
    the script move to the next chunk — which is generated on the
    processing screen — or, after the last chunk, show the closing line.
  */
  function Advance(c: Cursor, chunkCount: int): (r: Cursor)
    ensures r.chunkIdx == c.chunkIdx || r.chunkIdx == c.chunkIdx + 1
    ensures c.items != [] && 0 <= c.scriptIdx ==> 0 <= r.scriptIdx < |r.items| || r.screen == Processing
  {
    var c1 := c.(feedback := None, answered := false);
    if c.items == [] then c1
    else
      var c2 := c1.(scriptIdx := c.scriptIdx + 1);
      if c2.scriptIdx < |c.items| then c2
      else
        var c3 := c2.(chunkIdx := c.chunkIdx + 1);
        if c3.chunkIdx >= chunkCount then c3.(items := [ClosingLine], scriptIdx := 0)
        else c3.(generatorReady := false, screen := Processing)
  }

  /** `_apply_script_items`: show a new script from its first item. */
  function Apply(c: Cursor, script: Script): (r: Cursor)
    ensures r.screen == c.screen && r.chunkIdx == c.chunkIdx
    ensures ItemAt(r.items, r.scriptIdx) == if script == [] then None else Some(script[0])
  {
    c.(items := script, scriptIdx := 0, feedback := None, answered := false, generatorReady := true)
  }

  /** `_reset_session` without its prefetch part: back to the landing screen with nothing loaded. */
  const Fresh := Cursor(Landing, 0, [], 0, None, false, false)

  // ---------------------------------------------------------------------------
  // Properties

  /** Advancing always clears the feedback; with no script it does nothing else. */
  lemma AdvanceClearsFeedback(c: Cursor, chunkCount: int)
    ensures Advance(c, chunkCount).feedback.None? && !Advance(c, chunkCount).answered
    ensures c.items == [] ==> Advance(c, chunkCount) == c.(feedback := None, answered := false)
  {
  }

  /** Inside the script, advancing shows the next item and stays on the same chunk. */
  lemma AdvanceWithinScript(c: Cursor, chunkCount: int)
    requires 0 <= c.scriptIdx && c.scriptIdx + 1 < |c.items|
    ensures var r := Advance(c, chunkCount);
      && ItemAt(r.items, r.scriptIdx) == Some(c.items[c.scriptIdx + 1])
      && r.chunkIdx == c.chunkIdx && r.screen == c.screen && r.items == c.items
      && r == c.(scriptIdx := c.scriptIdx + 1, feedback := None, answered := false)
  {
  }

  /**
    Past the end of the script with chunks left, advancing moves to the next
    chunk and hands over to the processing screen, with no item on screen
    until the new script is applied.
  */
  lemma AdvanceToNextChunk(c: Cursor, chunkCount: int)
    requires c.items != [] && c.scriptIdx + 1 >= |c.items| && c.chunkIdx + 1 < chunkCount
    ensures var r := Advance(c, chunkCount);
      && r.chunkIdx == c.chunkIdx + 1 && r.screen == Processing && !r.generatorReady
      && ItemAt(r.items, r.scriptIdx).None?
  {
  }

  /** Past the end of the last chunk, the closing line is all that is left. */
  lemma AdvancePastLastChunk(c: Cursor, chunkCount: int)
    requires c.items != [] && c.scriptIdx + 1 >= |c.items| && c.chunkIdx + 1 >= chunkCount
    ensures var r := Advance(c, chunkCount);
      && r.chunkIdx == c.chunkIdx + 1 && r.screen == c.screen
      && r.items == [ClosingLine] && ItemAt(r.items, r.scriptIdx) == Some(ClosingLine)
  {
  }

  /** The closing line is the last thing shown: advancing again leaves it on screen. */
  lemma ClosingLineStays(c: Cursor, chunkCount: int)
    requires c.items == [ClosingLine] && c.scriptIdx == 0 && c.chunkIdx >= chunkCount
    ensures var r := Advance(c, chunkCount);
      r.items == [ClosingLine] && ItemAt(r.items, r.scriptIdx) == Some(ClosingLine) && r.chunkIdx == c.chunkIdx + 1
  {
  }

  /**
    `k` steps through a script of `n` items from its first one show each item
    in turn; the cursor then stands on item `k`.
  */
  lemma {:induction false} AdvanceSteps(c: Cursor, chunkCount: int, k: nat)
    requires c.scriptIdx == 0 && k < |c.items|
    ensures var r := AdvanceTimes(c, chunkCount, k);
      r.items == c.items && r.scriptIdx == k && r.chunkIdx == c.chunkIdx && ItemAt(r.items, r.scriptIdx) == Some(c.items[k])
  {
    if k > 0 {
      AdvanceSteps(c, chunkCount, k - 1);
    }
  }

  /** `k` successive calls of `advance`. */
  function AdvanceTimes(c: Cursor, chunkCount: int, k: nat): Cursor {
    if k == 0 then c else Advance(AdvanceTimes(c, chunkCount, k - 1), chunkCount)
  }

  /** A newly applied script starts at its first item, with the generator ready. */
  lemma ApplyShowsFirst(c: Cursor, script: Script)
    requires script != []
    ensures ItemAt(Apply(c, script).items, Apply(c, script).scriptIdx) == Some(script[0])
    ensures Apply(c, script).generatorReady && Apply(c, script).chunkIdx == c.chunkIdx
  {
  }
}
