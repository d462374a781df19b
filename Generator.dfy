/**
  `ScriptGenerator.generate_script`: ask the language model for a script up
  to `max_retries + 1` times and normalise the first list that decodes; when
  every attempt fails, or the chunk is blank, hand back a single apologetic
  narrator line instead.

  The model call, the reply's `content` and `_parse_json_list` are outside
  the model: each attempt is given as what they produced together, either
  the name of the exception raised on the way or the decoded list.
*/
module Generator {
  import opened Wrappers
  import opened Text
  import opened Json
  import opened ScriptItems
  import opened Normalizer

  /** What one call to the model ends in: an exception (by class name) or a decoded JSON list. */
  datatype Attempt = Raised(errorName: string) | Decoded(items: seq<Json>)

  const EmptyChunkMessage := "这一段好像是空的……你是不是上传了扫描版？"
  const RetryMessage := "唔……这段作者写得太绕了，我一时没把剧本整理成标准格式。" + "我们先用简化版继续读下去喵！"
  /** How much of the chunk a fallback line quotes. */
  const HintLength := 260

  /** The note naming the last exception, appended to the fallback message. */
  function ErrorSuffix(errorName: string): string {
    "\n（内部解析失败：" + errorName + "）"
  }

  /** How many times `range(max_retries + 1)` runs: none when it is negative. */
  function AttemptCount(maxRetries: int): (n: nat)
    ensures maxRetries >= 0 ==> n == maxRetries + 1
    ensures maxRetries < 0 ==> n == 0
  {
    if maxRetries + 1 > 0 then maxRetries + 1 else 0
  }

  /** The first of the first `n` attempts that decoded, if any. */
  function FirstDecoded(attempts: seq<Attempt>, n: nat): (r: Option<nat>)
    requires n <= |attempts|
    ensures r.Some? ==> r.value < n && attempts[r.value].Decoded?
    ensures r.Some? ==> forall j :: 0 <= j < r.value ==> attempts[j].Raised?
    ensures r.None? ==> forall j :: 0 <= j < n ==> attempts[j].Raised?
  {
    if n == 0 then None
    else
      var r := FirstDecoded(attempts, n - 1);
      if r.Some? then r
      else if attempts[n - 1].Decoded? then Some(n - 1)
      else None
  }

  /** The exception the last of the first `n` attempts raised, if it raised one. */
  function LastError(attempts: seq<Attempt>, n: nat): Option<string>
    requires n <= |attempts|
  {
    if n > 0 && attempts[n - 1].Raised? then Some(attempts[n - 1].errorName) else None
  }

  /** The fallback message after the failed attempts: it names the last exception if there was one. */
  function FailureMessage(lastErr: Option<string>): string {
    if lastErr.Some? then RetryMessage + ErrorSuffix(lastErr.value) else RetryMessage
  }

  /** The start of the trimmed chunk that a fallback line quotes. */
  function Excerpt(text: string): (r: string)
    ensures |r| <= HintLength && IsPrefixOf(r, text)
    ensures |text| <= HintLength ==> r == text
    ensures |text| > HintLength ==> r == text[..HintLength]
  {
    if |text| <= HintLength then text else text[..HintLength]
  }

  predicate IsPrefixOf(p: string, s: string) {
    |p| <= |s| && s[..|p|] == p
  }

  /**
    What `generate_script` returns for a chunk, and how many times it called
    the model, given what the successive calls would produce. Whatever the
    model does, the reader gets at least one item to play; the model is
    called at most `max_retries + 1` times, and never for a blank chunk.
  */
  function Generate(chunkText: string, chunkIndex: int, maxRetries: int, attempts: seq<Attempt>): (r: (Script, nat))
    requires AttemptCount(maxRetries) <= |attempts|
    ensures |r.0| >= 1
    ensures r.1 <= AttemptCount(maxRetries)
    ensures Strip(chunkText) == [] ==> r.1 == 0
  {
    var text := Strip(chunkText);
    var n := AttemptCount(maxRetries);
    if text == [] then (FallbackScript(EmptyChunkMessage, chunkIndex, ""), 0)
    else
      match FirstDecoded(attempts, n)
      case Some(i) => (Normalized(attempts[i].items), i + 1)
      case None => (FallbackScript(FailureMessage(LastError(attempts, n)), chunkIndex, Excerpt(text)), n)
  }

  /**
    `generate_script` as the source runs it: the blank check, the retry
    loop, then either the normalised list or the fallback line.
  */
  method GenerateScript(chunkText: string, chunkIndex: int, maxRetries: int, attempts: seq<Attempt>)
    returns (script: Script, calls: nat)
    requires AttemptCount(maxRetries) <= |attempts|
    ensures (script, calls) == Generate(chunkText, chunkIndex, maxRetries, attempts)
  {
    var text := Strip(chunkText);
    if text == [] {
      script := FallbackScript(EmptyChunkMessage, chunkIndex, "");
      calls := 0;
      GenerateBlank(chunkText, chunkIndex, maxRetries, attempts);
    } else {
      script, calls := GenerateNonBlank(chunkText, text, chunkIndex, maxRetries, attempts);
    }
  }

  /** `generate_script` past the blank check: the retries, then the normalised list or the fallback line. */
  method GenerateNonBlank(chunkText: string, text: string, chunkIndex: int, maxRetries: int, attempts: seq<Attempt>)
    returns (script: Script, calls: nat)
    requires AttemptCount(maxRetries) <= |attempts| && text == Strip(chunkText) && text != []
    ensures (script, calls) == Generate(chunkText, chunkIndex, maxRetries, attempts)
  {
    var n := AttemptCount(maxRetries);
    var decoded, lastErr;
    decoded, calls, lastErr := RetryLoop(attempts, n);
    if decoded.Some? {
      // The normaliser never returns an empty script, so the source's
      // `if normalized:` always holds here.
      script := NormalizeScript(attempts[decoded.value].items);
      GenerateDecoded(chunkText, chunkIndex, maxRetries, attempts, decoded.value);
    } else {
      script := FailureScript(lastErr, chunkIndex, Excerpt(text));
      GenerateFails(chunkText, chunkIndex, maxRetries, attempts);
    }
  }

  /**
    The `for` loop of `generate_script`: call the model until a reply
    decodes, remembering the last exception. Normalising the decoded list
    cannot raise, so it is done by the caller once the loop stops.
  */
  method RetryLoop(attempts: seq<Attempt>, n: nat) returns (decoded: Option<nat>, calls: nat, lastErr: Option<string>)
    requires n <= |attempts|
    ensures decoded == FirstDecoded(attempts, n)
    ensures decoded.Some? ==> calls == decoded.value + 1
    ensures decoded.None? ==> calls == n
    ensures decoded.None? ==> lastErr == LastError(attempts, n)
  {
    lastErr := None;
    calls := 0;
    for i := 0 to n
      invariant calls == i
      invariant forall j :: 0 <= j < i ==> attempts[j].Raised?
      invariant lastErr == (if i > 0 then Some(attempts[i - 1].errorName) else None)
    {
      calls := calls + 1;
      match attempts[i]
      case Raised(name) =>
        lastErr := Some(name);
      case Decoded(_) =>
        FirstDecodedIs(attempts, n, i);
        return Some(i), calls, lastErr;
    }
    return None, calls, lastErr;
  }

  /** The fallback built after the loop, naming the last exception if one was caught. */
  method FailureScript(lastErr: Option<string>, chunkIndex: int, hint: string) returns (script: Script)
    ensures script == FallbackScript(FailureMessage(lastErr), chunkIndex, hint)
  {
    var msg := RetryMessage;
    if lastErr.Some? {
      msg := msg + ErrorSuffix(lastErr.value);
    }
    script := FallbackScript(msg, chunkIndex, hint);
  }

  /** Proof helper for the methods above: `Generate` on a blank chunk, unfolded. */
  lemma GenerateBlank(chunkText: string, chunkIndex: int, maxRetries: int, attempts: seq<Attempt>)
    requires AttemptCount(maxRetries) <= |attempts| && Strip(chunkText) == []
    ensures Generate(chunkText, chunkIndex, maxRetries, attempts) == (FallbackScript(EmptyChunkMessage, chunkIndex, ""), 0)
  {
  }

  /** Proof helper for the methods above: `Generate` when attempt `i` is the first to decode, unfolded. */
  lemma GenerateDecoded(chunkText: string, chunkIndex: int, maxRetries: int, attempts: seq<Attempt>, i: nat)
    requires AttemptCount(maxRetries) <= |attempts| && Strip(chunkText) != []
    requires FirstDecoded(attempts, AttemptCount(maxRetries)) == Some(i)
    ensures Generate(chunkText, chunkIndex, maxRetries, attempts) == (Normalized(attempts[i].items), i + 1)
  {
    FirstDecodedWins(chunkText, chunkIndex, maxRetries, attempts, i);
  }

  /** Proof helper for the methods above: `Generate` when every attempt raised, unfolded. */
  lemma GenerateFails(chunkText: string, chunkIndex: int, maxRetries: int, attempts: seq<Attempt>)
    requires AttemptCount(maxRetries) <= |attempts| && Strip(chunkText) != []
    requires FirstDecoded(attempts, AttemptCount(maxRetries)).None?
    ensures var n := AttemptCount(maxRetries);
      Generate(chunkText, chunkIndex, maxRetries, attempts)
        == (FallbackScript(FailureMessage(LastError(attempts, n)), chunkIndex, Excerpt(Strip(chunkText))), n)
  {
  }

  // ---------------------------------------------------------------------------
  // Properties

  /** A blank chunk gets the "scanned copy?" line and no call to the model. */
  lemma BlankChunk(chunkText: string, chunkIndex: int, maxRetries: int, attempts: seq<Attempt>)
    requires AttemptCount(maxRetries) <= |attempts|
    requires forall k :: 0 <= k < |chunkText| ==> IsSpace(chunkText[k])
    ensures Generate(chunkText, chunkIndex, maxRetries, attempts)
         == ([Dialogue(Narrator, EmptyChunkMessage, if chunkIndex % 2 == 1 then Shy else Normal)], 0)
  {
    StripIsSlice(chunkText);
  }

  /**
    After `i` failed attempts, a list that decodes on attempt `i + 1` (within
    the allowance) is normalised and returned, whatever came after it.
  */
  lemma FirstDecodedWins(chunkText: string, chunkIndex: int, maxRetries: int, attempts: seq<Attempt>, i: nat)
    requires AttemptCount(maxRetries) <= |attempts|
    requires Strip(chunkText) != [] && i < AttemptCount(maxRetries)
    requires forall j :: 0 <= j < i ==> attempts[j].Raised?
    requires attempts[i].Decoded?
    ensures Generate(chunkText, chunkIndex, maxRetries, attempts) == (Normalized(attempts[i].items), i + 1)
  {
    FirstDecodedIs(attempts, AttemptCount(maxRetries), i);
  }

  lemma {:induction false} FirstDecodedIs(attempts: seq<Attempt>, n: nat, i: nat)
    requires n <= |attempts| && i < n
    requires forall j :: 0 <= j < i ==> attempts[j].Raised?
    requires attempts[i].Decoded?
    ensures FirstDecoded(attempts, n) == Some(i)
  {
    if n - 1 > i {
      FirstDecodedIs(attempts, n - 1, i);
    }
  }

  /**
    When every allowed attempt raises, the reader gets one narrator line that
    names the last exception and quotes the start of the chunk; the portrait
    is shy for an odd chunk.
  */
  lemma AllAttemptsFail(chunkText: string, chunkIndex: int, maxRetries: int, attempts: seq<Attempt>)
    requires AttemptCount(maxRetries) <= |attempts| && maxRetries >= 0
    requires Strip(chunkText) != []
    requires forall j :: 0 <= j < AttemptCount(maxRetries) ==> attempts[j].Raised?
    ensures var (script, calls) := Generate(chunkText, chunkIndex, maxRetries, attempts);
      && calls == maxRetries + 1
      && |script| == 1 && script[0].Dialogue? && script[0].speaker == Narrator
      && IsPrefixOf(RetryMessage + ErrorSuffix(attempts[maxRetries].errorName), script[0].text)
      && Contains(script[0].text, Excerpt(Strip(chunkText)))
      && (script[0].emotion == Shy <==> chunkIndex % 2 == 1)
  {
    var n := AttemptCount(maxRetries);
    assert FirstDecoded(attempts, n).None?;
    GenerateFails(chunkText, chunkIndex, maxRetries, attempts);
    assert LastError(attempts, n) == Some(attempts[maxRetries].errorName);
  }
}
