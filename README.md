# paper2gal script pipeline: a Dafny model

paper2gal turns a PDF into a visual-novel reading session. Each chunk of the paper is sent to a language model, which answers with a JSON list of script items: section headers, dialogue lines, quizzes and free choices. This project models and proves the core of that pipeline.

- **The script normaliser** (`ScriptGenerator._normalize_script` and its helpers). It turns whatever list the model returned into well-formed items. It drops malformed elements, strips enumerators such as "A." or "(2)" from option texts, and resolves a quiz's correct answer from a label or a text. It never returns an empty script.
- **The retry loop** (`generate_script`). It makes up to `max_retries + 1` calls to the model. When the chunk is blank, or when every call fails, it builds a fallback narrator line.
- **The reader's session** (`app.py`). This covers the playback cursor (`advance`, `get_current_item`, `_apply_script_items`, `_reset_session`) and the prefetch buffer. The buffer generates the next chunk's script in the background. It keeps a cache by chunk index, at most one pending task, and a run token that a reset raises so that stale work is never used.
- **The command-line player** (`headless.py`). This covers picking an option from typed input or by a fixed strategy, and judging a quiz answer.

Modules:

| module | contents |
|---|---|
| `Wrappers` | `Option` |
| `Text` | ASCII character classes, `strip`, decimal digits, substring search |
| `Json` | the decoded JSON value, `dict.get`, Python truthiness and `str()` |
| `ScriptItems` | `Emotion`, `Item`, emotion clamping, items written back as JSON |
| `OptionLabels` | the two enumerator-stripping regexes, the label regexes, option cleaning |
| `Normalizer` | per-item normalisation, the correct answer, the fallback script, the normalising loops |
| `Generator` | the retry loop, driven by what each model call produced |
| `Prefetch` | the prefetch buffer as pure transitions, with its invariant |
| `Playback` | the playback cursor as pure transitions |
| `Session` | the session as a class whose methods update its fields in place, each tied to the transitions above |
| `Headless` | interactive and automatic option picking, and the quiz verdict |

Three behaviours of the code are easy to get wrong, and the model states them as the code has them:

- A quiz's correct answer is not forced to be one of the options. When the answer names no option by label or text, the cleaned answer itself is kept (`Normalizer.CorrectAnswer`).
- Normalising is not idempotent. A dialogue line whose speaker was blank gets the narrator's name on a second pass (`Normalizer.DialogueBlankSpeakerNotStable`). An option with four enumerators keeps one after the three stripping passes (`OptionLabels.CleanOptionNotIdempotent`).
- The generator does not retry when a decoded list normalises to nothing. The normaliser then returns its own fallback line, and that line is accepted.

## Model

| member | source | states |
|---|---|---|
| `ScriptItems.ClampEmotion` | utils/script_engine.py:314-316 | a value whose trimmed text names a portrait, padded or not, gives that portrait; a non-normal portrait is exactly the stripped `str(emotion or "char_normal")`; a value that names no portrait gives the normal one |
| `ScriptItems.ClampMissing` | utils/script_engine.py:314-316 | a missing, null or empty emotion gives the normal portrait |
| `ScriptItems.ClampRoundTrip` | utils/script_engine.py:314-316 | an emotion's key, read back, gives the same emotion |
| `ScriptItems.ClampIdempotent` | utils/script_engine.py:314-316 | clamping a clamped emotion changes nothing |
| `ScriptItems.ToJson` | utils/script_engine.py:199-254 | an item is written back as a record whose `type` names its kind; what the normaliser makes of each kind of record is stated by `SubHeadStable`, `DialogueStable`, `QuizWrittenBack` and `ChoiceWrittenBack` |
| `OptionLabels.Passes` | utils/script_engine.py:268-273 | the stripping passes give a stripped string; on stripped text they only remove characters from the front |
| `OptionLabels.PassIsSuffix` | utils/script_engine.py:270-271 | one pass of the two substitutions leaves a suffix of a stripped option |
| `OptionLabels.Pass` | utils/script_engine.py:270-271 | one pass of the two substitutions, each result trimmed, gives a stripped string (what it removes: `PassCutsLabel`, `PassCutsTwoDigitLabel`, `PassCutsParenLabel`) |
| `OptionLabels.CleanOption` | utils/script_engine.py:263-274 | the cleaned option is what the three passes leave of the trimmed text, or the trimmed text itself when they leave nothing; it is a stripped suffix of the trimmed text, and is empty exactly when that text is blank |
| `OptionLabels.OptionText` | utils/script_engine.py:263-266 | `str(value or "")` is cleaned: the result is stripped, and a missing or falsy value gives the empty text |
| `OptionLabels.ParenPrefixEnd` | utils/script_engine.py:270 | a match of the bracketed-enumerator pattern is non-empty and inside the text (that "(A) " and "(2) " match: `BracketedPrefix`) |
| `OptionLabels.PunctPrefixEnd` | utils/script_engine.py:271 | a match of the punctuated-enumerator pattern is non-empty and inside the text |
| `OptionLabels.LabelledPrefixes` | utils/script_engine.py:270-271 | on "A. text" or "2. text" the bracketed pattern does not match and the punctuated one ends where the text begins |
| `OptionLabels.PassCutsLabel` | utils/script_engine.py:271 | one pass removes exactly one leading letter or digit enumerator such as "A. " or "2、" |
| `OptionLabels.CleanOptionRemovesLabel` | utils/script_engine.py:263-274 | cleaning "A. text" or "2. text" gives "text" |
| `OptionLabels.PassCutsTwoDigitLabel` | utils/script_engine.py:271 | one pass removes a two-digit enumerator such as "12. " whole |
| `OptionLabels.BracketedPrefix` | utils/script_engine.py:270 | on "(A) text" or "(2) text" the bracketed pattern ends where the text begins |
| `OptionLabels.PassCutsParenLabel` | utils/script_engine.py:263-274 | one pass removes a bracketed enumerator such as "(A) ", and cleaning "(A) text" gives "text" |
| `OptionLabels.CleanOptionOfPlain` | utils/script_engine.py:268-274 | an option with no enumerator in front is cleaned to itself |
| `OptionLabels.CleanOptionKeepsBareLabel` | utils/script_engine.py:268-274 | an option that is only an enumerator, such as "A.", is kept whole, because stripping would leave nothing |
| `OptionLabels.OptionTextOfString` | utils/script_engine.py:263-264 | a non-empty string value is cleaned as it is |
| `OptionLabels.CleanOptionNotIdempotent` | utils/script_engine.py:268-274 | with four enumerators in front, cleaning leaves the last one and cleaning again removes it |
| `OptionLabels.LetterLabel` | utils/script_engine.py:304-306 | a matching letter label gives an alphabet position below 26 (what a match looks like is `LetterLabelShape`) |
| `OptionLabels.NumberLabel` | utils/script_engine.py:308-310 | a matching number label gives the number minus one, between -1 and 98 (what a match looks like is `NumberLabelShape`) |
| `OptionLabels.LabelToIndex` | utils/script_engine.py:299-312 | a blank text gives no index; any index lies between -1 and 98 (what a text with an index looks like is `LabelToIndexShape`) |
| `OptionLabels.LetterLabelShape` | utils/script_engine.py:304-306 | a letter match is one letter, after spaces and at most one opening bracket at the start, followed only by spaces, closing brackets and label punctuation, and the result is that letter's position |
| `OptionLabels.NumberLabelShape` | utils/script_engine.py:308-310 | a number match is one or two digits with only that same decoration around them, and the result is their value minus one |
| `OptionLabels.LabelToIndexShape` | utils/script_engine.py:299-312 | a text that gives an index is, once trimmed, a decorated letter giving its position or a decorated one- or two-digit number giving its value minus one; anything else gives none |
| `OptionLabels.LabelChars` | utils/script_engine.py:299-312 | a text that gives an index holds only letters, digits, spaces, brackets and label punctuation, and at most one letter |
| `OptionLabels.ForeignCharNoLabel` | utils/script_engine.py:299-312 | a text holding any other character gives no index |
| `OptionLabels.TwoLettersNoLabel` | utils/script_engine.py:299-312 | a text holding two letters gives no index |
| `OptionLabels.LetterLabelDecorated` | utils/script_engine.py:304-306 | a bare, bracketed or punctuated letter label matches the letter pattern and gives the letter's position |
| `OptionLabels.NumberLabelDecorated` | utils/script_engine.py:304-310 | a bare, bracketed or punctuated number from 1 to 99 does not match the letter pattern and matches the number pattern, giving the number minus one |
| `OptionLabels.LetterLabelRoundTrip` | utils/script_engine.py:304-306 | every bare, bracketed or punctuated letter label reads back as its position, in either case |
| `OptionLabels.NumberLabelRoundTrip` | utils/script_engine.py:308-310 | every bare, bracketed or punctuated number from 1 to 99 reads back as the number minus one |
| `Normalizer.FallbackScript` | utils/script_engine.py:318-329 | one narrator line that starts with the message and contains the hint; shy exactly for an odd chunk index |
| `Normalizer.FindStripped` | utils/script_engine.py:293-295 | the first option whose trimmed text equals the answer, or none |
| `Normalizer.FindStrippedFirst` | utils/script_engine.py:293-295 | the search returns the first option whose trimmed text equals the answer |
| `Normalizer.CorrectAnswer` | utils/script_engine.py:276-297 | a blank answer gives the first option; a label in range gives that option; otherwise an option, or the cleaned answer when no option matches it |
| `Normalizer.CorrectAnswerCleanedLabel` | utils/script_engine.py:288-291 | when only the answer with its enumerator stripped is a label in range, the answer is that option |
| `Normalizer.CorrectAnswerLiteral` | utils/script_engine.py:293-295 | when no label names an option, the answer is the first option whose trimmed text equals the cleaned answer |
| `Normalizer.CorrectAnswerUnmatched` | utils/script_engine.py:293-297 | when no label names an option and no option equals the cleaned answer, the answer is the cleaned answer itself |
| `Normalizer.OptionTexts` | utils/script_engine.py:224 | each option is cleaned on its own, and all results are stripped |
| `Normalizer.NormalizeItem` | utils/script_engine.py:192-254 | only a JSON object can become an item (what it becomes is `NormalizeItemKinds`) |
| `Normalizer.NormalizeItemKinds` | utils/script_engine.py:192-254 | a kept element becomes a well-formed item of the kind its `type` names; unknown types and non-objects are dropped |
| `Normalizer.NormalizeDialogue` | utils/script_engine.py:205-217 | a record tagged "dialogue" is kept exactly when its stripped text is not blank, with the narrator for a missing speaker and the clamped emotion |
| `Normalizer.NormalizeSubHead` | utils/script_engine.py:199-203 | a record tagged "sub_head" is kept exactly when its stripped title is not blank, with that title |
| `Normalizer.NormalizeQuiz` | utils/script_engine.py:219-238 | a record tagged "quiz" is kept exactly when its question is not blank and its options are a list of at least two; it keeps the question, the cleaned options, the answer resolved against them, the feedback lines with their stock fallbacks, the explanation and the clamped emotion |
| `Normalizer.NormalizeChoice` | utils/script_engine.py:240-254 | a record tagged "choice" is kept exactly when its options are a list of at least two; it keeps the prompt, falling back to the question and then the stock prompt, the cleaned options, the explanation and the clamped emotion |
| `Normalizer.Survivors` | utils/script_engine.py:190-255 | there are never more kept items than elements |
| `Normalizer.SurvivorsWellFormed` | utils/script_engine.py:190-255 | every kept item is well formed |
| `Normalizer.NormalizedWellFormed` | utils/script_engine.py:190-261 | every item of a normalised script is well formed, the fallback line included |
| `Normalizer.Normalized` | utils/script_engine.py:256-261 | the script is never empty: the kept items, or the fallback line when none is kept |
| `Normalizer.SurvivorsAppend` | utils/script_engine.py:192-254 | normalising a concatenation normalises each part: elements are judged one at a time |
| `Normalizer.SurvivorsLast` | utils/script_engine.py:192-254 | nothing survives a list exactly when nothing survives its front and its last element is dropped |
| `Normalizer.AllDroppedNoSurvivors` | utils/script_engine.py:192-256 | when every element is dropped, nothing survives |
| `Normalizer.NoSurvivorsAllDropped` | utils/script_engine.py:192-256 | when nothing survives, every element was dropped |
| `Normalizer.SurvivorsEmptyIff` | utils/script_engine.py:192-256 | nothing survives exactly when every element is dropped |
| `Normalizer.AllDroppedGivesFallback` | utils/script_engine.py:256-260 | a list with nothing usable gives the single shy apology line |
| `Normalizer.SubHeadStable` | utils/script_engine.py:199-203 | a section header written back and normalised again is unchanged |
| `Normalizer.DialogueStable` | utils/script_engine.py:205-217 | a dialogue line with a named speaker written back and normalised again is unchanged |
| `Normalizer.QuizWrittenBack` | utils/script_engine.py:219-238 | a well-formed quiz written back and normalised again is a quiz with the same question, explanation and emotion, its options cleaned again, its answer resolved against them, and the stock feedback in place of an empty one |
| `Normalizer.QuizRecord` | utils/script_engine.py:219-238 | a quiz record with string fields becomes exactly that quiz, with cleaned options, the resolved answer and the stock feedback for empty feedback |
| `Normalizer.ChoiceWrittenBack` | utils/script_engine.py:240-254 | a well-formed choice written back and normalised again is a choice with the same emotion and explanation, its options cleaned again, and its prompt, or the stock prompt when it was empty |
| `Normalizer.ChoiceRecord` | utils/script_engine.py:240-254 | a choice record with a string prompt and no question becomes that choice, the stock prompt standing in for an empty one |
| `Normalizer.PlainOptionsStable` | utils/script_engine.py:224 | options with no enumerator in front survive being written back and cleaned again unchanged |
| `Normalizer.DialogueBlankSpeakerNotStable` | utils/script_engine.py:206 | a dialogue line with a blank speaker comes back with the narrator as speaker |
| `Normalizer.LabelBeatsLiteral` | utils/script_engine.py:284-295 | with options "2" and "1", the answer "1" is read as a label and gives "2" |
| `Normalizer.BracketedOptionsLetterAnswer` | utils/script_engine.py:224-225 | with options "(A) a" and "(B) b" for plain texts a and b, the answer "B" gives "b" |
| `Normalizer.BracketedOptionTexts` | utils/script_engine.py:224 | the options "(A) a" and "(B) b" are cleaned to "a" and "b" |
| `Normalizer.BracketedOptionText` | utils/script_engine.py:263-274 | a bracketed option value is cleaned to its text |
| `Normalizer.LetterAnswerPicksSecond` | utils/script_engine.py:284-286 | the answer "B" names the second of two options |
| `Normalizer.OptionTextsPair` | utils/script_engine.py:224 | two options are cleaned one by one |
| `Normalizer.AnswerOneIsLabel` | utils/script_engine.py:284-286 | the answer "1" reads as the label of the first option |
| `Normalizer.LetterAnswerIsLabel` | utils/script_engine.py:284-286 | any one-letter answer reads as the label of that letter's position |
| `Normalizer.AnswerBIsLabel` | utils/script_engine.py:284-286 | the answer "B" reads as the label of the second option |
| `Normalizer.StripLabelOnce` | utils/script_engine.py:270-271 | one round of the two substitutions computes `Pass`, and on a stripped option leaves a suffix of it |
| `Normalizer.StripLabelPasses` | utils/script_engine.py:268-273 | the loop of up to three passes computes `Passes(t, PassLimit)` |
| `Normalizer.NormalizeOptionText` | utils/script_engine.py:263-274 | the method computes the cleaned option text |
| `Normalizer.NormalizeScript` | utils/script_engine.py:190-261 | the loop computes the normalised script, which is never empty |
| `Generator.AttemptCount` | utils/script_engine.py:122 | `range(max_retries + 1)` runs `max_retries + 1` times, and never when that is negative |
| `Generator.FirstDecoded` | utils/script_engine.py:122-136 | the first attempt that decoded, with every earlier attempt raising; or none, when all raised |
| `Generator.Excerpt` | utils/script_engine.py:145 | the quoted fragment is a prefix of the chunk of at most 260 characters: the whole chunk when it is shorter, otherwise exactly its first 260 characters |
| `Generator.Generate` | utils/script_engine.py:100-145 | the reader always gets at least one item; the model is called at most `max_retries + 1` times, and never for a blank chunk |
| `Generator.GenerateScript` | utils/script_engine.py:100-145 | the method returns what `Generate` specifies, and the number of calls it made |
| `Generator.GenerateNonBlank` | utils/script_engine.py:115-145 | for a non-blank chunk, the first decoded attempt's normalised script, or the failure line, as `Generate` specifies |
| `Generator.RetryLoop` | utils/script_engine.py:121-136 | the loop stops at the first attempt that decodes, after one call per attempt; when none decodes it has made every call and keeps the last error |
| `Generator.FailureScript` | utils/script_engine.py:139-145 | the failure line is the fallback line for the stock message, followed by the last error's name when there was one, quoting the given fragment |
| `Generator.BlankChunk` | utils/script_engine.py:111-113 | a blank chunk gets the "scanned copy?" line and no call to the model |
| `Generator.FirstDecodedIs` | utils/script_engine.py:122-134 | an attempt that decodes after failures only is the one that is used |
| `Generator.FirstDecodedWins` | utils/script_engine.py:122-134 | the first decoded list is normalised and returned, whatever later attempts would give |
| `Generator.AllAttemptsFail` | utils/script_engine.py:139-145 | after `max_retries + 1` failures, one narrator line names the last exception, quotes the chunk, and is shy for an odd chunk |
| `Prefetch.TokenOrMinusOne` | app.py:537 | `int(token or -1)` keeps a non-zero token and is never 0 |
| `Prefetch.Collect` | app.py:515-542 | a finished task leaves the slot, and its script is cached under its target only if it produced one and belongs to the current run; afterwards no pending task is finished |
| `Prefetch.Take` | app.py:545-573 | taking never changes the run token, and afterwards no script for the chunk is left in the cache; on a cache hit the cached script is handed out and the pending task is left as collecting left it |
| `Prefetch.Ensure` | app.py:576-607 | prefetching never changes the run token; a task it starts is the submitted future for the chunk after `current`, tagged with the current run |
| `Prefetch.Clear` | app.py:473-484 | clearing never lowers the run token, and collecting a cleared buffer changes nothing |
| `Prefetch.Finish` | app.py:523-528 | the environment's step: the pending future becomes done with the same outcome, target and token; the cache, the run token and whether a task is pending are unchanged |
| `Prefetch.TakeConsumes` | app.py:545-552 | a cached script is handed out once and removed; the rest of the cache, keys and scripts, is kept; on a cache hit the state is the collected one minus that entry, so the pending task is kept |
| `Prefetch.TakeWithoutWaitOnlyFromCache` | app.py:545-563 | without waiting, only a cached script is handed out |
| `Prefetch.TakeFromPending` | app.py:554-573 | for a chunk not in the cache, the pending task's result is handed out, and the slot cleared, exactly when it targets this chunk, belongs to this run, and is finished or may be waited for; otherwise nothing is handed out and the collected state is kept |
| `Prefetch.TokenZeroNeverMatches` | app.py:537 | a task tagged 0 never matches a run token |
| `Prefetch.StaleNeverCached` | app.py:535-538 | a task from another run is never cached |
| `Prefetch.StaleNeverTaken` | app.py:545-561 | a task from another run never hands out its script |
| `Prefetch.ResetForgetsEverything` | app.py:473-484 | after a bumping clear nothing is handed out, and collecting changes nothing |
| `Prefetch.ClearBumps` | app.py:473-484 | clearing empties the buffer and raises the run token by one exactly when asked |
| `Prefetch.RunTokenOnlyClearChanges` | app.py:515-607 | collecting, taking and prefetching never change the run token |
| `Prefetch.EnsureLaunches` | app.py:576-607 | prefetching does nothing out of range; otherwise it starts a task for the next chunk in this run exactly when nothing is pending and the chunk is not cached |
| `Prefetch.EnsureTwice` | app.py:592-596 | a second prefetch call while the first task runs starts nothing |
| `Prefetch.EnsureRelaunchesAfterFailure` | app.py:592-607 | a second call after the first task failed starts a new task for the same chunk |
| `Prefetch.PrefetchThenTake` | app.py:545-607 | after prefetching the next chunk, a take without waiting gets nothing while the task runs, a waiting take gets its result, and once the task has finished a take without waiting gets it too and clears the slot |
| `Prefetch.InvPreserved` | app.py:473-607 | every operation keeps a pending task tagged with the current run token |
| `Prefetch.ReachableTasksAreCurrent` | app.py:537 | in a reachable state a pending task matches the run exactly when the run token is not 0 |
| `Playback.ItemAt` | app.py:457-462 | an item is shown exactly when the index is inside the script |
| `Playback.Advance` | app.py:627-653 | advancing moves to the same or the next chunk; from inside a script it lands inside a script, or on the processing screen to generate the next one |
| `Playback.Apply` | app.py:487-492 | applying a script keeps the screen and chunk and shows the script's first item, or nothing for an empty script |
| `Playback.AdvanceClearsFeedback` | app.py:627-633 | advancing clears the feedback, and with no script it does nothing else |
| `Playback.AdvanceWithinScript` | app.py:635-637 | inside the script, advancing moves the cursor to the next index and shows that item, on the same chunk and screen, with feedback cleared and nothing else changed |
| `Playback.AdvanceToNextChunk` | app.py:637-653 | past the script's end with chunks left, advancing moves to the next chunk on the processing screen |
| `Playback.AdvancePastLastChunk` | app.py:640-650 | past the last chunk, the closing line is shown |
| `Playback.ClosingLineStays` | app.py:627-650 | advancing on the closing line keeps it on screen |
| `Playback.AdvanceSteps` | app.py:627-637 | `k` advances from the first item show item `k` |
| `Playback.ApplyShowsFirst` | app.py:487-492 | a newly applied script starts at its first item with the generator ready |
| `Session.Session.constructor` | app.py:422-439 | a new session starts on the landing screen with nothing loaded and an empty buffer in run 0 |
| `Session.Session.CurrentItem` | app.py:457-462 | the current item exists exactly when the index is inside the script |
| `Session.Session.ClearPrefetchBuffer` | app.py:473-484 | the buffer is cleared in place as `Clear` specifies |
| `Session.Session.CollectPrefetchIfReady` | app.py:515-542 | the buffer is updated in place as `Collect` specifies |
| `Session.Session.TakePrefetchedScript` | app.py:545-573 | the buffer and the script handed out are as `Take` specifies |
| `Session.Session.EnsureNextChunkPrefetch` | app.py:576-607 | the buffer is updated in place as `Ensure` specifies |
| `Session.Session.ResetSession` | app.py:615-624 | the cursor returns to the landing state and the buffer is cleared in a new run |
| `Session.Session.ApplyScriptItems` | app.py:487-492 | the cursor is updated in place as `Apply` specifies |
| `Session.Session.Advance` | app.py:627-653 | the cursor is updated in place as `Playback.Advance` specifies |
| `Headless.KeywordMatches` | headless.py:80 | exactly the options containing the keyword, in increasing order |
| `Headless.Resolve` | headless.py:51-85 | a line picks an option in range, or nothing |
| `Headless.FirstResolved` | headless.py:50-87 | the pick of the first line that picks anything, after lines that picked nothing |
| `Headless.ChooseOptionInteractive` | headless.py:47-87 | the prompt loop returns the pick `FirstResolved` specifies |
| `Headless.ChooseOptionAuto` | headless.py:90-101 | the pick is in range; "last" picks the last option; "correct" on a quiz picks the first option whose trimmed text equals the trimmed answer; everything else picks the first option |
| `Headless.QuizReply` | headless.py:129-136 | the reply is never empty, and is the item's own feedback for the verdict when it has one |
| `Headless.IsCorrectPick` | headless.py:131-133 | a pick is judged correct only when the option as shown is already trimmed and equals the trimmed answer |
| `Headless.NumberPicks` | headless.py:54-57 | typing an option's number picks it |
| `Headless.LeadingLetterPicks` | headless.py:61-73 | an input starting with a letter that names an option picks that option |
| `Headless.KeywordShadowedByLetter` | headless.py:68-83 | the keyword "ab" found only in the second option picks the first option, lettered A |
| `Headless.OnlyMatch` | headless.py:80-81 | when one option alone contains the keyword, the matches are exactly that option |
| `Headless.NoMatch` | headless.py:80-83 | when no option contains the keyword, there are no matches |
| `Headless.KeywordPicksUnique` | headless.py:79-83 | any other input of two or more characters picks an option exactly when it is the only one containing the input |
| `Headless.ShortInputAskedAgain` | headless.py:51-87 | a blank line or a single character naming no option is asked again |
| `Headless.CorrectPickExists` | headless.py:131-133 | some pick is judged correct exactly when the trimmed answer is an option as shown |
| `Headless.CorrectStrategyIsCorrect` | headless.py:94-99 | on stripped options, the "correct" strategy is judged correct exactly when any pick would be |
| `Headless.UnstrippedOptionJudgedWrong` | headless.py:96-98 | on the option " x" with answer "x", the "correct" strategy picks it and is judged wrong |
| `Headless.NormalizedQuizAnsweredCorrectly` | headless.py:94-99 | a normalised quiz whose answer is one of its options is answered correctly by the "correct" strategy |

## Left out

- The model call, the prompt (`_build_user_prompt`) and the reply parsing (`_parse_json_list`) are outside the model. Each call is represented by its outcome: the name of the exception raised, or the decoded list.
- `Generator.GenerateScript` requires a listed outcome for every allowed call. The source calls a live model, which always produces something.
- The `section_title` argument only feeds the prompt, so it is not modelled.
- Background execution is not modelled: the thread pool, `future.cancel()` and the blocking `result()`. A future is represented by whether it is done and what `result()` yields, where `None` stands for a task that raised.
- Waiting on a running task is modelled as handing out the task's eventual result.
- `st.rerun()`, rendering, CSS and assets are left out. So are PDF loading and chunking (`pdf_loader`, `mineru_parser`), configuration, and the `main` state machine around these functions.
- `load_script_for_chunk` and `_generate_script_for_chunk` only combine the generator and `_apply_script_items`. They are not modelled separately.
- `Session.Session.constructor`: `init_state` only fills keys that are absent. The constructor models a session with none present. It leaves out `use_mineru`, `parser_used` and the executor.
- Only ASCII is modelled for whitespace (`strip`, `\s`), for letters (`isalpha`, `[A-Za-z]`) and for digits (`isdigit`, `\d`). Unicode letters or digits whose case mapping or value lands in ASCII are not covered.
- JSON numbers are integers. Floats, and Python's `repr` of lists and dicts inside `str()`, are not modelled: a non-empty container renders as a fixed placeholder.
- The normaliser never returns an empty list, so the generator's `if normalized:` test is always true. The model does not repeat it.
- `_play_script_items` is modelled only through its option pick and quiz verdict. The "skip when options are missing" path cannot arise for normalised quizzes and choices, which always have at least two options. Printing and the "press Enter" pause are I/O.
- `Headless.ChooseOptionInteractive`: the source asks until a line picks something. The model reads a finite sequence of lines and gives no pick when they run out, where `input()` would raise `EOFError`.
- `Headless.Resolve` folds the source's single-letter check into its leading-letter check. The two compute the same index on a one-character input.
- LetterLabel: the contract states the bounds of the result; what a matching text looks like is stated by `OptionLabels.LetterLabelShape`, because a quantified shape in the function's own contract is carried into every proof that unfolds it.
- NumberLabel: the contract states the bounds of the result; what a matching text looks like is stated by `OptionLabels.NumberLabelShape`, for the same reason.
- LabelToIndex: the contract states the bounds and the blank case; the converse, that any other text gives no index, is stated by `OptionLabels.LabelToIndexShape`, `OptionLabels.LabelChars`, `OptionLabels.ForeignCharNoLabel` and `OptionLabels.TwoLettersNoLabel`.
- CorrectAnswer: the second label attempt, the literal match and the unmatched case are stated by `Normalizer.CorrectAnswerCleanedLabel`, `Normalizer.CorrectAnswerLiteral` and `Normalizer.CorrectAnswerUnmatched` rather than in the function's contract, which every normalising proof unfolds.
- A task finishing between `_collect_prefetch_if_ready` and the check in `_take_prefetched_script` is not modelled as a race: a task finishes only as its own step, `Prefetch.Finish`.
