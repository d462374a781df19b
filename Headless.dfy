/**
  The command-line player (`headless.py`): how an option of a quiz or a
  choice is picked — from what the reader types, or by a fixed strategy —
  and whether the pick answers a quiz correctly.

  Reading the terminal is outside the model: the lines the reader would
  type are given as a sequence, and running out of them ends the prompt
  with no pick (where `input()` would raise).
*/
module Headless {
  import opened Wrappers
  import opened Text
  import opened ScriptItems
  import opened Normalizer

  // ---------------------------------------------------------------------------
  // Reading one line of input

  /** The (stripped) input is a number naming an option, counting from 1. */
  predicate SelectsByNumber(raw: string, optionCount: nat) {
    raw != [] && AllDigits(raw) && 1 <= DigitsValue(raw) <= optionCount
  }

  /** The (stripped) input starts with a letter naming an option: `A`, `b`, `C.`, `d)`. */
  predicate SelectsByLetter(raw: string, optionCount: nat) {
    raw != [] && IsLetter(raw[0]) && LetterIndex(raw[0]) < optionCount
  }

  /** The positions of the options that contain `kw`, in order, from `from` on. */
  function KeywordMatches(options: seq<string>, kw: string, from: nat): (r: seq<nat>)
    requires from <= |options|
    ensures forall k :: 0 <= k < |r| ==> from <= r[k] < |options| && Contains(options[r[k]], kw)
    ensures forall i :: from <= i < |options| && Contains(options[i], kw) ==> i in r
    ensures forall a, b :: 0 <= a < b < |r| ==> r[a] < r[b]
    decreases |options| - from
  {
    if from == |options| then []
    else if Contains(options[from], kw) then [from] + KeywordMatches(options, kw, from + 1)
    else KeywordMatches(options, kw, from + 1)
  }

  /**
    One pass of the prompt loop of `_choose_option_interactive`: the option
    the line picks, or `None` when the loop asks again. The checks run in
    order: a number, a single letter, a leading letter, then a keyword of
    at least two characters found in exactly one option. The single-letter
    check is the leading-letter check on a one-character input, so the two
    are one branch here.
  */
  function Resolve(line: string, options: seq<string>): (r: Option<nat>)
    ensures r.Some? ==> r.value < |options|
  {
    var raw := Strip(line);
    if SelectsByNumber(raw, |options|) then Some(DigitsValue(raw) - 1)
    else if SelectsByLetter(raw, |options|) then Some(LetterIndex(raw[0]))
    else if |raw| >= 2 then
      var matches := KeywordMatches(options, raw, 0);
      if |matches| == 1 then Some(matches[0]) else None
    else None
  }

  /** The pick of the first line that resolves to an option, if any does. */
  function FirstResolved(lines: seq<string>, options: seq<string>): (r: Option<nat>)
    ensures r.Some? ==> r.value < |options|
    ensures r.Some? ==> exists k :: 0 <= k < |lines| && Resolve(lines[k], options) == r
                                    && forall j :: 0 <= j < k ==> Resolve(lines[j], options).None?
    ensures r.None? ==> forall k :: 0 <= k < |lines| ==> Resolve(lines[k], options).None?
  {
    if lines == [] then None
    else
      var first := Resolve(lines[0], options);
      if first.Some? then first
      else
        var r := FirstResolved(lines[1..], options);
        assert forall k :: 1 <= k < |lines| ==> lines[k] == lines[1..][k - 1];
        r
  }

  /** `_choose_option_interactive`: ask until a line picks an option. */
  method ChooseOptionInteractive(options: seq<string>, lines: seq<string>) returns (picked: Option<nat>)
    ensures picked == FirstResolved(lines, options)
  {
    var i := 0;
    while i < |lines|
      invariant 0 <= i <= |lines|
      invariant FirstResolved(lines, options) == FirstResolved(lines[i..], options)
    {
      assert lines[i..][1..] == lines[i + 1..];
      var r := Resolve(lines[i], options);
      if r.Some? {
        return r;
      }
      i := i + 1;
    }
    return None;
  }

  // ---------------------------------------------------------------------------
  // Picking by strategy, and judging a quiz answer

  /**
    `_choose_option_auto`: the first option, the last one, or — for a quiz
    under the "correct" strategy — the first option equal to the correct
    answer once both are stripped (the first option when none is). Any
    other strategy, or "correct" on a choice, picks the first option.
  */
  function ChooseOptionAuto(item: Item, options: seq<string>, strategy: string): (r: nat)
    ensures options != [] ==> r < |options|
    ensures strategy == "last" ==> r + 1 == |options| || (options == [] && r == 0)
    ensures strategy != "last" && (strategy != "correct" || !item.Quiz?) ==> r == 0
    ensures strategy == "correct" && item.Quiz? && r != 0 ==>
              r < |options| && Strip(options[r]) == Strip(item.correctAnswer)
              && forall j :: 0 <= j < r ==> Strip(options[j]) != Strip(item.correctAnswer)
    ensures strategy == "correct" && item.Quiz?
            && (exists k :: 0 <= k < |options| && Strip(options[k]) == Strip(item.correctAnswer)) ==>
              r < |options| && Strip(options[r]) == Strip(item.correctAnswer)
              && forall j :: 0 <= j < r ==> Strip(options[j]) != Strip(item.correctAnswer)
  {
    if strategy == "first" then 0
    else if strategy == "correct" && item.Quiz? then
      match FindStripped(options, Strip(item.correctAnswer), 0)
      case Some(i) => i
      case None => 0
    else if strategy == "last" then
      if |options| - 1 > 0 then |options| - 1 else 0
    else 0
  }

  /** The quiz check of `_play_script_items`: the picked option, as shown, equals the stripped answer. */
  predicate IsCorrectPick(item: Item, options: seq<string>, picked: nat)
    requires item.Quiz? && picked < |options|
    ensures IsCorrectPick(item, options, picked) ==> Stripped(options[picked])
  {
    options[picked] == Strip(item.correctAnswer)
  }

  /** The reply printed after a quiz pick; an empty feedback field falls back to a stock line. */
  function QuizReply(item: Item, options: seq<string>, picked: nat): (r: string)
    requires item.Quiz? && picked < |options|
    ensures r != []
    ensures IsCorrectPick(item, options, picked) && item.feedbackCorrect != [] ==> r == item.feedbackCorrect
    ensures !IsCorrectPick(item, options, picked) && item.feedbackWrong != [] ==> r == item.feedbackWrong
  {
    if IsCorrectPick(item, options, picked) then
      if item.feedbackCorrect == [] then "不错嘛。" else item.feedbackCorrect
    else
      if item.feedbackWrong == [] then "不对喵！再想想。" else item.feedbackWrong
  }

  // ---------------------------------------------------------------------------
  // Properties

  /** Typing the number `n` of an option picks it. */
  lemma NumberPicks(options: seq<string>, n: nat)
    requires 1 <= n <= |options|
    ensures Resolve(NatToString(n), options) == Some(n - 1)
  {
    var s := NatToString(n);
    assert !IsSpace(s[0]) && !IsSpace(s[|s| - 1]);
    StripOfStripped(s);
    DigitsOfNatToString(n);
  }

  /**
    An input starting with a letter that names an option picks that option,
    whatever follows the letter: a keyword that starts with such a letter is
    never searched for.
  */
  lemma LeadingLetterPicks(line: string, options: seq<string>)
    requires SelectsByLetter(Strip(line), |options|)
    ensures Resolve(line, options) == Some(LetterIndex(Strip(line)[0]))
  {
    assert !IsDigit(Strip(line)[0]);
  }

  /** With options "xy" and "ab", typing the keyword "ab" picks "xy", the option lettered A. */
  lemma KeywordShadowedByLetter()
    ensures Contains("ab", "ab") && !Contains("xy", "ab")
    ensures Resolve("ab", ["xy", "ab"]) == Some(0)
  {
    assert OccursAt("ab", "ab", 0);
    StripOfStripped("ab");
    assert !IsDigit('a');
  }

  /**
    An input that is neither a number nor a letter naming an option, and is
    at least two characters long, picks an option exactly when that option
    is the only one containing it.
  */
  lemma KeywordPicksUnique(line: string, options: seq<string>, i: nat)
    requires var raw := Strip(line);
      !SelectsByNumber(raw, |options|) && !SelectsByLetter(raw, |options|) && |raw| >= 2
    ensures Resolve(line, options) == Some(i) <==>
              i < |options| && Contains(options[i], Strip(line))
              && forall j :: 0 <= j < |options| && j != i ==> !Contains(options[j], Strip(line))
  {
    var raw := Strip(line);
    if i < |options| && Contains(options[i], raw)
       && forall j :: 0 <= j < |options| && j != i ==> !Contains(options[j], raw)
    {
      OnlyMatch(options, raw, 0, i);
    }
  }

  /** When option `i` alone contains the keyword, it is the only match. */
  lemma {:induction false} OnlyMatch(options: seq<string>, kw: string, from: nat, i: nat)
    requires from <= i < |options| && Contains(options[i], kw)
    requires forall j :: 0 <= j < |options| && j != i ==> !Contains(options[j], kw)
    ensures KeywordMatches(options, kw, from) == [i]
    decreases i - from
  {
    if from < i {
      OnlyMatch(options, kw, from + 1, i);
    } else {
      NoMatch(options, kw, from + 1);
    }
  }

  /** With no option from `from` on containing the keyword, there is no match. */
  lemma {:induction false} NoMatch(options: seq<string>, kw: string, from: nat)
    requires from <= |options|
    requires forall j :: from <= j < |options| ==> !Contains(options[j], kw)
    ensures KeywordMatches(options, kw, from) == []
    decreases |options| - from
  {
    if from < |options| {
      NoMatch(options, kw, from + 1);
    }
  }

  /** A blank line, or a single character that names no option, is asked again. */
  lemma ShortInputAskedAgain(line: string, options: seq<string>)
    requires |Strip(line)| <= 1
    requires !SelectsByNumber(Strip(line), |options|) && !SelectsByLetter(Strip(line), |options|)
    ensures Resolve(line, options).None?
  {
  }

  /** Some pick answers a quiz correctly exactly when the stripped answer is one of the options as shown. */
  lemma CorrectPickExists(item: Item, options: seq<string>)
    requires item.Quiz?
    ensures (exists p :: 0 <= p < |options| && IsCorrectPick(item, options, p))
            <==> Strip(item.correctAnswer) in options
  {
    if Strip(item.correctAnswer) in options {
      var p :| 0 <= p < |options| && options[p] == Strip(item.correctAnswer);
      assert IsCorrectPick(item, options, p);
    }
  }

  /**
    On stripped options — as the normaliser leaves them — the "correct"
    strategy answers the quiz correctly exactly when some pick would.
  */
  lemma CorrectStrategyIsCorrect(item: Item, options: seq<string>)
    requires item.Quiz? && options != [] && AllStripped(options)
    ensures IsCorrectPick(item, options, ChooseOptionAuto(item, options, "correct"))
            <==> Strip(item.correctAnswer) in options
  {
    var answer := Strip(item.correctAnswer);
    CorrectPickExists(item, options);
    if answer in options {
      var k :| 0 <= k < |options| && options[k] == answer;
      StripOfStripped(options[k]);
      var found := FindStripped(options, answer, 0);
      assert found.Some?;
      StripOfStripped(options[found.value]);
    }
  }

  /**
    On options that are not stripped, the "correct" strategy can pick the
    right option and still be told it is wrong: the pick compares stripped
    text, the check compares the option as shown.
  */
  lemma UnstrippedOptionJudgedWrong(item: Item)
    requires item.Quiz? && item.correctAnswer == "x"
    ensures ChooseOptionAuto(item, [" x"], "correct") == 0
    ensures Strip(" x") == Strip(item.correctAnswer)
    ensures !IsCorrectPick(item, [" x"], 0)
  {
    assert SkipSpaces(" x", 0) == 1 && SkipSpacesBack(" x", 1, 2) == 2;
    assert Strip(" x") == " x"[1..2] == "x";
    StripOfStripped("x");
  }

  /** A quiz the normaliser produced is answered correctly by the "correct" strategy when its answer is an option. */
  lemma NormalizedQuizAnsweredCorrectly(item: Item)
    requires item.Quiz? && WellFormed(item) && item.correctAnswer in item.options
    ensures IsCorrectPick(item, item.options, ChooseOptionAuto(item, item.options, "correct"))
  {
    StripOfStripped(item.correctAnswer);
    CorrectStrategyIsCorrect(item, item.options);
  }
}
