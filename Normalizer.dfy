/**
  `ScriptGenerator._normalize_script` and the helpers it calls: turning the
  decoded list from a model response into playable items, dropping what is
  malformed, and never handing back an empty script.
*/
module Normalizer {
  import opened Wrappers
  import opened Text
  import opened Json
  import opened ScriptItems
  import opened OptionLabels

  const Narrator := "奈奈"
  const DefaultFeedbackCorrect := "嗯哼，还行吧。"
  const DefaultFeedbackWrong := "笨蛋！再想想喵！"
  const DefaultChoicePrompt := "你选哪个？"
  const NothingSurvivedMessage := "这段写得太硬核了……我先用最普通的方式给你捋一遍喵。"

  /** The text a fallback line appends to show a fragment of the chunk. */
  function HintSuffix(hint: string): string {
    "\n\n（原文片段：" + hint + "…）"
  }

  /**
    `_fallback_script`: one narrator line carrying `msg`, followed by a
    fragment of the source text when a non-empty hint is given; the portrait
    is shy for an odd chunk index. (Python's `%` and Dafny's agree on the
    parity of negative numbers: `-1 % 2 == 1` in both.)
  */
  function FallbackScript(msg: string, chunkIndex: int, hint: string): (r: Script)
    ensures |r| == 1 && r[0].Dialogue? && r[0].speaker == Narrator
    ensures r[0].emotion == Shy <==> chunkIndex % 2 == 1
    ensures r[0].emotion == Shy || r[0].emotion == Normal
    ensures |msg| <= |r[0].text| && r[0].text[..|msg|] == msg
    ensures hint == [] <==> r[0].text == msg
    ensures Contains(r[0].text, hint)
  {
    var text := if hint != [] then msg + HintSuffix(hint) else msg;
    assert OccursAt(hint, text, if hint != [] then |msg| + |"\n\n（原文片段："| else 0);
    ContainsIffSlice(text, hint);
    [Dialogue(Narrator, text, if chunkIndex % 2 == 1 then Shy else Normal)]
  }

  /** First index `k >= from` with `options[k].strip() == x`. */
  function FindStripped(options: seq<string>, x: string, from: nat): (r: Option<nat>)
    requires from <= |options|
    ensures r.Some? ==> from <= r.value < |options| && Strip(options[r.value]) == x
    ensures r.Some? ==> forall j :: from <= j < r.value ==> Strip(options[j]) != x
    ensures r.None? ==> forall j :: from <= j < |options| ==> Strip(options[j]) != x
    decreases |options| - from
  {
    if from == |options| then None
    else if Strip(options[from]) == x then Some(from)
    else FindStripped(options, x, from + 1)
  }

  /** The search finds the first option that matches. */
  lemma FindStrippedFirst(options: seq<string>, x: string, from: nat, k: nat)
    requires from <= k < |options| && Strip(options[k]) == x
    requires forall j :: from <= j < k ==> Strip(options[j]) != x
    ensures FindStripped(options, x, from) == Some(k)
  {
    var r := FindStripped(options, x, from);
    assert r.Some? && r.value <= k;
  }

  /** A label that names an existing option. */
  predicate InRange(idx: Option<int>, n: nat) {
    idx.Some? && 0 <= idx.value < n
  }

  /** The answer as the normaliser first reads it: `str(value or "").strip()`. */
  function AnswerText(rawAnswer: Json): string {
    Strip(StrOr(rawAnswer, ""))
  }

  /**
    `_normalize_correct_answer`: an empty answer means the first option; a
    label naming an option means that option (tried on the trimmed answer,
    then on the answer with its enumerator stripped); otherwise the first
    option whose trimmed text equals the cleaned answer; otherwise the
    cleaned answer itself, which then names no option.
  */
  function CorrectAnswer(rawAnswer: Json, options: seq<string>): (r: string)
    ensures options == [] ==> r == AnswerText(rawAnswer)
    ensures options != [] && AnswerText(rawAnswer) == [] ==> r == options[0]
    ensures options != [] && InRange(LabelToIndex(AnswerText(rawAnswer)), |options|)
            ==> r == options[LabelToIndex(AnswerText(rawAnswer)).value]
    ensures options != [] ==>
              (r in options ||
               (r == CleanOption(AnswerText(rawAnswer)) && r != [] &&
                forall k :: 0 <= k < |options| ==> Strip(options[k]) != r))
    ensures AllStripped(options) ==> Stripped(r)
  {
    var raw := AnswerText(rawAnswer);
    if options == [] then raw
    else if raw == [] then options[0]
    else
      var idx := LabelToIndex(raw);
      if InRange(idx, |options|) then options[idx.value]
      else
        var cleaned := CleanOption(raw);
        var idx2 := LabelToIndex(cleaned);
        if InRange(idx2, |options|) then options[idx2.value]
        else
          var first := options[0];
          match FindStripped(options, cleaned, 0)
          case Some(k) => options[k]
          case None => if cleaned != [] then cleaned else first
  }

  /** The second label attempt: the answer with its enumerator stripped names an option. */
  lemma CorrectAnswerCleanedLabel(rawAnswer: Json, options: seq<string>)
    requires var raw := AnswerText(rawAnswer);
      options != [] && raw != [] && !InRange(LabelToIndex(raw), |options|)
      && InRange(LabelToIndex(CleanOption(raw)), |options|)
    ensures CorrectAnswer(rawAnswer, options) == options[LabelToIndex(CleanOption(AnswerText(rawAnswer))).value]
  {
  }

  /** With no label naming an option, the answer is the first option whose trimmed text equals the cleaned answer. */
  lemma CorrectAnswerLiteral(rawAnswer: Json, options: seq<string>, k: nat)
    requires var raw := AnswerText(rawAnswer); var cleaned := CleanOption(raw);
      options != [] && raw != [] && !InRange(LabelToIndex(raw), |options|)
      && !InRange(LabelToIndex(cleaned), |options|)
      && k < |options| && Strip(options[k]) == cleaned
      && forall j :: 0 <= j < k ==> Strip(options[j]) != cleaned
    ensures CorrectAnswer(rawAnswer, options) == options[k]
  {
    FindStrippedFirst(options, CleanOption(AnswerText(rawAnswer)), 0, k);
  }

  /** With no label naming an option and no option equal to it, the answer is the cleaned answer itself. */
  lemma CorrectAnswerUnmatched(rawAnswer: Json, options: seq<string>)
    requires var raw := AnswerText(rawAnswer); var cleaned := CleanOption(raw);
      options != [] && raw != [] && !InRange(LabelToIndex(raw), |options|)
      && !InRange(LabelToIndex(cleaned), |options|)
      && forall j :: 0 <= j < |options| ==> Strip(options[j]) != cleaned
    ensures CorrectAnswer(rawAnswer, options) == CleanOption(AnswerText(rawAnswer))
  {
  }

  /** `[self._normalize_option_text(o) for o in opts]`. */
  function OptionTexts(xs: seq<Json>): (r: seq<string>)
    ensures |r| == |xs| && AllStripped(r)
    ensures forall k :: 0 <= k < |xs| ==> r[k] == OptionText(xs[k])
  {
    seq(|xs|, k requires 0 <= k < |xs| => OptionText(xs[k]))
  }

  /** The item's `type` field as the normaliser reads it. */
  function TypeTag(obj: map<string, Json>): string {
    Strip(StrOr(Get(obj, "type"), ""))
  }

  /** What one element of the decoded list becomes: an item, or nothing when it is dropped. */
  function NormalizeItem(it: Json): (r: Option<Item>)
    ensures r.Some? ==> it.JObject?
  {
    match it
    case JObject(obj) =>
      var t := TypeTag(obj);
      if t == "sub_head" then
        var title := Strip(StrOr(Get(obj, "title"), ""));
        if title != [] then Some(SubHead(title)) else None
      else if t == "dialogue" then
        var speaker := Strip(StrOr(Get(obj, "speaker"), Narrator));
        var text := Strip(StrOr(Get(obj, "text"), ""));
        if text != [] then Some(Dialogue(speaker, text, ClampEmotion(Get(obj, "emotion")))) else None
      else if t == "quiz" then
        var q := Strip(StrOr(Get(obj, "question"), ""));
        var opts := Get(obj, "options");
        if q != [] && opts.JList? && |opts.items| >= 2 then
          var opts2 := OptionTexts(opts.items);
          Some(Quiz(q, opts2, CorrectAnswer(Get(obj, "correct_answer"), opts2),
                    Strip(StrOr(Get(obj, "feedback_correct"), DefaultFeedbackCorrect)),
                    Strip(StrOr(Get(obj, "feedback_wrong"), DefaultFeedbackWrong)),
                    Strip(StrOr(Get(obj, "explanation"), "")),
                    ClampEmotion(Get(obj, "emotion"))))
        else None
      else if t == "choice" then
        var prompt := Strip(StrOr(Or(Get(obj, "prompt"), Get(obj, "question")), DefaultChoicePrompt));
        var opts := Get(obj, "options");
        if opts.JList? && |opts.items| >= 2 then
          Some(Choice(prompt, OptionTexts(opts.items), ClampEmotion(Get(obj, "emotion")),
                      Strip(StrOr(Get(obj, "explanation"), ""))))
        else None
      else None
    case _ => None
  }

  /** The items that survive, one per surviving element, in input order. */
  function Survivors(items: seq<Json>): (r: Script)
    ensures |r| <= |items|
  {
    if items == [] then []
    else
      var last := NormalizeItem(items[|items| - 1]);
      Survivors(items[..|items| - 1]) + (if last.Some? then [last.value] else [])
  }

  /** The script for a decoded list: its survivors, or the fallback line when nothing survives. */
  function Normalized(items: seq<Json>): (r: Script)
    ensures |r| >= 1
    ensures Survivors(items) != [] ==> r == Survivors(items)
    ensures Survivors(items) == [] ==> r == FallbackScript(NothingSurvivedMessage, -1, "")
  {
    var out := Survivors(items);
    if out == [] then FallbackScript(NothingSurvivedMessage, -1, "") else out
  }

  // ---------------------------------------------------------------------------
  // Properties of the normaliser

  /**
    An element is kept only when it is a record whose `type` is one of the
    four kinds, and it becomes an item of that kind which is well formed.
  */
  lemma NormalizeItemKinds(it: Json)
    ensures NormalizeItem(it).Some? ==> it.JObject? && WellFormed(NormalizeItem(it).value)
    ensures it.JObject? && TypeTag(it.fields) !in {"sub_head", "dialogue", "quiz", "choice"} ==> NormalizeItem(it).None?
    ensures var r := NormalizeItem(it); r.Some? ==>
      && (r.value.SubHead? <==> TypeTag(it.fields) == "sub_head")
      && (r.value.Dialogue? <==> TypeTag(it.fields) == "dialogue")
      && (r.value.Quiz? <==> TypeTag(it.fields) == "quiz")
      && (r.value.Choice? <==> TypeTag(it.fields) == "choice")
  {
  }

  /** Every surviving item is well formed. */
  lemma {:induction false} SurvivorsWellFormed(items: seq<Json>)
    ensures forall k :: 0 <= k < |Survivors(items)| ==> WellFormed(Survivors(items)[k])
  {
    if items != [] {
      SurvivorsWellFormed(items[..|items| - 1]);
      NormalizeItemKinds(items[|items| - 1]);
    }
  }

  /** Every item of a normalised script is well formed, the fallback line included. */
  lemma NormalizedWellFormed(items: seq<Json>)
    ensures forall k :: 0 <= k < |Normalized(items)| ==> WellFormed(Normalized(items)[k])
  {
    SurvivorsWellFormed(items);
  }

  /** Normalising a concatenation normalises each part: items are judged one at a time. */
  lemma {:induction false} SurvivorsAppend(a: seq<Json>, b: seq<Json>)
    ensures Survivors(a + b) == Survivors(a) + Survivors(b)
    decreases |b|
  {
    if b == [] {
      assert a + b == a;
    } else {
      var last := b[|b| - 1];
      assert (a + b)[..|a + b| - 1] == a + b[..|b| - 1];
      SurvivorsAppend(a, b[..|b| - 1]);
    }
  }

  /** The last element is dropped or kept on its own. */
  lemma SurvivorsLast(items: seq<Json>)
    requires items != []
    ensures Survivors(items) == [] <==>
              Survivors(items[..|items| - 1]) == [] && NormalizeItem(items[|items| - 1]).None?
  {
  }

  lemma {:induction false} AllDroppedNoSurvivors(items: seq<Json>)
    requires forall k :: 0 <= k < |items| ==> NormalizeItem(items[k]).None?
    ensures Survivors(items) == []
  {
    if items != [] {
      var init := items[..|items| - 1];
      assert forall k :: 0 <= k < |init| ==> init[k] == items[k];
      AllDroppedNoSurvivors(init);
      SurvivorsLast(items);
    }
  }

  lemma {:induction false} NoSurvivorsAllDropped(items: seq<Json>, k: nat)
    requires Survivors(items) == [] && k < |items|
    ensures NormalizeItem(items[k]).None?
  {
    var init := items[..|items| - 1];
    SurvivorsLast(items);
    if k < |init| {
      assert init[k] == items[k];
      NoSurvivorsAllDropped(init, k);
    } else {
      assert items[k] == items[|items| - 1];
    }
  }

  /** Nothing survives exactly when every element is dropped. */
  lemma SurvivorsEmptyIff(items: seq<Json>)
    ensures Survivors(items) == [] <==> forall k :: 0 <= k < |items| ==> NormalizeItem(items[k]).None?
  {
    if Survivors(items) == [] {
      forall k | 0 <= k < |items| ensures NormalizeItem(items[k]).None? {
        NoSurvivorsAllDropped(items, k);
      }
    } else if forall k :: 0 <= k < |items| ==> NormalizeItem(items[k]).None? {
      AllDroppedNoSurvivors(items);
    }
  }

  /** When every element is dropped the script is the single apology line (shy: its chunk index is -1). */
  lemma AllDroppedGivesFallback(items: seq<Json>)
    requires forall k :: 0 <= k < |items| ==> NormalizeItem(items[k]).None?
    ensures Normalized(items) == [Dialogue(Narrator, NothingSurvivedMessage, Shy)]
  {
    SurvivorsEmptyIff(items);
  }

  lemma TagOf(tag: string)
    requires Stripped(tag) && tag != []
    ensures Strip(StrOr(JStr(tag), "")) == tag
  {
    StripOfStripped(tag);
  }

  /** A section header written back and normalised again is unchanged. */
  lemma SubHeadStable(title: string)
    requires WellFormed(SubHead(title))
    ensures NormalizeItem(ToJson(SubHead(title))) == Some(SubHead(title))
  {
    var obj := ToJson(SubHead(title)).fields;
    assert obj == map["type" := JStr("sub_head"), "title" := JStr(title)];
    assert Get(obj, "type") == JStr("sub_head") && Get(obj, "title") == JStr(title);
    TagOf("sub_head");
    StripOfStripped(title);
  }

  lemma DialogueFields(speaker: string, text: string, e: Emotion)
    ensures var obj := ToJson(Dialogue(speaker, text, e)).fields;
      && TypeTag(obj) == "dialogue"
      && Get(obj, "speaker") == JStr(speaker) && Get(obj, "text") == JStr(text)
      && Get(obj, "emotion") == JStr(EmotionKey(e))
  {
    var obj := ToJson(Dialogue(speaker, text, e)).fields;
    assert obj == map["type" := JStr("dialogue"), "speaker" := JStr(speaker), "text" := JStr(text),
                      "emotion" := JStr(EmotionKey(e))];
    assert Get(obj, "type") == JStr("dialogue");
    TagOf("dialogue");
  }

  /** What the normaliser makes of a record tagged as a dialogue line. */
  lemma NormalizeDialogue(obj: map<string, Json>)
    requires TypeTag(obj) == "dialogue"
    ensures var speaker := Strip(StrOr(Get(obj, "speaker"), Narrator));
      var text := Strip(StrOr(Get(obj, "text"), ""));
      NormalizeItem(JObject(obj))
        == if text != [] then Some(Dialogue(speaker, text, ClampEmotion(Get(obj, "emotion")))) else None
  {
  }

  /** What the normaliser makes of a record tagged as a section header: kept exactly when its title is not blank. */
  lemma NormalizeSubHead(obj: map<string, Json>)
    requires TypeTag(obj) == "sub_head"
    ensures var title := Strip(StrOr(Get(obj, "title"), ""));
      NormalizeItem(JObject(obj)) == if title != [] then Some(SubHead(title)) else None
  {
  }

  /**
    What the normaliser makes of a record tagged as a quiz: kept exactly when
    its question is not blank and its options are a list of at least two,
    with the question and the cleaned options.
  */
  lemma NormalizeQuiz(obj: map<string, Json>)
    requires TypeTag(obj) == "quiz"
    ensures var q := Strip(StrOr(Get(obj, "question"), ""));
      var opts := Get(obj, "options");
      var r := NormalizeItem(JObject(obj));
      && (r.Some? <==> q != [] && opts.JList? && |opts.items| >= 2)
      && (r.Some? ==> r.value.Quiz? && r.value.question == q && r.value.options == OptionTexts(opts.items)
                      && r.value.correctAnswer == CorrectAnswer(Get(obj, "correct_answer"), r.value.options)
                      && r.value.feedbackCorrect == Strip(StrOr(Get(obj, "feedback_correct"), DefaultFeedbackCorrect))
                      && r.value.feedbackWrong == Strip(StrOr(Get(obj, "feedback_wrong"), DefaultFeedbackWrong))
                      && r.value.explanation == Strip(StrOr(Get(obj, "explanation"), ""))
                      && r.value.emotion == ClampEmotion(Get(obj, "emotion")))
  {
  }

  /**
    What the normaliser makes of a record tagged as a free choice: kept
    exactly when its options are a list of at least two, with the prompt (or
    else the question, or else the stock prompt) and the cleaned options.
  */
  lemma NormalizeChoice(obj: map<string, Json>)
    requires TypeTag(obj) == "choice"
    ensures var opts := Get(obj, "options");
      var r := NormalizeItem(JObject(obj));
      && (r.Some? <==> opts.JList? && |opts.items| >= 2)
      && (r.Some? ==> r.value.Choice?
                      && r.value.prompt == Strip(StrOr(Or(Get(obj, "prompt"), Get(obj, "question")), DefaultChoicePrompt))
                      && r.value.options == OptionTexts(opts.items)
                      && r.value.explanation == Strip(StrOr(Get(obj, "explanation"), ""))
                      && r.value.emotion == ClampEmotion(Get(obj, "emotion")))
  {
  }

  lemma QuizFields(q: string, opts: seq<string>, answer: string, fc: string, fw: string, expl: string, e: Emotion)
    ensures var obj := ToJson(Quiz(q, opts, answer, fc, fw, expl, e)).fields;
      && Get(obj, "question") == JStr(q) && Get(obj, "options") == JList(StrList(opts))
      && Get(obj, "correct_answer") == JStr(answer)
      && Get(obj, "feedback_correct") == JStr(fc) && Get(obj, "feedback_wrong") == JStr(fw)
      && Get(obj, "explanation") == JStr(expl) && Get(obj, "emotion") == JStr(EmotionKey(e))
  {
    var obj := ToJson(Quiz(q, opts, answer, fc, fw, expl, e)).fields;
    assert obj == map["type" := JStr("quiz"), "question" := JStr(q), "options" := JList(StrList(opts)),
                      "correct_answer" := JStr(answer), "feedback_correct" := JStr(fc),
                      "feedback_wrong" := JStr(fw), "explanation" := JStr(expl),
                      "emotion" := JStr(EmotionKey(e))];
  }

  /**
    A well-formed quiz written back and normalised again is a quiz with the
    same question, explanation and emotion, and with its options cleaned
    once more and its answer resolved against them; a feedback line that was
    empty is replaced by the stock one.
  */
  lemma QuizWrittenBack(q: string, opts: seq<string>, answer: string, fc: string, fw: string, expl: string, e: Emotion)
    requires WellFormed(Quiz(q, opts, answer, fc, fw, expl, e))
    ensures var options := OptionTexts(StrList(opts));
      NormalizeItem(ToJson(Quiz(q, opts, answer, fc, fw, expl, e)))
        == Some(Quiz(q, options, CorrectAnswer(JStr(answer), options),
                     if fc != [] then fc else DefaultFeedbackCorrect,
                     if fw != [] then fw else DefaultFeedbackWrong, expl, e))
  {
    var obj := ToJson(Quiz(q, opts, answer, fc, fw, expl, e)).fields;
    assert ToJson(Quiz(q, opts, answer, fc, fw, expl, e)) == JObject(obj);
    QuizFields(q, opts, answer, fc, fw, expl, e);
    assert TypeTag(obj) == "quiz" by { TagOf("quiz"); }
    QuizRecord(obj, q, StrList(opts), answer, fc, fw, expl, e);
  }

  /** A record tagged as a quiz whose fields are the given strings. */
  lemma QuizRecord(obj: map<string, Json>, q: string, opts: seq<Json>, answer: string,
                   fc: string, fw: string, expl: string, e: Emotion)
    requires TypeTag(obj) == "quiz" && q != [] && |opts| >= 2
    requires Stripped(q) && Stripped(fc) && Stripped(fw) && Stripped(expl)
    requires Get(obj, "question") == JStr(q) && Get(obj, "options") == JList(opts)
    requires Get(obj, "correct_answer") == JStr(answer)
    requires Get(obj, "feedback_correct") == JStr(fc) && Get(obj, "feedback_wrong") == JStr(fw)
    requires Get(obj, "explanation") == JStr(expl) && Get(obj, "emotion") == JStr(EmotionKey(e))
    ensures var options := OptionTexts(opts);
      NormalizeItem(JObject(obj))
        == Some(Quiz(q, options, CorrectAnswer(JStr(answer), options),
                     if fc != [] then fc else DefaultFeedbackCorrect,
                     if fw != [] then fw else DefaultFeedbackWrong, expl, e))
  {
    QuizFieldTexts(q, fc, fw, expl);
    ClampRoundTrip(e);
    NormalizeQuiz(obj);
  }

  /** How the normaliser reads back the text fields of a written quiz. */
  lemma QuizFieldTexts(q: string, fc: string, fw: string, expl: string)
    requires q != [] && Stripped(q) && Stripped(fc) && Stripped(fw) && Stripped(expl)
    ensures Strip(StrOr(JStr(q), "")) == q
    ensures Strip(StrOr(JStr(fc), DefaultFeedbackCorrect)) == (if fc != [] then fc else DefaultFeedbackCorrect)
    ensures Strip(StrOr(JStr(fw), DefaultFeedbackWrong)) == (if fw != [] then fw else DefaultFeedbackWrong)
    ensures Strip(StrOr(JStr(expl), "")) == expl
  {
    StripOfStripped(q);
    StripOfStripped(fc);
    StripOfStripped(fw);
    StripOfStripped(expl);
    DefaultsStripped();
  }

  /** The stock texts have no surrounding whitespace. */
  lemma DefaultsStripped()
    ensures Strip(DefaultFeedbackCorrect) == DefaultFeedbackCorrect
    ensures Strip(DefaultFeedbackWrong) == DefaultFeedbackWrong
    ensures Strip(DefaultChoicePrompt) == DefaultChoicePrompt
  {
    StripOfStripped(DefaultFeedbackCorrect);
    StripOfStripped(DefaultFeedbackWrong);
    StripOfStripped(DefaultChoicePrompt);
  }

  lemma ChoiceFields(prompt: string, opts: seq<string>, e: Emotion, expl: string)
    ensures var obj := ToJson(Choice(prompt, opts, e, expl)).fields;
      && Get(obj, "prompt") == JStr(prompt) && Get(obj, "question") == JNull
      && Get(obj, "options") == JList(StrList(opts))
      && Get(obj, "explanation") == JStr(expl) && Get(obj, "emotion") == JStr(EmotionKey(e))
  {
    var obj := ToJson(Choice(prompt, opts, e, expl)).fields;
    assert obj == map["type" := JStr("choice"), "prompt" := JStr(prompt), "options" := JList(StrList(opts)),
                      "emotion" := JStr(EmotionKey(e)), "explanation" := JStr(expl)];
    assert "question" !in obj;
  }

  /**
    A well-formed choice written back and normalised again is a choice with
    the same prompt, emotion and explanation and with its options cleaned
    once more; an empty prompt is replaced by the stock one.
  */
  lemma ChoiceWrittenBack(prompt: string, opts: seq<string>, e: Emotion, expl: string)
    requires WellFormed(Choice(prompt, opts, e, expl))
    ensures NormalizeItem(ToJson(Choice(prompt, opts, e, expl)))
              == Some(Choice(if prompt != [] then prompt else DefaultChoicePrompt,
                             OptionTexts(StrList(opts)), e, expl))
  {
    var obj := ToJson(Choice(prompt, opts, e, expl)).fields;
    assert ToJson(Choice(prompt, opts, e, expl)) == JObject(obj);
    ChoiceFields(prompt, opts, e, expl);
    assert TypeTag(obj) == "choice" by { TagOf("choice"); }
    ChoiceRecord(obj, prompt, StrList(opts), e, expl);
  }

  /** A record tagged as a free choice whose fields are the given strings and no question. */
  lemma ChoiceRecord(obj: map<string, Json>, prompt: string, opts: seq<Json>, e: Emotion, expl: string)
    requires TypeTag(obj) == "choice" && |opts| >= 2 && Stripped(prompt) && Stripped(expl)
    requires Get(obj, "prompt") == JStr(prompt) && Get(obj, "question") == JNull
    requires Get(obj, "options") == JList(opts)
    requires Get(obj, "explanation") == JStr(expl) && Get(obj, "emotion") == JStr(EmotionKey(e))
    ensures NormalizeItem(JObject(obj))
              == Some(Choice(if prompt != [] then prompt else DefaultChoicePrompt, OptionTexts(opts), e, expl))
  {
    ChoiceFieldTexts(prompt, expl);
    ClampRoundTrip(e);
    NormalizeChoice(obj);
  }

  /** How the normaliser reads back the text fields of a written choice. */
  lemma ChoiceFieldTexts(prompt: string, expl: string)
    requires Stripped(prompt) && Stripped(expl)
    ensures Strip(StrOr(Or(JStr(prompt), JNull), DefaultChoicePrompt)) == (if prompt != [] then prompt else DefaultChoicePrompt)
    ensures Strip(StrOr(JStr(expl), "")) == expl
  {
    StripOfStripped(prompt);
    StripOfStripped(expl);
    DefaultsStripped();
  }

  /** Options with no enumerator in front are written back and cleaned to themselves. */
  lemma PlainOptionsStable(opts: seq<string>)
    requires forall k :: 0 <= k < |opts| ==> Plain(opts[k])
    ensures OptionTexts(StrList(opts)) == opts
  {
    var r := OptionTexts(StrList(opts));
    forall k | 0 <= k < |opts|
      ensures r[k] == opts[k]
    {
      OptionTextOfString(opts[k]);
      CleanOptionOfPlain(opts[k]);
    }
  }

  /** A dialogue line with a named speaker, written back and normalised again, is unchanged. */
  lemma DialogueStable(speaker: string, text: string, e: Emotion)
    requires WellFormed(Dialogue(speaker, text, e)) && speaker != []
    ensures NormalizeItem(ToJson(Dialogue(speaker, text, e))) == Some(Dialogue(speaker, text, e))
  {
    DialogueFields(speaker, text, e);
    NormalizeDialogue(ToJson(Dialogue(speaker, text, e)).fields);
    StripOfStripped(speaker);
    StripOfStripped(text);
    ClampRoundTrip(e);
  }

  /**
    A dialogue line whose speaker was blank keeps the empty name, but fed
    back through the normaliser it is given to the narrator: normalising is
    not idempotent.
  */
  lemma DialogueBlankSpeakerNotStable(text: string, e: Emotion)
    requires WellFormed(Dialogue([], text, e))
    ensures NormalizeItem(ToJson(Dialogue([], text, e))) == Some(Dialogue(Narrator, text, e))
  {
    DialogueFields([], text, e);
    NormalizeDialogue(ToJson(Dialogue([], text, e)).fields);
    assert StrOr(JStr([]), Narrator) == Narrator;
    StripOfStripped(Narrator);
    StripOfStripped(text);
    ClampRoundTrip(e);
  }

  /**
    A numeric answer is read as a label before it is compared with the
    option texts: with options "2" and "1", the answer "1" names the first
    option, "2".
  */
  lemma LabelBeatsLiteral()
    ensures CorrectAnswer(JStr("1"), ["2", "1"]) == "2"
  {
    AnswerOneIsLabel();
  }

  /**
    Options arrive with bracketed enumerators and the answer is a bare
    letter: with options "(A) a" and "(B) b", the options are cleaned to
    "a" and "b", and the answer "B" names the second one.
  */
  lemma BracketedOptionsLetterAnswer(a: string, b: string)
    requires Plain(a) && Plain(b)
    ensures CorrectAnswer(JStr("B"), OptionTexts([JStr(Bracketed('A', a)), JStr(Bracketed('B', b))])) == b
  {
    BracketedOptionTexts(a, b);
    LetterAnswerPicksSecond([a, b]);
  }

  /** Options "(A) a" and "(B) b" are cleaned to "a" and "b". */
  lemma BracketedOptionTexts(a: string, b: string)
    requires Plain(a) && Plain(b)
    ensures OptionTexts([JStr(Bracketed('A', a)), JStr(Bracketed('B', b))]) == [a, b]
  {
    OptionTextsPair(JStr(Bracketed('A', a)), JStr(Bracketed('B', b)));
    BracketedOptionText('A', a);
    BracketedOptionText('B', b);
  }

  /** Two options are cleaned one by one. */
  lemma OptionTextsPair(x: Json, y: Json)
    ensures OptionTexts([x, y]) == [OptionText(x), OptionText(y)]
  {
    var xs := [x, y];
    var r := OptionTexts(xs);
    assert xs[0] == x && xs[1] == y;
    PairOf(r, OptionText(x), OptionText(y));
  }

  /** A sequence of length two is the display of its two elements. */
  lemma PairOf<T>(r: seq<T>, a: T, b: T)
    requires |r| == 2 && r[0] == a && r[1] == b
    ensures r == [a, b]
  {
  }

  /** The answer "B" picks the second of two options. */
  lemma LetterAnswerPicksSecond(options: seq<string>)
    requires |options| == 2
    ensures CorrectAnswer(JStr("B"), options) == options[1]
  {
    AnswerBIsLabel();
  }

  /** A bracketed option is cleaned to its text. */
  lemma BracketedOptionText(c: char, w: string)
    requires IsToken(c) && Plain(w)
    ensures OptionText(JStr(Bracketed(c, w))) == w
  {
    PassCutsParenLabel(c, w);
    OptionTextOfString(Bracketed(c, w));
  }

  /** The answer "B" reads as the label of the second option. */
  lemma AnswerBIsLabel()
    ensures LabelToIndex(AnswerText(JStr("B"))) == Some(1)
  {
    LetterAnswerIsLabel('B');
  }

  /** A one-letter answer reads as that letter's label. */
  lemma LetterAnswerIsLabel(c: char)
    requires IsLetter(c)
    ensures LabelToIndex(AnswerText(JStr([c]))) == Some(LetterIndex(c))
  {
    LetterLabelRoundTrip(false, c, false, "");
    assert Decorated(false, [c], false, "") == [c];
    assert AnswerText(JStr([c])) == [c] by { StripOfStripped([c]); }
  }

  /** The answer "1" reads as the label of the first option. */
  lemma AnswerOneIsLabel()
    ensures LabelToIndex(AnswerText(JStr("1"))) == Some(0)
  {
    NumberLabelRoundTrip(false, 1, false, "");
    assert Decorated(false, NatToString(1), false, "") == "1";
    assert AnswerText(JStr("1")) == "1" by { StripOfStripped("1"); }
  }

  // ---------------------------------------------------------------------------
  // The normaliser as the source runs it

  /** One round of the loop of `_normalize_option_text`: the two substitutions, each stripped. */
  method StripLabelOnce(t: string) returns (r: string)
    ensures r == Pass(t)
    ensures Stripped(t) ==> IsSuffix(r, t)
  {
    r := Strip(CutPrefix(t, ParenPrefixEnd(t)));
    r := Strip(CutPrefix(r, PunctPrefixEnd(r)));
    if Stripped(t) {
      PassIsSuffix(t);
    }
  }

  /** The loop of `_normalize_option_text`: at most three stripping passes, stopping early. */
  method StripLabelPasses(t: string) returns (r: string)
    ensures r == Passes(t, PassLimit)
  {
    r := t;
    for pass := 0 to PassLimit
      invariant Passes(r, PassLimit - pass) == Passes(t, PassLimit)
    {
      var prev := r;
      r := StripLabelOnce(r);
      if r == prev {
        PassesAtFixpoint(prev, PassLimit - pass);
        break;
      }
      PassesStep(prev, PassLimit - pass);
    }
  }

  /** `_normalize_option_text`: the stripped `str(value or "")`, its passes, else the stripped original. */
  method NormalizeOptionText(value: Json) returns (r: string)
    ensures r == OptionText(value)
  {
    var text := Strip(StrOr(value, ""));
    if text == [] {
      return [];
    }
    text := StripLabelPasses(text);
    r := if text != [] then text else Strip(ToStr(value));
  }

  /** `_normalize_script`: one pass over the decoded list, appending each surviving item. */
  method NormalizeScript(items: seq<Json>) returns (out: Script)
    ensures out == Normalized(items)
  {
    out := [];
    for i := 0 to |items|
      invariant out == Survivors(items[..i])
    {
      var it := items[i];
      assert items[..i + 1][..i] == items[..i];
      if !it.JObject? {
        continue;
      }
      var obj := it.fields;
      var t := Strip(StrOr(Get(obj, "type"), ""));
      if t == "sub_head" {
        var title := Strip(StrOr(Get(obj, "title"), ""));
        if title != [] {
          out := out + [SubHead(title)];
        }
      } else if t == "dialogue" {
        var speaker := Strip(StrOr(Get(obj, "speaker"), Narrator));
        var text := Strip(StrOr(Get(obj, "text"), ""));
        var emotion := ClampEmotion(Get(obj, "emotion"));
        if text != [] {
          out := out + [Dialogue(speaker, text, emotion)];
        }
      } else if t == "quiz" {
        var q := Strip(StrOr(Get(obj, "question"), ""));
        var opts := Get(obj, "options");
        if !(q != [] && opts.JList? && |opts.items| >= 2) {
          continue;
        }
        var opts2 := OptionTexts(opts.items);
        var correct := CorrectAnswer(Get(obj, "correct_answer"), opts2);
        var explanation := Strip(StrOr(Get(obj, "explanation"), ""));
        out := out + [Quiz(q, opts2, correct,
                           Strip(StrOr(Get(obj, "feedback_correct"), DefaultFeedbackCorrect)),
                           Strip(StrOr(Get(obj, "feedback_wrong"), DefaultFeedbackWrong)),
                           explanation, ClampEmotion(Get(obj, "emotion")))];
      } else if t == "choice" {
        var prompt := Strip(StrOr(Or(Get(obj, "prompt"), Get(obj, "question")), DefaultChoicePrompt));
        var opts := Get(obj, "options");
        if !(opts.JList? && |opts.items| >= 2) {
          continue;
        }
        var explanation := Strip(StrOr(Get(obj, "explanation"), ""));
        var opts2 := OptionTexts(opts.items);
        out := out + [Choice(prompt, opts2, ClampEmotion(Get(obj, "emotion")), explanation)];
      }
    }
    assert items[..|items|] == items;
    if out == [] {
      out := FallbackScript(NothingSurvivedMessage, -1, "");
    }
  }
}
