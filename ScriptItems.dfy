/**
  The playable items a script is made of: section headers, dialogue lines,
  quizzes and free choices, each with the fields the player reads. The emotion
  of a line is one of the four character portraits.
*/
module ScriptItems {
  import opened Text
  import opened Json

  datatype Emotion = Normal | Happy | Angry | Shy

  /** The portrait key that names an emotion in a script. */
  function EmotionKey(e: Emotion): string {
    match e
    case Normal => "char_normal"
    case Happy => "char_happy"
    case Angry => "char_angry"
    case Shy => "char_shy"
  }

  /**
    `_clamp_emotion`: `str(emotion or "char_normal").strip()` kept when it names
    a portrait, and `char_normal` otherwise.
  */
  function ClampEmotion(v: Json): (e: Emotion)
    ensures e != Normal ==> EmotionKey(e) == Strip(StrOr(v, "char_normal"))
    ensures (forall k: Emotion :: EmotionKey(k) != Strip(StrOr(v, "char_normal"))) ==> e == Normal
    ensures forall k: Emotion :: EmotionKey(k) == Strip(StrOr(v, "char_normal")) ==> e == k
  {
    var key := Strip(StrOr(v, "char_normal"));
    if key == "char_happy" then Happy
    else if key == "char_angry" then Angry
    else if key == "char_shy" then Shy
    else Normal
  }

  /** A missing emotion, `null`, or an empty string all clamp to the normal portrait. */
  lemma ClampMissing(v: Json)
    requires !Truthy(v)
    ensures ClampEmotion(v) == Normal
  {
  }

  /** Writing an emotion's key back into a script reads back the same emotion. */
  lemma ClampRoundTrip(e: Emotion)
    ensures ClampEmotion(JStr(EmotionKey(e))) == e
  {
    match e
    case Normal =>
    case Happy => assert Strip("char_happy") == "char_happy" by { StripOfStripped("char_happy"); }
    case Angry => assert Strip("char_angry") == "char_angry" by { StripOfStripped("char_angry"); }
    case Shy => assert Strip("char_shy") == "char_shy" by { StripOfStripped("char_shy"); }
  }

  /** Clamping is idempotent. */
  lemma ClampIdempotent(v: Json)
    ensures ClampEmotion(JStr(EmotionKey(ClampEmotion(v)))) == ClampEmotion(v)
  {
    ClampRoundTrip(ClampEmotion(v));
  }

  datatype Item =
    | SubHead(title: string)
    | Dialogue(speaker: string, text: string, emotion: Emotion)
    | Quiz(question: string, options: seq<string>, correctAnswer: string,
           feedbackCorrect: string, feedbackWrong: string, explanation: string, emotion: Emotion)
    | Choice(prompt: string, options: seq<string>, emotion: Emotion, explanation: string)

  /** The script generated for one chunk. */
  type Script = seq<Item>

  predicate AllStripped(xs: seq<string>) {
    forall k :: 0 <= k < |xs| ==> Stripped(xs[k])
  }

  /** The required fields of each kind of item, as the normaliser guarantees them. */
  predicate WellFormed(item: Item) {
    match item
    case SubHead(title) => title != [] && Stripped(title)
    case Dialogue(speaker, text, _) => text != [] && Stripped(text) && Stripped(speaker)
    case Quiz(q, opts, answer, fc, fw, expl, _) =>
      q != [] && Stripped(q) && |opts| >= 2 && AllStripped(opts) && Stripped(answer)
      && Stripped(fc) && Stripped(fw) && Stripped(expl)
    case Choice(prompt, opts, _, expl) =>
      |opts| >= 2 && AllStripped(opts) && Stripped(prompt) && Stripped(expl)
  }

  function StrList(xs: seq<string>): (r: seq<Json>)
    ensures |r| == |xs| && forall k :: 0 <= k < |xs| ==> r[k] == JStr(xs[k])
  {
    seq(|xs|, k requires 0 <= k < |xs| => JStr(xs[k]))
  }

  /** An item written back as the record the model would emit for it. */
  function ToJson(item: Item): (v: Json)
    ensures v.JObject? && "type" in v.fields
    ensures item.SubHead? ==> v.fields["type"] == JStr("sub_head")
    ensures item.Dialogue? ==> v.fields["type"] == JStr("dialogue")
    ensures item.Quiz? ==> v.fields["type"] == JStr("quiz")
    ensures item.Choice? ==> v.fields["type"] == JStr("choice")
  {
    match item
    case SubHead(title) =>
      JObject(map["type" := JStr("sub_head"), "title" := JStr(title)])
    case Dialogue(speaker, text, e) =>
      JObject(map["type" := JStr("dialogue"), "speaker" := JStr(speaker), "text" := JStr(text),
                  "emotion" := JStr(EmotionKey(e))])
    case Quiz(q, opts, answer, fc, fw, expl, e) =>
      JObject(map["type" := JStr("quiz"), "question" := JStr(q), "options" := JList(StrList(opts)),
                  "correct_answer" := JStr(answer), "feedback_correct" := JStr(fc),
                  "feedback_wrong" := JStr(fw), "explanation" := JStr(expl),
                  "emotion" := JStr(EmotionKey(e))])
    case Choice(prompt, opts, e, expl) =>
      JObject(map["type" := JStr("choice"), "prompt" := JStr(prompt), "options" := JList(StrList(opts)),
                  "emotion" := JStr(EmotionKey(e)), "explanation" := JStr(expl)])
  }
}
