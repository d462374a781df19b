/**
  Enumerator prefixes and answer labels. Options arrive as "A. text", "(2) text"
  or "C、text"; the normaliser strips such prefixes, and reads a quiz's
  `correct_answer` as a letter or number label when it is one.

  The regular expressions of the source are written here as matchers over
  positions of the string. Each one is greedy. After every `\s*` the pattern
  needs a non-space character, and a second digit is never a character the
  pattern accepts after the first digit, so backtracking cannot change the
  match and the greedy reading is the regex's.
*/
module OptionLabels {
  import opened Wrappers
  import opened Text
  import opened Json

  predicate IsOpenParen(c: char) {
    c == '(' || c == '（'
  }

  predicate IsCloseParen(c: char) {
    c == ')' || c == '）'
  }

  /** The punctuation class `[\.\)、,:：]` that may follow a label. */
  predicate IsLabelPunct(c: char) {
    c == '.' || c == ')' || c == '、' || c == ',' || c == ':' || c == '：'
  }

  /** End of the enumerator `(?:[A-Za-z]|\d{1,2})` starting at `i`, if there is one. */
  function TokenEnd(s: string, i: nat): (r: Option<nat>)
    requires i <= |s|
    ensures r.Some? ==> i < r.value <= |s| && r.value <= i + 2
    ensures r.Some? <==> i < |s| && (IsLetter(s[i]) || IsDigit(s[i]))
  {
    if i < |s| && IsLetter(s[i]) then Some(i + 1)
    else if i < |s| && IsDigit(s[i]) then
      (if i + 1 < |s| && IsDigit(s[i + 1]) then Some(i + 2) else Some(i + 1))
    else None
  }

  /** End of a match of `^\s*[（(]\s*(?:[A-Za-z]|\d{1,2})\s*[）)]\s*` at the start of `s`. */
  function ParenPrefixEnd(s: string): (r: Option<nat>)
    ensures r.Some? ==> 0 < r.value <= |s|
  {
    var i := SkipSpaces(s, 0);
    if i < |s| && IsOpenParen(s[i]) then
      match TokenEnd(s, SkipSpaces(s, i + 1))
      case None => None
      case Some(k) =>
        var l := SkipSpaces(s, k);
        if l < |s| && IsCloseParen(s[l]) then Some(SkipSpaces(s, l + 1)) else None
    else None
  }

  /** End of a match of `^\s*(?:[A-Za-z]|\d{1,2})\s*[\.\)、,:：]\s*` at the start of `s`. */
  function PunctPrefixEnd(s: string): (r: Option<nat>)
    ensures r.Some? ==> 0 < r.value <= |s|
  {
    match TokenEnd(s, SkipSpaces(s, 0))
    case None => None
    case Some(k) =>
      var l := SkipSpaces(s, k);
      if l < |s| && IsLabelPunct(s[l]) then Some(SkipSpaces(s, l + 1)) else None
  }

  /** `re.sub` of a start-anchored pattern: the match, if any, is cut off. */
  function CutPrefix(s: string, m: Option<nat>): (r: string)
    requires m.Some? ==> m.value <= |s|
  {
    if m.Some? then s[m.value..] else s
  }

  /** One pass of the prefix-stripping loop: the bracketed prefix, then the punctuated one. */
  function Pass(t: string): (r: string)
    ensures Stripped(r)
  {
    var u := Strip(CutPrefix(t, ParenPrefixEnd(t)));
    Strip(CutPrefix(u, PunctPrefixEnd(u)))
  }

  /**
    At most `n` passes, stopping after the first one that changes nothing.
    On a stripped option the result is a suffix of it: passes only ever
    remove characters from the front.
  */
  function Passes(t: string, n: nat): (r: string)
    ensures r == t || Stripped(r)
    ensures Stripped(t) ==> IsSuffix(r, t)
    decreases n
  {
    if n == 0 then t
    else
      var t' := Pass(t);
      if t' == t then t
      else
        var r := Passes(t', n - 1);
        if Stripped(t) then PassIsSuffix(t); SuffixTrans(r, t', t); r else r
  }

  /** How many stripping passes `_normalize_option_text` makes at most. */
  const PassLimit: nat := 3

  /**
    `_normalize_option_text` on a string value: the trimmed text with at most
    three passes of prefix stripping; when stripping leaves nothing, the
    trimmed text itself. The result is a stripped suffix of the trimmed
    text (only a leading enumerator is ever removed), and it is empty only
    when the text was blank.
  */
  function CleanOption(s: string): (r: string)
    ensures Stripped(r) && IsSuffix(r, Strip(s))
    ensures r == [] <==> Strip(s) == []
    ensures Passes(Strip(s), PassLimit) != [] ==> r == Passes(Strip(s), PassLimit)
    ensures Strip(s) != [] && Passes(Strip(s), PassLimit) == [] ==> r == Strip(s)
  {
    var t := Strip(s);
    if t == [] then []
    else
      var c := Passes(t, PassLimit);
      if c == [] then t else c
  }

  /** `_normalize_option_text` on any decoded value: `str(value or "")` first. */
  function OptionText(v: Json): (r: string)
    ensures Stripped(r)
    ensures !Truthy(v) ==> r == []
  {
    CleanOption(StrOr(v, ""))
  }

  /** A non-empty string value is cleaned as it is. */
  lemma OptionTextOfString(x: string)
    requires x != []
    ensures OptionText(JStr(x)) == CleanOption(x)
  {
  }

  /** Cutting a prefix off a stripped string and stripping again leaves a stripped suffix. */
  lemma CutIsSuffix(s: string, m: Option<nat>)
    requires Stripped(s) && (m.Some? ==> m.value <= |s|)
    ensures IsSuffix(Strip(CutPrefix(s, m)), s)
  {
    if m.Some? {
      StripOfSuffix(s, m.value);
    } else {
      StripOfStripped(s);
    }
  }

  lemma SuffixTrans(a: string, b: string, c: string)
    requires IsSuffix(a, b) && IsSuffix(b, c)
    ensures IsSuffix(a, c)
  {
    assert c[|c| - |a|..] == c[|c| - |b|..][|b| - |a|..];
  }

  /** A pass only removes characters from the front of a stripped option. */
  lemma PassIsSuffix(t: string)
    requires Stripped(t)
    ensures IsSuffix(Pass(t), t)
  {
    var u := Strip(CutPrefix(t, ParenPrefixEnd(t)));
    CutIsSuffix(t, ParenPrefixEnd(t));
    CutIsSuffix(u, PunctPrefixEnd(u));
    SuffixTrans(Pass(t), u, t);
  }

  /** Proof helper, the definition of `Passes` unfolded: once a pass changes nothing, further passes change nothing either. */
  lemma {:induction false} PassesAtFixpoint(t: string, n: nat)
    requires Pass(t) == t
    ensures Passes(t, n) == t
  {
  }

  /** Proof helper, the definition of `Passes` unfolded: one pass, then at most `n - 1` more. */
  lemma PassesStep(t: string, n: nat)
    requires n > 0 && Pass(t) != t
    ensures Passes(t, n) == Passes(Pass(t), n - 1)
  {
  }

  /** An option text with no enumerator in front: a pass leaves it alone. */
  predicate Plain(b: string) {
    Stripped(b) && b != [] && ParenPrefixEnd(b).None? && PunctPrefixEnd(b).None?
  }

  /** A one-character enumerator: a letter or a digit. */
  predicate IsToken(c: char) {
    IsLetter(c) || IsDigit(c)
  }

  /** `b` written behind an enumerator such as "A. ", "c) " or "2、". */
  function Labelled(c: char, p: char, b: string): string {
    [c, p, ' '] + b
  }

  lemma PassOfPlain(b: string)
    requires Plain(b)
    ensures Pass(b) == b
  {
    StripOfStripped(b);
  }

  /** Where the prefix patterns stop on an enumerator: no bracket, and the punctuated prefix ends at the text. */
  lemma LabelledPrefixes(c: char, p: char, b: string)
    requires IsToken(c) && IsLabelPunct(p) && Stripped(b) && b != []
    ensures Stripped(Labelled(c, p, b))
    ensures ParenPrefixEnd(Labelled(c, p, b)) == None
    ensures PunctPrefixEnd(Labelled(c, p, b)) == Some(3)
  {
    var s := Labelled(c, p, b);
    assert s[0] == c && s[1] == p && s[2] == ' ' && s[3] == b[0] && s[|s| - 1] == b[|b| - 1];
    assert SkipSpaces(s, 0) == 0;
    assert SkipSpaces(s, 1) == 1;
    assert SkipSpaces(s, 3) == 3;
    assert SkipSpaces(s, 2) == 3;
  }

  /** One pass removes exactly one leading letter or digit enumerator. */
  lemma PassCutsLabel(c: char, p: char, b: string)
    requires IsToken(c) && IsLabelPunct(p) && Stripped(b) && b != []
    ensures Stripped(Labelled(c, p, b))
    ensures Pass(Labelled(c, p, b)) == b
  {
    var s := Labelled(c, p, b);
    LabelledPrefixes(c, p, b);
    StripOfStripped(s);
    assert s[3..] == b;
    StripOfStripped(b);
  }

  /** Cleaning an enumerated option gives back the option's own text. */
  lemma CleanOptionRemovesLabel(c: char, p: char, b: string)
    requires IsToken(c) && IsLabelPunct(p) && Plain(b)
    ensures CleanOption(Labelled(c, p, b)) == b
  {
    var s := Labelled(c, p, b);
    PassCutsLabel(c, p, b);
    StripOfStripped(s);
    PassesStep(s, 3);
    PassOfPlain(b);
    PassesAtFixpoint(b, 2);
  }

  /**
    Cleaning is not idempotent: with four enumerators in front, the three
    passes leave the last one, and cleaning again removes it.
  */
  lemma CleanOptionNotIdempotent(c1: char, c2: char, c3: char, c4: char, p: char, b: string)
    requires IsLetter(c1) && IsLetter(c2) && IsLetter(c3) && IsLetter(c4)
    requires IsLabelPunct(p) && Plain(b)
    ensures var s := Labelled(c1, p, Labelled(c2, p, Labelled(c3, p, Labelled(c4, p, b))));
      && CleanOption(s) == Labelled(c4, p, b)
      && CleanOption(CleanOption(s)) == b
      && CleanOption(CleanOption(s)) != CleanOption(s)
  {
    var s4 := Labelled(c4, p, b);
    var s3 := Labelled(c3, p, s4);
    var s2 := Labelled(c2, p, s3);
    var s1 := Labelled(c1, p, s2);
    PassCutsLabel(c4, p, b);
    PassCutsLabel(c3, p, s4);
    PassCutsLabel(c2, p, s3);
    PassCutsLabel(c1, p, s2);
    StripOfStripped(s1);
    PassesStep(s1, 3);
    PassesStep(s2, 2);
    PassesStep(s3, 1);
    CleanOptionRemovesLabel(c4, p, b);
  }

  /** `b` written behind a two-digit enumerator such as "12. ". */
  function Labelled2(d1: char, d2: char, p: char, b: string): string {
    [d1, d2, p, ' '] + b
  }

  /** One pass removes a leading two-digit enumerator whole. */
  lemma PassCutsTwoDigitLabel(d1: char, d2: char, p: char, b: string)
    requires IsDigit(d1) && IsDigit(d2) && IsLabelPunct(p) && Stripped(b) && b != []
    ensures Stripped(Labelled2(d1, d2, p, b))
    ensures Pass(Labelled2(d1, d2, p, b)) == b
  {
    var s := Labelled2(d1, d2, p, b);
    assert s[0] == d1 && s[1] == d2 && s[2] == p && s[3] == ' ' && s[4] == b[0] && s[|s| - 1] == b[|b| - 1];
    assert SkipSpaces(s, 0) == 0;
    assert ParenPrefixEnd(s) == None;
    assert SkipSpaces(s, 2) == 2;
    assert SkipSpaces(s, 4) == 4;
    assert SkipSpaces(s, 3) == 4;
    assert PunctPrefixEnd(s) == Some(4);
    StripOfStripped(s);
    assert s[4..] == b;
    StripOfStripped(b);
  }

  /** `b` written behind a bracketed enumerator such as "(A) " or "(2) ". */
  function Bracketed(c: char, b: string): string {
    ['(', c, ')', ' '] + b
  }

  /** Where the bracketed pattern stops on a bracketed enumerator: at the text. */
  lemma BracketedPrefix(c: char, b: string)
    requires IsToken(c) && Stripped(b) && b != []
    ensures Stripped(Bracketed(c, b))
    ensures ParenPrefixEnd(Bracketed(c, b)) == Some(4)
  {
    var s := Bracketed(c, b);
    assert s[0] == '(' && s[1] == c && s[2] == ')' && s[3] == ' ' && s[4] == b[0] && s[|s| - 1] == b[|b| - 1];
    assert SkipSpaces(s, 0) == 0;
    assert SkipSpaces(s, 1) == 1;
    assert SkipSpaces(s, 2) == 2;
    assert SkipSpaces(s, 4) == 4;
    assert SkipSpaces(s, 3) == 4;
  }

  /** An option with no enumerator in front is cleaned to itself. */
  lemma CleanOptionOfPlain(b: string)
    requires Plain(b)
    ensures CleanOption(b) == b
  {
    StripOfStripped(b);
    PassOfPlain(b);
    PassesAtFixpoint(b, PassLimit);
  }

  /** One pass removes a bracketed enumerator, and cleaning gives back the option's text. */
  lemma PassCutsParenLabel(c: char, b: string)
    requires IsToken(c) && Plain(b)
    ensures Pass(Bracketed(c, b)) == b
    ensures CleanOption(Bracketed(c, b)) == b
  {
    var s := Bracketed(c, b);
    BracketedPrefix(c, b);
    assert s[4..] == b;
    StripOfStripped(b);
    StripOfStripped(s);
    PassesStep(s, PassLimit);
    PassOfPlain(b);
    PassesAtFixpoint(b, PassLimit - 1);
  }

  /** An option that is nothing but an enumerator, such as "A.", is kept whole: stripping would leave nothing. */
  lemma CleanOptionKeepsBareLabel(c: char, p: char)
    requires IsToken(c) && IsLabelPunct(p)
    ensures CleanOption([c, p]) == [c, p]
  {
    var s := [c, p];
    assert SkipSpaces(s, 0) == 0;
    assert SkipSpaces(s, 1) == 1;
    assert SkipSpaces(s, 2) == 2;
    assert ParenPrefixEnd(s) == None;
    assert PunctPrefixEnd(s) == Some(2);
    assert s[2..] == [];
    StripOfStripped(s);
    assert Pass(s) == [];
    PassesStep(s, PassLimit);
    assert Pass([]) == [];
    PassesAtFixpoint([], PassLimit - 1);
  }

  // ---------------------------------------------------------------------------
  // Labels

  /** After the label's token at `i`: `\s*[）)]?[\.\)、,:：]?\s*` reaches the end of `s`. */
  predicate LabelTailAt(s: string, i: nat)
    requires i <= |s|
  {
    var j := SkipSpaces(s, i);
    var j1 := if j < |s| && IsCloseParen(s[j]) then j + 1 else j;
    var j2 := if j1 < |s| && IsLabelPunct(s[j1]) then j1 + 1 else j1;
    SkipSpaces(s, j2) == |s|
  }

  /** Before position `i`: spaces, after at most one opening bracket at the very start. */
  predicate LabelLead(s: string, i: nat)
    requires i <= |s|
  {
    forall j :: 0 <= j < i ==> IsSpace(s[j]) || (j == 0 && IsOpenParen(s[j]))
  }

  /** From position `i` on: only spaces, closing brackets and label punctuation. */
  predicate LabelTrail(s: string, i: nat)
    requires i <= |s|
  {
    forall j :: i <= j < |s| ==> IsSpace(s[j]) || IsCloseParen(s[j]) || IsLabelPunct(s[j])
  }

  /** `s` is a letter at `i` with only label decoration around it, and `v` is the letter's position. */
  predicate LetterShaped(s: string, i: nat, v: int) {
    i < |s| && IsLetter(s[i]) && v == LetterIndex(s[i]) && LabelLead(s, i) && LabelTrail(s, i + 1)
  }

  /** `s` is a number of `w` digits at `i` with only label decoration around it, and `v` is the number minus one. */
  predicate NumberShaped(s: string, i: nat, w: nat, v: int) {
    (w == 1 || w == 2) && i + w <= |s| && AllDigits(s[i..i + w])
    && v == DigitsValue(s[i..i + w]) - 1 && LabelLead(s, i) && LabelTrail(s, i + w)
  }

  /** Where the token of a label starts: after an optional opening bracket and spaces. */
  function LabelStart(s: string): (i: nat)
    ensures i <= |s|
  {
    SkipSpaces(s, if 0 < |s| && IsOpenParen(s[0]) then 1 else 0)
  }

  /** What comes before the token is decoration only. */
  lemma LabelStartLead(s: string)
    ensures LabelLead(s, LabelStart(s))
  {
  }

  /** What the tail pattern accepts is decoration only. */
  lemma TailIsTrail(s: string, i: nat)
    requires i <= |s| && LabelTailAt(s, i)
    ensures LabelTrail(s, i)
  {
  }

  /** One digit at `i` with only decoration around it. */
  lemma OneDigitShape(s: string, i: nat)
    requires i < |s| && IsDigit(s[i]) && LabelLead(s, i) && LabelTailAt(s, i + 1)
    ensures NumberShaped(s, i, 1, DigitValue(s[i]) - 1)
  {
    TailIsTrail(s, i + 1);
    assert s[i..i + 1] == [s[i]];
    DigitsValueSingle(s[i]);
  }

  /** Two digits at `i` with only decoration around them. */
  lemma TwoDigitShape(s: string, i: nat)
    requires i + 1 < |s| && IsDigit(s[i]) && IsDigit(s[i + 1]) && LabelLead(s, i) && LabelTailAt(s, i + 2)
    ensures NumberShaped(s, i, 2, DigitValue(s[i]) * 10 + DigitValue(s[i + 1]) - 1)
  {
    TailIsTrail(s, i + 2);
    assert s[i..i + 2] == [s[i], s[i + 1]];
    DigitsValuePair(s[i], s[i + 1]);
  }

  /** A one-digit number label: its digit, with only decoration around it. */
  lemma OneDigitLabelShape(s: string)
    requires var i := LabelStart(s); i < |s| && IsDigit(s[i]) && !(i + 1 < |s| && IsDigit(s[i + 1]))
    requires NumberLabel(s).Some?
    ensures NumberShaped(s, LabelStart(s), 1, NumberLabel(s).value)
  {
    var i := LabelStart(s);
    assert LabelTailAt(s, i + 1) && NumberLabel(s).value == DigitValue(s[i]) - 1;
    LabelStartLead(s);
    OneDigitShape(s, i);
  }

  /** A two-digit number label: its digits, with only decoration around them. */
  lemma TwoDigitLabelShape(s: string)
    requires var i := LabelStart(s); i + 1 < |s| && IsDigit(s[i]) && IsDigit(s[i + 1])
    requires NumberLabel(s).Some?
    ensures NumberShaped(s, LabelStart(s), 2, NumberLabel(s).value)
  {
    var i := LabelStart(s);
    assert LabelTailAt(s, i + 2) && NumberLabel(s).value == DigitValue(s[i]) * 10 + DigitValue(s[i + 1]) - 1;
    LabelStartLead(s);
    TwoDigitShape(s, i);
  }

  /**
    `re.fullmatch(r"[（(]?\s*([A-Za-z])\s*[）)]?[\.\)、,:：]?\s*", s)`, giving the
    letter's index. A match is one letter with nothing but label decoration
    around it, so any other text gives nothing.
  */
  function LetterLabel(s: string): (r: Option<int>)
    ensures r.Some? ==> 0 <= r.value < 26
  {
    var i := LabelStart(s);
    if i < |s| && IsLetter(s[i]) && LabelTailAt(s, i + 1) then Some(LetterIndex(s[i])) else None
  }

  /** A letter label is one letter with nothing but label decoration around it. */
  lemma LetterLabelShape(s: string)
    ensures LetterLabel(s).Some? ==> LetterShaped(s, LabelStart(s), LetterLabel(s).value)
  {
    if LetterLabel(s).Some? {
      LabelStartLead(s);
      TailIsTrail(s, LabelStart(s) + 1);
    }
  }

  /**
    `re.fullmatch(r"[（(]?\s*(\d{1,2})\s*[）)]?[\.\)、,:：]?\s*", s)`, giving the
    number minus one. A match is one or two digits with nothing but label
    decoration around them, so any other text gives nothing.
  */
  function NumberLabel(s: string): (r: Option<int>)
    ensures r.Some? ==> -1 <= r.value < 99
  {
    var i := LabelStart(s);
    if i < |s| && IsDigit(s[i]) then
      if i + 1 < |s| && IsDigit(s[i + 1]) then
        (if LabelTailAt(s, i + 2) then Some(DigitValue(s[i]) * 10 + DigitValue(s[i + 1]) - 1) else None)
      else
        (if LabelTailAt(s, i + 1) then Some(DigitValue(s[i]) - 1) else None)
    else None
  }

  /** A number label is one or two digits with nothing but label decoration around them. */
  lemma NumberLabelShape(s: string)
    ensures var r := NumberLabel(s); r.Some? ==>
      NumberShaped(s, LabelStart(s), 1, r.value) || NumberShaped(s, LabelStart(s), 2, r.value)
  {
    var i := LabelStart(s);
    if NumberLabel(s).Some? {
      if i + 1 < |s| && IsDigit(s[i + 1]) {
        TwoDigitLabelShape(s);
      } else {
        OneDigitLabelShape(s);
      }
    }
  }

  /**
    `_option_label_to_index`: a lone letter (case-insensitive) gives its
    alphabet position and a one- or two-digit number gives that number minus
    one, either optionally bracketed and followed by one punctuation mark;
    anything else gives nothing.
  */
  function LabelToIndex(text: string): (r: Option<int>)
    ensures r.Some? ==> -1 <= r.value < 99
    ensures Strip(text) == [] ==> r.None?
  {
    var s := Strip(text);
    if s == [] then None
    else if LetterLabel(s).Some? then LetterLabel(s)
    else NumberLabel(s)
  }

  /**
    A label is one letter, or one or two digits, with nothing but label
    decoration around it: any other text gives no index.
  */
  lemma LabelToIndexShape(text: string)
    ensures var s := Strip(text); var r := LabelToIndex(text); r.Some? ==>
      LetterShaped(s, LabelStart(s), r.value)
      || NumberShaped(s, LabelStart(s), 1, r.value) || NumberShaped(s, LabelStart(s), 2, r.value)
  {
    LetterLabelShape(Strip(text));
    NumberLabelShape(Strip(text));
  }

  /** A character a label may carry around its letter or number. */
  predicate IsDecoration(c: char) {
    IsSpace(c) || IsOpenParen(c) || IsCloseParen(c) || IsLabelPunct(c)
  }

  /**
    The characters of a label: letters, digits and decoration only, and
    the one letter, if any, is where the token starts.
  */
  lemma LabelChars(text: string)
    ensures var s := Strip(text); LabelToIndex(text).Some? ==>
      && (forall k :: 0 <= k < |s| ==> IsLetter(s[k]) || IsDigit(s[k]) || IsDecoration(s[k]))
      && (forall k :: 0 <= k < |s| && IsLetter(s[k]) ==> k == LabelStart(s))
  {
    var s := Strip(text);
    LabelToIndexShape(text);
    if LabelToIndex(text).Some? {
      ShapeChars(s, LabelStart(s), LabelToIndex(text).value);
    }
  }

  lemma ShapeChars(s: string, i: nat, v: int)
    requires LetterShaped(s, i, v) || NumberShaped(s, i, 1, v) || NumberShaped(s, i, 2, v)
    ensures forall k :: 0 <= k < |s| ==> IsLetter(s[k]) || IsDigit(s[k]) || IsDecoration(s[k])
    ensures forall k :: 0 <= k < |s| && IsLetter(s[k]) ==> k == i
  {
    if LetterShaped(s, i, v) {
      LetterShapeChars(s, i, v);
    } else if NumberShaped(s, i, 1, v) {
      NumberShapeChars(s, i, 1, v);
    } else {
      NumberShapeChars(s, i, 2, v);
    }
  }

  lemma LetterShapeChars(s: string, i: nat, v: int)
    requires LetterShaped(s, i, v)
    ensures forall k :: 0 <= k < |s| ==> IsLetter(s[k]) || IsDecoration(s[k])
    ensures forall k :: 0 <= k < |s| && IsLetter(s[k]) ==> k == i
  {
  }

  lemma NumberShapeChars(s: string, i: nat, w: nat, v: int)
    requires NumberShaped(s, i, w, v)
    ensures forall k :: 0 <= k < |s| ==> IsDigit(s[k]) || IsDecoration(s[k])
  {
    forall k | i <= k < i + w
      ensures IsDigit(s[k])
    {
      assert s[i..i + w][k - i] == s[k];
    }
  }

  /** Text holding any character other than a letter, a digit or label decoration is no label. */
  lemma ForeignCharNoLabel(text: string, k: nat)
    requires k < |Strip(text)|
    requires var c := Strip(text)[k]; !IsLetter(c) && !IsDigit(c) && !IsDecoration(c)
    ensures LabelToIndex(text).None?
  {
    LabelChars(text);
  }

  /** Text with two letters is no label: a label has exactly one letter or one number. */
  lemma TwoLettersNoLabel(text: string, k1: nat, k2: nat)
    requires k1 < k2 < |Strip(text)| && IsLetter(Strip(text)[k1]) && IsLetter(Strip(text)[k2])
    ensures LabelToIndex(text).None?
  {
    LabelChars(text);
  }

  /** The forms a model writes a label in: bare, bracketed, or followed by punctuation. */
  function Decorated(open: bool, token: string, close: bool, punct: string): string {
    (if open then "(" else "") + token + (if close then ")" else "") + punct
  }

  predicate PunctSuffix(p: string) {
    p == [] || (|p| == 1 && IsLabelPunct(p[0]))
  }

  lemma DecoratedTail(s: string, i: nat, close: bool, punct: string)
    requires PunctSuffix(punct)
    requires i <= |s| && s[i..] == (if close then ")" else "") + punct
    ensures LabelTailAt(s, i)
  {
    var rest := s[i..];
    if i < |s| {
      assert s[i] == rest[0];
      assert !IsSpace(s[i]);
    }
    assert SkipSpaces(s, i) == i;
    if close {
      assert s[i] == ')';
      if punct != [] {
        assert s[i + 1] == punct[0];
        assert SkipSpaces(s, i + 2) == i + 2;
      }
    } else if punct != [] {
      assert s[i] == punct[0];
      assert SkipSpaces(s, i + 1) == i + 1;
    }
  }

  /** The shape of a decorated label: where its token sits and that it has no outer spaces. */
  lemma DecoratedFacts(open: bool, token: string, close: bool, punct: string)
    requires token != [] && !IsSpace(token[0]) && !IsOpenParen(token[0]) && !IsSpace(token[|token| - 1])
    requires PunctSuffix(punct)
    ensures var s := Decorated(open, token, close, punct);
      var i := if open then 1 else 0;
      && Stripped(s)
      && LabelStart(s) == i
      && i + |token| <= |s|
      && s[i..i + |token|] == token
      && s[i + |token|..] == (if close then ")" else "") + punct
  {
    var tail := (if close then ")" else "") + punct;
    var s := Decorated(open, token, close, punct);
    var i := if open then 1 else 0;
    assert s == (if open then "(" else "") + token + tail;
    assert s[i] == token[0];
    assert s[i..i + |token|] == token;
    assert s[|s| - 1] == token[|token| - 1] || s[|s| - 1] == ')' || s[|s| - 1] == punct[0];
  }

  /** A decorated letter label matches the letter pattern, giving the letter's position. */
  lemma LetterLabelDecorated(open: bool, c: char, close: bool, punct: string)
    requires IsLetter(c) && PunctSuffix(punct)
    ensures Stripped(Decorated(open, [c], close, punct))
    ensures LetterLabel(Decorated(open, [c], close, punct)) == Some(LetterIndex(c))
  {
    var s := Decorated(open, [c], close, punct);
    var i := if open then 1 else 0;
    DecoratedFacts(open, [c], close, punct);
    assert s[i] == c by { assert s[i..i + 1][0] == s[i]; }
    DecoratedTail(s, i + 1, close, punct);
  }

  /** Every decorated letter label reads back as its alphabet position, in either case. */
  lemma LetterLabelRoundTrip(open: bool, c: char, close: bool, punct: string)
    requires IsLetter(c) && PunctSuffix(punct)
    ensures LabelToIndex(Decorated(open, [c], close, punct)) == Some(LetterIndex(c))
  {
    LetterLabelDecorated(open, c, close, punct);
    StripOfStripped(Decorated(open, [c], close, punct));
  }

  lemma NumberLabelOneDigit(s: string, i: nat, n: nat, close: bool, punct: string)
    requires 1 <= n < 10 && PunctSuffix(punct)
    requires i < |s| && LabelStart(s) == i && s[i] == DigitChar(n)
    requires s[i + 1..] == (if close then ")" else "") + punct
    ensures NumberLabel(s) == Some(n - 1)
  {
    if i + 1 < |s| {
      assert s[i + 1] == s[i + 1..][0];
    }
    DecoratedTail(s, i + 1, close, punct);
  }

  lemma NumberLabelTwoDigits(s: string, i: nat, n: nat, close: bool, punct: string)
    requires 10 <= n < 100 && PunctSuffix(punct)
    requires i + 1 < |s| && LabelStart(s) == i && s[i] == DigitChar(n / 10) && s[i + 1] == DigitChar(n % 10)
    requires s[i + 2..] == (if close then ")" else "") + punct
    ensures NumberLabel(s) == Some(n - 1)
  {
    DecoratedTail(s, i + 2, close, punct);
  }

  /** The token of a decorated number label sits after the optional bracket. */
  lemma NumberTokenAt(open: bool, n: nat, close: bool, punct: string)
    requires 1 <= n < 100 && PunctSuffix(punct)
    ensures var d := NatToString(n);
      var s := Decorated(open, d, close, punct);
      var i := if open then 1 else 0;
      && Stripped(s) && LabelStart(s) == i && i + |d| <= |s|
      && s[i..i + |d|] == d && s[i + |d|..] == (if close then ")" else "") + punct
  {
    var d := NatToString(n);
    assert IsDigit(d[0]) && IsDigit(d[|d| - 1]);
    DecoratedFacts(open, d, close, punct);
  }

  lemma NumberLabelDecoratedOne(open: bool, n: nat, close: bool, punct: string)
    requires 1 <= n < 10 && PunctSuffix(punct)
    ensures LetterLabel(Decorated(open, NatToString(n), close, punct)).None?
    ensures NumberLabel(Decorated(open, NatToString(n), close, punct)) == Some(n - 1)
  {
    var s := Decorated(open, NatToString(n), close, punct);
    var i := if open then 1 else 0;
    assert NatToString(n) == [DigitChar(n)];
    NumberTokenAt(open, n, close, punct);
    assert s[i] == DigitChar(n) by { assert s[i..i + 1][0] == s[i]; }
    assert !IsLetter(s[i]);
    NumberLabelOneDigit(s, i, n, close, punct);
  }

  lemma NumberLabelDecoratedTwo(open: bool, n: nat, close: bool, punct: string)
    requires 10 <= n < 100 && PunctSuffix(punct)
    ensures LetterLabel(Decorated(open, NatToString(n), close, punct)).None?
    ensures NumberLabel(Decorated(open, NatToString(n), close, punct)) == Some(n - 1)
  {
    var d := NatToString(n);
    var s := Decorated(open, d, close, punct);
    var i := if open then 1 else 0;
    assert NatToString(n / 10) == [DigitChar(n / 10)];
    assert d == [DigitChar(n / 10), DigitChar(n % 10)];
    NumberTokenAt(open, n, close, punct);
    assert s[i] == d[0] && s[i + 1] == d[1] by { assert s[i..i + 2][0] == s[i] && s[i..i + 2][1] == s[i + 1]; }
    NumberLabelTwoDigits(s, i, n, close, punct);
  }

  /** A decorated number label matches the number pattern, and not the letter one. */
  lemma NumberLabelDecorated(open: bool, n: nat, close: bool, punct: string)
    requires 1 <= n < 100 && PunctSuffix(punct)
    ensures Stripped(Decorated(open, NatToString(n), close, punct))
    ensures LetterLabel(Decorated(open, NatToString(n), close, punct)).None?
    ensures NumberLabel(Decorated(open, NatToString(n), close, punct)) == Some(n - 1)
  {
    NumberTokenAt(open, n, close, punct);
    if n < 10 {
      NumberLabelDecoratedOne(open, n, close, punct);
    } else {
      NumberLabelDecoratedTwo(open, n, close, punct);
    }
  }

  /** Every decorated number label from 1 to 99 reads back as the number minus one. */
  lemma NumberLabelRoundTrip(open: bool, n: nat, close: bool, punct: string)
    requires 1 <= n < 100 && PunctSuffix(punct)
    ensures LabelToIndex(Decorated(open, NatToString(n), close, punct)) == Some(n - 1)
  {
    NumberLabelDecorated(open, n, close, punct);
    StripOfStripped(Decorated(open, NatToString(n), close, punct));
  }
}
