/**
 * Recovering a catalogue key from a routine step such as
 * "🟢 10 Kegels (5-10 sec hold)": the exercise details modal tries, in
 * order, a key contained in the text, a key related to the name that follows
 * the leading emoji, a key containing one of the text's capitalised words,
 * and five fixed keyword fallbacks.
 *
 * The emoji pattern is a character class of emoji ranges written without the
 * `u` flag, so it works on UTF-16 code units; its first capture group (a run
 * of ASCII letters and white space, or nothing when the pattern does not
 * match) is a parameter of the model.
 */
module ExerciseName {
  import opened Wrappers
  import opened Text

  /** `Object.keys(exerciseData)` of the modal's own table, in declaration order. */
  const ModalKeys: seq<string> := [
    "Kegel Squeezes", "Kegel", "Kegels", "Box Breathing", "Glute Bridge",
    "Glute Bridges", "Glute Bridge Hold", "Pelvic Tilts", "Mindful Relaxation",
    "Core Tucks", "Hip Thrusts", "Alternate Nostril Breathing",
    "Deep Diaphragmatic Breathing", "Core Engagement", "Core Activation",
    "Simple Stretching", "Self-massage", "Progressive Muscle Relaxation",
    "Yoga Flow", "Bodyweight Squats", "Wall Push-ups", "Hip Hinges"
  ]

  /** `keys[i]` is the first key satisfying `p`. */
  ghost predicate FirstSatisfying(keys: seq<string>, p: string -> bool, i: int) {
    0 <= i < |keys| && p(keys[i]) && forall j :: 0 <= j < i ==> !p(keys[j])
  }

  /** A `for (const exercise of exercises) if (p(exercise)) return exercise` loop:
      the first key satisfying `p`, or `None` when no key does. */
  function FirstKey(keys: seq<string>, p: string -> bool): (r: Option<string>)
    ensures r.None? <==> forall i :: 0 <= i < |keys| ==> !p(keys[i])
    ensures r.Some? ==> r.value in keys
    ensures r.Some? ==> exists i :: FirstSatisfying(keys, p, i) && keys[i] == r.value
  {
    if keys == [] then None
    else if p(keys[0]) then
      assert FirstSatisfying(keys, p, 0);
      Some(keys[0])
    else
      var r := FirstKey(keys[1..], p);
      assert r.Some? ==> exists i :: FirstSatisfying(keys, p, i) && keys[i] == r.value by {
        if r.Some? {
          var i :| FirstSatisfying(keys[1..], p, i) && keys[1..][i] == r.value;
          assert forall j :: 1 <= j < i + 1 ==> keys[j] == keys[1..][j - 1];
          assert FirstSatisfying(keys, p, i + 1);
        }
      }
      r
  }

  /** Step 1: the first key that occurs in the text. */
  function DirectMatch(keys: seq<string>, text: string): Option<string> {
    FirstKey(keys, k => Includes(text, k))
  }

  /** The index of the first `c` in `s`, or `|s|` when there is none. */
  function IndexOf(s: string, c: char): (i: nat)
    ensures i <= |s|
    ensures i < |s| ==> s[i] == c
    ensures forall k :: 0 <= k < i ==> s[k] != c
  {
    if s == [] then 0 else if s[0] == c then 0 else 1 + IndexOf(s[1..], c)
  }

  /** `s.replace(/\([^)]*\)/g, '')`: from left to right, every `(` that has a
      `)` after it is deleted up to and including the first such `)`. */
  function RemoveParenGroups(s: string): (r: string)
    ensures |r| <= |s|
    ensures forall c :: c in r ==> c in s
  {
    if s == [] then []
    else if s[0] == '(' && IndexOf(s[1..], ')') < |s| - 1 then
      RemoveParenGroups(s[1..][IndexOf(s[1..], ')') + 1..])
    else
      var rest := RemoveParenGroups(s[1..]);
      assert forall c :: c in [s[0]] + rest ==> c == s[0] || c in rest;
      [s[0]] + rest
  }

  /** A text without `(` is left as it is. */
  lemma {:induction false} NoParenUnchanged(s: string)
    requires '(' !in s
    ensures RemoveParenGroups(s) == s
  {
    if s != [] {
      assert '(' !in s[1..] by { assert forall c :: c in s[1..] ==> c in s; }
      NoParenUnchanged(s[1..]);
      assert s == [s[0]] + s[1..];
    }
  }

  /** Every `(` has no `)` after it: no parenthesised group is left. */
  predicate NoGroups(r: string) {
    forall k :: 0 <= k < |r| && r[k] == '(' ==> ')' !in r[k + 1..]
  }

  lemma NoGroupsCons(c: char, rest: string)
    requires NoGroups(rest) && (c == '(' ==> ')' !in rest)
    ensures NoGroups([c] + rest)
  {
    var r := [c] + rest;
    forall k | 0 <= k < |r| && r[k] == '(' ensures ')' !in r[k + 1..] {
      if k == 0 {
        assert r[1..] == rest;
      } else {
        assert r[k] == rest[k - 1];
        assert r[k + 1..] == rest[k..];
      }
    }
  }

  /** No group is left after the replacement. */
  lemma {:induction false} NoGroupLeft(s: string)
    ensures NoGroups(RemoveParenGroups(s))
  {
    if s == [] {
    } else if s[0] == '(' && IndexOf(s[1..], ')') < |s| - 1 {
      var tail := s[1..][IndexOf(s[1..], ')') + 1..];
      NoGroupLeft(tail);
      assert RemoveParenGroups(s) == RemoveParenGroups(tail);
    } else {
      var rest := RemoveParenGroups(s[1..]);
      NoGroupLeft(s[1..]);
      if s[0] == '(' {
        assert IndexOf(s[1..], ')') == |s[1..]|;
        assert ')' !in rest;
      }
      NoGroupsCons(s[0], rest);
      assert RemoveParenGroups(s) == [s[0]] + rest;
    }
  }

  /** `patternMatch[1].trim().replace(/\([^)]*\)/g, '').trim()` */
  function ExtractedName(capture: string): string {
    Trim(RemoveParenGroups(Trim(capture)))
  }

  /** The lower-cased key contains the lower-cased name, or is contained in it. */
  predicate Related(key: string, name: string) {
    Includes(Lower(key), Lower(name)) || Includes(Lower(name), Lower(key))
  }

  /** Step 2 AS WRITTEN: the first key related to the extracted name. */
  function PartialMatchAsWritten(keys: seq<string>, name: string): Option<string> {
    FirstKey(keys, k => Related(k, name))
  }

  /** Step 2 as intended: the first key related to the extracted name, and
      nothing for an empty name, which identifies no exercise. */
  function PartialMatch(keys: seq<string>, name: string): (r: Option<string>)
    ensures r.Some? <==> name != "" && exists i :: 0 <= i < |keys| && Related(keys[i], name)
    ensures r.Some? ==> exists i :: (0 <= i < |keys| && keys[i] == r.value && Related(keys[i], name)
      && forall j :: 0 <= j < i ==> !Related(keys[j], name))
    ensures name != "" ==> r == PartialMatchAsWritten(keys, name)
  {
    if name == "" then None else PartialMatchAsWritten(keys, name)
  }

  predicate IsUpperLetter(c: char) { 'A' <= c <= 'Z' }
  predicate IsLowerLetter(c: char) { 'a' <= c <= 'z' }

  /** The length of the run of lower-case letters at the start of `s`. */
  function LowerRun(s: string): (n: nat)
    ensures n <= |s|
    ensures forall k :: 0 <= k < n ==> IsLowerLetter(s[k])
    ensures n < |s| ==> !IsLowerLetter(s[n])
  {
    if s != [] && IsLowerLetter(s[0]) then 1 + LowerRun(s[1..]) else 0
  }

  /** A match of `[A-Z][a-z]+`. */
  predicate IsCapitalizedWord(w: string) {
    |w| >= 2 && IsUpperLetter(w[0]) && forall k :: 1 <= k < |w| ==> IsLowerLetter(w[k])
  }

  /** A match of `[A-Z][a-z]+` can start at `k`. */
  predicate WordStartsAt(s: string, k: int) {
    0 <= k < |s| - 1 && IsUpperLetter(s[k]) && IsLowerLetter(s[k + 1])
  }

  /** No match can start anywhere in `s`. */
  predicate NoWordStart(s: string) {
    forall k :: 0 <= k < |s| ==> !WordStartsAt(s, k)
  }

  /** `k` is the leftmost position where a match can start. */
  ghost predicate FirstWordStart(s: string, k: int) {
    WordStartsAt(s, k) && forall j :: 0 <= j < k ==> !WordStartsAt(s, j)
  }

  /** The match starting at `k`: the capital and the whole run of lower-case
      letters after it. */
  function WordAt(s: string, k: int): string
    requires WordStartsAt(s, k)
  {
    s[k..k + 1 + LowerRun(s[k + 1..])]
  }

  lemma WordStartsAtShift(s: string)
    requires s != []
    ensures forall k | 0 <= k :: WordStartsAt(s[1..], k) <==> WordStartsAt(s, k + 1)
  {
  }

  /** When no match starts at 0, `s` has a match start iff `s[1..]` has one. */
  lemma NoWordStartSkip(s: string)
    requires s != [] && !WordStartsAt(s, 0)
    ensures NoWordStart(s) <==> NoWordStart(s[1..])
  {
    WordStartsAtShift(s);
    if NoWordStart(s[1..]) {
      forall k | 1 <= k < |s| ensures !WordStartsAt(s, k) {
        assert !WordStartsAt(s[1..], k - 1);
      }
    }
  }

  /** A match at the very start is a capitalised word. */
  lemma WordAtStartIsCapitalized(s: string)
    requires WordStartsAt(s, 0)
    ensures IsCapitalizedWord(WordAt(s, 0))
  {
  }

  /** Occurrences inside `u` are occurrences inside `t + u`. */
  lemma IncludesAllAfter(t: string, u: string, ws: seq<string>)
    requires forall i :: 0 <= i < |ws| ==> Includes(u, ws[i])
    ensures forall i :: 0 <= i < |ws| ==> Includes(t + u, ws[i])
  {
    forall i | 0 <= i < |ws| ensures Includes(t + u, ws[i]) {
      IncludesAfter(t, u, ws[i]);
    }
  }

  /** `s.match(/([A-Z][a-z]+)/g)`: the matches, left to right, each as long as
      possible (an empty list for `null`). `CapitalizedWordsNone` and
      `CapitalizedWordsFirst` say which matches these are. */
  function CapitalizedWords(s: string): (ws: seq<string>)
    ensures forall i :: 0 <= i < |ws| ==> IsCapitalizedWord(ws[i]) && Includes(s, ws[i])
    decreases |s|
  {
    if |s| < 2 then []
    else if WordStartsAt(s, 0) then
      var w := WordAt(s, 0);
      var rest := CapitalizedWords(s[|w|..]);
      assert s == w + s[|w|..];
      IncludesAllAfter(w, s[|w|..], rest);
      WordAtStartIsCapitalized(s);
      assert Includes(s, w) by { assert w <= s; }
      [w] + rest
    else
      var rest := CapitalizedWords(s[1..]);
      assert s == s[..1] + s[1..];
      IncludesAllAfter(s[..1], s[1..], rest);
      rest
  }

  /** Without a match at the start, the search begins one character later. */
  lemma WordsSkipStart(s: string)
    requires |s| >= 2 && !WordStartsAt(s, 0)
    ensures CapitalizedWords(s) == CapitalizedWords(s[1..])
  {
  }

  /** Positions where no match can start are skipped by the search. */
  lemma {:induction false} SkipNoStart(s: string, j: int)
    requires 0 <= j <= |s|
    requires forall i :: 0 <= i < j ==> !WordStartsAt(s, i)
    ensures CapitalizedWords(s) == CapitalizedWords(s[j..])
    decreases j
  {
    if j == 0 {
      assert s[0..] == s;
    } else {
      SkipNoStart(s, j - 1);
      var x := s[j - 1..];
      assert x[1..] == s[j..];
      if |x| >= 2 {
        assert !WordStartsAt(x, 0) by { assert !WordStartsAt(s, j - 1); }
        WordsSkipStart(x);
      }
    }
  }

  /** A match at the very start is the first word, and the search resumes after it. */
  lemma WordsAtStart(x: string)
    requires WordStartsAt(x, 0)
    ensures CapitalizedWords(x) == [WordAt(x, 0)] + CapitalizedWords(x[|WordAt(x, 0)|..])
  {
  }

  /** After the first match, at the leftmost start `k`, the search resumes
      just past it. */
  lemma CapitalizedWordsResume(s: string, k: int)
    requires FirstWordStart(s, k)
    ensures CapitalizedWords(s) == [WordAt(s, k)] + CapitalizedWords(s[k + |WordAt(s, k)|..])
  {
    var x := s[k..];
    SkipNoStart(s, k);
    assert WordStartsAt(x, 0);
    WordsAtStart(x);
    assert x[1..] == s[k + 1..];
    assert WordAt(x, 0) == WordAt(s, k);
    assert x[|WordAt(s, k)|..] == s[k + |WordAt(s, k)|..];
  }

  /** The text has no match exactly when no match can start anywhere in it. */
  lemma {:induction false} CapitalizedWordsNone(s: string)
    ensures CapitalizedWords(s) == [] <==> NoWordStart(s)
    decreases |s|
  {
    if |s| >= 2 && !WordStartsAt(s, 0) {
      NoWordStartSkip(s);
      WordsSkipStart(s);
      CapitalizedWordsNone(s[1..]);
    }
  }

  /** A text with a match has a leftmost match start `k`; the first match is
      the capital at `k` with the whole run of lower-case letters after it, and
      the search resumes just past it. */
  lemma CapitalizedWordsFirst(s: string)
    requires !NoWordStart(s)
    ensures exists k :: (FirstWordStart(s, k)
      && CapitalizedWords(s) == [WordAt(s, k)] + CapitalizedWords(s[k + |WordAt(s, k)|..]))
  {
    var k0 :| 0 <= k0 < |s| && WordStartsAt(s, k0);
    LeftmostStart(s, k0);
    var k :| FirstWordStart(s, k);
    CapitalizedWordsResume(s, k);
  }

  /** Below any match start there is a leftmost one. */
  lemma {:induction false} LeftmostStart(s: string, k0: int)
    requires WordStartsAt(s, k0)
    ensures exists k :: FirstWordStart(s, k)
    decreases k0
  {
    if !FirstWordStart(s, k0) {
      var j :| 0 <= j < k0 && WordStartsAt(s, j);
      LeftmostStart(s, j);
    }
  }

  /** An occurrence inside `u` is an occurrence inside `t + u`. */
  lemma {:induction false} IncludesAfter(t: string, u: string, p: string)
    requires Includes(u, p)
    ensures Includes(t + u, p)
    decreases |t|
  {
    if t == [] {
      assert t + u == u;
    } else {
      assert (t + u)[1..] == t[1..] + u;
      IncludesAfter(t[1..], u, p);
    }
  }

  /** No key contains `word`. */
  predicate NoKeyContains(keys: seq<string>, word: string) {
    forall m :: 0 <= m < |keys| ==> !Includes(keys[m], word)
  }

  /** `key` is the first of `keys` that contains `word`. */
  ghost predicate FirstKeyContaining(keys: seq<string>, key: string, word: string) {
    exists m :: 0 <= m < |keys| && keys[m] == key && Includes(key, word)
      && forall j :: 0 <= j < m ==> !Includes(keys[j], word)
  }

  /** `key` is the first key containing `words[i]`, and no earlier word is
      contained in any key. */
  ghost predicate FirstWordMatch(keys: seq<string>, words: seq<string>, i: int, key: string) {
    0 <= i < |words| && FirstKeyContaining(keys, key, words[i])
      && forall j :: 0 <= j < i ==> NoKeyContains(keys, words[j])
  }

  /** Step 3: for each capitalised word in order, the first key containing it. */
  function WordMatch(keys: seq<string>, words: seq<string>): (r: Option<string>)
    ensures r.None? <==> forall i :: 0 <= i < |words| ==> NoKeyContains(keys, words[i])
    ensures r.Some? ==> r.value in keys
    ensures r.Some? ==> exists i :: FirstWordMatch(keys, words, i, r.value)
  {
    if words == [] then None
    else
      var first := FirstKey(keys, k => Includes(k, words[0]));
      if first.Some? then
        assert FirstWordMatch(keys, words, 0, first.value);
        first
      else
        var r := WordMatch(keys, words[1..]);
        assert NoKeyContains(keys, words[0]);
        assert r.Some? ==> exists i :: FirstWordMatch(keys, words, i, r.value) by {
          if r.Some? {
            var i :| FirstWordMatch(keys, words[1..], i, r.value);
            assert forall j :: 1 <= j < i + 1 ==> words[j] == words[1..][j - 1];
            assert FirstWordMatch(keys, words, i + 1, r.value);
          }
        }
        r
  }

  /** Step 4: the keyword fallbacks, tried in this order on the lower-cased text. */
  function KeywordFallback(text: string): Option<string> {
    var t := Lower(text);
    if Includes(t, "kegel") then Some("Kegels")
    else if Includes(t, "breathing") then Some("Box Breathing")
    else if Includes(t, "core") then Some("Core Activation")
    else if Includes(t, "glute") then Some("Glute Bridge")
    else if Includes(t, "relax") then Some("Mindful Relaxation")
    else None
  }

  /** Steps 3 and 4, once steps 1 and 2 found nothing. */
  function LaterSteps(keys: seq<string>, text: string): Option<string> {
    FirstOf(WordMatch(keys, CapitalizedWords(text)), KeywordFallback(text))
  }

  /** The first of two answers that is present. */
  function FirstOf(a: Option<string>, b: Option<string>): Option<string> {
    if a.Some? then a else b
  }

  /** Step 2 AS WRITTEN on the pattern's group, when it matched. */
  function PatternStepAsWritten(keys: seq<string>, capture: Option<string>): Option<string> {
    if capture.Some? && capture.value != "" then PartialMatchAsWritten(keys, ExtractedName(capture.value)) else None
  }

  /** Step 2 as intended on the pattern's group, when it matched. */
  function PatternStep(keys: seq<string>, capture: Option<string>): Option<string> {
    if capture.Some? && capture.value != "" then PartialMatch(keys, ExtractedName(capture.value)) else None
  }

  /** The four steps AS WRITTEN over a table of keys. */
  function ExtractFromAsWritten(keys: seq<string>, fullText: Option<string>, capture: Option<string>): Option<string> {
    if fullText.None? || fullText.value == "" then None
    else FirstOf(DirectMatch(keys, fullText.value),
                 FirstOf(PatternStepAsWritten(keys, capture), LaterSteps(keys, fullText.value)))
  }

  /** The four steps over a table of keys, an empty extracted name skipped. */
  function ExtractFrom(keys: seq<string>, fullText: Option<string>, capture: Option<string>): Option<string> {
    if fullText.None? || fullText.value == "" then None
    else FirstOf(DirectMatch(keys, fullText.value),
                 FirstOf(PatternStep(keys, capture), LaterSteps(keys, fullText.value)))
  }

  /** `extractExerciseName(fullText)` AS WRITTEN; `capture` is the emoji
      pattern's group, `None` when the pattern does not match. */
  function ExtractExerciseNameAsWritten(fullText: Option<string>, capture: Option<string>): Option<string> {
    ExtractFromAsWritten(ModalKeys, fullText, capture)
  }

  /** `extractExerciseName(fullText)` with an empty extracted name skipped. */
  function ExtractExerciseName(fullText: Option<string>, capture: Option<string>): Option<string> {
    ExtractFrom(ModalKeys, fullText, capture)
  }

  /** The names the keyword fallbacks return. */
  const FallbackNames: seq<string> :=
    ["Kegels", "Box Breathing", "Core Activation", "Glute Bridge", "Mindful Relaxation"]

  /** The keyword fallbacks return one of `FallbackNames`, or nothing. */
  lemma KeywordFallbackNames(text: string)
    ensures var r := KeywordFallback(text); r.None? || r.value in FallbackNames
  {
  }

  /** The names the keyword fallbacks return are keys of the modal's table. */
  lemma FallbackNamesAreKeys()
    ensures forall n :: n in FallbackNames ==> n in ModalKeys
  {
    assert FallbackNames == [ModalKeys[2], ModalKeys[3], ModalKeys[14], ModalKeys[4], ModalKeys[8]];
  }

  lemma FirstOfInKeys(keys: seq<string>, a: Option<string>, b: Option<string>)
    requires a.None? || a.value in keys
    requires b.None? || b.value in keys
    ensures var r := FirstOf(a, b); r.None? || r.value in keys
  {
  }

  /** Over any table holding the fallback names, steps 3 and 4 answer with a
      key or nothing. */
  lemma LaterStepsInKeys(keys: seq<string>, text: string)
    requires forall n :: n in FallbackNames ==> n in keys
    ensures var l := LaterSteps(keys, text); l.None? || l.value in keys
  {
    KeywordFallbackNames(text);
    FirstOfInKeys(keys, WordMatch(keys, CapitalizedWords(text)), KeywordFallback(text));
  }

  /** On a non-empty text, the answer is the first of the four steps' answers. */
  lemma StepsInOrder(keys: seq<string>, text: string, capture: Option<string>)
    requires text != ""
    ensures ExtractFrom(keys, Some(text), capture)
      == FirstOf(DirectMatch(keys, text), FirstOf(PatternStep(keys, capture), LaterSteps(keys, text)))
    ensures ExtractFromAsWritten(keys, Some(text), capture)
      == FirstOf(DirectMatch(keys, text), FirstOf(PatternStepAsWritten(keys, capture), LaterSteps(keys, text)))
  {
  }

  lemma StepsInKeys(keys: seq<string>, d: Option<string>, p: Option<string>, l: Option<string>)
    requires d.None? || d.value in keys
    requires p.None? || p.value in keys
    requires l.None? || l.value in keys
    ensures var r := FirstOf(d, FirstOf(p, l)); r.None? || r.value in keys
  {
  }

  /** Over any table holding the fallback names, the four steps answer with
      a key or nothing. */
  lemma ResultInKeys(keys: seq<string>, fullText: Option<string>, capture: Option<string>)
    requires forall n :: n in FallbackNames ==> n in keys
    ensures var r := ExtractFrom(keys, fullText, capture); r.None? || r.value in keys
  {
    if fullText.Some? && fullText.value != "" {
      var text := fullText.value;
      LaterStepsInKeys(keys, text);
      StepsInKeys(keys, DirectMatch(keys, text), PatternStep(keys, capture), LaterSteps(keys, text));
      StepsInOrder(keys, text, capture);
    }
  }

  /** The same holds for the four steps as written. */
  lemma ResultInKeysAsWritten(keys: seq<string>, fullText: Option<string>, capture: Option<string>)
    requires forall n :: n in FallbackNames ==> n in keys
    ensures var r := ExtractFromAsWritten(keys, fullText, capture); r.None? || r.value in keys
  {
    if fullText.Some? && fullText.value != "" {
      var text := fullText.value;
      LaterStepsInKeys(keys, text);
      StepsInKeys(keys, DirectMatch(keys, text), PatternStepAsWritten(keys, capture), LaterSteps(keys, text));
      StepsInOrder(keys, text, capture);
    }
  }

  /** The result, as written or corrected, is a key of the modal's table or
      nothing; a missing or empty text gives nothing. */
  lemma ResultIsKeyOrNone(fullText: Option<string>, capture: Option<string>)
    ensures var r := ExtractExerciseName(fullText, capture);
      (r.None? || r.value in ModalKeys) && (fullText.None? || fullText == Some("") ==> r.None?)
    ensures var r := ExtractExerciseNameAsWritten(fullText, capture);
      (r.None? || r.value in ModalKeys) && (fullText.None? || fullText == Some("") ==> r.None?)
  {
    FallbackNamesAreKeys();
    ResultInKeys(ModalKeys, fullText, capture);
    ResultInKeysAsWritten(ModalKeys, fullText, capture);
  }

  /** When a key occurs in the text, the result is the first such key,
      whatever the later steps would find. */
  lemma DirectMatchWins(keys: seq<string>, text: string, capture: Option<string>)
    requires text != ""
    requires exists i :: 0 <= i < |keys| && Includes(text, keys[i])
    ensures exists i :: (FirstSatisfying(keys, k => Includes(text, k), i)
      && ExtractFrom(keys, Some(text), capture) == Some(keys[i])
      && ExtractFromAsWritten(keys, Some(text), capture) == Some(keys[i]))
  {
    var r := DirectMatch(keys, text);
    assert r.Some?;
  }

  /** The direct match is the key at `i` when it is the first key the text contains. */
  lemma {:induction false} DirectMatchAt(keys: seq<string>, text: string, i: nat)
    requires i < |keys| && Includes(text, keys[i])
    requires forall j :: 0 <= j < i ==> !Includes(text, keys[j])
    ensures DirectMatch(keys, text) == Some(keys[i])
    decreases i
  {
    if i > 0 {
      assert !Includes(text, keys[0]);
      DirectMatchAt(keys[1..], text, i - 1);
    }
  }

  /** A string with a character the text lacks is not included in it. */
  lemma MissingChar(t: string, p: string, k: nat)
    requires k < |p| && p[k] !in t
    ensures !Includes(t, p)
  {
    if Includes(t, p) {
      IncludesChars(t, p);
    }
  }

  /** When the text contains no key and the extracted name is related to some
      key, the answer is the first key related to the name. */
  lemma PatternStepDecides(keys: seq<string>, text: string, capture: string)
    requires text != "" && capture != "" && ExtractedName(capture) != ""
    requires forall i :: 0 <= i < |keys| ==> !Includes(text, keys[i])
    requires exists i :: 0 <= i < |keys| && Related(keys[i], ExtractedName(capture))
    ensures var r := ExtractFrom(keys, Some(text), Some(capture)); var name := ExtractedName(capture);
      r.Some? && exists i :: (0 <= i < |keys| && keys[i] == r.value && Related(keys[i], name)
        && forall j :: 0 <= j < i ==> !Related(keys[j], name))
  {
    StepsInOrder(keys, text, Some(capture));
  }

  /** When the text contains no key and step 2 finds nothing (the pattern did
      not match, or no key relates to its extracted name), the first
      capitalised word that some key contains decides, giving the first key
      containing it; without such a word the keyword fallbacks decide. */
  lemma LaterStepsDecide(keys: seq<string>, text: string, capture: Option<string>)
    requires text != ""
    requires forall i :: 0 <= i < |keys| ==> !Includes(text, keys[i])
    requires PatternStep(keys, capture) == None
    ensures var r := ExtractFrom(keys, Some(text), capture); var ws := CapitalizedWords(text);
      (exists i :: 0 <= i < |ws| && !NoKeyContains(keys, ws[i])) ==>
        r.Some? && exists i :: FirstWordMatch(keys, ws, i, r.value)
    ensures var ws := CapitalizedWords(text);
      (forall i :: 0 <= i < |ws| ==> NoKeyContains(keys, ws[i])) ==>
        ExtractFrom(keys, Some(text), capture) == KeywordFallback(text)
  {
    StepsInOrder(keys, text, capture);
  }

  /** A key found by step 1 is the answer, as written and corrected. */
  lemma DirectMatchDecides(keys: seq<string>, text: string, capture: Option<string>)
    requires text != "" && DirectMatch(keys, text).Some?
    ensures ExtractFrom(keys, Some(text), capture) == DirectMatch(keys, text)
    ensures ExtractFromAsWritten(keys, Some(text), capture) == DirectMatch(keys, text)
  {
  }

  lemma GluteBridgesContainsKey(text: string)
    requires text == "10 Glute Bridges"
    ensures ModalKeys[4] == "Glute Bridge" && Includes(text, ModalKeys[4])
  {
    var key := ModalKeys[4];
    assert key == "Glute Bridge";
    assert key <= text[3..];
    assert Includes(text[3..], key);
    assert text[3..] == text[1..][1..][1..];
  }

  lemma GluteBridgesLacksEarlierKeys(text: string)
    requires text == "10 Glute Bridges"
    ensures forall j :: 0 <= j < 4 ==> !Includes(text, ModalKeys[j])
  {
    assert 'K' !in text && 'B' !in text[..1];
    forall j | 0 <= j < 4 ensures !Includes(text, ModalKeys[j]) {
      if j < 3 {
        assert ModalKeys[j][0] == 'K';
        MissingChar(text, ModalKeys[j], 0);
      } else {
        assert ModalKeys[j][2] == 'x';
        MissingChar(text, ModalKeys[j], 2);
      }
    }
  }

  /** Step 1 names Glute Bridge in "10 Glute Bridges": the four earlier keys
      are absent and the singular key is contained in the plural. */
  lemma GluteBridgesExample(text: string)
    requires text == "10 Glute Bridges"
    ensures DirectMatch(ModalKeys, text) == Some("Glute Bridge")
  {
    GluteBridgesContainsKey(text);
    GluteBridgesLacksEarlierKeys(text);
    DirectMatchAt(ModalKeys, text, 4);
  }

  lemma KegelsContainsKey(text: string)
    requires text == "20 Kegels"
    ensures ModalKeys[1] == "Kegel" && Includes(text, ModalKeys[1]) && !Includes(text, ModalKeys[0])
  {
    var key := ModalKeys[1];
    assert key == "Kegel";
    assert key <= text[3..];
    assert Includes(text[3..], key);
    assert text[3..] == text[1..][1..][1..];
    assert ModalKeys[0][7] == 'q' && 'q' !in text;
    MissingChar(text, ModalKeys[0], 7);
  }

  /** Step 1 names Kegel in "20 Kegels", the first key it contains. */
  lemma KegelsExample(text: string)
    requires text == "20 Kegels"
    ensures DirectMatch(ModalKeys, text) == Some("Kegel")
  {
    KegelsContainsKey(text);
    DirectMatchAt(ModalKeys, text, 1);
  }

  /** The keyword fallbacks ignore case. */
  lemma KeywordFallbackIgnoresCase(text: string)
    ensures KeywordFallback(text) == KeywordFallback(Lower(text))
  {
    LowerIdempotent(text);
  }

  /** A text without upper-case letters has no capitalised words. */
  lemma NoCapitalizedWords(text: string)
    requires forall k :: 0 <= k < |text| ==> !IsUpperLetter(text[k])
    ensures CapitalizedWords(text) == []
  {
    CapitalizedWordsNone(text);
  }

  /** A text without upper-case letters contains no key that starts with one. */
  lemma NoCapitalsNoDirectMatch(keys: seq<string>, text: string)
    requires forall k :: 0 <= k < |text| ==> !IsUpperLetter(text[k])
    requires forall j :: 0 <= j < |keys| ==> keys[j] != [] && IsUpperLetter(keys[j][0])
    ensures DirectMatch(keys, text) == None
  {
    forall j | 0 <= j < |keys| ensures !Includes(text, keys[j]) {
      MissingChar(text, keys[j], 0);
    }
  }

  /** Every key of the modal's table starts with an upper-case letter. */
  lemma KeysAreCapitalized()
    ensures forall j :: 0 <= j < |ModalKeys| ==> ModalKeys[j] != [] && IsUpperLetter(ModalKeys[j][0])
  {
  }

  /** A text without ASCII letters matches no keyword fallback. */
  lemma NoLettersNoKeyword(text: string)
    requires NoAsciiLetters(text)
    ensures KeywordFallback(text) == None
  {
    var t := Lower(text);
    assert t == text;
    MissingChar(t, "kegel", 0);
    MissingChar(t, "breathing", 0);
    MissingChar(t, "core", 0);
    MissingChar(t, "glute", 0);
    MissingChar(t, "relax", 0);
  }

  /** A capture of white space only gives the empty name. */
  lemma SpaceCaptureGivesEmptyName(capture: string)
    requires AllSpace(capture)
    ensures ExtractedName(capture) == ""
  {
    TrimEmptyIffAllSpace(capture);
    TrimEmptyIffAllSpace("");
  }

  /** As written, step 2 on the empty name returns the first key. */
  lemma EmptyNamePartialMatch(keys: seq<string>)
    requires keys != []
    ensures PartialMatchAsWritten(keys, "") == Some(keys[0])
  {
    assert Includes(Lower(keys[0]), Lower(""));
  }

  /** As written, a capture of white space only trims to the empty name,
      which every key contains: when steps 1, 3 and 4 find nothing, the first
      key is returned. Corrected, nothing is returned. */
  lemma SpaceCaptureMatchesFirstKey(keys: seq<string>, text: string, capture: string)
    requires keys != [] && text != "" && capture != "" && AllSpace(capture)
    requires DirectMatch(keys, text) == None && LaterSteps(keys, text) == None
    ensures ExtractFromAsWritten(keys, Some(text), Some(capture)) == Some(keys[0])
    ensures ExtractFrom(keys, Some(text), Some(capture)) == None
  {
    SpaceCaptureGivesEmptyName(capture);
    EmptyNameIsSkipped(keys, text, capture);
    EmptyNamePartialMatch(keys);
    assert PatternStepAsWritten(keys, Some(capture)) == PartialMatchAsWritten(keys, "");
  }

  /** A text without ASCII letters. */
  predicate NoAsciiLetters(text: string) {
    forall k :: 0 <= k < |text| ==> !IsUpperLetter(text[k]) && !IsLowerLetter(text[k])
  }

  /** "💪 10 × 3" has no ASCII letters. */
  lemma SampleHasNoLetters(text: string)
    requires text == "💪 10 × 3"
    ensures NoAsciiLetters(text)
  {
  }

  /** As written, a text without ASCII letters whose pattern group is white
      space (as for "💪 10 × 3": the pattern's class also matches the second
      half of the emoji's UTF-16 pair, and the group can then be the single
      space after it) names the first key, Kegel Squeezes, though it names no
      exercise; corrected, it names nothing. */
  lemma EmptyNameMatchesFirstKey(text: string, capture: string)
    requires text != "" && NoAsciiLetters(text)
    requires capture != "" && AllSpace(capture)
    ensures ExtractExerciseNameAsWritten(Some(text), Some(capture)) == Some("Kegel Squeezes")
    ensures ExtractExerciseName(Some(text), Some(capture)) == None
  {
    KeysAreCapitalized();
    NoCapitalsNoDirectMatch(ModalKeys, text);
    NoCapitalizedWords(text);
    NoLettersNoKeyword(text);
    SpaceCaptureMatchesFirstKey(ModalKeys, text, capture);
  }

  /** Corrected: an extracted name that is empty contributes nothing. */
  lemma EmptyNameIsSkipped(keys: seq<string>, text: string, capture: string)
    requires ExtractedName(capture) == ""
    ensures ExtractFrom(keys, Some(text), Some(capture)) == ExtractFrom(keys, Some(text), None)
  {
    if text != "" {
      StepsInOrder(keys, text, Some(capture));
      StepsInOrder(keys, text, None);
      assert PatternStep(keys, Some(capture)) == None == PatternStep(keys, None);
    }
  }

  /** Corrected, a non-empty extracted name behaves as written. */
  lemma NonEmptyNameAsWritten(keys: seq<string>, text: string, capture: string)
    requires ExtractedName(capture) != ""
    ensures ExtractFrom(keys, Some(text), Some(capture)) == ExtractFromAsWritten(keys, Some(text), Some(capture))
  {
    if text != "" {
      StepsInOrder(keys, text, Some(capture));
      assert PatternStep(keys, Some(capture)) == PatternStepAsWritten(keys, Some(capture));
    }
  }
}
