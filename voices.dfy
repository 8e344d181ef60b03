/**
 * The narration voice selector of the playback page: among the voices the
 * host's speech facility reports, pick a Hindi voice, preferring one whose
 * name reads as male, then any Hindi voice, then any voice whose language
 * tag mentions "hi".
 */
module Voices {
  import opened Wrappers

  /** A voice descriptor as the host reports it: a language tag and a display name. */
  datatype Voice = Voice(lang: string, name: string)

  // ---------------------------------------------------------------------------
  // String helpers
  // ---------------------------------------------------------------------------

  predicate StartsWith(s: string, prefix: string) {
    |prefix| <= |s| && s[..|prefix|] == prefix
  }

  /** `t` occurs in `s` starting at position `i`. */
  predicate OccursAt(s: string, t: string, i: int) {
    0 <= i && i + |t| <= |s| && s[i..i + |t|] == t
  }

  predicate Contains(s: string, t: string) {
    exists i | 0 <= i <= |s| - |t| :: OccursAt(s, t, i)
  }

  /** A string contains a non-empty `t` only if it contains `t`'s first character. */
  lemma ContainsFirst(s: string, t: string)
    ensures |t| > 0 && Contains(s, t) ==> t[0] in s
  {
    if |t| > 0 && Contains(s, t) {
      var i :| 0 <= i <= |s| - |t| && OccursAt(s, t, i);
      assert s[i] == s[i..i + |t|][0];
    }
  }

  /**
   * String.prototype.toLowerCase on one character, as far as the tests on
   * "hi" can see it: ASCII capitals become small letters, and U+0130 (capital
   * I with dot above) becomes "i" followed by U+0307. No other character has a
   * lower-case form containing 'h' or 'i', so the rest are kept as they are.
   */
  function LowerChar(c: char): (r: string)
    ensures 'h' in r ==> c == 'h' || c == 'H'
  {
    if 'A' <= c <= 'Z' then [(c as int + 32) as char]
    else if c == '\U{130}' then ['i', '\U{307}']
    else [c]
  }

  /**
   * String.prototype.toLowerCase, character by character (see LowerChar): the
   * result has an 'h' only if the input has an 'h' or an 'H'.
   */
  function Lower(s: string): (r: string)
    ensures 'h' in r ==> 'h' in s || 'H' in s
  {
    if s == [] then [] else LowerChar(s[0]) + Lower(s[1..])
  }

  /**
   * The canonicalisation a case-insensitive, non-unicode regular expression
   * applies before comparing characters: only ASCII letters fold, because a
   * non-ASCII character never folds onto an ASCII one in that mode and the
   * Devanagari letters of the pattern have no case.
   */
  function FoldChar(c: char): (r: char)
    ensures !('A' <= r <= 'Z')
  {
    if 'A' <= c <= 'Z' then (c as int + 32) as char else c
  }

  function Fold(s: string): (r: string)
    ensures |r| == |s|
    ensures forall i :: 0 <= i < |s| ==> r[i] == FoldChar(s[i])
  {
    seq(|s|, i requires 0 <= i < |s| => FoldChar(s[i]))
  }

  /** The Devanagari word for "man", the middle alternative of the name pattern. */
  const PURUSH: string := "\U{92A}\U{941}\U{930}\U{941}\U{937}"

  /** `t` has no ASCII capital, so folding leaves it as it is. */
  predicate NoCapitals(t: string) {
    forall k :: 0 <= k < |t| ==> !('A' <= t[k] <= 'Z')
  }

  /** Folding keeps every occurrence of a string without capitals. */
  lemma FoldKeepsOccurrence(s: string, t: string, i: int)
    requires NoCapitals(t) && OccursAt(s, t, i)
    ensures OccursAt(Fold(s), t, i)
  {
    forall k | 0 <= k < |t|
      ensures Fold(s)[i + k] == t[k]
    {
      assert s[i + k] == s[i..i + |t|][k];
    }
  }

  /** A string without capitals found in `s` is found in `s` folded. */
  lemma FoldKeepsContains(s: string, t: string)
    requires NoCapitals(t)
    ensures Contains(s, t) ==> Contains(Fold(s), t)
  {
    if Contains(s, t) {
      var i :| 0 <= i <= |s| - |t| && OccursAt(s, t, i);
      FoldKeepsOccurrence(s, t, i);
    }
  }

  /**
   * The name matches /male|पुरुष|man/i somewhere (so "Female" and "Woman" match
   * too): matching is on the ASCII-folded name, so any name containing one of
   * the alternatives as written matches.
   */
  predicate IsMaleName(name: string)
    ensures Contains(name, "male") || Contains(name, PURUSH) || Contains(name, "man") ==> IsMaleName(name)
  {
    FoldKeepsContains(name, "male");
    FoldKeepsContains(name, PURUSH);
    FoldKeepsContains(name, "man");
    var n := Fold(name);
    Contains(n, "male") || Contains(n, PURUSH) || Contains(n, "man")
  }

  /**
   * The lower-cased language tag starts with "hi"; such a tag also contains
   * "hi", so every voice the second rule accepts the third accepts too.
   */
  predicate IsHindi(v: Voice)
    ensures IsHindi(v) ==> MentionsHindi(v)
  {
    var tag := Lower(v.lang);
    assert StartsWith(tag, "hi") ==> OccursAt(tag, "hi", 0);
    StartsWith(tag, "hi")
  }

  /** The lower-cased language tag contains "hi" anywhere, which needs an 'h' or 'H' in the tag. */
  predicate MentionsHindi(v: Voice)
    ensures MentionsHindi(v) ==> 'h' in v.lang || 'H' in v.lang
  {
    var tag := Lower(v.lang);
    ContainsFirst(tag, "hi");
    Contains(tag, "hi")
  }

  predicate IsMaleVoice(v: Voice) {
    IsMaleName(v.name)
  }

  predicate IsMaleHindi(v: Voice) {
    IsHindi(v) && IsMaleVoice(v)
  }

  // ---------------------------------------------------------------------------
  // Array.prototype.filter and Array.prototype.find
  // ---------------------------------------------------------------------------

  /** Array.prototype.filter: the voices satisfying `p`, in order. */
  function FilterVoices(vs: seq<Voice>, p: Voice -> bool): (r: seq<Voice>)
    ensures |r| <= |vs|
    ensures forall v :: v in r <==> v in vs && p(v)
  {
    if vs == [] then []
    else if p(vs[0]) then [vs[0]] + FilterVoices(vs[1..], p)
    else FilterVoices(vs[1..], p)
  }

  /** Array.prototype.find: a voice of the list satisfying `p`, and none only when no voice does. */
  function Find(vs: seq<Voice>, p: Voice -> bool): (r: Option<Voice>)
    ensures r.Some? ==> r.value in vs && p(r.value)
    ensures r.None? ==> forall v :: v in vs ==> !p(v)
  {
    if vs == [] then None
    else if p(vs[0]) then Some(vs[0])
    else Find(vs[1..], p)
  }

  /** `i` is the position of the first voice of `vs` that satisfies `p`. */
  ghost predicate FirstAt(vs: seq<Voice>, p: Voice -> bool, i: int) {
    0 <= i < |vs| && p(vs[i]) && forall j :: 0 <= j < i ==> !p(vs[j])
  }

  /** Find returns the first voice satisfying the predicate, and None exactly when there is none. */
  lemma {:induction false} FindIsFirst(vs: seq<Voice>, p: Voice -> bool)
    ensures Find(vs, p).None? <==> forall j :: 0 <= j < |vs| ==> !p(vs[j])
    ensures Find(vs, p).Some? ==> exists i :: FirstAt(vs, p, i) && vs[i] == Find(vs, p).value
  {
    if vs != [] && !p(vs[0]) {
      FindIsFirst(vs[1..], p);
      if Find(vs[1..], p).Some? {
        var i :| FirstAt(vs[1..], p, i) && vs[1..][i] == Find(vs[1..], p).value;
        assert FirstAt(vs, p, i + 1);
      }
      forall j | 0 <= j < |vs| && Find(vs, p).None?
        ensures !p(vs[j])
      {
        if j > 0 { assert vs[j] == vs[1..][j - 1]; }
      }
    } else if vs != [] {
      assert FirstAt(vs, p, 0);
    }
  }

  /** Finding among the filtered voices is finding by the conjunction of both predicates. */
  lemma {:induction false} FindInFilter(vs: seq<Voice>, p: Voice -> bool, q: Voice -> bool, pq: Voice -> bool)
    requires forall v :: pq(v) == (p(v) && q(v))
    ensures Find(FilterVoices(vs, p), q) == Find(vs, pq)
  {
    if vs != [] {
      FindInFilter(vs[1..], p, q, pq);
    }
  }

  /** The first element of the filtered voices is the first voice satisfying the filter. */
  lemma {:induction false} FilterHead(vs: seq<Voice>, p: Voice -> bool)
    ensures |FilterVoices(vs, p)| > 0 <==> Find(vs, p).Some?
    ensures |FilterVoices(vs, p)| > 0 ==> FilterVoices(vs, p)[0] == Find(vs, p).value
  {
    if vs != [] && !p(vs[0]) {
      FilterHead(vs[1..], p);
    }
  }

  // ---------------------------------------------------------------------------
  // The selection (assignVoice) and its priority rules
  // ---------------------------------------------------------------------------

  /**
   * The voice assignVoice stores for a non-empty voice list: the first male
   * Hindi voice, else the first Hindi voice, else the first voice whose tag
   * mentions "hi", else none.
   */
  function SelectVoice(voices: seq<Voice>): (r: Option<Voice>)
    ensures r.Some? ==> r.value in voices && MentionsHindi(r.value)
    ensures r.None? <==> forall v :: v in voices ==> !MentionsHindi(v)
    ensures (exists v :: v in voices && IsHindi(v)) ==> r.Some? && IsHindi(r.value)
    ensures (exists v :: v in voices && IsMaleHindi(v)) ==> r.Some? && IsMaleHindi(r.value)
  {
    var hindiVoices := FilterVoices(voices, IsHindi);
    var maleHindi := Find(hindiVoices, IsMaleVoice);
    if maleHindi.Some? then maleHindi
    else if |hindiVoices| > 0 then Some(hindiVoices[0])
    else Find(voices, MentionsHindi)
  }

  /** The selection rules, rule 1 having the highest priority. */
  predicate Rule(k: int, v: Voice) {
    if k == 1 then IsMaleHindi(v)
    else if k == 2 then IsHindi(v)
    else k == 3 && MentionsHindi(v)
  }

  /**
   * Rule `k` picks position `i` of `vs`: the voice there is the first matching
   * rule `k`, and no voice in the list matches a rule of higher priority.
   */
  ghost predicate PicksAt(vs: seq<Voice>, k: int, i: int) {
    1 <= k <= 3 && 0 <= i < |vs| && Rule(k, vs[i])
    && (forall j :: 0 <= j < i ==> !Rule(k, vs[j]))
    && (k > 1 ==> forall j :: 0 <= j < |vs| ==> !Rule(1, vs[j]))
    && (k > 2 ==> forall j :: 0 <= j < |vs| ==> !Rule(2, vs[j]))
  }

  /** `v` is the voice the priority policy prefers in `vs`. */
  ghost predicate Preferred(vs: seq<Voice>, v: Voice) {
    exists k, i :: PicksAt(vs, k, i) && vs[i] == v
  }

  /** The selection is exactly the first voice of the first rule that any voice matches. */
  lemma {:induction false} SelectVoiceByRules(vs: seq<Voice>)
    ensures SelectVoice(vs) ==
      if Find(vs, IsMaleHindi).Some? then Find(vs, IsMaleHindi)
      else if Find(vs, IsHindi).Some? then Find(vs, IsHindi)
      else Find(vs, MentionsHindi)
  {
    FindInFilter(vs, IsHindi, IsMaleVoice, IsMaleHindi);
    FilterHead(vs, IsHindi);
  }

  /** At most one rule and one position can pick. */
  lemma PicksAtUnique(vs: seq<Voice>, k: int, i: int, k': int, i': int)
    requires PicksAt(vs, k, i) && PicksAt(vs, k', i')
    ensures k == k' && i == i'
  {
    assert !(k < k') && !(k' < k);
  }

  lemma PickedByRule1(vs: seq<Voice>, i: int)
    requires FirstAt(vs, IsMaleHindi, i)
    ensures PicksAt(vs, 1, i)
  {
  }

  lemma PickedByRule2(vs: seq<Voice>, i: int)
    requires Find(vs, IsMaleHindi).None? && FirstAt(vs, IsHindi, i)
    ensures PicksAt(vs, 2, i)
  {
    FindIsFirst(vs, IsMaleHindi);
  }

  lemma PickedByRule3(vs: seq<Voice>, i: int)
    requires Find(vs, IsHindi).None? && FirstAt(vs, MentionsHindi, i)
    ensures PicksAt(vs, 3, i)
  {
    FindIsFirst(vs, IsHindi);
  }

  /** Whatever the selection returns is picked by the priority rules. */
  lemma {:induction false} SelectionPicked(vs: seq<Voice>)
    ensures SelectVoice(vs).Some? ==> exists k, i :: PicksAt(vs, k, i) && vs[i] == SelectVoice(vs).value
  {
    SelectVoiceByRules(vs);
    var r := SelectVoice(vs);
    if Find(vs, IsMaleHindi).Some? {
      FindIsFirst(vs, IsMaleHindi);
      var i :| FirstAt(vs, IsMaleHindi, i) && vs[i] == r.value;
      PickedByRule1(vs, i);
    } else if Find(vs, IsHindi).Some? {
      FindIsFirst(vs, IsHindi);
      var i :| FirstAt(vs, IsHindi, i) && vs[i] == r.value;
      PickedByRule2(vs, i);
    } else if r.Some? {
      FindIsFirst(vs, MentionsHindi);
      var i :| FirstAt(vs, MentionsHindi, i) && vs[i] == r.value;
      PickedByRule3(vs, i);
    }
  }

  /** Nothing is selected exactly when no voice's lower-cased tag contains "hi". */
  lemma {:induction false} SelectsNothing(vs: seq<Voice>)
    ensures SelectVoice(vs) == None <==> forall j :: 0 <= j < |vs| ==> !MentionsHindi(vs[j])
  {
    SelectVoiceByRules(vs);
    FindIsFirst(vs, IsMaleHindi);
    FindIsFirst(vs, IsHindi);
    FindIsFirst(vs, MentionsHindi);
  }

  /**
   * The priority policy: a voice is selected exactly when it is the one the
   * rules prefer, and nothing is selected exactly when no voice's lower-cased
   * language tag contains "hi".
   */
  lemma SelectVoiceIsPreferred(vs: seq<Voice>, v: Voice)
    ensures SelectVoice(vs) == Some(v) <==> Preferred(vs, v)
    ensures SelectVoice(vs) == None <==> forall j :: 0 <= j < |vs| ==> !MentionsHindi(vs[j])
  {
    SelectionPicked(vs);
    SelectsNothing(vs);
    if Preferred(vs, v) {
      var k, i :| PicksAt(vs, k, i) && vs[i] == v;
      assert MentionsHindi(vs[i]);
      var k', i' :| PicksAt(vs, k', i') && vs[i'] == SelectVoice(vs).value;
      PicksAtUnique(vs, k, i, k', i');
    }
  }

  // ---------------------------------------------------------------------------
  // Concrete voice lists
  // ---------------------------------------------------------------------------

  const ZIRA := Voice("en-US", "Zira")
  const HINDI_FEMALE := Voice("hi-IN", "Hindi Female")
  const HINDI_MALE := Voice("hi-IN", "Hindi Male")

  /** "en-US" neither starts with nor contains "hi". */
  lemma ZiraIsNotHindi()
    ensures !IsHindi(ZIRA) && !MentionsHindi(ZIRA)
  {
    assert 'h' !in ZIRA.lang && 'H' !in ZIRA.lang;
  }

  /** A voice tagged "hi-IN" is Hindi. */
  lemma HiInIsHindi(v: Voice)
    requires v.lang == "hi-IN"
    ensures IsHindi(v)
  {
    assert Lower("hi-IN")[..2] == "hi";
  }

  /** "Hindi Female" matches the male pattern, at "male" inside "Female". */
  lemma HindiFemaleIsMaleHindi()
    ensures IsMaleHindi(HINDI_FEMALE)
  {
    HiInIsHindi(HINDI_FEMALE);
    FemaleIsMaleName();
  }

  /** "Hindi Female" folds to "hindi female", which has "male" at position 8. */
  lemma FemaleIsMaleName()
    ensures IsMaleName("Hindi Female")
  {
    assert OccursAt(Fold("Hindi Female"), "male", 8);
  }

  /** "Hindi Male" matches the male pattern. */
  lemma HindiMaleIsMaleHindi()
    ensures IsMaleHindi(HINDI_MALE)
  {
    HiInIsHindi(HINDI_MALE);
    MaleIsMaleName();
  }

  /** "Hindi Male" folds to "hindi male", which has "male" at position 6. */
  lemma MaleIsMaleName()
    ensures IsMaleName("Hindi Male")
  {
    assert OccursAt(Fold("Hindi Male"), "male", 6);
  }

  /**
   * The male pattern is a substring test, so "Hindi Female" matches it: of
   * [Zira/en-US, Hindi Female/hi-IN, Hindi Male/hi-IN] the female voice,
   * being the first Hindi voice that matches, is selected.
   */
  lemma FemaleNameCountsAsMale()
    ensures SelectVoice([ZIRA, HINDI_FEMALE, HINDI_MALE]) == Some(HINDI_FEMALE)
    ensures SelectVoice([ZIRA, HINDI_FEMALE]) == Some(HINDI_FEMALE)
  {
    ZiraIsNotHindi();
    HindiFemaleIsMaleHindi();
    SelectVoiceByRules([ZIRA, HINDI_FEMALE, HINDI_MALE]);
    SelectVoiceByRules([ZIRA, HINDI_FEMALE]);
  }

  /** A list without any voice whose tag mentions "hi" selects nothing. */
  lemma NoHindiSelectsNothing()
    ensures SelectVoice([ZIRA]) == None
  {
    ZiraIsNotHindi();
    SelectVoiceByRules([ZIRA]);
  }

  /**
   * Among voices that are all Hindi and all match the male pattern, list
   * order decides: the first one is selected.
   */
  lemma ListOrderDecides(vs: seq<Voice>)
    requires |vs| > 0 && forall j :: 0 <= j < |vs| ==> IsMaleHindi(vs[j])
    ensures SelectVoice(vs) == Some(vs[0])
  {
    SelectVoiceByRules(vs);
  }

  /** [Hindi Male, Hindi Female] selects Hindi Male, the first of two matching voices. */
  lemma HindiMaleListedFirst()
    ensures SelectVoice([HINDI_MALE, HINDI_FEMALE]) == Some(HINDI_MALE)
  {
    HindiMaleIsMaleHindi();
    HindiFemaleIsMaleHindi();
    var vs := [HINDI_MALE, HINDI_FEMALE];
    assert vs[0] == HINDI_MALE && vs[1] == HINDI_FEMALE;
    ListOrderDecides(vs);
  }

  /**
   * The third rule is not subsumed by the second: a tag such as "en-hi"
   * contains "hi" without starting with it, so a voice with that tag is
   * selected although it is not Hindi.
   */
  lemma HiInsideTagIsSelected()
    ensures var v := Voice("en-hi", "Guest");
      && MentionsHindi(v) && !IsHindi(v) && SelectVoice([v]) == Some(v)
  {
    var v := Voice("en-hi", "Guest");
    EnHiTag();
    LowersToEnHi(v);
    SelectVoiceByRules([v]);
  }

  /** A voice whose tag lowers to "en-hi" mentions "hi" but is not Hindi. */
  lemma LowersToEnHi(v: Voice)
    requires Lower(v.lang) == "en-hi"
    ensures MentionsHindi(v) && !IsHindi(v)
  {
    EnHiTag();
  }

  /** "en-hi" is already lower case, contains "hi" and does not start with it. */
  lemma EnHiTag()
    ensures Lower("en-hi") == "en-hi"
    ensures Contains("en-hi", "hi") && !StartsWith("en-hi", "hi")
  {
    assert Lower("i") == "i";
    assert Lower("hi") == "h" + Lower("i");
    assert Lower("-hi") == "-" + Lower("hi");
    assert Lower("n-hi") == "n" + Lower("-hi");
    assert Lower("en-hi") == "e" + Lower("n-hi");
    assert OccursAt("en-hi", "hi", 3);
  }

  /**
   * Lower-casing ignores ASCII case: a string and its ASCII-folded form lower
   * to the same string.
   */
  lemma {:induction false} LowerFold(s: string)
    ensures Lower(Fold(s)) == Lower(s)
    decreases |s|
  {
    if s != [] {
      assert Fold(s)[1..] == Fold(s[1..]);
      assert Fold(s)[0] == FoldChar(s[0]);
      LowerFold(s[1..]);
    }
  }

  /** Both tag tests ignore ASCII case: a voice and the same voice with its tag case-folded pass them alike. */
  lemma TagIgnoresCase(v: Voice)
    ensures IsHindi(v) == IsHindi(v.(lang := Fold(v.lang)))
    ensures MentionsHindi(v) == MentionsHindi(v.(lang := Fold(v.lang)))
  {
    LowerFold(v.lang);
  }

  /** An upper-case tag "HI-IN" is Hindi: it lowers to "hi-in". */
  lemma UpperCaseTagIsHindi(v: Voice)
    requires v.lang == "HI-IN"
    ensures IsHindi(v)
  {
    assert Lower("HI-IN")[..2] == "hi";
  }

  /** The name test ignores ASCII case: a name and its case-folded form match alike. */
  lemma MaleNameIgnoresCase(name: string)
    ensures IsMaleName(Fold(name)) == IsMaleName(name)
  {
    assert Fold(Fold(name)) == Fold(name);
  }
}
