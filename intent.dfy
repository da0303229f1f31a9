/** tools/intent.py: `detect_intent` classifies a transcript by prefix and
    substring tests on its lower-cased text, search triggers first, then
    speech triggers, falling back to copying to the clipboard. */
module IntentDetection {
  import opened Strings

  /** The three strings `detect_intent` can return. */
  datatype Intent = WebSearch | Tts | Clipboard

  const SearchTheWebAbout := "search the web about"
  const SearchFor := "search for"
  const SearchTheWeb := "search the web"
  const ReadThisAloud := "read this aloud"
  const Speak := "speak"
  const ReadAloud := "read aloud"

  predicate IsUpper(c: char)
  {
    'A' <= c <= 'Z'
  }

  /** `str.lower()` restricted to ASCII: upper-case letters map to the
      letter 32 code points later, everything else is kept. */
  function LowerChar(c: char): (r: char)
    ensures !IsUpper(r)
    ensures !IsUpper(c) ==> r == c
    ensures IsUpper(c) ==> r as int == c as int + 32
  {
    if IsUpper(c) then (c as int + 32) as char else c
  }

  /** `text.lower()`, character by character. */
  function Lower(s: string): (r: string)
    ensures |r| == |s|
    ensures forall i :: 0 <= i < |s| ==> r[i] == LowerChar(s[i])
  {
    if s == [] then [] else [LowerChar(s[0])] + Lower(s[1..])
  }

  /** `p in s` for strings: `p` occurs somewhere in `s`. */
  predicate Contains(s: string, p: string)
    decreases |s|
  {
    StartsWith(s, p) || (s != [] && Contains(s[1..], p))
  }

  predicate SearchTrigger(lowered: string)
  {
    StartsWith(lowered, SearchTheWebAbout) || StartsWith(lowered, SearchFor) || Contains(lowered, SearchTheWeb)
  }

  predicate SpeechTrigger(lowered: string)
  {
    StartsWith(lowered, ReadThisAloud) || StartsWith(lowered, Speak) || Contains(lowered, ReadAloud)
  }

  /** `detect_intent(text)`: the search tests are tried first, then the
      speech tests, and text matching neither goes to the clipboard. */
  function DetectIntent(text: string): (r: Intent)
    ensures r == WebSearch <==> SearchTrigger(Lower(text))
    ensures r == Tts <==> !SearchTrigger(Lower(text)) && SpeechTrigger(Lower(text))
    ensures r == Clipboard <==> !SearchTrigger(Lower(text)) && !SpeechTrigger(Lower(text))
  {
    var lowered := Lower(text);
    if SearchTrigger(lowered) then WebSearch
    else if SpeechTrigger(lowered) then Tts
    else Clipboard
  }

  /** Lower-casing twice is lower-casing once. */
  lemma LowerIdempotent(s: string)
    ensures Lower(Lower(s)) == Lower(s)
  {
    var l := Lower(s);
    forall i | 0 <= i < |l|
      ensures Lower(l)[i] == l[i]
    {
      assert l[i] == LowerChar(s[i]);
    }
  }

  /** The classification depends only on the lower-cased text: a transcript
      and its lower-cased form, and so any two case variants of it, get the
      same intent. */
  lemma DetectIntentIgnoresCase(a: string, b: string)
    requires Lower(a) == Lower(b)
    ensures DetectIntent(Lower(a)) == DetectIntent(a) == DetectIntent(b)
  {
    LowerIdempotent(a);
  }

  lemma StartsWithLonger(s: string, p: string, q: string)
    requires StartsWith(s, p + q)
    ensures StartsWith(s, p)
  {
    assert s[..|p|] == (p + q)[..|p|];
  }

  /** Starting with "search the web about" implies containing "search the
      web": the first search test is subsumed by the third. */
  lemma SearchTheWebAboutSubsumed(s: string)
    requires StartsWith(s, SearchTheWebAbout)
    ensures Contains(s, SearchTheWeb)
  {
    assert SearchTheWebAbout == SearchTheWeb + " about";
    StartsWithLonger(s, SearchTheWeb, " about");
  }

  /** `web_search` exactly when the lowered text starts with "search for"
      or contains "search the web". */
  lemma WebSearchIff(text: string)
    ensures DetectIntent(text) == WebSearch <==>
              StartsWith(Lower(text), SearchFor) || Contains(Lower(text), SearchTheWeb)
  {
    if StartsWith(Lower(text), SearchTheWebAbout) {
      SearchTheWebAboutSubsumed(Lower(text));
    }
  }

  /** A pattern longer than the text cannot occur in it. */
  lemma {:induction false} ContainsNeedsRoom(s: string, p: string)
    requires Contains(s, p)
    ensures |p| <= |s|
    decreases |s|
  {
    if !StartsWith(s, p) {
      ContainsNeedsRoom(s[1..], p);
    }
  }

  /** "Speak up" is too short for any search trigger and starts with
      "speak" once lowered, so it is read aloud. */
  lemma SpeakUpIsTts()
    ensures DetectIntent("Speak up") == Tts
  {
    var l := Lower("Speak up");
    assert l[0] == 's' && l[1] == 'p' && l[2] == 'e' && l[3] == 'a' && l[4] == 'k';
    if Contains(l, SearchTheWeb) {
      ContainsNeedsRoom(l, SearchTheWeb);
    }
    assert l[..|Speak|] == Speak;
  }
}
