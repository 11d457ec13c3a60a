/**
 The text part of `generateAIImage`: the image prompt names the first listed
 technical term found in the lower-cased tweet, or a fixed subject when none is.
 */
module ImagePrompt {
  import opened Wrappers
  import opened JsText

  /** The terms searched for, in priority order. */
  const Terms: seq<string> := [
    "neural network", "machine learning", "AI", "algorithm", "data science",
    "quantitative", "trading", "finance", "backtesting", "sharpe ratio",
    "gradient descent", "feature engineering", "deep learning", "model",
    "prediction", "analysis", "code", "programming", "statistics"]

  const PromptLead := "Create a technical visualization of "
  const FallbackSubject := "AI and machine learning"
  const PromptStyle := ", digital art style, professional, clean, modern, technical diagram, futuristic, blue and white color scheme"

  /** The position in `terms` of the first term `s` includes. */
  function FirstFound(terms: seq<string>, s: string): (r: Option<nat>)
    ensures r.Some? ==> r.value < |terms| && Includes(s, terms[r.value])
    ensures r.Some? ==> forall k :: 0 <= k < r.value ==> !Includes(s, terms[k])
    ensures r.None? ==> forall k :: 0 <= k < |terms| ==> !Includes(s, terms[k])
    decreases |terms|
  {
    if |terms| == 0 then None
    else if Includes(s, terms[0]) then Some(0)
    else
      var rest := FirstFound(terms[1..], s);
      if rest.None? then None else Some(rest.value + 1)
  }

  /** What the prompt is about: `foundTerms[0] + ' concept'`, or the fallback subject. */
  function Subject(text: string): string {
    match FirstFound(Terms, LowerAscii(text))
    case Some(k) => Terms[k] + " concept"
    case None => FallbackSubject
  }

  /** The prompt sent to the image service. */
  function Prompt(text: string): (r: string)
    ensures PromptLead <= r
    ensures |r| >= |PromptStyle| && r[|r| - |PromptStyle|..] == PromptStyle
  {
    var lead := PromptLead + Subject(text);
    assert lead[..|PromptLead|] == PromptLead;
    lead + PromptStyle
  }

  /**
   The subject is the first listed term that the lower-cased tweet contains, and
   the fallback exactly when it contains none of them.
   */
  lemma PromptNamesFirstTerm(text: string, k: nat)
    requires k < |Terms| && Includes(LowerAscii(text), Terms[k])
    requires forall j :: 0 <= j < k ==> !Includes(LowerAscii(text), Terms[j])
    ensures Prompt(text) == PromptLead + (Terms[k] + " concept") + PromptStyle
  {
    FirstFoundIsFirst(Terms, LowerAscii(text), k);
  }

  /** The first position whose term is included is the one found. */
  lemma FirstFoundIsFirst(terms: seq<string>, s: string, k: nat)
    requires k < |terms| && Includes(s, terms[k])
    requires forall j :: 0 <= j < k ==> !Includes(s, terms[j])
    ensures FirstFound(terms, s) == Some(k)
  {
  }

  lemma PromptFallsBack(text: string)
    requires forall j :: 0 <= j < |Terms| ==> !Includes(LowerAscii(text), Terms[j])
    ensures Prompt(text) == PromptLead + FallbackSubject + PromptStyle
  {
  }

  /** Lower-cased text never includes a pattern with an upper-case ASCII letter. */
  lemma LoweredMissesUpperCase(text: string, pat: string, i: nat)
    requires i < |pat| && 'A' <= pat[i] <= 'Z'
    ensures !Includes(LowerAscii(text), pat)
  {
    var s := LowerAscii(text);
    IncludesIffOccurs(s, pat);
    forall j | OccursAt(s, pat, j) ensures s[j + i] == pat[i] {
      assert s[j..j + |pat|][i] == s[j + i];
    }
  }

  /** The entry `AI` is upper-case, so it is never the subject, whatever the tweet says. */
  lemma UpperCaseTermNeverMatches(text: string)
    ensures Terms[2] == "AI"
    ensures FirstFound(Terms, LowerAscii(text)) != Some(2)
  {
    LoweredMissesUpperCase(text, Terms[2], 0);
  }
}
