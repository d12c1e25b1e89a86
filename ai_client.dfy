// Input truncation applied before text is handed to the language model.
// The scan for injection phrases only writes log lines and never changes the
// text, so it has no counterpart here.

module AiClient {

  /** Python's `text[:m]`: a negative `m` counts from the end of the text. */
  function SlicePrefix(text: string, m: int): (r: string)
    ensures |r| <= |text| && r == text[..|r|]
    ensures 0 <= m ==> |r| == if m < |text| then m else |text|
    ensures m < 0 ==> |r| == if -m < |text| then |text| + m else 0
  {
    if m >= |text| then text
    else if m >= 0 then text[..m]
    else if |text| + m >= 0 then text[..|text| + m]
    else []
  }

  /** `sanitize_input`: cut the text to `maxLength` characters when it is longer. */
  function SanitizeInput(text: string, maxLength: int): (r: string)
    ensures |r| <= |text| && r == text[..|r|]
    ensures 0 <= maxLength ==> |r| == if |text| < maxLength then |text| else maxLength
    ensures |text| <= maxLength ==> r == text
  {
    if |text| > maxLength then SlicePrefix(text, maxLength) else text
  }

  /** Sanitising twice with the same non-negative bound changes nothing more. */
  lemma SanitizeIdempotent(text: string, maxLength: int)
    requires 0 <= maxLength
    ensures SanitizeInput(SanitizeInput(text, maxLength), maxLength) == SanitizeInput(text, maxLength)
  {
  }

  /** Empty input stays empty, whatever the bound. */
  lemma SanitizeEmpty(maxLength: int)
    ensures SanitizeInput("", maxLength) == ""
  {
  }

  /** With a negative bound each call drops characters again, so the call is not idempotent there. */
  lemma NegativeBoundNotIdempotent()
    ensures SanitizeInput("abc", -1) == "ab"
    ensures SanitizeInput(SanitizeInput("abc", -1), -1) == "a"
  {
  }
}
