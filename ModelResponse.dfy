/** Cleaning of a language-model reply before JSON decoding, as done by the quiz and the
    vocabulary screens: `response.removeSurrounding("```json", "```").trim()`. */
module ModelResponse {
  import opened KotlinText

  const JsonFenceOpen := "```json"
  const FenceClose := "```"

  /** Strips a "```json" ... "```" fence when the reply both starts and ends with it, then
      trims. */
  function CleanJson(response: string): (r: string)
    ensures r == [] || (!IsWhitespace(r[0]) && !IsWhitespace(r[|r| - 1]))
    ensures |r| <= |response|
  {
    Trim(RemoveSurrounding(response, JsonFenceOpen, FenceClose))
  }

  /** A fenced reply is unwrapped and its content trimmed. */
  lemma CleanFenced(x: string)
    ensures CleanJson(JsonFenceOpen + x + FenceClose) == Trim(x)
  {
    RemoveSurroundingWrapped(JsonFenceOpen, x, FenceClose);
  }

  /** A reply that does not both start with "```json" and end with "```" (with room for both)
      is only trimmed. */
  lemma CleanUnfenced(response: string)
    requires !(|response| >= 10 && StartsWith(response, JsonFenceOpen) && EndsWith(response, FenceClose))
    ensures CleanJson(response) == Trim(response)
  {
  }

  /** The fence is removed before trimming, so a fenced reply followed by whitespace (a final
      newline, say) keeps both fences: the decoder is handed the fenced text. */
  lemma CleanKeepsFenceBeforeTrailingWhitespace(x: string, w: string)
    requires |w| >= 1 && AllWhitespace(w)
    ensures CleanJson(JsonFenceOpen + x + FenceClose + w) == JsonFenceOpen + x + FenceClose
  {
    var f := JsonFenceOpen + x + FenceClose;
    var s := f + w;
    assert s[|s| - 1] == w[|w| - 1];
    assert !EndsWith(s, FenceClose);
    assert f[0] == '`' && f[|f| - 1] == '`';
    assert s == [] + f + w;
    TrimUnique([], f, w);
  }
}
