/** `SimplifyViewModel`: the text to simplify, the one-line prompt built from it, and the
    loading, result and error updates of the screen state. */
module Simplify {
  import opened Common
  import opened KotlinText

  /** `SimplifyUiState`. */
  datatype SimplifyUiState = SimplifyUiState(
    textToSimplify: string,
    simplifiedText: string,
    isLoading: bool,
    error: Option<string>)

  /** `SimplifyUiState()`: every field at its default. */
  const InitialState := SimplifyUiState("", "", false, None)

  const PromptPrefix := "Simplify the following text: "

  /** The prompt `simplifyText` sends: the fixed request followed by the text, which is
      recovered from the prompt by dropping the request. */
  function SimplifyPrompt(text: string): (r: string)
    ensures StartsWith(r, PromptPrefix) && r[|PromptPrefix|..] == text
  {
    PromptPrefix + text
  }

  /** Different texts give different prompts. */
  lemma SimplifyPromptInjective(a: string, b: string)
    requires SimplifyPrompt(a) == SimplifyPrompt(b)
    ensures a == b
  {
    assert a == SimplifyPrompt(a)[|PromptPrefix|..];
  }

  /** `onTextChange`: records the text and changes nothing else. */
  function TextChanged(s: SimplifyUiState, text: string): (r: SimplifyUiState)
    ensures r.textToSimplify == text && r.(textToSimplify := s.textToSimplify) == s
  {
    s.(textToSimplify := text)
  }

  /** The first update of `simplifyText`: loading, with any earlier error still shown. */
  function Loading(s: SimplifyUiState): (r: SimplifyUiState)
    ensures r.isLoading && r.(isLoading := s.isLoading) == s
  {
    s.(isLoading := true)
  }

  /** The end of `simplifyText`: the reply's text ("" when it has none) with the error left
      as it was, or, when the call throws, the exception's message as the error (no "Error: "
      prefix, and null when it has none) with the earlier simplified text kept. */
  function Simplified(s: SimplifyUiState, reply: Outcome): (r: SimplifyUiState)
    ensures !r.isLoading && r.textToSimplify == s.textToSimplify
    ensures reply.Returned? ==> r.simplifiedText == reply.text.GetOr("") && r.error == s.error
    ensures reply.Threw? ==> r.error == reply.message && r.simplifiedText == s.simplifiedText
  {
    match reply
    case Returned(text) => s.(simplifiedText := text.GetOr(""), isLoading := false)
    case Threw(m) => s.(error := m, isLoading := false)
  }

  /** One whole `simplifyText`. */
  function Run(s: SimplifyUiState, reply: Outcome): SimplifyUiState {
    Simplified(Loading(s), reply)
  }

  /** Only a thrown call changes the error. */
  lemma ErrorChangesOnlyOnFailure(s: SimplifyUiState, reply: Outcome)
    ensures Run(s, reply).error != s.error ==> reply.Threw?
    ensures reply.Threw? && reply.message != s.error ==> Run(s, reply).error != s.error
  {
  }

  /** A success after a failure shows the new text next to the old failure's message: the
      error is never cleared. */
  lemma LaterSuccessKeepsError(s: SimplifyUiState, m: Option<string>, text: Option<string>)
    ensures var failed := Run(s, Threw(m));
      var r := Run(failed, Returned(text));
      && r.error == m && r.simplifiedText == text.GetOr("") && !r.isLoading
  {
  }

  /** `SimplifyViewModel`: the `_uiState` flow is the one field; the model's answer is an
      input of `SimplifyText`. */
  class SimplifyViewModel {
    var uiState: SimplifyUiState

    constructor()
      ensures uiState == InitialState
    {
      uiState := InitialState;
    }

    method OnTextChange(text: string)
      modifies this
      ensures uiState == TextChanged(old(uiState), text)
    {
      uiState := uiState.(textToSimplify := text);
    }

    /** `simplifyText`, run to completion; `prompt` is what was sent to the model. */
    method SimplifyText(reply: Outcome) returns (prompt: string)
      modifies this
      ensures prompt == SimplifyPrompt(old(uiState).textToSimplify)
      ensures uiState == Run(old(uiState), reply)
    {
      uiState := uiState.(isLoading := true);
      prompt := PromptPrefix + uiState.textToSimplify;
      match reply {
        case Returned(text) =>
          var simplifiedText := text.GetOr("");
          uiState := uiState.(simplifiedText := simplifiedText, isLoading := false);
        case Threw(m) =>
          uiState := uiState.(error := m, isLoading := false);
      }
    }
  }
}
