/** `FixMyEnglishViewModel`: the text to correct, the prompt asking the model for a reply in
    three headed sections, the splitting of the reply at its headings, and the loading, result
    and error updates of the screen state. */
module FixMyEnglish {
  import opened Common
  import opened KotlinText

  /** `FixMyEnglishUiState`. */
  datatype FixMyEnglishUiState = FixMyEnglishUiState(
    textToCorrect: string,
    correctedText: string,
    explanation: string,
    alternatives: seq<string>,
    isLoading: bool,
    error: Option<string>)

  /** `FixMyEnglishUiState()`: every field at its default. */
  const InitialState := FixMyEnglishUiState("", "", "", [], false, None)

  /** The section headings the prompt asks for and the reply is split at. */
  const CorrectedMarker := "[CORRECTED]"
  const ExplanationMarker := "[EXPLANATION]"
  const AlternativesMarker := "[ALTERNATIVES]"

  lemma MarkersAreMarkers()
    ensures IsMarker(CorrectedMarker) && IsMarker(ExplanationMarker) && IsMarker(AlternativesMarker)
  {
  }

  // ---------------------------------------------------------------------------------------
  // Splitting the reply
  // ---------------------------------------------------------------------------------------

  /** The text after the first "[CORRECTED]" and before the first "[EXPLANATION]" after it,
      trimmed; a cut whose heading is missing is skipped. */
  function CorrectedSection(response: string): (r: string)
    ensures r == [] || (!IsWhitespace(r[0]) && !IsWhitespace(r[|r| - 1]))
    ensures !Contains(response, CorrectedMarker) ==> r == Trim(SubstringBefore(response, ExplanationMarker))
  {
    Trim(SubstringBefore(SubstringAfter(response, CorrectedMarker), ExplanationMarker))
  }

  /** The text after the first "[EXPLANATION]" and before the first "[ALTERNATIVES]" after
      it, trimmed, with the same rule for a missing heading. */
  function ExplanationSection(response: string): (r: string)
    ensures r == [] || (!IsWhitespace(r[0]) && !IsWhitespace(r[|r| - 1]))
    ensures !Contains(response, ExplanationMarker) ==> r == Trim(SubstringBefore(response, AlternativesMarker))
  {
    Trim(SubstringBefore(SubstringAfter(response, ExplanationMarker), AlternativesMarker))
  }

  /** The trimmed text after the first "[ALTERNATIVES]", split into lines: never empty, and
      possibly the one line "". */
  function AlternativesSection(response: string): (r: seq<string>)
    ensures |r| >= 1 && AllWithoutLineBreak(r)
    ensures !Contains(response, AlternativesMarker) ==> r == Lines(Trim(response))
  {
    var rest := Trim(SubstringAfter(response, AlternativesMarker));
    LinesWithoutLineBreak(rest);
    Lines(rest)
  }

  /** The text between a first marker and the first second marker after it; what comes
      before the first marker may hold the second one. */
  lemma SectionBetween(a: string, d1: string, c: string, d2: string, r: string)
    requires IsMarker(d1) && IsMarker(d2)
    requires !Contains(a, d1) && !Contains(c, d2)
    ensures SubstringBefore(SubstringAfter(a + d1 + c + d2 + r, d1), d2) == c
  {
    assert a + d1 + c + d2 + r == a + d1 + (c + d2 + r);
    AfterSeam(a, d1, c + d2 + r);
    BeforeSeam(c, d2, r);
  }

  /** The text after a first marker, when the second marker does not follow it. */
  lemma SectionToEnd(a: string, d1: string, c: string, d2: string)
    requires IsMarker(d1) && !Contains(a, d1) && !Contains(c, d2)
    ensures SubstringBefore(SubstringAfter(a + d1 + c, d1), d2) == c
  {
    AfterSeam(a, d1, c);
  }

  /** Three marked sections in order, each marker's first occurrence being the one that heads
      its section. */
  lemma ThreeSections(a: string, d1: string, c: string, d2: string, e: string, d3: string, t: string)
    requires IsMarker(d1) && IsMarker(d2) && IsMarker(d3)
    requires !Contains(a, d1) && !Contains(a + d1 + c, d2) && !Contains(a + d1 + c + d2 + e, d3)
    ensures var s := a + d1 + c + d2 + e + d3 + t;
      && SubstringBefore(SubstringAfter(s, d1), d2) == c
      && SubstringBefore(SubstringAfter(s, d2), d3) == e
      && SubstringAfter(s, d3) == t
  {
    assert a + d1 + c + d2 + e + d3 + t == a + d1 + c + d2 + (e + d3 + t);
    var p := a + d1 + c;
    assert p[|a + d1|..] == c;
    if Contains(c, d2) {
      ContainsInSuffix(p, |a + d1|, d2);
    }
    var q := a + d1 + c + d2 + e;
    assert q[|p + d2|..] == e;
    if Contains(e, d3) {
      ContainsInSuffix(q, |p + d2|, d3);
    }
    SectionBetween(a, d1, c, d2, e + d3 + t);
    SectionBetween(a + d1 + c, d2, e, d3, t);
    AfterSeam(a + d1 + c + d2 + e, d3, t);
  }

  /** A reply with its three sections in order, each heading appearing first where it
      heads its section, is split into exactly those sections, trimmed. */
  lemma SectionsOfWellFormedReply(a: string, c: string, e: string, t: string)
    requires !Contains(a, CorrectedMarker)
    requires !Contains(a + CorrectedMarker + c, ExplanationMarker)
    requires !Contains(a + CorrectedMarker + c + ExplanationMarker + e, AlternativesMarker)
    ensures var response := a + CorrectedMarker + c + ExplanationMarker + e + AlternativesMarker + t;
      && CorrectedSection(response) == Trim(c)
      && ExplanationSection(response) == Trim(e)
      && AlternativesSection(response) == Lines(Trim(t))
  {
    MarkersAreMarkers();
    ThreeSections(a, CorrectedMarker, c, ExplanationMarker, e, AlternativesMarker, t);
  }

  /** The corrected text is what follows the first "[CORRECTED]" up to the first
      "[EXPLANATION]" after it, whatever comes before "[CORRECTED]". */
  lemma CorrectedSectionOf(a: string, c: string, r: string)
    requires !Contains(a, CorrectedMarker) && !Contains(c, ExplanationMarker)
    ensures CorrectedSection(a + CorrectedMarker + c + ExplanationMarker + r) == Trim(c)
  {
    MarkersAreMarkers();
    SectionBetween(a, CorrectedMarker, c, ExplanationMarker, r);
  }

  /** With no "[EXPLANATION]" after the first "[CORRECTED]", the corrected text runs to the
      end of the reply. */
  lemma CorrectedSectionToEnd(a: string, c: string)
    requires !Contains(a, CorrectedMarker) && !Contains(c, ExplanationMarker)
    ensures CorrectedSection(a + CorrectedMarker + c) == Trim(c)
  {
    MarkersAreMarkers();
    SectionToEnd(a, CorrectedMarker, c, ExplanationMarker);
  }

  /** The explanation is what follows the first "[EXPLANATION]" up to the first
      "[ALTERNATIVES]" after it, whatever comes before "[EXPLANATION]". */
  lemma ExplanationSectionOf(a: string, e: string, r: string)
    requires !Contains(a, ExplanationMarker) && !Contains(e, AlternativesMarker)
    ensures ExplanationSection(a + ExplanationMarker + e + AlternativesMarker + r) == Trim(e)
  {
    MarkersAreMarkers();
    SectionBetween(a, ExplanationMarker, e, AlternativesMarker, r);
  }

  /** With no "[ALTERNATIVES]" after the first "[EXPLANATION]", the explanation runs to the
      end of the reply. */
  lemma ExplanationSectionToEnd(a: string, e: string)
    requires !Contains(a, ExplanationMarker) && !Contains(e, AlternativesMarker)
    ensures ExplanationSection(a + ExplanationMarker + e) == Trim(e)
  {
    MarkersAreMarkers();
    SectionToEnd(a, ExplanationMarker, e, AlternativesMarker);
  }

  /** Without "[EXPLANATION]", the corrected text runs to the end of the reply. */
  lemma CorrectedWithoutExplanation(response: string)
    requires !Contains(response, ExplanationMarker)
    ensures CorrectedSection(response) == Trim(SubstringAfter(response, CorrectedMarker))
  {
    var after := SubstringAfter(response, CorrectedMarker);
    if Contains(response, CorrectedMarker) {
      assert after == response[|response| - |after|..];
      if Contains(after, ExplanationMarker) {
        ContainsInSuffix(response, |response| - |after|, ExplanationMarker);
      }
    }
  }

  /** A reply with none of the headings is repeated, trimmed, in all three sections. */
  lemma SectionsWithoutHeadings(response: string)
    requires !Contains(response, CorrectedMarker)
    requires !Contains(response, ExplanationMarker)
    requires !Contains(response, AlternativesMarker)
    ensures CorrectedSection(response) == Trim(response)
    ensures ExplanationSection(response) == Trim(response)
    ensures AlternativesSection(response) == Lines(Trim(response))
  {
  }

  /** Joining the alternatives with "\n" gives back the trimmed text after "[ALTERNATIVES]"
      when the reply holds no "\r". */
  lemma AlternativesJoined(response: string)
    requires forall k :: 0 <= k < |response| ==> response[k] != '\r'
    ensures Join(AlternativesSection(response), "\n") == Trim(SubstringAfter(response, AlternativesMarker))
  {
    var after := SubstringAfter(response, AlternativesMarker);
    assert after == response[|response| - |after|..];
    var rest := Trim(after);
    var k0 := LeadingWhitespace(after);
    assert forall k :: 0 <= k < |rest| ==> rest[k] == response[|response| - |after| + k0 + k];
    JoinOfLines(rest);
  }

  // ---------------------------------------------------------------------------------------
  // The prompt
  // ---------------------------------------------------------------------------------------

  const Headings := "headings:"
  const CorrectedHint := "The corrected version of the text."
  const ExplanationHint := "A simple explanation of the mistakes."
  const TextHeading := "Here is the text to correct:"

  const TeacherIntro := "You are an English " + "teacher. Please " + "correct the following " +
    "text and provide the " + "output in the " + "following format, " + "using these exact"

  const AlternativesHint := "A list of 2-3 " + "alternative ways to " + "say it, separated by " +
    "newlines."

  lemma TeacherIntroPieces1OneLine()
    ensures NoLineBreak("You are an English ")
    ensures NoLineBreak("teacher. Please ")
  {
  }

  lemma TeacherIntroPieces2OneLine()
    ensures NoLineBreak("correct the following ")
  {
  }

  lemma TeacherIntroPieces3OneLine()
    ensures NoLineBreak("text and provide the ")
    ensures NoLineBreak("output in the ")
  {
  }

  lemma TeacherIntroPieces4OneLine()
    ensures NoLineBreak("following format, ")
    ensures NoLineBreak("using these exact")
  {
  }

  lemma TeacherIntroOneLine()
    ensures NoLineBreak(TeacherIntro)
  {
    TeacherIntroPieces1OneLine();
    TeacherIntroPieces2OneLine();
    TeacherIntroPieces3OneLine();
    TeacherIntroPieces4OneLine();
    var prefix := "You are an English ";
    NoLineBreakAppend(prefix, "teacher. Please ");
    prefix := prefix + "teacher. Please ";
    NoLineBreakAppend(prefix, "correct the following ");
    prefix := prefix + "correct the following ";
    NoLineBreakAppend(prefix, "text and provide the ");
    prefix := prefix + "text and provide the ";
    NoLineBreakAppend(prefix, "output in the ");
    prefix := prefix + "output in the ";
    NoLineBreakAppend(prefix, "following format, ");
    prefix := prefix + "following format, ";
    NoLineBreakAppend(prefix, "using these exact");
  }

  lemma AlternativesHintPieces1OneLine()
    ensures NoLineBreak("A list of 2-3 ")
    ensures NoLineBreak("alternative ways to ")
  {
  }

  lemma AlternativesHintPieces2OneLine()
    ensures NoLineBreak("say it, separated by ")
    ensures NoLineBreak("newlines.")
  {
  }

  lemma AlternativesHintOneLine()
    ensures NoLineBreak(AlternativesHint)
  {
    AlternativesHintPieces1OneLine();
    AlternativesHintPieces2OneLine();
    var prefix := "A list of 2-3 ";
    NoLineBreakAppend(prefix, "alternative ways to ");
    prefix := prefix + "alternative ways to ";
    NoLineBreakAppend(prefix, "say it, separated by ");
    prefix := prefix + "say it, separated by ";
    NoLineBreakAppend(prefix, "newlines.");
  }

  lemma HintsOneLine()
    ensures NoLineBreak(CorrectedHint) && NoLineBreak(ExplanationHint)
  {
  }

  lemma TextHeadingOneLine()
    ensures NoLineBreak(TextHeading)
  {
  }

  lemma HeadingsOneLine()
    ensures NoLineBreak(Headings) && Headings[0] == 'h'
  {
  }

  lemma MarkersOneLine()
    ensures NoLineBreak(CorrectedMarker) && NoLineBreak(ExplanationMarker) && NoLineBreak(AlternativesMarker)
  {
  }

  /** The fixed lines of the prompt that are not headings of the reply. */
  datatype PromptWording = PromptWording(
    intro: string, headings: string, correctedHint: string, explanationHint: string,
    alternativesHint: string, textHeading: string)

  /** The wording of `correctText`'s prompt. A line break inside its first sentence puts
      "headings:" at the third column of the source. */
  const Wording := PromptWording(TeacherIntro, Headings, CorrectedHint, ExplanationHint, AlternativesHint,
                                 TextHeading)

  /** The raw string before `trimIndent`, after interpolating the text to correct. */
  function PromptTemplate(w: PromptWording, text: string): string {
    var i := Spaces(19);
    Join([[]] + [i + w.intro, Spaces(3) + w.headings, "", i + CorrectedMarker, i + w.correctedHint, "",
                 i + ExplanationMarker, i + w.explanationHint, "", i + AlternativesMarker,
                 i + w.alternativesHint, "", i + w.textHeading, i + ("\"" + text + "\"")] + [Spaces(15)], "\n")
  }

  /** The prompt `correctText` sends for the text to correct. */
  function CorrectionPrompt(text: string): string {
    TrimIndent(PromptTemplate(Wording, text))
  }

  /** The prompt's lines when the smallest indent is the three spaces of "headings:": the
      other lines keep sixteen spaces. */
  function PromptLines(w: PromptWording, text: string): seq<string> {
    var i := Spaces(16);
    [i + w.intro, w.headings, "", i + CorrectedMarker, i + w.correctedHint, "",
     i + ExplanationMarker, i + w.explanationHint, "", i + AlternativesMarker,
     i + w.alternativesHint, "", i + w.textHeading, i + ("\"" + text + "\"")]
  }

  predicate OneLineWording(w: PromptWording) {
    && NoLineBreak(w.intro) && NoLineBreak(w.headings) && NoLineBreak(w.correctedHint)
    && NoLineBreak(w.explanationHint) && NoLineBreak(w.alternativesHint) && NoLineBreak(w.textHeading)
    && w.headings != [] && !IsWhitespace(w.headings[0])
  }

  lemma WordingOneLine()
    ensures OneLineWording(Wording)
  {
    TeacherIntroOneLine();
    HeadingsOneLine();
    HintsOneLine();
    AlternativesHintOneLine();
    TextHeadingOneLine();
  }

  /** Each template line is its prompt line after three more spaces, or empty in both. */
  lemma PromptLinesIndented(w: PromptWording, text: string)
    ensures var i := Spaces(19);
      var body := [i + w.intro, Spaces(3) + w.headings, "", i + CorrectedMarker, i + w.correctedHint, "",
                   i + ExplanationMarker, i + w.explanationHint, "", i + AlternativesMarker,
                   i + w.alternativesHint, "", i + w.textHeading, i + ("\"" + text + "\"")];
      var xs := PromptLines(w, text);
      && |body| == |xs|
      && forall k :: 0 <= k < |xs| ==> IndentedLine(body[k], xs[k], 3)
  {
    var i := Spaces(19);
    var body := [i + w.intro, Spaces(3) + w.headings, "", i + CorrectedMarker, i + w.correctedHint, "",
                 i + ExplanationMarker, i + w.explanationHint, "", i + AlternativesMarker,
                 i + w.alternativesHint, "", i + w.textHeading, i + ("\"" + text + "\"")];
    var xs := PromptLines(w, text);
    var texts := [w.intro, w.headings, "", CorrectedMarker, w.correctedHint, "",
                  ExplanationMarker, w.explanationHint, "", AlternativesMarker,
                  w.alternativesHint, "", w.textHeading, "\"" + text + "\""];
    forall k | 0 <= k < |xs| ensures IndentedLine(body[k], xs[k], 3) {
      if k == 1 {
        assert Spaces(0) == [];
        assert xs[1] == Spaces(0) + w.headings;
      } else if k !in {2, 5, 8, 11} {
        assert body[k] == Spaces(3 + 16) + texts[k] && xs[k] == Spaces(16) + texts[k];
        IndentedDeeper(texts[k], 3, 16);
      }
    }
  }

  /** With the text to correct on one line, `trimIndent` removes three spaces from every
      line of the template. */
  lemma PromptUnindented(w: PromptWording, text: string)
    requires OneLineWording(w) && NoLineBreak(text)
    ensures TrimIndent(PromptTemplate(w, text)) == Join(PromptLines(w, text), "\n")
  {
    var i := Spaces(19);
    var body := [i + w.intro, Spaces(3) + w.headings, "", i + CorrectedMarker, i + w.correctedHint, "",
                 i + ExplanationMarker, i + w.explanationHint, "", i + AlternativesMarker,
                 i + w.alternativesHint, "", i + w.textHeading, i + ("\"" + text + "\"")];
    var xs := PromptLines(w, text);
    PromptLinesIndented(w, text);
    MarkersOneLine();
    NoLineBreakAppend("\"", text);
    NoLineBreakAppend("\"" + text, "\"");
    forall k | 0 <= k < |xs| ensures NoLineBreak(xs[k]) {
      var texts := [w.intro, w.headings, "", CorrectedMarker, w.correctedHint, "",
                    ExplanationMarker, w.explanationHint, "", AlternativesMarker,
                    w.alternativesHint, "", w.textHeading, "\"" + text + "\""];
      if k != 1 && k !in {2, 5, 8, 11} {
        assert xs[k] == Spaces(16) + texts[k];
        NoLineBreakAppend(Spaces(16), texts[k]);
      }
    }
    assert xs[1] == w.headings;
    TrimIndentOfIndented(body, xs, 3, Spaces(15));
  }

  /** For a text on one line, the prompt names the three headings on lines of their own and
      ends with the text in quotes; every line but "headings:" keeps sixteen spaces. */
  lemma CorrectionPromptText(text: string)
    requires NoLineBreak(text)
    ensures CorrectionPrompt(text) == Join(PromptLines(Wording, text), "\n")
  {
    WordingOneLine();
    PromptUnindented(Wording, text);
  }

  // ---------------------------------------------------------------------------------------
  // State updates
  // ---------------------------------------------------------------------------------------

  /** `onTextChange`: records the text and changes nothing else. */
  function TextChanged(s: FixMyEnglishUiState, text: string): (r: FixMyEnglishUiState)
    ensures r.textToCorrect == text && r.(textToCorrect := s.textToCorrect) == s
  {
    s.(textToCorrect := text)
  }

  /** The first update of `correctText`: loading, with any earlier error still shown. */
  function Loading(s: FixMyEnglishUiState): (r: FixMyEnglishUiState)
    ensures r.isLoading && r.error == s.error
    ensures r.(isLoading := s.isLoading) == s
  {
    s.(isLoading := true)
  }

  /** The end of `correctText`: the reply's three sections with the error cleared, or, when
      the model call throws, "Error: " and the message with the sections left as they were.
      A reply without text is split as "". */
  function Corrected(s: FixMyEnglishUiState, reply: Outcome): (r: FixMyEnglishUiState)
    ensures !r.isLoading && r.textToCorrect == s.textToCorrect
    ensures reply.Returned? ==>
      var response := reply.text.GetOr("");
      && r.error.None?
      && r.correctedText == CorrectedSection(response)
      && r.explanation == ExplanationSection(response)
      && r.alternatives == AlternativesSection(response)
    ensures reply.Threw? ==>
      && r.error == Some(ErrorText(reply.message))
      && r.(error := s.error, isLoading := s.isLoading) == s
  {
    match reply
    case Returned(text) =>
      var response := text.GetOr("");
      s.(correctedText := CorrectedSection(response), explanation := ExplanationSection(response),
         alternatives := AlternativesSection(response), isLoading := false, error := None)
    case Threw(m) => s.(error := Some(ErrorText(m)), isLoading := false)
  }

  /** A successful correction of a well-formed reply shows exactly its sections. */
  lemma CorrectedWellFormed(s: FixMyEnglishUiState, a: string, c: string, e: string, t: string)
    requires !Contains(a, CorrectedMarker)
    requires !Contains(a + CorrectedMarker + c, ExplanationMarker)
    requires !Contains(a + CorrectedMarker + c + ExplanationMarker + e, AlternativesMarker)
    ensures var r := Corrected(Loading(s), Returned(Some(a + CorrectedMarker + c + ExplanationMarker + e + AlternativesMarker + t)));
      && r.correctedText == Trim(c) && r.explanation == Trim(e) && r.alternatives == Lines(Trim(t))
      && r.error.None? && !r.isLoading
  {
    SectionsOfWellFormedReply(a, c, e, t);
  }

  // ---------------------------------------------------------------------------------------
  // The view-model
  // ---------------------------------------------------------------------------------------

  /** `FixMyEnglishViewModel`: the `_uiState` flow is the one field; the model's answer is an
      input of `CorrectText`. */
  class FixMyEnglishViewModel {
    var uiState: FixMyEnglishUiState

    constructor()
      ensures uiState == InitialState
    {
      uiState := InitialState;
    }

    method OnTextChange(text: string)
      modifies this
      ensures uiState == TextChanged(old(uiState), text)
    {
      uiState := uiState.(textToCorrect := text);
    }

    /** `correctText`, run to completion; `prompt` is what was sent to the model. */
    method CorrectText(reply: Outcome) returns (prompt: string)
      modifies this
      ensures prompt == CorrectionPrompt(old(uiState).textToCorrect)
      ensures uiState == Corrected(Loading(old(uiState)), reply)
    {
      uiState := uiState.(isLoading := true);
      prompt := CorrectionPrompt(uiState.textToCorrect);
      match reply {
        case Threw(m) =>
          uiState := uiState.(error := Some(ErrorText(m)), isLoading := false);
        case Returned(text) =>
          var response := text.GetOr("");
          var correctedText := CorrectedSection(response);
          var explanation := ExplanationSection(response);
          var alternatives := AlternativesSection(response);
          uiState := uiState.(correctedText := correctedText, explanation := explanation,
                              alternatives := alternatives, isLoading := false, error := None);
      }
    }
  }
}
