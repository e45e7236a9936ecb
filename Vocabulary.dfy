/** `VocabularyViewModel`: the words the model extracts from a text, the saved words read
    from the vocabulary table, and the insert and delete calls made on that table. */
module Vocabulary {
  import opened Common
  import opened KotlinText
  import opened ModelResponse

  /** `VocabularyWord`: a word as decoded from the model's reply or read from the table; a
      word not yet saved has no id. Kotlin's `Long` id is unbounded here. */
  datatype VocabularyWord = VocabularyWord(
    id: Option<int>,
    word: string,
    explanation: string,
    persianEquivalent: string,
    example: string)

  /** A row of the vocabulary table, whose id is never null. */
  datatype VocabularyRow = VocabularyRow(
    id: int,
    word: string,
    explanation: string,
    persianEquivalent: string,
    example: string)

  /** `VocabularyUiState`. */
  datatype VocabularyUiState = VocabularyUiState(
    textToExtract: string,
    extractedWords: seq<VocabularyWord>,
    isLoading: bool,
    error: Option<string>)

  /** `VocabularyUiState()`: every field at its default. */
  const InitialState := VocabularyUiState("", [], false, None)

  // ---------------------------------------------------------------------------------------
  // The saved words and the table calls
  // ---------------------------------------------------------------------------------------

  /** The word `savedWords` builds from one row. */
  function WordOfRow(row: VocabularyRow): VocabularyWord {
    VocabularyWord(Some(row.id), row.word, row.explanation, row.persianEquivalent, row.example)
  }

  /** `savedWords`: one word per row, in the rows' order, carrying the row's id and its four
      text fields. */
  function SavedWords(rows: seq<VocabularyRow>): (ws: seq<VocabularyWord>)
    ensures |ws| == |rows|
    ensures forall k :: 0 <= k < |rows| ==>
      && ws[k].id == Some(rows[k].id) && ws[k].word == rows[k].word
      && ws[k].explanation == rows[k].explanation
      && ws[k].persianEquivalent == rows[k].persianEquivalent && ws[k].example == rows[k].example
  {
    seq(|rows|, k requires 0 <= k < |rows| => WordOfRow(rows[k]))
  }

  /** The row a saved word was read from. */
  function RowOfWord(w: VocabularyWord): VocabularyRow
    requires w.id.Some?
  {
    VocabularyRow(w.id.value, w.word, w.explanation, w.persianEquivalent, w.example)
  }

  /** Reading a row as a word loses nothing: the row is recovered from the word. */
  lemma RowOfSavedWord(row: VocabularyRow)
    ensures WordOfRow(row).id.Some? && RowOfWord(WordOfRow(row)) == row
  {
  }

  /** Distinct rows give distinct saved words. */
  lemma SavedWordsInjective(rows: seq<VocabularyRow>, i: nat, j: nat)
    requires i < |rows| && j < |rows| && rows[i] != rows[j]
    ensures SavedWords(rows)[i] != SavedWords(rows)[j]
  {
    RowOfSavedWord(rows[i]);
    RowOfSavedWord(rows[j]);
  }

  /** The mapping works row by row, so a table read in two parts gives the words of the two
      parts in the same order. */
  lemma SavedWordsAppend(a: seq<VocabularyRow>, b: seq<VocabularyRow>)
    ensures SavedWords(a + b) == SavedWords(a) + SavedWords(b)
  {
    var l := SavedWords(a + b);
    var r := SavedWords(a) + SavedWords(b);
    assert |l| == |r|;
    forall k | 0 <= k < |l| ensures l[k] == r[k] {
      if k < |a| {
        assert (a + b)[k] == a[k];
      } else {
        assert (a + b)[k] == b[k - |a|];
      }
    }
  }

  /** The calls the view-model makes on the vocabulary table. */
  datatype QueryCall =
    | InsertWord(word: string, explanation: string, persianEquivalent: string, example: string)
    | DeleteWordById(id: int)

  /** The insert `saveWord` issues: the word's four text fields, and no id. */
  function InsertCall(w: VocabularyWord): (c: QueryCall)
    ensures c.InsertWord?
    ensures c.word == w.word && c.explanation == w.explanation
    ensures c.persianEquivalent == w.persianEquivalent && c.example == w.example
  {
    InsertWord(w.word, w.explanation, w.persianEquivalent, w.example)
  }

  /** The row an insert creates once the table has given it an id. */
  function InsertedRow(c: QueryCall, id: int): VocabularyRow
    requires c.InsertWord?
  {
    VocabularyRow(id, c.word, c.explanation, c.persianEquivalent, c.example)
  }

  /** Whatever id the word carried, saving it and reading the new row back gives the word
      with the table's id in its place. */
  lemma SavedWordReadBack(w: VocabularyWord, id: int)
    ensures WordOfRow(InsertedRow(InsertCall(w), id)) == w.(id := Some(id))
    ensures InsertCall(w.(id := None)) == InsertCall(w)
  {
  }

  // ---------------------------------------------------------------------------------------
  // The prompt
  // ---------------------------------------------------------------------------------------

  const LinguistRole := "You are an expert " + "linguist and English " + "teacher."

  const ExtractionTask := "From the following " + "text, extract the " + "most important " +
    "vocabulary words that " + "a language learner " + "should know."

  const EntryContents := "For each word, " + "provide an " + "explanations in very " +
    "simple terms, the " + "Persian equivalent, " + "and an example " + "sentence. If a verb " +
    "is in the past or " + "past participle form, " + "mention it in the " + "explanation,"

  const EntryNotes := "add additional info " + "inside parenthesis " + "next to each word, if " +
    "it's a noun say if " + "it's countable or " + "not, and if it's a " + "verb say if it's " +
    "transitive or " + "intransitive. Also " + "always type the IPA " + "pronunciation symbols " +
    "for the word in word " + "section."

  const OutputFormat := "Return the result as " + "a single, valid JSON " + "array, where each " +
    "object has the " + "following keys: " + "\"word\", " + "\"explanation\", " +
    "\"persianEquivalent\", " + "\"example\"."

  const OutputOnly := "Do not include any " + "other text or " + "explanations outside " +
    "of the JSON array."

  lemma LinguistRolePieces1OneLine()
    ensures NoLineBreak("You are an expert ")
    ensures NoLineBreak("linguist and English ")
  {
  }

  lemma LinguistRolePieces2OneLine()
    ensures NoLineBreak("teacher.")
  {
  }

  lemma LinguistRoleOneLine()
    ensures NoLineBreak(LinguistRole)
  {
    LinguistRolePieces1OneLine();
    LinguistRolePieces2OneLine();
    var prefix := "You are an expert ";
    NoLineBreakAppend(prefix, "linguist and English ");
    prefix := prefix + "linguist and English ";
    NoLineBreakAppend(prefix, "teacher.");
  }

  lemma ExtractionTaskPieces1OneLine()
    ensures NoLineBreak("From the following ")
    ensures NoLineBreak("text, extract the ")
  {
  }

  lemma ExtractionTaskPieces2OneLine()
    ensures NoLineBreak("most important ")
    ensures NoLineBreak("vocabulary words that ")
  {
  }

  lemma ExtractionTaskPieces3OneLine()
    ensures NoLineBreak("a language learner ")
    ensures NoLineBreak("should know.")
  {
  }

  lemma ExtractionTaskOneLine()
    ensures NoLineBreak(ExtractionTask)
  {
    ExtractionTaskPieces1OneLine();
    ExtractionTaskPieces2OneLine();
    ExtractionTaskPieces3OneLine();
    var prefix := "From the following ";
    NoLineBreakAppend(prefix, "text, extract the ");
    prefix := prefix + "text, extract the ";
    NoLineBreakAppend(prefix, "most important ");
    prefix := prefix + "most important ";
    NoLineBreakAppend(prefix, "vocabulary words that ");
    prefix := prefix + "vocabulary words that ";
    NoLineBreakAppend(prefix, "a language learner ");
    prefix := prefix + "a language learner ";
    NoLineBreakAppend(prefix, "should know.");
  }

  lemma EntryContentsPieces1OneLine()
    ensures NoLineBreak("For each word, ")
    ensures NoLineBreak("provide an ")
  {
  }

  lemma EntryContentsPieces2OneLine()
    ensures NoLineBreak("explanations in very ")
    ensures NoLineBreak("simple terms, the ")
  {
  }

  lemma EntryContentsPieces3OneLine()
    ensures NoLineBreak("Persian equivalent, ")
    ensures NoLineBreak("and an example ")
  {
  }

  lemma EntryContentsPieces4OneLine()
    ensures NoLineBreak("sentence. If a verb ")
    ensures NoLineBreak("is in the past or ")
  {
  }

  lemma EntryContentsPieces5OneLine()
    ensures NoLineBreak("past participle form, ")
    ensures NoLineBreak("mention it in the ")
  {
  }

  lemma EntryContentsPieces6OneLine()
    ensures NoLineBreak("explanation,")
  {
  }

  lemma EntryContentsOneLine()
    ensures NoLineBreak(EntryContents)
  {
    EntryContentsPieces1OneLine();
    EntryContentsPieces2OneLine();
    EntryContentsPieces3OneLine();
    EntryContentsPieces4OneLine();
    EntryContentsPieces5OneLine();
    EntryContentsPieces6OneLine();
    var prefix := "For each word, ";
    NoLineBreakAppend(prefix, "provide an ");
    prefix := prefix + "provide an ";
    NoLineBreakAppend(prefix, "explanations in very ");
    prefix := prefix + "explanations in very ";
    NoLineBreakAppend(prefix, "simple terms, the ");
    prefix := prefix + "simple terms, the ";
    NoLineBreakAppend(prefix, "Persian equivalent, ");
    prefix := prefix + "Persian equivalent, ";
    NoLineBreakAppend(prefix, "and an example ");
    prefix := prefix + "and an example ";
    NoLineBreakAppend(prefix, "sentence. If a verb ");
    prefix := prefix + "sentence. If a verb ";
    NoLineBreakAppend(prefix, "is in the past or ");
    prefix := prefix + "is in the past or ";
    NoLineBreakAppend(prefix, "past participle form, ");
    prefix := prefix + "past participle form, ";
    NoLineBreakAppend(prefix, "mention it in the ");
    prefix := prefix + "mention it in the ";
    NoLineBreakAppend(prefix, "explanation,");
  }

  lemma EntryNotesPieces1OneLine()
    ensures NoLineBreak("add additional info ")
    ensures NoLineBreak("inside parenthesis ")
  {
  }

  lemma EntryNotesPieces2OneLine()
    ensures NoLineBreak("next to each word, if ")
  {
  }

  lemma EntryNotesPieces3OneLine()
    ensures NoLineBreak("it's a noun say if ")
    ensures NoLineBreak("it's countable or ")
  {
  }

  lemma EntryNotesPieces4OneLine()
    ensures NoLineBreak("not, and if it's a ")
    ensures NoLineBreak("verb say if it's ")
  {
  }

  lemma EntryNotesPieces5OneLine()
    ensures NoLineBreak("transitive or ")
    ensures NoLineBreak("intransitive. Also ")
  {
  }

  lemma EntryNotesPieces6OneLine()
    ensures NoLineBreak("always type the IPA ")
  {
  }

  lemma EntryNotesPieces7OneLine()
    ensures NoLineBreak("pronunciation symbols ")
  {
  }

  lemma EntryNotesPieces8OneLine()
    ensures NoLineBreak("for the word in word ")
    ensures NoLineBreak("section.")
  {
  }

  lemma EntryNotesOneLine()
    ensures NoLineBreak(EntryNotes)
  {
    EntryNotesPieces1OneLine();
    EntryNotesPieces2OneLine();
    EntryNotesPieces3OneLine();
    EntryNotesPieces4OneLine();
    EntryNotesPieces5OneLine();
    EntryNotesPieces6OneLine();
    EntryNotesPieces7OneLine();
    EntryNotesPieces8OneLine();
    var prefix := "add additional info ";
    NoLineBreakAppend(prefix, "inside parenthesis ");
    prefix := prefix + "inside parenthesis ";
    NoLineBreakAppend(prefix, "next to each word, if ");
    prefix := prefix + "next to each word, if ";
    NoLineBreakAppend(prefix, "it's a noun say if ");
    prefix := prefix + "it's a noun say if ";
    NoLineBreakAppend(prefix, "it's countable or ");
    prefix := prefix + "it's countable or ";
    NoLineBreakAppend(prefix, "not, and if it's a ");
    prefix := prefix + "not, and if it's a ";
    NoLineBreakAppend(prefix, "verb say if it's ");
    prefix := prefix + "verb say if it's ";
    NoLineBreakAppend(prefix, "transitive or ");
    prefix := prefix + "transitive or ";
    NoLineBreakAppend(prefix, "intransitive. Also ");
    prefix := prefix + "intransitive. Also ";
    NoLineBreakAppend(prefix, "always type the IPA ");
    prefix := prefix + "always type the IPA ";
    NoLineBreakAppend(prefix, "pronunciation symbols ");
    prefix := prefix + "pronunciation symbols ";
    NoLineBreakAppend(prefix, "for the word in word ");
    prefix := prefix + "for the word in word ";
    NoLineBreakAppend(prefix, "section.");
  }

  lemma OutputFormatPieces1OneLine()
    ensures NoLineBreak("Return the result as ")
  {
  }

  lemma OutputFormatPieces2OneLine()
    ensures NoLineBreak("a single, valid JSON ")
    ensures NoLineBreak("array, where each ")
  {
  }

  lemma OutputFormatPieces3OneLine()
    ensures NoLineBreak("object has the ")
    ensures NoLineBreak("following keys: ")
    ensures NoLineBreak("\"word\", ")
  {
  }

  lemma OutputFormatPieces4OneLine()
    ensures NoLineBreak("\"explanation\", ")
    ensures NoLineBreak("\"persianEquivalent\", ")
  {
  }

  lemma OutputFormatPieces5OneLine()
    ensures NoLineBreak("\"example\".")
  {
  }

  lemma OutputFormatOneLine()
    ensures NoLineBreak(OutputFormat)
  {
    OutputFormatPieces1OneLine();
    OutputFormatPieces2OneLine();
    OutputFormatPieces3OneLine();
    OutputFormatPieces4OneLine();
    OutputFormatPieces5OneLine();
    var prefix := "Return the result as ";
    NoLineBreakAppend(prefix, "a single, valid JSON ");
    prefix := prefix + "a single, valid JSON ";
    NoLineBreakAppend(prefix, "array, where each ");
    prefix := prefix + "array, where each ";
    NoLineBreakAppend(prefix, "object has the ");
    prefix := prefix + "object has the ";
    NoLineBreakAppend(prefix, "following keys: ");
    prefix := prefix + "following keys: ";
    NoLineBreakAppend(prefix, "\"word\", ");
    prefix := prefix + "\"word\", ";
    NoLineBreakAppend(prefix, "\"explanation\", ");
    prefix := prefix + "\"explanation\", ";
    NoLineBreakAppend(prefix, "\"persianEquivalent\", ");
    prefix := prefix + "\"persianEquivalent\", ";
    NoLineBreakAppend(prefix, "\"example\".");
  }

  lemma OutputOnlyPieces1OneLine()
    ensures NoLineBreak("Do not include any ")
    ensures NoLineBreak("other text or ")
  {
  }

  lemma OutputOnlyPieces2OneLine()
    ensures NoLineBreak("explanations outside ")
    ensures NoLineBreak("of the JSON array.")
  {
  }

  lemma OutputOnlyOneLine()
    ensures NoLineBreak(OutputOnly)
  {
    OutputOnlyPieces1OneLine();
    OutputOnlyPieces2OneLine();
    var prefix := "Do not include any ";
    NoLineBreakAppend(prefix, "other text or ");
    prefix := prefix + "other text or ";
    NoLineBreakAppend(prefix, "explanations outside ");
    prefix := prefix + "explanations outside ";
    NoLineBreakAppend(prefix, "of the JSON array.");
  }

  const TextHeading := "Here is the text:"

  lemma TextHeadingOneLine()
    ensures NoLineBreak(TextHeading) && TextHeading[0] == 'H'
  {
  }

  /** The fixed lines of the prompt. */
  datatype PromptWording = PromptWording(
    role: string, task: string, contents: string, notes: string, format: string,
    outputOnly: string, textHeading: string)

  /** The wording of `extractWords`'s prompt. */
  const Wording := PromptWording(LinguistRole, ExtractionTask, EntryContents, EntryNotes, OutputFormat,
                                 OutputOnly, TextHeading)

  /** The raw string before `trimIndent`, after interpolating the text: every line at the
      seventh column, the closing line three spaces. */
  function PromptTemplate(w: PromptWording, text: string): string {
    var i := Spaces(7);
    Join([[]] + [i + w.role, i + w.task, i + w.contents, i + w.notes, i + w.format, i + w.outputOnly, "",
                 i + w.textHeading, i + ("\"" + text + "\"")] + [Spaces(3)], "\n")
  }

  /** The prompt `extractWords` sends for a text. */
  function ExtractionPrompt(text: string): string {
    TrimIndent(PromptTemplate(Wording, text))
  }

  /** The prompt's lines without indentation, the text last and in quotes. */
  function PromptLines(w: PromptWording, text: string): seq<string> {
    [w.role, w.task, w.contents, w.notes, w.format, w.outputOnly, "", w.textHeading, "\"" + text + "\""]
  }

  predicate OneLineWording(w: PromptWording) {
    && NoLineBreak(w.role) && NoLineBreak(w.task) && NoLineBreak(w.contents) && NoLineBreak(w.notes)
    && NoLineBreak(w.format) && NoLineBreak(w.outputOnly) && NoLineBreak(w.textHeading)
    && w.textHeading != [] && !IsWhitespace(w.textHeading[0])
  }

  lemma WordingOneLine()
    ensures OneLineWording(Wording)
  {
    LinguistRoleOneLine();
    ExtractionTaskOneLine();
    EntryContentsOneLine();
    EntryNotesOneLine();
    OutputFormatOneLine();
    OutputOnlyOneLine();
    TextHeadingOneLine();
  }

  /** With the text on one line, `trimIndent` removes the seven spaces of every line. */
  lemma PromptUnindented(w: PromptWording, text: string)
    requires OneLineWording(w) && NoLineBreak(text)
    ensures TrimIndent(PromptTemplate(w, text)) == Join(PromptLines(w, text), "\n")
  {
    var i := Spaces(7);
    var body := [i + w.role, i + w.task, i + w.contents, i + w.notes, i + w.format, i + w.outputOnly, "",
                 i + w.textHeading, i + ("\"" + text + "\"")];
    var xs := PromptLines(w, text);
    NoLineBreakAppend("\"", text);
    NoLineBreakAppend("\"" + text, "\"");
    assert forall k :: 0 <= k < |xs| ==> IndentedLine(body[k], xs[k], 7);
    assert xs[7] != [] && !IsWhitespace(xs[7][0]);
    TrimIndentOfIndented(body, xs, 7, Spaces(3));
  }

  /** For a text on one line, the prompt is the six instruction lines, an empty line, the
      heading and the text in quotes, none of them indented. */
  lemma ExtractionPromptText(text: string)
    requires NoLineBreak(text)
    ensures ExtractionPrompt(text) == Join(PromptLines(Wording, text), "\n")
  {
    WordingOneLine();
    PromptUnindented(Wording, text);
  }

  // ---------------------------------------------------------------------------------------
  // State updates
  // ---------------------------------------------------------------------------------------

  /** `onTextChange`: records the text and changes nothing else. */
  function TextChanged(s: VocabularyUiState, text: string): (r: VocabularyUiState)
    ensures r.textToExtract == text && r.(textToExtract := s.textToExtract) == s
  {
    s.(textToExtract := text)
  }

  /** The first update of `extractWords`: loading, with the error cleared. */
  function Loading(s: VocabularyUiState): (r: VocabularyUiState)
    ensures r.isLoading && r.error.None?
    ensures r.(isLoading := s.isLoading, error := s.error) == s
  {
    s.(isLoading := true, error := None)
  }

  /** The reply's text, with a missing text read as "", cleaned of its fence. */
  function CleanedReply(text: Option<string>): string {
    CleanJson(text.GetOr(""))
  }

  /** The model call returned and its cleaned text decoded as a list of words. */
  predicate ExtractionSucceeds(reply: Outcome, decode: string -> Decoded<seq<VocabularyWord>>) {
    reply.Returned? && decode(CleanedReply(reply.text)).Decoded?
  }

  /** The end of `extractWords`: the decoded words, or, when the model call or the decoding
      throws, "Error: " and the message with the earlier words kept. */
  function Extracted(s: VocabularyUiState, reply: Outcome, decode: string -> Decoded<seq<VocabularyWord>>)
    : (r: VocabularyUiState)
    ensures !r.isLoading && r.textToExtract == s.textToExtract
    ensures ExtractionSucceeds(reply, decode) ==>
      && r.extractedWords == decode(CleanedReply(reply.text)).value
      && r.error == s.error
    ensures reply.Threw? ==>
      r.error == Some(ErrorText(reply.message)) && r.extractedWords == s.extractedWords
    ensures reply.Returned? && decode(CleanedReply(reply.text)).DecodeThrew? ==>
      && r.error == Some(ErrorText(decode(CleanedReply(reply.text)).message))
      && r.extractedWords == s.extractedWords
  {
    match reply
    case Threw(m) => s.(error := Some(ErrorText(m)), isLoading := false)
    case Returned(text) =>
      match decode(CleanedReply(text))
      case Decoded(ws) => s.(extractedWords := ws, isLoading := false)
      case DecodeThrew(m) => s.(error := Some(ErrorText(m)), isLoading := false)
  }

  /** A whole extraction: no error exactly when it succeeds, the decoded words then, the
      earlier words otherwise. */
  lemma ExtractionResult(s: VocabularyUiState, reply: Outcome, decode: string -> Decoded<seq<VocabularyWord>>)
    ensures var r := Extracted(Loading(s), reply, decode);
      && (r.error.None? <==> ExtractionSucceeds(reply, decode))
      && r.extractedWords == (if ExtractionSucceeds(reply, decode) then decode(CleanedReply(reply.text)).value
                              else s.extractedWords)
  {
  }

  /** A reply fenced as "```json", content, "```" is decoded from its trimmed content. */
  lemma FencedReplyDecoded(s: VocabularyUiState, x: string, decode: string -> Decoded<seq<VocabularyWord>>)
    requires decode(Trim(x)).Decoded?
    ensures Extracted(s, Returned(Some(JsonFenceOpen + x + FenceClose)), decode).extractedWords
            == decode(Trim(x)).value
  {
    CleanFenced(x);
  }

  // ---------------------------------------------------------------------------------------
  // The view-model
  // ---------------------------------------------------------------------------------------

  /** `VocabularyViewModel`: the `_uiState` flow, and the calls made so far on the
      vocabulary table. The model's answer and the JSON decoder are inputs of
      `ExtractWords`. */
  class VocabularyViewModel {
    var uiState: VocabularyUiState
    var calls: seq<QueryCall>

    constructor()
      ensures uiState == InitialState && calls == []
    {
      uiState := InitialState;
      calls := [];
    }

    method OnTextChange(text: string)
      modifies this
      ensures uiState == TextChanged(old(uiState), text) && calls == old(calls)
    {
      uiState := uiState.(textToExtract := text);
    }

    /** `extractWords`, run to completion; `prompt` is what was sent to the model. */
    method ExtractWords(reply: Outcome, decode: string -> Decoded<seq<VocabularyWord>>) returns (prompt: string)
      modifies this
      ensures prompt == ExtractionPrompt(old(uiState).textToExtract)
      ensures uiState == Extracted(Loading(old(uiState)), reply, decode)
      ensures calls == old(calls)
    {
      uiState := uiState.(isLoading := true, error := None);
      prompt := ExtractionPrompt(uiState.textToExtract);
      match reply {
        case Threw(m) =>
          uiState := uiState.(error := Some(ErrorText(m)), isLoading := false);
        case Returned(text) =>
          var response := text.GetOr("");
          var cleanedResponse := CleanJson(response);
          match decode(cleanedResponse) {
            case Decoded(extractedWords) =>
              uiState := uiState.(extractedWords := extractedWords, isLoading := false);
            case DecodeThrew(m) =>
              uiState := uiState.(error := Some(ErrorText(m)), isLoading := false);
          }
      }
    }

    /** `saveWord`: one insert of the word's text fields. */
    method SaveWord(word: VocabularyWord)
      modifies this
      ensures calls == old(calls) + [InsertCall(word)] && uiState == old(uiState)
    {
      calls := calls + [InsertWord(word.word, word.explanation, word.persianEquivalent, word.example)];
    }

    /** `deleteWord`: one delete by id. */
    method DeleteWord(id: int)
      modifies this
      ensures calls == old(calls) + [DeleteWordById(id)] && uiState == old(uiState)
    {
      calls := calls + [DeleteWordById(id)];
    }
  }
}
