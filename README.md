# LinguaLift, modelled in Dafny

LinguaLift is a Kotlin Multiplatform app for English learners. Its screens talk to a hosted
language model: a tutor chat with a long-term memory, a vocabulary extractor, a quiz generator,
a grammar corrector and a text simplifier. Saved words are kept in a SQLite table and shown on
flashcards. This project models the logic behind those screens and proves what it does:

- `Common.dfy`: nullable values, the outcome of a model call (a reply whose text may be null,
  or an exception whose message may be null), the outcome of a JSON decode, the
  `"Error: ${e.message}"` text, and `java.io.File` child paths.
- `KotlinText.dfy`: the Kotlin standard-library string functions the view-models use:
  `trim`, `substringAfter`, `substringBefore`, `lines`, `joinToString`, `removeSurrounding`,
  `trimIndent` and the decimal text of an integer.
- `ModelResponse.dfy`: cleaning a model reply fenced as a JSON code block before decoding.
- `Quiz.dfy`: `QuizViewModel`'s game state, its three handlers, the state `generateQuiz` ends
  in, and the invariant that play keeps the question index on a question.
- `Chat.dfy`: `ChatViewModel`'s message list during `sendMessage`, the seeded history of the
  chat session, the transcript and prompt of `summarizeAndSaveMemory`, and the `updateMemory`
  call it makes.
- `FixMyEnglish.dfy`: the correction prompt, and the split of the reply into the corrected
  text, the explanation and the alternatives.
- `Vocabulary.dfy`: the table row to word mapping of `savedWords`, the extraction prompt, the
  cleaning and decoding of the reply, and the insert and delete calls.
- `Simplify.dfy`: `SimplifyViewModel`'s prompt and state updates.
- `Flashcard.dfy`: the two regular expressions that split a card's word into the word and its
  phonetic spelling, and its explanation into a part of speech and a definition. They are
  specified by the match `java.util.regex` returns (leftmost start, then the shortest lazy
  groups) and implemented by a search that is proved to find exactly that match. The file
  also covers the card's flip and image-picker flags.
- `DatabaseDriver.dfy`: the desktop `createDriver`: reading `user_version` and choosing
  between creating the schema, migrating it and doing nothing.
- `ImageStorage.dfy`: the file-name sanitiser, the name of a copied image, and the desktop
  and Android copies over a store of directories and files.

Each view-model is a class whose one field holds the screen state, as the Kotlin
`MutableStateFlow` does. Each handler is a method that changes that field. The method is
specified by a pure transition function, and the properties are proved about those
functions.

Calls into the language model, the JSON decoder and the database are inputs to the methods:
- a model call is an `Outcome`;
- the decoder is a function value;
- rows read from a table are a sequence;
- a file-system step that may fail is a flag or an optional value.

Two behaviours of the source are stated as proved facts:
- `trimIndent` runs after interpolation. A chat transcript of two or more messages therefore
  brings its second line to column 0, and the consolidation prompt keeps the template's
  indentation (`Chat.ConversationUnindented`, `Chat.SummaryPromptOfConversation`).
- the correction prompt's first sentence is broken before "headings:", which sits three
  spaces in. Every other prompt line therefore keeps its extra indentation
  (`FixMyEnglish.PromptUnindented`).

Source paths below are relative to the repository root.

## Model

| member | source | states |
|---|---|---|
| Common.ErrorText | composeApp/src/commonMain/kotlin/org/example/project/data/ChatViewModel.kt:92 | the failure text starts with "Error: " followed by the exception's message, or by "null" when the message is null |
| Common.ChildPath | composeApp/src/jvmMain/kotlin/org/example/project/util/ImageStorage.jvm.kt:16 | a child path is its parent, one "/" and the child name, so both parts are recovered from it |
| KotlinText.Trim | composeApp/src/commonMain/kotlin/org/example/project/FixMyEnglishViewModel.kt:56-58 | the trimmed text is the input with its leading and trailing whitespace removed, and has no whitespace at either end |
| KotlinText.TrimUnique | composeApp/src/commonMain/kotlin/org/example/project/FixMyEnglishViewModel.kt:56-58 | a text with no whitespace at either end, between whitespace-only ends, is what trim gives back |
| KotlinText.TrimIdempotent | composeApp/src/commonMain/kotlin/org/example/project/FixMyEnglishViewModel.kt:56-58 | trimming twice gives the same text as trimming once |
| KotlinText.IndexOf | composeApp/src/commonMain/kotlin/org/example/project/FixMyEnglishViewModel.kt:56-58 | the position of the first occurrence of the delimiter, present exactly when the text contains it |
| KotlinText.SubstringAfter | composeApp/src/commonMain/kotlin/org/example/project/FixMyEnglishViewModel.kt:56-58 | the text after the first occurrence of the delimiter, or the whole text when the delimiter is absent |
| KotlinText.SubstringBefore | composeApp/src/commonMain/kotlin/org/example/project/FixMyEnglishViewModel.kt:56-58 | the text before the first occurrence of the delimiter, or the whole text when the delimiter is absent |
| KotlinText.Lines | composeApp/src/commonMain/kotlin/org/example/project/FixMyEnglishViewModel.kt:58 | lines() gives at least one line, even for an empty text |
| KotlinText.LinesWithoutLineBreak | composeApp/src/commonMain/kotlin/org/example/project/FixMyEnglishViewModel.kt:58 | no line that lines() gives holds a line break |
| KotlinText.RemoveSurroundingWrapped | composeApp/src/commonMain/kotlin/org/example/project/VocabularyViewModel.kt:92 | removeSurrounding undoes wrapping a text in the prefix and the suffix |
| KotlinText.JoinOfLines | composeApp/src/commonMain/kotlin/org/example/project/FixMyEnglishViewModel.kt:58 | joining the lines of a text without carriage returns with "\n" gives the text back |
| KotlinText.LinesOfJoin | composeApp/src/commonMain/kotlin/org/example/project/data/ChatViewModel.kt:105-107 | splitting lines without line breaks that were joined by "\n" gives back those lines |
| KotlinText.RemoveSurrounding | composeApp/src/commonMain/kotlin/org/example/project/VocabularyViewModel.kt:92 | the prefix and suffix are removed only when the text starts with the one and ends with the other, with room for both; otherwise the text is unchanged |
| KotlinText.Join | composeApp/src/commonMain/kotlin/org/example/project/data/ChatViewModel.kt:52 | joinToString(sep): the parts with the separator between neighbours; JoinOfLines and LinesOfJoin prove it inverse to lines() for single-line parts |
| KotlinText.TrimIndent | composeApp/src/commonMain/kotlin/org/example/project/FixMyEnglishViewModel.kt:37-52 | trimIndent: drops a blank first and last line and cuts the smallest indent of the non-blank lines from every line; its value on the prompt templates is given by TrimIndentOfTemplate |
| KotlinText.TrimIndentOfTemplate | composeApp/src/commonMain/kotlin/org/example/project/FixMyEnglishViewModel.kt:37-52 | trimIndent on a raw string that opens and closes with blank lines drops those lines and removes the smallest indent from every line |
| KotlinText.IntToString | composeApp/src/jvmMain/kotlin/org/example/project/util/ImageStorage.jvm.kt:25-26 | the decimal text of a Long is non-empty and holds only digits and a leading minus sign |
| KotlinText.ParseIntToString | composeApp/src/jvmMain/kotlin/org/example/project/util/ImageStorage.jvm.kt:25-26 | the decimal text of an integer reads back as that integer |
| KotlinText.IntToStringInjective | composeApp/src/jvmMain/kotlin/org/example/project/util/ImageStorage.jvm.kt:25-26 | different integers have different decimal texts |
| ModelResponse.CleanJson | composeApp/src/commonMain/kotlin/org/example/project/VocabularyViewModel.kt:92 | the cleaned reply has no whitespace at either end and is no longer than the reply |
| ModelResponse.CleanFenced | composeApp/src/commonMain/kotlin/org/example/project/VocabularyViewModel.kt:92 | a reply fenced by "```json" and "```" is cleaned to its trimmed content |
| ModelResponse.CleanUnfenced | composeApp/src/commonMain/kotlin/org/example/project/quiz/QuizViewModel.kt:113 | a reply that does not both start with the opening fence and end with the closing fence is only trimmed |
| ModelResponse.CleanKeepsFenceBeforeTrailingWhitespace | composeApp/src/commonMain/kotlin/org/example/project/VocabularyViewModel.kt:92 | a fenced reply followed by whitespace keeps its fence, because the fence is removed before the trim |
| QuizGame.SelectAnswer | composeApp/src/commonMain/kotlin/org/example/project/quiz/QuizViewModel.kt:40-42 | the selected answer becomes the given one, and no other field changes |
| QuizGame.Submit | composeApp/src/commonMain/kotlin/org/example/project/quiz/QuizViewModel.kt:44-56 | with no quiz nothing happens; otherwise the answer is marked submitted, the score rises by exactly one if and only if the selection equals the current question's correct answer and is unchanged otherwise, and no other field changes |
| QuizGame.Next | composeApp/src/commonMain/kotlin/org/example/project/quiz/QuizViewModel.kt:58-75 | before the last question the index rises by one, the selection is cleared, the submitted flag is reset and the score is kept; on the last question, or without a quiz, the game is marked finished and nothing else changes |
| QuizGame.Generated | composeApp/src/commonMain/kotlin/org/example/project/quiz/QuizViewModel.kt:78-120 | a fresh default state apart from the quiz and the error; a quiz exactly when there is no error; the fixed error with fewer than five saved words; "Error: " with the message when the call or the decoding throws; the decoded quiz otherwise |
| QuizGame.PlayKeepsIndexInRange | composeApp/src/commonMain/kotlin/org/example/project/quiz/QuizViewModel.kt:58-75 | from an index on a question of the loaded quiz, every sequence of select, submit and next can run, keeps the index on a question, keeps the quiz, and raises the score by at most the number of submits |
| QuizGame.GeneratedGameStarts | composeApp/src/commonMain/kotlin/org/example/project/quiz/QuizViewModel.kt:114-115 | a generated quiz with at least one question starts on question 0 with score 0, its index in range |
| QuizGame.FinishedStaysFinished | composeApp/src/commonMain/kotlin/org/example/project/quiz/QuizViewModel.kt:71-74 | once finished, the game stays finished whatever sequence of handlers follows |
| QuizGame.QuizViewModel.constructor | composeApp/src/commonMain/kotlin/org/example/project/quiz/QuizViewModel.kt:17-33 | the state starts at the default QuizUiState |
| QuizGame.QuizViewModel.OnAnswerSelected | composeApp/src/commonMain/kotlin/org/example/project/quiz/QuizViewModel.kt:40-42 | the new state is SelectAnswer of the old one |
| QuizGame.QuizViewModel.SubmitAnswer | composeApp/src/commonMain/kotlin/org/example/project/quiz/QuizViewModel.kt:44-56 | the new state is Submit of the old one; the caller keeps the index in range, as the list access demands |
| QuizGame.QuizViewModel.NextQuestion | composeApp/src/commonMain/kotlin/org/example/project/quiz/QuizViewModel.kt:58-75 | the new state is Next of the old one |
| QuizGame.QuizViewModel.GenerateQuiz | composeApp/src/commonMain/kotlin/org/example/project/quiz/QuizViewModel.kt:78-120 | the state ends as Generated for the saved words, the model's reply and the decoder |
| Chat.MemorySummary | composeApp/src/commonMain/kotlin/org/example/project/data/ChatViewModel.kt:108 | the stored memory, or "No summary yet." when the memory table has no row |
| Chat.History | composeApp/src/commonMain/kotlin/org/example/project/data/ChatViewModel.kt:62-67 | four entries: the instruction from the user, the tutor's fixed acknowledgement, the memory message from the user, the fixed memory acknowledgement |
| Chat.InitialHistory | composeApp/src/commonMain/kotlin/org/example/project/data/ChatViewModel.kt:43-68 | getInitialHistory: the four entries of History over the unindented instruction and the memory message; InitialHistoryRoles and SeededMemoryMessage state their roles and texts |
| Chat.UnindentInstruction | composeApp/src/commonMain/kotlin/org/example/project/data/ChatViewModel.kt:44-48 | trimIndent of a raw string whose three one-line lines are indented by twelve spaces and closed by a line of eight gives the three lines without indentation |
| Chat.UnindentMemory | composeApp/src/commonMain/kotlin/org/example/project/data/ChatViewModel.kt:54-60 | trimIndent of the five indented lines of the memory message, one of them empty, gives those lines without indentation, the empty line kept |
| Chat.InitialHistoryRoles | composeApp/src/commonMain/kotlin/org/example/project/data/ChatViewModel.kt:43-68 | the seeded history has four entries, with roles user, model, user, model |
| Chat.SystemInstructionText | composeApp/src/commonMain/kotlin/org/example/project/data/ChatViewModel.kt:44-48 | trimIndent turns the system instruction into its three lines without indentation |
| Chat.LongTermMemoryText | composeApp/src/commonMain/kotlin/org/example/project/data/ChatViewModel.kt:54-60 | with a one-line memory and word list, the memory message is the memory heading, the memory, an empty line, the vocabulary heading and the request followed by the words |
| Chat.SeededMemoryMessage | composeApp/src/commonMain/kotlin/org/example/project/data/ChatViewModel.kt:50-60 | the seeded memory message names the stored memory, or "No summary yet." without one, and the random words joined by ", " |
| Chat.WithPending | composeApp/src/commonMain/kotlin/org/example/project/data/ChatViewModel.kt:70-78 | exactly two messages are appended, the user's message and then a non-user "typing..." placeholder; earlier messages are unchanged and loading is on |
| Chat.ReplyText | composeApp/src/commonMain/kotlin/org/example/project/data/ChatViewModel.kt:82-96 | the reply's text, "Sorry, I couldn't process that." when the text is null, or "Error: " and the message when the call throws |
| Chat.DropLast | composeApp/src/commonMain/kotlin/org/example/project/data/ChatViewModel.kt:87 | dropLast(1) removes the last message and leaves an empty list empty |
| Chat.WithReply | composeApp/src/commonMain/kotlin/org/example/project/data/ChatViewModel.kt:80-98 | loading is off, the last message is replaced by the tutor's reply text, and every earlier message is kept |
| Chat.SendThenReply | composeApp/src/commonMain/kotlin/org/example/project/data/ChatViewModel.kt:70-99 | a message sent and then answered adds exactly the user's message and the tutor's reply, with loading off |
| Chat.ExchangeLog | composeApp/src/commonMain/kotlin/org/example/project/data/ChatViewModel.kt:70-99 | a series of exchanges leaves two messages per exchange: the user's text, then the reply text for its outcome |
| Chat.ConverseLog | composeApp/src/commonMain/kotlin/org/example/project/data/ChatViewModel.kt:70-99 | after a series of sequential exchanges, the earlier messages are unchanged and are followed by the exchange log, with loading off |
| Chat.Transcript | composeApp/src/commonMain/kotlin/org/example/project/data/ChatViewModel.kt:105-107 | the messages joined by "\n", one "User: " or "Gemi: " line each; TranscriptRoundTrip reads it back |
| Chat.TranscriptLinesOneLine | composeApp/src/commonMain/kotlin/org/example/project/data/ChatViewModel.kt:105-107 | one-line messages give transcript lines without line breaks |
| Chat.TranscriptRoundTrip | composeApp/src/commonMain/kotlin/org/example/project/data/ChatViewModel.kt:105-107 | a transcript of one-line messages splits into one line per message, and each line reads back as its message, its "User: " or "Gemi: " prefix giving the sender |
| Chat.PromptUnindented | composeApp/src/commonMain/kotlin/org/example/project/data/ChatViewModel.kt:110-122 | with a one-line old memory and history, trimIndent removes the template's indent from every line of the prompt |
| Chat.SummaryPrompt | composeApp/src/commonMain/kotlin/org/example/project/data/ChatViewModel.kt:105-122 | the consolidation prompt: trimIndent of the template around the transcript and the old memory; its lines are given by SummaryPromptOfOneMessage and SummaryPromptOfConversation |
| Chat.PromptOfOneMessage | composeApp/src/commonMain/kotlin/org/example/project/data/ChatViewModel.kt:105-122 | for any one-line wording, with one one-line message the unindented prompt is the fixed lines, the old memory, the message's transcript line and the closing line |
| Chat.PromptOfConversation | composeApp/src/commonMain/kotlin/org/example/project/data/ChatViewModel.kt:105-122 | for any one-line wording, with two or more one-line messages the prompt keeps the sixteen-space indentation, only the first history line indented, since the second starts at the margin |
| Chat.SummaryPromptOfOneMessage | composeApp/src/commonMain/kotlin/org/example/project/data/ChatViewModel.kt:105-122 | with one message and a one-line old memory, the prompt is the fixed lines, the old memory and the message's transcript line, without indentation |
| Chat.ConversationUnindented | composeApp/src/commonMain/kotlin/org/example/project/data/ChatViewModel.kt:110-122 | a history whose second line starts at the margin leaves the smallest indent at 0, so trimIndent keeps the template's indentation |
| Chat.SummaryPromptOfConversation | composeApp/src/commonMain/kotlin/org/example/project/data/ChatViewModel.kt:105-122 | with two or more one-line messages, the prompt keeps the template's indentation around a history of one line per message |
| Chat.ConsolidationRequest | composeApp/src/commonMain/kotlin/org/example/project/data/ChatViewModel.kt:101-122 | no prompt is sent exactly when there are no messages |
| Chat.MemoryUpdate | composeApp/src/commonMain/kotlin/org/example/project/data/ChatViewModel.kt:101-133 | a summary is handed to updateMemory exactly when there were messages and the model returned text, and it is that text |
| Chat.UpdateCalls | composeApp/src/commonMain/kotlin/org/example/project/data/ChatViewModel.kt:101-133 | at most one updateMemory call, none exactly for an empty chat, a thrown call or a null text, and otherwise UpdateMemory of the returned text |
| Chat.ChatViewModel.constructor | composeApp/src/commonMain/kotlin/org/example/project/data/ChatViewModel.kt:22-41 | an empty chat, not loading, no chat session and no memory writes yet |
| Chat.ChatViewModel.SendMessage | composeApp/src/commonMain/kotlin/org/example/project/data/ChatViewModel.kt:70-79 | the state becomes WithPending of the old one; the session and the memory writes are unchanged |
| Chat.ChatViewModel.CompleteReply | composeApp/src/commonMain/kotlin/org/example/project/data/ChatViewModel.kt:38-98 | the session is created at the first reply from the seeded history over the memory row and random words read then, and kept afterwards; the state becomes WithReply of the old one; the memory writes are unchanged |
| Chat.ChatViewModel.SummarizeAndSaveMemory | composeApp/src/commonMain/kotlin/org/example/project/data/ChatViewModel.kt:101-133 | the prompt is ConsolidationRequest of the old messages and the memory row read when it runs; the updateMemory calls of UpdateCalls are appended to the memory writes; the screen state and the session are unchanged |
| FixMyEnglish.CorrectedSection | composeApp/src/commonMain/kotlin/org/example/project/FixMyEnglishViewModel.kt:56 | the corrected text has no whitespace at either end; without "[CORRECTED]" it is the trimmed text before "[EXPLANATION]"; CorrectedSectionOf and CorrectedSectionToEnd give it when the heading is present |
| FixMyEnglish.ExplanationSection | composeApp/src/commonMain/kotlin/org/example/project/FixMyEnglishViewModel.kt:57 | the explanation has no whitespace at either end; without "[EXPLANATION]" it is the trimmed text before "[ALTERNATIVES]"; ExplanationSectionOf and ExplanationSectionToEnd give it when the heading is present |
| FixMyEnglish.AlternativesSection | composeApp/src/commonMain/kotlin/org/example/project/FixMyEnglishViewModel.kt:58 | at least one alternative and none holds a line break; without "[ALTERNATIVES]" they are the lines of the trimmed reply |
| FixMyEnglish.SectionBetween | composeApp/src/commonMain/kotlin/org/example/project/FixMyEnglishViewModel.kt:56-57 | the text after the first occurrence of a marker and before the first second marker after it is exactly what lies between them, whatever precedes the first marker |
| FixMyEnglish.SectionToEnd | composeApp/src/commonMain/kotlin/org/example/project/FixMyEnglishViewModel.kt:56-57 | when no second marker follows the first occurrence of a marker, the section is everything after that marker |
| FixMyEnglish.CorrectedSectionOf | composeApp/src/commonMain/kotlin/org/example/project/FixMyEnglishViewModel.kt:56 | with text after the first "[CORRECTED]" and up to the next "[EXPLANATION]", the corrected text is that text trimmed, even when "[EXPLANATION]" also occurs earlier |
| FixMyEnglish.CorrectedSectionToEnd | composeApp/src/commonMain/kotlin/org/example/project/FixMyEnglishViewModel.kt:56 | with no "[EXPLANATION]" after the first "[CORRECTED]", the corrected text is everything after the heading, trimmed |
| FixMyEnglish.ExplanationSectionOf | composeApp/src/commonMain/kotlin/org/example/project/FixMyEnglishViewModel.kt:57 | with text after the first "[EXPLANATION]" and up to the next "[ALTERNATIVES]", the explanation is that text trimmed, even when "[ALTERNATIVES]" also occurs earlier |
| FixMyEnglish.ExplanationSectionToEnd | composeApp/src/commonMain/kotlin/org/example/project/FixMyEnglishViewModel.kt:57 | with no "[ALTERNATIVES]" after the first "[EXPLANATION]", the explanation is everything after the heading, trimmed |
| FixMyEnglish.ThreeSections | composeApp/src/commonMain/kotlin/org/example/project/FixMyEnglishViewModel.kt:56-58 | three marked sections in order, each marker first occurring where it heads its section, are recovered exactly |
| FixMyEnglish.SectionsOfWellFormedReply | composeApp/src/commonMain/kotlin/org/example/project/FixMyEnglishViewModel.kt:56-58 | a reply with its three headed sections in order yields the trimmed sections and the lines of the trimmed alternatives |
| FixMyEnglish.CorrectedWithoutExplanation | composeApp/src/commonMain/kotlin/org/example/project/FixMyEnglishViewModel.kt:56 | without "[EXPLANATION]" the corrected text runs to the end of the reply |
| FixMyEnglish.SectionsWithoutHeadings | composeApp/src/commonMain/kotlin/org/example/project/FixMyEnglishViewModel.kt:56-58 | a reply without any heading is repeated, trimmed, in all three sections |
| FixMyEnglish.AlternativesJoined | composeApp/src/commonMain/kotlin/org/example/project/FixMyEnglishViewModel.kt:58 | joining the alternatives with "\n" gives back the trimmed text after "[ALTERNATIVES]", when the reply has no carriage return |
| FixMyEnglish.CorrectionPrompt | composeApp/src/commonMain/kotlin/org/example/project/FixMyEnglishViewModel.kt:37-52 | the correction prompt: trimIndent of the template around the text; CorrectionPromptText gives its lines |
| FixMyEnglish.PromptUnindented | composeApp/src/commonMain/kotlin/org/example/project/FixMyEnglishViewModel.kt:37-52 | for a one-line text, trimIndent removes the three spaces of the least indented line from every line of the prompt |
| FixMyEnglish.CorrectionPromptText | composeApp/src/commonMain/kotlin/org/example/project/FixMyEnglishViewModel.kt:37-52 | for a one-line text, the prompt holds the three headings on their own lines and ends with the text in quotes |
| FixMyEnglish.TextChanged | composeApp/src/commonMain/kotlin/org/example/project/FixMyEnglishViewModel.kt:29-31 | the text to correct becomes the given one, and no other field changes |
| FixMyEnglish.Loading | composeApp/src/commonMain/kotlin/org/example/project/FixMyEnglishViewModel.kt:36 | loading is on, and every other field, the earlier error included, is kept |
| FixMyEnglish.Corrected | composeApp/src/commonMain/kotlin/org/example/project/FixMyEnglishViewModel.kt:54-70 | loading is off; on a reply the three sections are shown and the error is cleared; on a thrown call the error is "Error: " and the message and the earlier sections are kept |
| FixMyEnglish.CorrectedWellFormed | composeApp/src/commonMain/kotlin/org/example/project/FixMyEnglishViewModel.kt:33-72 | a successful correction of a well-formed reply shows exactly its three sections, with no error |
| FixMyEnglish.FixMyEnglishViewModel.constructor | composeApp/src/commonMain/kotlin/org/example/project/FixMyEnglishViewModel.kt:11-22 | the state starts at the default FixMyEnglishUiState |
| FixMyEnglish.FixMyEnglishViewModel.OnTextChange | composeApp/src/commonMain/kotlin/org/example/project/FixMyEnglishViewModel.kt:29-31 | the new state is TextChanged of the old one |
| FixMyEnglish.FixMyEnglishViewModel.CorrectText | composeApp/src/commonMain/kotlin/org/example/project/FixMyEnglishViewModel.kt:33-72 | the prompt is CorrectionPrompt of the old text, and the state ends as Corrected of the loading state |
| Vocabulary.SavedWords | composeApp/src/commonMain/kotlin/org/example/project/VocabularyViewModel.kt:40-54 | one word per row, in order, carrying the row's id and its four text fields |
| Vocabulary.RowOfSavedWord | composeApp/src/commonMain/kotlin/org/example/project/VocabularyViewModel.kt:44-53 | the row is recovered from the word it is read as, so the mapping loses nothing |
| Vocabulary.SavedWordsInjective | composeApp/src/commonMain/kotlin/org/example/project/VocabularyViewModel.kt:44-53 | distinct rows give distinct saved words |
| Vocabulary.SavedWordsAppend | composeApp/src/commonMain/kotlin/org/example/project/VocabularyViewModel.kt:44-53 | the mapping works row by row: the words of two parts of a table are the two parts' words |
| Vocabulary.InsertCall | composeApp/src/commonMain/kotlin/org/example/project/VocabularyViewModel.kt:104-115 | saveWord inserts the word's four text fields and nothing else |
| Vocabulary.SavedWordReadBack | composeApp/src/commonMain/kotlin/org/example/project/VocabularyViewModel.kt:104-115 | a saved word read back from its new row is the word with the table's id; the insert ignores any id the word carried |
| Vocabulary.ExtractionPrompt | composeApp/src/commonMain/kotlin/org/example/project/VocabularyViewModel.kt:80-90 | the extraction prompt: trimIndent of the template around the text; ExtractionPromptText gives its lines |
| Vocabulary.PromptUnindented | composeApp/src/commonMain/kotlin/org/example/project/VocabularyViewModel.kt:80-90 | for a one-line text, trimIndent removes the seven spaces of every line |
| Vocabulary.ExtractionPromptText | composeApp/src/commonMain/kotlin/org/example/project/VocabularyViewModel.kt:80-90 | for a one-line text, the prompt is the six instruction lines, an empty line, the text heading and the text in quotes |
| Vocabulary.TextChanged | composeApp/src/commonMain/kotlin/org/example/project/VocabularyViewModel.kt:71-73 | the text to extract becomes the given one, and no other field changes |
| Vocabulary.Loading | composeApp/src/commonMain/kotlin/org/example/project/VocabularyViewModel.kt:78 | loading is on and the error is cleared; no other field changes |
| Vocabulary.Extracted | composeApp/src/commonMain/kotlin/org/example/project/VocabularyViewModel.kt:91-100 | loading is off; on success the decoded words are shown; a thrown call or decoding gives "Error: " and the message and keeps the earlier words |
| Vocabulary.ExtractionResult | composeApp/src/commonMain/kotlin/org/example/project/VocabularyViewModel.kt:75-102 | after a whole extraction there is no error exactly when the call and the decoding succeed, and the words are the decoded ones then |
| Vocabulary.FencedReplyDecoded | composeApp/src/commonMain/kotlin/org/example/project/VocabularyViewModel.kt:91-96 | a reply fenced as "```json", content, "```" is decoded from its trimmed content |
| Vocabulary.VocabularyViewModel.constructor | composeApp/src/commonMain/kotlin/org/example/project/VocabularyViewModel.kt:38-65 | the default state and no table calls yet |
| Vocabulary.VocabularyViewModel.OnTextChange | composeApp/src/commonMain/kotlin/org/example/project/VocabularyViewModel.kt:71-73 | the new state is TextChanged of the old one, and no table call is made |
| Vocabulary.VocabularyViewModel.ExtractWords | composeApp/src/commonMain/kotlin/org/example/project/VocabularyViewModel.kt:75-102 | the prompt is ExtractionPrompt of the old text; the state ends as Extracted of the loading state; no table call is made |
| Vocabulary.VocabularyViewModel.SaveWord | composeApp/src/commonMain/kotlin/org/example/project/VocabularyViewModel.kt:104-115 | exactly one insert of the word's text fields is appended, and the state is unchanged |
| Vocabulary.VocabularyViewModel.DeleteWord | composeApp/src/commonMain/kotlin/org/example/project/VocabularyViewModel.kt:117-121 | exactly one delete by the id is appended, and the state is unchanged |
| Simplify.SimplifyPrompt | composeApp/src/commonMain/kotlin/org/example/project/SimplifyViewModel.kt:28 | the prompt starts with the fixed request, and the text is whatever follows it |
| Simplify.SimplifyPromptInjective | composeApp/src/commonMain/kotlin/org/example/project/SimplifyViewModel.kt:28 | different texts give different prompts |
| Simplify.TextChanged | composeApp/src/commonMain/kotlin/org/example/project/SimplifyViewModel.kt:20-22 | the text to simplify becomes the given one, and no other field changes |
| Simplify.Loading | composeApp/src/commonMain/kotlin/org/example/project/SimplifyViewModel.kt:27 | loading is on; every other field, the earlier error included, is kept |
| Simplify.Simplified | composeApp/src/commonMain/kotlin/org/example/project/SimplifyViewModel.kt:29-32 | loading is off; on a reply the text ("" when null) is shown with the error kept; on a thrown call the error is the bare message and the earlier text is kept |
| Simplify.ErrorChangesOnlyOnFailure | composeApp/src/commonMain/kotlin/org/example/project/SimplifyViewModel.kt:24-35 | only a thrown call changes the error, and a thrown call with a new message always does |
| Simplify.LaterSuccessKeepsError | composeApp/src/commonMain/kotlin/org/example/project/SimplifyViewModel.kt:29-32 | a success after a failure shows the new text next to the old failure's message: the error is never cleared |
| Simplify.SimplifyViewModel.constructor | composeApp/src/commonMain/kotlin/org/example/project/SimplifyViewModel.kt:38-43 | the state starts at the default SimplifyUiState |
| Simplify.SimplifyViewModel.OnTextChange | composeApp/src/commonMain/kotlin/org/example/project/SimplifyViewModel.kt:20-22 | the new state is TextChanged of the old one |
| Simplify.SimplifyViewModel.SimplifyText | composeApp/src/commonMain/kotlin/org/example/project/SimplifyViewModel.kt:24-35 | the prompt is SimplifyPrompt of the old text, and the state ends as the loading state followed by Simplified |
| Flashcard.CloseSlashSpec | composeApp/src/commonMain/kotlin/org/example/project/ui/Flashcard.kt:78 | the lazy second group ends at the first "/" it reaches through non-terminator characters, and at no "/" before it |
| Flashcard.SpaceSlashSpec | composeApp/src/commonMain/kotlin/org/example/project/ui/Flashcard.kt:78 | the lazy first group ends at the first " /" after which the second group matches; no earlier end matches |
| Flashcard.PhoneticAtSpec | composeApp/src/commonMain/kotlin/org/example/project/ui/Flashcard.kt:78 | the match at a start is the one with the shortest first group, then the shortest second group; none exists when the search finds none |
| Flashcard.FindPhoneticFromSpec | composeApp/src/commonMain/kotlin/org/example/project/ui/Flashcard.kt:78 | the search from a position returns a match that precedes every match starting at or after it, and none when there is none |
| Flashcard.FindPhonetic | composeApp/src/commonMain/kotlin/org/example/project/ui/Flashcard.kt:78 | Regex("(.+?) /(.+?)/").find as a search from position 0; FindPhoneticSpec proves it returns the regex's first match |
| Flashcard.FindPhoneticSpec | composeApp/src/commonMain/kotlin/org/example/project/ui/Flashcard.kt:78 | find returns exactly the match that precedes all others, and nothing exactly when there is no match |
| Flashcard.SplitWord | composeApp/src/commonMain/kotlin/org/example/project/ui/Flashcard.kt:77-84 | without a match, the stored word and no phonetic; with one, a phonetic of at least three characters between slashes |
| Flashcard.SplitWordOfMatch | composeApp/src/commonMain/kotlin/org/example/project/ui/Flashcard.kt:77-84 | with a known first match, the word is the trimmed first group and the phonetic is the second group between slashes |
| Flashcard.SplitWordWithoutMatch | composeApp/src/commonMain/kotlin/org/example/project/ui/Flashcard.kt:81-83 | a word with no match is shown whole, with no phonetic |
| Flashcard.SplitWordAt | composeApp/src/commonMain/kotlin/org/example/project/ui/Flashcard.kt:77-84 | a text whose first " /" ends the first group, and whose first "/" after that ends the second, is split there |
| Flashcard.SplitWordOfEntry | composeApp/src/commonMain/kotlin/org/example/project/ui/Flashcard.kt:77-84 | the stored form "word /ipa/" followed by anything shows the trimmed word and "/ipa/" |
| Flashcard.CloseParenSpec | composeApp/src/commonMain/kotlin/org/example/project/ui/Flashcard.kt:87 | the lazy first group ends at the first ")" followed by a whitespace character that it reaches through non-terminator characters |
| Flashcard.FindParenFromSpec | composeApp/src/commonMain/kotlin/org/example/project/ui/Flashcard.kt:87 | the search from a position returns the match with the leftmost start and then the shortest group, and none when there is none |
| Flashcard.FindParen | composeApp/src/commonMain/kotlin/org/example/project/ui/Flashcard.kt:87 | Regex("\\((.*?)\\)\\s+(.*)").find as a search from position 0; FindParenSpec proves it returns the regex's first match |
| Flashcard.FindParenSpec | composeApp/src/commonMain/kotlin/org/example/project/ui/Flashcard.kt:87 | find returns exactly the first match, and nothing exactly when there is no match |
| Flashcard.SpaceRun | composeApp/src/commonMain/kotlin/org/example/project/ui/Flashcard.kt:87 | the greedy \s+ takes every whitespace character from its start and stops before the first other one |
| Flashcard.DotRun | composeApp/src/commonMain/kotlin/org/example/project/ui/Flashcard.kt:87 | the greedy .* takes every non-terminator character from its start and stops before the first line terminator |
| Flashcard.SplitExplanation | composeApp/src/commonMain/kotlin/org/example/project/ui/Flashcard.kt:86-93 | without a match, no part of speech and the whole explanation; with one, a part of speech and a definition without line terminators |
| Flashcard.SplitExplanationAt | composeApp/src/commonMain/kotlin/org/example/project/ui/Flashcard.kt:86-93 | a text opening with "(" whose first ")" is followed by whitespace and then by non-terminators to its end is split there |
| Flashcard.SplitExplanationOfEntry | composeApp/src/commonMain/kotlin/org/example/project/ui/Flashcard.kt:86-93 | the stored form "(part) definition" shows exactly the part, possibly empty, and the definition |
| Flashcard.SpaceRunOf | composeApp/src/commonMain/kotlin/org/example/project/ui/Flashcard.kt:87 | a whitespace run ended by another character or the end of the text is exactly what \s+ takes |
| Flashcard.DotRunOf | composeApp/src/commonMain/kotlin/org/example/project/ui/Flashcard.kt:87 | a rest of the text without line terminators is exactly what .* takes |
| Flashcard.SplitExplanationWithoutParen | composeApp/src/commonMain/kotlin/org/example/project/ui/Flashcard.kt:90-91 | an explanation without "(" is shown whole, with no part of speech |
| Flashcard.FlashcardState.constructor | composeApp/src/commonMain/kotlin/org/example/project/ui/Flashcard.kt:40 | the card starts face up with the image picker closed |
| Flashcard.FlashcardState.OnCardClick | composeApp/src/commonMain/kotlin/org/example/project/ui/Flashcard.kt:55 | a click turns the card over and leaves the picker as it was |
| Flashcard.FlashcardState.OnAddImageClick | composeApp/src/commonMain/kotlin/org/example/project/ui/Flashcard.kt:177 | the add-image button opens the picker and leaves the card's side as it was |
| Flashcard.FlashcardState.OnImageSelected | composeApp/src/commonMain/kotlin/org/example/project/ui/Flashcard.kt:99-100 | the picker closes whether or not an image came back, and the card's side is kept |
| Flashcard.FlippedAfterParity | composeApp/src/commonMain/kotlin/org/example/project/ui/Flashcard.kt:55 | after an even number of clicks the card shows the side it started on, after an odd number the other |
| DatabaseDriver.JdbcUrl | composeApp/src/jvmMain/kotlin/org/example/project/database/DatabaseDriverFactory.jvm.kt:15 | the connection string is "jdbc:sqlite:" followed by the file's path |
| DatabaseDriver.DatabaseFileInDirectory | composeApp/src/jvmMain/kotlin/org/example/project/database/DatabaseDriverFactory.jvm.kt:12-13 | the database file lies in the directory that is created before the driver opens it |
| DatabaseDriver.ToInt | composeApp/src/jvmMain/kotlin/org/example/project/database/DatabaseDriverFactory.jvm.kt:23 | Long.toInt() gives a 32-bit value equal to the Long modulo 2^32, and the Long itself when it fits |
| DatabaseDriver.CurrentVersion | composeApp/src/jvmMain/kotlin/org/example/project/database/DatabaseDriverFactory.jvm.kt:18-30 | no row or a null column is read as version 0; the result always fits an Int |
| DatabaseDriver.CurrentVersionOfStored | composeApp/src/jvmMain/kotlin/org/example/project/database/DatabaseDriverFactory.jvm.kt:23 | a stored version in the Int range is read back as itself |
| DatabaseDriver.Bootstrap | composeApp/src/jvmMain/kotlin/org/example/project/database/DatabaseDriverFactory.jvm.kt:32-42 | the effects after the version is read: create and stamp for 0, migrate and stamp for a lower version, nothing otherwise; BootstrapDecision and BootstrapFinalVersion state their meaning |
| DatabaseDriver.BootstrapDecision | composeApp/src/jvmMain/kotlin/org/example/project/database/DatabaseDriverFactory.jvm.kt:32-42 | the schema is created exactly once when 0 is read and never otherwise; it is migrated exactly once, from the read version to the schema's, when the read version is non-zero and lower; nothing happens exactly when it is non-zero and not lower |
| DatabaseDriver.BootstrapFinalVersion | composeApp/src/jvmMain/kotlin/org/example/project/database/DatabaseDriverFactory.jvm.kt:32-42 | the stored version afterwards is the schema's when 0 was read, and otherwise the larger of the read version and the schema's |
| DatabaseDriver.BootstrapSettles | composeApp/src/jvmMain/kotlin/org/example/project/database/DatabaseDriverFactory.jvm.kt:32-42 | with a schema version of at least 1, a second run on the stored version does nothing |
| DatabaseDriver.DatabaseDriverFactory.constructor | composeApp/src/jvmMain/kotlin/org/example/project/database/DatabaseDriverFactory.jvm.kt:9 | no effects yet |
| DatabaseDriver.DatabaseDriverFactory.CreateDriver | composeApp/src/jvmMain/kotlin/org/example/project/database/DatabaseDriverFactory.jvm.kt:10-44 | the connection string names the database under the home directory; the effects are the directory creation followed by Bootstrap for the version read |
| ImageStorage.Sanitize | composeApp/src/jvmMain/kotlin/org/example/project/util/ImageStorage.jvm.kt:23 | the same number of code points; every output character is in [a-zA-Z0-9._-]; allowed characters stay in place and every other becomes "_" |
| ImageStorage.SanitizeOfSafe | composeApp/src/androidMain/kotlin/org/example/project/util/ImageStorage.android.kt:21 | a word made of allowed characters is its own sanitised form |
| ImageStorage.SanitizeIdempotent | composeApp/src/jvmMain/kotlin/org/example/project/util/ImageStorage.jvm.kt:23 | sanitising twice is sanitising once |
| ImageStorage.SanitizeAppend | composeApp/src/jvmMain/kotlin/org/example/project/util/ImageStorage.jvm.kt:23 | sanitising works character by character, so it distributes over concatenation |
| ImageStorage.ImageFileName | composeApp/src/jvmMain/kotlin/org/example/project/util/ImageStorage.jvm.kt:25-26 | the name is the sanitised word, "_image_", the timestamp's decimal text and ".jpg", each part recovered from it |
| ImageStorage.ImageFileNameSafe | composeApp/src/androidMain/kotlin/org/example/project/util/ImageStorage.android.kt:32-33 | a name built from a sanitised word holds only allowed characters |
| ImageStorage.ImageFileNameDistinctTimes | composeApp/src/jvmMain/kotlin/org/example/project/util/ImageStorage.jvm.kt:25-26 | copies of one word made at different times get different names |
| ImageStorage.ImageFileNameDistinctWords | composeApp/src/jvmMain/kotlin/org/example/project/util/ImageStorage.jvm.kt:25-26 | copies made at the same time of words that sanitise differently get different names |
| ImageStorage.FileStore.CopyImageDesktop | composeApp/src/jvmMain/kotlin/org/example/project/util/ImageStorage.jvm.kt:8-41 | a picked file that cannot be opened gives null before any change; otherwise the image directory is created when possible; the path of the new file is returned, with the file holding the picked bytes, exactly when the directory exists and the write works, and null with no file written otherwise |
| ImageStorage.FileStore.CopyImageAndroid | composeApp/src/androidMain/kotlin/org/example/project/util/ImageStorage.android.kt:16-48 | a missing directory that cannot be created gives null; no stream, an exception while opening it, or a failing write gives null with no file written; otherwise the new file's path, holding the stream's bytes |
| ImageStorage.CopiedImagePath | composeApp/src/androidMain/kotlin/org/example/project/util/ImageStorage.android.kt:32-33 | on both platforms the copy lies in the image directory, under a name of allowed characters that ends in ".jpg" |

## Left out

- Compose UI: the screens, layouts, colours and enabled conditions are presentation and are not modelled; only the flashcard's two flags are.
- Language-model calls: the SDK is foreign code, so each call is an `Outcome` input. Prompts are modelled as the literal strings the code builds.
- The quiz prompt of `generateQuiz` (`QuizViewModel.kt` lines 88-110) is not modelled: only its outcome enters the state.
- JSON decoding with kotlinx.serialization is a library; it is a function value supplied by the caller, either a decoded value or a thrown exception.
- Coroutines, `viewModelScope` and `StateFlow` ordering: calls are modelled as strictly sequential. Two overlapping `sendMessage` calls, where `dropLast(1)` could remove the wrong message, are not modelled.
- The generated SQL query classes are not shown. Reads are inputs (`savedWords` rows, `getRandomWords`, the memory row), and writes are recorded as calls or effects (`insertWord`, `deleteWordById`, `updateMemory`, the schema creation, migration and version stamp). What SQLite does with them is not modelled, so each read of the memory row (when the chat session is created, and at every `summarizeAndSaveMemory`) is an input of that call, free to reflect an earlier `updateMemory` or not.
- `Chat.ChatViewModel.CompleteReply`: the chat session is created lazily at the first reply, from the memory row and random words read at that moment, which are that call's inputs. The messages the session later accumulates inside the SDK are not modelled.
- `println`, `printStackTrace` and the `onEach` logging of `savedWords` are output only.
- The `stateIn` sharing policy and the initial empty list of `savedWords` are flow plumbing, not modelled.
- Integer widths: Kotlin `Int` scores and indices and `Long` ids and timestamps are unbounded integers, so overflow is not modelled. The one explicit narrowing, `getLong(0)?.toInt()`, is modelled by `DatabaseDriver.ToInt`.
- Strings are sequences of Unicode code points. Kotlin strings are UTF-16, so code counting surrogate pairs as two characters is not modelled. The sanitiser's regular expression matches whole code points, as the model does.
- Regular expressions: only the two flashcard expressions and the sanitiser's character class are modelled, with java.util.regex semantics for `.`, `\s` and lazy groups. The `groupValues.size == 3` test is always true for both expressions, so the model does not test it.
- The card's rotation animation is float-valued and is not modelled; only `isFlipped` is.
- What the flashcard does with the copied image's path (`Flashcard.kt` lines 101-108) calls `updateWordImagePath`, which `VocabularyViewModel` does not define. It is not modelled.
- `QuizGame.Submit`: requires the question index to be in range, because the Kotlin list access throws otherwise and the crash is not handled.
- `FixMyEnglish.AlternativesJoined`: stated for replies without carriage returns, because `lines()` also splits at "\r" and "\r\n" and joining with "\n" cannot restore them.
- `DatabaseDriver.CurrentVersion`: an exception thrown by the version query propagates out of `createDriver` and is not modelled. The `?: 0` after `executeQuery` never applies, because the mapper always returns a value.
- `DatabaseDriver.DatabaseDriverFactory.CreateDriver`: the home directory is a parameter. The JDBC driver, the schema's create and migrate scripts and the `PRAGMA user_version = ...` statement text are represented by their effects.
- `Common.ChildPath`: `java.io.File` path normalisation (duplicate or trailing slashes, relative paths resolved by `absolutePath`) is not modelled; parents are taken to be absolute paths in normal form.
- `ImageStorage.FileStore.CopyImageDesktop`: a write that fails after the new file was opened leaves no file in the model, whereas the JVM may leave an empty or partial file. `mkdirs` also creates the missing parent directory, which the model does not record.
- `ImageStorage.FileStore.CopyImageAndroid`: the same holds for a failing write. The content URI is not modelled; what `openInputStream` yields for it is the `ContentStream` input.
- The iOS image storage, the image pickers, the image downloader, the platform entry points, the API key lookup and the `Database.kt` singleton are platform glue, not modelled.
- `System.currentTimeMillis()` and `System.getProperty("user.home")` are parameters.
