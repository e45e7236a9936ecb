/** The conversation bookkeeping of `ChatViewModel`: the optimistic "typing..." placeholder
    and its replacement by the reply, the four-entry history the chat session is seeded with,
    and the transcript and prompt used to consolidate the tutor's long-term memory. */
module Chat {
  import opened Common
  import opened KotlinText

  datatype ChatMessage = ChatMessage(text: string, isFromUser: bool)

  datatype ChatUiState = ChatUiState(messages: seq<ChatMessage>, isLoading: bool)

  const InitialState := ChatUiState([], false)

  /** A history entry of the chat session: its role ("user" or "model") and its text. */
  datatype Content = Content(role: string, text: string)

  /** A write to the memory table: `aiMemoryQueries.updateMemory(summary)`. */
  datatype MemoryCall = UpdateMemory(summary: string)

  const TypingText := "typing..."
  const NoReplyText := "Sorry, I couldn't process that."
  const NoSummaryText := "No summary yet."
  const UserPrefix := "User: "
  const TutorPrefix := "Gemi: "
  const TutorAcknowledgement := "Understood. I will act as Gemi, a friendly English tutor."
  const MemoryAcknowledgement := "Okay, I have reviewed the user's memory and vocabulary. I am ready to chat."

  // ---------------------------------------------------------------------------------------
  // The texts of the raw string templates, one constant per template line. Long lines are
  // written as concatenations of short pieces, and each line is shown to hold no line break
  // piece by piece.
  // ---------------------------------------------------------------------------------------

  const TutorStyle := "Keep your responses concise."
  const MemoryHeading := "[USER'S LONG-TERM MEMORY]"
  const VocabularyHeading := "[PRACTICE VOCABULARY]"
  const OldMemoryHeading := "[OLD MEMORY SUMMARY]"
  const LatestChatHeading := "[LATEST CHAT HISTORY]"

  const TutorRole := "You are Gemi, a " + "friendly and patient " + "English language " + "tutor."

  const TutorGoal := "Your goal is to help " + "the user practice " + "their English by " +
    "having a natural " + "conversation."

  const VocabularyRequest := "Please try to " + "naturally use these " + "words in the " +
    "conversation: "

  const ConsolidationTask := "You are an expert in " + "memory " + "consolidation. Read " +
    "through this chat " + "history and the " + "user's old memory " + "summary."

  const ConsolidationGoal := "Create a new, " + "single-paragraph " + "summary of the " +
    "user's key " + "struggles, corrected " + "mistakes, and " + "learned concepts " +
    "from the latest " + "chat."

  const ConsolidationMerge := "Combine this with " + "the most important " +
    "points from the old " + "memory. The new " + "summary should be " + "concise and useful " +
    "for another AI tutor " + "to read to quickly " + "understand the " + "user's progress and " +
    "weak points."

  const ConsolidationClosing := "Please provide only " + "the new, updated " +
    "single-paragraph " + "summary."

  lemma TutorRolePieces1OneLine()
    ensures NoLineBreak("You are Gemi, a ")
    ensures NoLineBreak("friendly and patient ")
  {
  }

  lemma TutorRolePieces2OneLine()
    ensures NoLineBreak("English language ")
    ensures NoLineBreak("tutor.")
  {
  }

  lemma TutorRoleOneLine()
    ensures NoLineBreak(TutorRole)
  {
    TutorRolePieces1OneLine();
    TutorRolePieces2OneLine();
    var prefix := "You are Gemi, a ";
    NoLineBreakAppend(prefix, "friendly and patient ");
    prefix := prefix + "friendly and patient ";
    NoLineBreakAppend(prefix, "English language ");
    prefix := prefix + "English language ";
    NoLineBreakAppend(prefix, "tutor.");
  }

  lemma TutorGoalPieces1OneLine()
    ensures NoLineBreak("Your goal is to help ")
    ensures NoLineBreak("the user practice ")
  {
  }

  lemma TutorGoalPieces2OneLine()
    ensures NoLineBreak("their English by ")
    ensures NoLineBreak("having a natural ")
  {
  }

  lemma TutorGoalPieces3OneLine()
    ensures NoLineBreak("conversation.")
  {
  }

  lemma TutorGoalOneLine()
    ensures NoLineBreak(TutorGoal)
  {
    TutorGoalPieces1OneLine();
    TutorGoalPieces2OneLine();
    TutorGoalPieces3OneLine();
    var prefix := "Your goal is to help ";
    NoLineBreakAppend(prefix, "the user practice ");
    prefix := prefix + "the user practice ";
    NoLineBreakAppend(prefix, "their English by ");
    prefix := prefix + "their English by ";
    NoLineBreakAppend(prefix, "having a natural ");
    prefix := prefix + "having a natural ";
    NoLineBreakAppend(prefix, "conversation.");
  }

  lemma VocabularyRequestPieces1OneLine()
    ensures NoLineBreak("Please try to ")
    ensures NoLineBreak("naturally use these ")
  {
  }

  lemma VocabularyRequestPieces2OneLine()
    ensures NoLineBreak("words in the ")
    ensures NoLineBreak("conversation: ")
  {
  }

  lemma VocabularyRequestOneLine()
    ensures NoLineBreak(VocabularyRequest)
  {
    VocabularyRequestPieces1OneLine();
    VocabularyRequestPieces2OneLine();
    var prefix := "Please try to ";
    NoLineBreakAppend(prefix, "naturally use these ");
    prefix := prefix + "naturally use these ";
    NoLineBreakAppend(prefix, "words in the ");
    prefix := prefix + "words in the ";
    NoLineBreakAppend(prefix, "conversation: ");
  }

  lemma ConsolidationTaskPieces1OneLine()
    ensures NoLineBreak("You are an expert in ")
    ensures NoLineBreak("memory ")
  {
  }

  lemma ConsolidationTaskPieces2OneLine()
    ensures NoLineBreak("consolidation. Read ")
    ensures NoLineBreak("through this chat ")
  {
  }

  lemma ConsolidationTaskPieces3OneLine()
    ensures NoLineBreak("history and the ")
    ensures NoLineBreak("user's old memory ")
  {
  }

  lemma ConsolidationTaskPieces4OneLine()
    ensures NoLineBreak("summary.")
  {
  }

  lemma ConsolidationTaskOneLine()
    ensures NoLineBreak(ConsolidationTask)
  {
    ConsolidationTaskPieces1OneLine();
    ConsolidationTaskPieces2OneLine();
    ConsolidationTaskPieces3OneLine();
    ConsolidationTaskPieces4OneLine();
    var prefix := "You are an expert in ";
    NoLineBreakAppend(prefix, "memory ");
    prefix := prefix + "memory ";
    NoLineBreakAppend(prefix, "consolidation. Read ");
    prefix := prefix + "consolidation. Read ";
    NoLineBreakAppend(prefix, "through this chat ");
    prefix := prefix + "through this chat ";
    NoLineBreakAppend(prefix, "history and the ");
    prefix := prefix + "history and the ";
    NoLineBreakAppend(prefix, "user's old memory ");
    prefix := prefix + "user's old memory ";
    NoLineBreakAppend(prefix, "summary.");
  }

  lemma ConsolidationGoalPieces1OneLine()
    ensures NoLineBreak("Create a new, ")
    ensures NoLineBreak("single-paragraph ")
  {
  }

  lemma ConsolidationGoalPieces2OneLine()
    ensures NoLineBreak("summary of the ")
    ensures NoLineBreak("user's key ")
  {
  }

  lemma ConsolidationGoalPieces3OneLine()
    ensures NoLineBreak("struggles, corrected ")
    ensures NoLineBreak("mistakes, and ")
  {
  }

  lemma ConsolidationGoalPieces4OneLine()
    ensures NoLineBreak("learned concepts ")
    ensures NoLineBreak("from the latest ")
    ensures NoLineBreak("chat.")
  {
  }

  lemma ConsolidationGoalOneLine()
    ensures NoLineBreak(ConsolidationGoal)
  {
    ConsolidationGoalPieces1OneLine();
    ConsolidationGoalPieces2OneLine();
    ConsolidationGoalPieces3OneLine();
    ConsolidationGoalPieces4OneLine();
    var prefix := "Create a new, ";
    NoLineBreakAppend(prefix, "single-paragraph ");
    prefix := prefix + "single-paragraph ";
    NoLineBreakAppend(prefix, "summary of the ");
    prefix := prefix + "summary of the ";
    NoLineBreakAppend(prefix, "user's key ");
    prefix := prefix + "user's key ";
    NoLineBreakAppend(prefix, "struggles, corrected ");
    prefix := prefix + "struggles, corrected ";
    NoLineBreakAppend(prefix, "mistakes, and ");
    prefix := prefix + "mistakes, and ";
    NoLineBreakAppend(prefix, "learned concepts ");
    prefix := prefix + "learned concepts ";
    NoLineBreakAppend(prefix, "from the latest ");
    prefix := prefix + "from the latest ";
    NoLineBreakAppend(prefix, "chat.");
  }

  lemma ConsolidationMergePieces1OneLine()
    ensures NoLineBreak("Combine this with ")
    ensures NoLineBreak("the most important ")
  {
  }

  lemma ConsolidationMergePieces2OneLine()
    ensures NoLineBreak("points from the old ")
    ensures NoLineBreak("memory. The new ")
  {
  }

  lemma ConsolidationMergePieces3OneLine()
    ensures NoLineBreak("summary should be ")
    ensures NoLineBreak("concise and useful ")
  {
  }

  lemma ConsolidationMergePieces4OneLine()
    ensures NoLineBreak("for another AI tutor ")
    ensures NoLineBreak("to read to quickly ")
  {
  }

  lemma ConsolidationMergePieces5OneLine()
    ensures NoLineBreak("understand the ")
    ensures NoLineBreak("user's progress and ")
  {
  }

  lemma ConsolidationMergePieces6OneLine()
    ensures NoLineBreak("weak points.")
  {
  }

  lemma ConsolidationMergeOneLine()
    ensures NoLineBreak(ConsolidationMerge)
  {
    ConsolidationMergePieces1OneLine();
    ConsolidationMergePieces2OneLine();
    ConsolidationMergePieces3OneLine();
    ConsolidationMergePieces4OneLine();
    ConsolidationMergePieces5OneLine();
    ConsolidationMergePieces6OneLine();
    var prefix := "Combine this with ";
    NoLineBreakAppend(prefix, "the most important ");
    prefix := prefix + "the most important ";
    NoLineBreakAppend(prefix, "points from the old ");
    prefix := prefix + "points from the old ";
    NoLineBreakAppend(prefix, "memory. The new ");
    prefix := prefix + "memory. The new ";
    NoLineBreakAppend(prefix, "summary should be ");
    prefix := prefix + "summary should be ";
    NoLineBreakAppend(prefix, "concise and useful ");
    prefix := prefix + "concise and useful ";
    NoLineBreakAppend(prefix, "for another AI tutor ");
    prefix := prefix + "for another AI tutor ";
    NoLineBreakAppend(prefix, "to read to quickly ");
    prefix := prefix + "to read to quickly ";
    NoLineBreakAppend(prefix, "understand the ");
    prefix := prefix + "understand the ";
    NoLineBreakAppend(prefix, "user's progress and ");
    prefix := prefix + "user's progress and ";
    NoLineBreakAppend(prefix, "weak points.");
  }

  lemma ConsolidationClosingPieces1OneLine()
    ensures NoLineBreak("Please provide only ")
    ensures NoLineBreak("the new, updated ")
  {
  }

  lemma ConsolidationClosingPieces2OneLine()
    ensures NoLineBreak("single-paragraph ")
    ensures NoLineBreak("summary.")
  {
  }

  lemma ConsolidationClosingOneLine()
    ensures NoLineBreak(ConsolidationClosing)
  {
    ConsolidationClosingPieces1OneLine();
    ConsolidationClosingPieces2OneLine();
    var prefix := "Please provide only ";
    NoLineBreakAppend(prefix, "the new, updated ");
    prefix := prefix + "the new, updated ";
    NoLineBreakAppend(prefix, "single-paragraph ");
    prefix := prefix + "single-paragraph ";
    NoLineBreakAppend(prefix, "summary.");
  }

  lemma TutorStyleOneLine()
    ensures NoLineBreak(TutorStyle) && TutorStyle[0] == 'K'
  {
  }

  lemma MemoryHeadingOneLine()
    ensures NoLineBreak(MemoryHeading) && MemoryHeading[0] == '['
  {
  }

  lemma VocabularyHeadingOneLine()
    ensures NoLineBreak(VocabularyHeading)
  {
  }

  lemma OldMemoryHeadingOneLine()
    ensures NoLineBreak(OldMemoryHeading)
  {
  }

  lemma LatestChatHeadingOneLine()
    ensures NoLineBreak(LatestChatHeading)
  {
  }

  lemma ShortTextsOneLine()
    ensures NoLineBreak(NoSummaryText) && NoLineBreak(UserPrefix) && NoLineBreak(TutorPrefix)
    ensures NoLineBreak(", ")
  {
  }

  lemma ConsolidationTaskStart()
    ensures ConsolidationTask != [] && ConsolidationTask[0] == 'Y'
  {
  }

  // ---------------------------------------------------------------------------------------
  // The seeded history
  // ---------------------------------------------------------------------------------------

  /** The raw string of the system instruction, before `trimIndent`: an opening line, the
      three lines indented by twelve spaces, and a closing line of eight spaces. */
  function SystemInstructionTemplate(): string {
    var i := Spaces(12);
    Join([[]] + [i + TutorRole, i + TutorGoal, i + TutorStyle] + [Spaces(8)], "\n")
  }

  function SystemInstruction(): string {
    TrimIndent(SystemInstructionTemplate())
  }

  /** The stored memory, or the fallback text when the memory table has no row. */
  function MemorySummary(storedMemory: Option<string>): (r: string)
    ensures storedMemory.Some? ==> r == storedMemory.value
    ensures storedMemory.None? ==> r == NoSummaryText
  {
    storedMemory.GetOr(NoSummaryText)
  }

  /** The raw string of the long-term-memory message, after interpolation and before
      `trimIndent`; the blank line in the middle is empty in the source. */
  function LongTermMemoryTemplate(memorySummary: string, wordList: string): string {
    var i := Spaces(12);
    Join([[]] + [i + MemoryHeading, i + memorySummary, "", i + VocabularyHeading,
                 i + (VocabularyRequest + wordList)] + [Spaces(8)], "\n")
  }

  function LongTermMemory(memorySummary: string, wordList: string): string {
    TrimIndent(LongTermMemoryTemplate(memorySummary, wordList))
  }

  /** The history list: the instruction and the memory message, each acknowledged by the
      model. */
  function History(instruction: string, memoryMessage: string): (r: seq<Content>)
    ensures |r| == 4
    ensures r[0] == Content("user", instruction) && r[2] == Content("user", memoryMessage)
    ensures r[1] == Content("model", TutorAcknowledgement)
    ensures r[3] == Content("model", MemoryAcknowledgement)
  {
    [Content("user", instruction),
     Content("model", TutorAcknowledgement),
     Content("user", memoryMessage),
     Content("model", MemoryAcknowledgement)]
  }

  /** `getInitialHistory`. `randomWords` are the words the vocabulary table's random query
      returns. */
  function InitialHistory(storedMemory: Option<string>, randomWords: seq<string>): seq<Content> {
    History(SystemInstruction(), LongTermMemory(MemorySummary(storedMemory), Join(randomWords, ", ")))
  }

  /** The seeded history has four entries with the roles user, model, user, model. */
  lemma InitialHistoryRoles(storedMemory: Option<string>, randomWords: seq<string>)
    ensures var h := InitialHistory(storedMemory, randomWords);
      && |h| == 4
      && h[0].role == "user" && h[1].role == "model" && h[2].role == "user" && h[3].role == "model"
  {
  }

  /** `trimIndent` on three lines indented by twelve spaces and closed by eight. */
  lemma UnindentInstruction(a: string, b: string, c: string)
    requires NoLineBreak(a) && NoLineBreak(b) && NoLineBreak(c)
    requires c != [] && !IsWhitespace(c[0])
    ensures TrimIndent(Join([[]] + [Spaces(12) + a, Spaces(12) + b, Spaces(12) + c] + [Spaces(8)], "\n"))
         == Join([a, b, c], "\n")
  {
    var xs := [a, b, c];
    assert xs[2] == c;
    TrimIndentOfIndented([Spaces(12) + a, Spaces(12) + b, Spaces(12) + c], xs, 12, Spaces(8));
  }

  /** `trimIndent` turns the system instruction into its three lines without indentation. */
  lemma SystemInstructionText()
    ensures SystemInstruction() == Join([TutorRole, TutorGoal, TutorStyle], "\n")
  {
    TutorRoleOneLine();
    TutorGoalOneLine();
    TutorStyleOneLine();
    UnindentInstruction(TutorRole, TutorGoal, TutorStyle);
  }

  /** `trimIndent` on the five lines of the memory message. */
  lemma UnindentMemory(heading: string, summary: string, vocabularyHeading: string, request: string,
                       wordList: string)
    requires NoLineBreak(heading) && NoLineBreak(summary) && NoLineBreak(vocabularyHeading)
    requires NoLineBreak(request) && NoLineBreak(wordList)
    requires heading != [] && !IsWhitespace(heading[0])
    ensures TrimIndent(Join([[]] + [Spaces(12) + heading, Spaces(12) + summary, "", Spaces(12) + vocabularyHeading,
                                    Spaces(12) + (request + wordList)] + [Spaces(8)], "\n"))
         == Join([heading, summary, "", vocabularyHeading, request + wordList], "\n")
  {
    var i := Spaces(12);
    NoLineBreakAppend(request, wordList);
    var xs := [heading, summary, "", vocabularyHeading, request + wordList];
    assert xs[0] == heading;
    TrimIndentOfIndented([i + heading, i + summary, "", i + vocabularyHeading, i + (request + wordList)],
                         xs, 12, Spaces(8));
  }

  /** With a memory and a word list on one line each, the memory message is its two headed
      sections without the template's indentation. */
  lemma LongTermMemoryText(memorySummary: string, wordList: string)
    requires NoLineBreak(memorySummary) && NoLineBreak(wordList)
    ensures LongTermMemory(memorySummary, wordList)
         == Join([MemoryHeading, memorySummary, "", VocabularyHeading, VocabularyRequest + wordList], "\n")
  {
    MemoryHeadingOneLine();
    VocabularyHeadingOneLine();
    VocabularyRequestOneLine();
    UnindentMemory(MemoryHeading, memorySummary, VocabularyHeading, VocabularyRequest, wordList);
  }

  /** The memory message names the stored memory, or "No summary yet." without one, and the
      practice words joined by ", ". */
  lemma SeededMemoryMessage(storedMemory: Option<string>, randomWords: seq<string>)
    requires storedMemory.Some? ==> NoLineBreak(storedMemory.value)
    requires AllWithoutLineBreak(randomWords)
    ensures var summary := if storedMemory.Some? then storedMemory.value else NoSummaryText;
      InitialHistory(storedMemory, randomWords)[2].text
      == Join([MemoryHeading, summary, "", VocabularyHeading, VocabularyRequest + Join(randomWords, ", ")], "\n")
  {
    ShortTextsOneLine();
    NoLineBreakJoin(randomWords, ", ");
    LongTermMemoryText(MemorySummary(storedMemory), Join(randomWords, ", "));
  }

  // ---------------------------------------------------------------------------------------
  // Sending a message
  // ---------------------------------------------------------------------------------------

  /** The synchronous part of `sendMessage`: the user's message and a placeholder from the
      tutor are appended, and the screen shows it is waiting. */
  function WithPending(s: ChatUiState, userInput: string): (r: ChatUiState)
    ensures |r.messages| == |s.messages| + 2
    ensures r.messages[..|s.messages|] == s.messages
    ensures r.messages[|s.messages|] == ChatMessage(userInput, true)
    ensures r.messages[|s.messages| + 1] == ChatMessage(TypingText, false)
    ensures r.isLoading
  {
    ChatUiState(s.messages + [ChatMessage(userInput, true), ChatMessage(TypingText, false)], true)
  }

  /** The text that replaces the placeholder: the reply, the apology when the reply has no
      text, or "Error: " and the exception's message. */
  function ReplyText(reply: Outcome): (r: string)
    ensures reply.Returned? && reply.text.Some? ==> r == reply.text.value
    ensures reply.Returned? && reply.text.None? ==> r == NoReplyText
    ensures reply.Threw? ==> r == ErrorText(reply.message)
  {
    match reply
    case Returned(text) => text.GetOr(NoReplyText)
    case Threw(m) => ErrorText(m)
  }

  /** Kotlin's `dropLast(1)`, which leaves an empty list empty. */
  function DropLast(ms: seq<ChatMessage>): (r: seq<ChatMessage>)
    ensures ms != [] ==> r == ms[..|ms| - 1]
    ensures ms == [] ==> r == []
  {
    if ms == [] then [] else ms[..|ms| - 1]
  }

  /** The coroutine of `sendMessage` once the model has answered: the last message is
      replaced by the tutor's reply and loading ends. */
  function WithReply(s: ChatUiState, reply: Outcome): (r: ChatUiState)
    ensures !r.isLoading
    ensures |r.messages| >= 1
    ensures s.messages != [] ==> |r.messages| == |s.messages|
    ensures r.messages[..|r.messages| - 1] == DropLast(s.messages)
    ensures r.messages[|r.messages| - 1] == ChatMessage(ReplyText(reply), false)
  {
    ChatUiState(DropLast(s.messages) + [ChatMessage(ReplyText(reply), false)], false)
  }

  /** A message sent and answered adds exactly the user's message and the tutor's reply
      after the earlier messages: the placeholder is gone. */
  lemma SendThenReply(s: ChatUiState, userInput: string, reply: Outcome)
    ensures WithReply(WithPending(s, userInput), reply)
         == ChatUiState(s.messages + [ChatMessage(userInput, true), ChatMessage(ReplyText(reply), false)], false)
  {
    var p := WithPending(s, userInput);
    assert DropLast(p.messages) == s.messages + [ChatMessage(userInput, true)];
  }

  /** A series of messages, each sent and answered before the next is sent. */
  function Converse(s: ChatUiState, exchanges: seq<(string, Outcome)>): ChatUiState
    decreases |exchanges|
  {
    if exchanges == [] then s
    else Converse(WithReply(WithPending(s, exchanges[0].0), exchanges[0].1), exchanges[1..])
  }

  /** The messages a series of exchanges leaves: each user message followed by the tutor's
      reply to it, in order. */
  function ExchangeLog(exchanges: seq<(string, Outcome)>): (r: seq<ChatMessage>)
    ensures |r| == 2 * |exchanges|
    ensures forall i :: 0 <= i < |exchanges| ==>
      r[2 * i] == ChatMessage(exchanges[i].0, true) && r[2 * i + 1] == ChatMessage(ReplyText(exchanges[i].1), false)
    decreases |exchanges|
  {
    if exchanges == [] then []
    else
      var rest := ExchangeLog(exchanges[1..]);
      assert forall i :: 1 <= i < |exchanges| ==> exchanges[i] == exchanges[1..][i - 1];
      [ChatMessage(exchanges[0].0, true), ChatMessage(ReplyText(exchanges[0].1), false)] + rest
  }

  lemma AppendAssoc<T>(a: seq<T>, b: seq<T>, c: seq<T>)
    ensures a + b + c == a + (b + c)
  {
  }

  /** After a series of answered messages, the earlier messages are unchanged, the exchanges
      follow them in order, and the screen is no longer loading. */
  lemma {:induction false} ConverseLog(s: ChatUiState, exchanges: seq<(string, Outcome)>)
    requires exchanges != []
    ensures Converse(s, exchanges) == ChatUiState(s.messages + ExchangeLog(exchanges), false)
    decreases |exchanges|
  {
    var e := exchanges[0];
    var pair := [ChatMessage(e.0, true), ChatMessage(ReplyText(e.1), false)];
    SendThenReply(s, e.0, e.1);
    var t := ChatUiState(s.messages + pair, false);
    if |exchanges| > 1 {
      ConverseLog(t, exchanges[1..]);
      AppendAssoc(s.messages, pair, ExchangeLog(exchanges[1..]));
    } else {
      assert exchanges[1..] == [];
    }
  }

  // ---------------------------------------------------------------------------------------
  // The transcript and the memory consolidation
  // ---------------------------------------------------------------------------------------

  function TranscriptLine(m: ChatMessage): string {
    (if m.isFromUser then UserPrefix else TutorPrefix) + m.text
  }

  /** The transcript's lines: one per message, in order. */
  function TranscriptLines(ms: seq<ChatMessage>): seq<string> {
    seq(|ms|, i requires 0 <= i < |ms| => TranscriptLine(ms[i]))
  }

  /** The chat history handed to the model: one line per message, in order. */
  function Transcript(ms: seq<ChatMessage>): string {
    Join(TranscriptLines(ms), "\n")
  }

  /** Reads a transcript line back: the prefix gives the sender, the rest is the text. */
  function ReadTranscriptLine(line: string): Option<ChatMessage> {
    if StartsWith(line, UserPrefix) then Some(ChatMessage(line[|UserPrefix|..], true))
    else if StartsWith(line, TutorPrefix) then Some(ChatMessage(line[|TutorPrefix|..], false))
    else None
  }

  predicate OneLineMessages(ms: seq<ChatMessage>) {
    forall i :: 0 <= i < |ms| ==> NoLineBreak(ms[i].text)
  }

  /** A transcript line of a one-line message holds no line break and starts with its
      sender's prefix. */
  lemma TranscriptLineFacts(m: ChatMessage)
    requires NoLineBreak(m.text)
    ensures NoLineBreak(TranscriptLine(m))
    ensures TranscriptLine(m)[0] == (if m.isFromUser then 'U' else 'G')
  {
    ShortTextsOneLine();
    NoLineBreakAppend(if m.isFromUser then UserPrefix else TutorPrefix, m.text);
  }

  lemma TranscriptLinesOneLine(ms: seq<ChatMessage>)
    requires OneLineMessages(ms)
    ensures AllWithoutLineBreak(TranscriptLines(ms))
  {
    forall i | 0 <= i < |ms| ensures NoLineBreak(TranscriptLines(ms)[i]) {
      TranscriptLineFacts(ms[i]);
    }
  }

  /** When no message holds a line break, the transcript splits into exactly one line per
      message, and each line gives back its message: who sent it and what it said. */
  lemma TranscriptRoundTrip(ms: seq<ChatMessage>)
    requires |ms| >= 1 && OneLineMessages(ms)
    ensures |Lines(Transcript(ms))| == |ms|
    ensures forall i :: 0 <= i < |ms| ==> ReadTranscriptLine(Lines(Transcript(ms))[i]) == Some(ms[i])
  {
    var ls := TranscriptLines(ms);
    TranscriptLinesOneLine(ms);
    LinesOfJoin(ls);
    forall i | 0 <= i < |ms| ensures ReadTranscriptLine(ls[i]) == Some(ms[i]) {
      var p := if ms[i].isFromUser then UserPrefix else TutorPrefix;
      assert ls[i] == p + ms[i].text;
      assert ls[i][..6] == p;
      assert ls[i][6..] == ms[i].text;
      if !ms[i].isFromUser {
        TranscriptLineFacts(ms[i]);
      }
    }
  }

  /** The six fixed lines of a consolidation prompt. */
  datatype PromptWording = PromptWording(
    task: string, goal: string, merge: string, oldMemoryHeading: string, chatHeading: string, closing: string)

  /** The fixed lines of `summarizeAndSaveMemory`'s prompt. */
  const Wording := PromptWording(ConsolidationTask, ConsolidationGoal, ConsolidationMerge, OldMemoryHeading,
                                 LatestChatHeading, ConsolidationClosing)

  /** The prompt's lines before the chat history, each indented by `i`, for the fixed lines
      `t`; the blank lines are empty in the source. */
  function PromptHead(t: PromptWording, i: string, oldMemory: string): seq<string>
  {
    [i + t.task, i + t.goal, i + t.merge, "", i + t.oldMemoryHeading, i + oldMemory, "", i + t.chatHeading]
  }

  /** The prompt's lines after the chat history. */
  function PromptTail(t: PromptWording, i: string): seq<string>
  {
    ["", i + t.closing]
  }

  /** A raw string of the prompt's shape, after interpolation and before `trimIndent`: an
      opening line, the lines indented by sixteen spaces, and a closing line of twelve
      spaces. */
  function PromptTemplate(t: PromptWording, chatHistory: string, oldMemory: string): string
  {
    var i := Spaces(16);
    Join([[]] + (PromptHead(t, i, oldMemory) + [i + chatHistory] + PromptTail(t, i)) + [Spaces(12)], "\n")
  }

  function SummaryPromptTemplate(chatHistory: string, oldMemory: string): string {
    PromptTemplate(Wording, chatHistory, oldMemory)
  }

  function SummaryPrompt(ms: seq<ChatMessage>, oldMemory: string): string {
    TrimIndent(SummaryPromptTemplate(Transcript(ms), oldMemory))
  }

  /** Fixed lines without line breaks, the first starting at a non-whitespace character. */
  predicate OneLineWording(t: PromptWording) {
    && NoLineBreak(t.task) && NoLineBreak(t.goal) && NoLineBreak(t.merge)
    && NoLineBreak(t.oldMemoryHeading) && NoLineBreak(t.chatHeading) && NoLineBreak(t.closing)
    && t.task != [] && !IsWhitespace(t.task[0])
  }

  lemma WordingOneLine()
    ensures OneLineWording(Wording)
  {
    ConsolidationTaskOneLine();
    ConsolidationGoalOneLine();
    ConsolidationMergeOneLine();
    ConsolidationTaskStart();
    OldMemoryHeadingOneLine();
    LatestChatHeadingOneLine();
    ConsolidationClosingOneLine();
  }

  /** Each line of the template around a one-line chat history is the unindented line
      after sixteen spaces, or empty in both. */
  lemma PromptLinesIndented(t: PromptWording, oldMemory: string, line: string)
    ensures var body := PromptHead(t, Spaces(16), oldMemory) + [Spaces(16) + line] + PromptTail(t, Spaces(16));
      var xs := PromptHead(t, [], oldMemory) + [line] + PromptTail(t, []);
      && |body| == |xs| == 11
      && forall k :: 0 <= k < |xs| ==> IndentedLine(body[k], xs[k], 16)
  {
    var i := Spaces(16);
    var body := PromptHead(t, i, oldMemory) + [i + line] + PromptTail(t, i);
    var xs := PromptHead(t, [], oldMemory) + [line] + PromptTail(t, []);
    forall k | 0 <= k < |xs| ensures IndentedLine(body[k], xs[k], 16) {
      if k < 8 {
        assert body[k] == PromptHead(t, i, oldMemory)[k] && xs[k] == PromptHead(t, [], oldMemory)[k];
      } else if k > 8 {
        assert body[k] == PromptTail(t, i)[k - 9] && xs[k] == PromptTail(t, [])[k - 9];
      }
    }
  }

  /** With the old memory and the chat history on one line each, `trimIndent` removes the
      template's indentation from every line. */
  lemma PromptUnindented(t: PromptWording, oldMemory: string, line: string)
    requires OneLineWording(t) && NoLineBreak(line) && NoLineBreak(oldMemory)
    ensures TrimIndent(PromptTemplate(t, line, oldMemory)) == Join(PromptHead(t, [], oldMemory) + [line] + PromptTail(t, []), "\n")
  {
    var i := Spaces(16);
    var body := PromptHead(t, i, oldMemory) + [i + line] + PromptTail(t, i);
    var xs := PromptHead(t, [], oldMemory) + [line] + PromptTail(t, []);
    PromptLinesIndented(t, oldMemory, line);
    forall k | 0 <= k < |xs| ensures NoLineBreak(xs[k]) {
      if k < 8 {
        assert xs[k] == PromptHead(t, [], oldMemory)[k];
      } else if k > 8 {
        assert xs[k] == PromptTail(t, [])[k - 9];
      }
    }
    assert xs[0] == t.task;
    TrimIndentOfIndented(body, xs, 16, Spaces(12));
  }

  /** With one one-line message, the prompt is the fixed lines, the old memory and the
      message's transcript line, without the template's indentation. */
  lemma PromptOfOneMessage(t: PromptWording, m: ChatMessage, oldMemory: string)
    requires OneLineWording(t) && NoLineBreak(m.text) && NoLineBreak(oldMemory)
    ensures TrimIndent(PromptTemplate(t, Transcript([m]), oldMemory))
         == Join(PromptHead(t, [], oldMemory) + [TranscriptLine(m)] + PromptTail(t, []), "\n")
  {
    assert Transcript([m]) == TranscriptLine(m);
    TranscriptLineFacts(m);
    PromptUnindented(t, oldMemory, TranscriptLine(m));
  }

  /** With one message and a one-line old memory, the consolidation prompt is its fixed
      lines, the old memory and the message's transcript line, all at the margin. */
  lemma SummaryPromptOfOneMessage(m: ChatMessage, oldMemory: string)
    requires NoLineBreak(m.text) && NoLineBreak(oldMemory)
    ensures SummaryPrompt([m], oldMemory)
         == Join(PromptHead(Wording, [], oldMemory) + [TranscriptLine(m)] + PromptTail(Wording, []), "\n")
  {
    WordingOneLine();
    PromptOfOneMessage(Wording, m, oldMemory);
  }

  /** The prompt's lines when the chat history's lines `tl` are split out: the fixed lines
      and the first history line keep the template's 16 spaces, the later history lines
      start at the margin. */
  function ConversationLines(t: PromptWording, tl: seq<string>, oldMemory: string): seq<string>
    requires |tl| >= 1
  {
    var i := Spaces(16);
    PromptHead(t, i, oldMemory) + [i + tl[0]] + tl[1..] + PromptTail(t, i)
  }

  lemma Regroup<T>(a: seq<T>, b: seq<T>, m: seq<T>, c: seq<T>, d: seq<T>)
    ensures a + (b + m + c) + d == (a + b) + m + (c + d)
  {
  }

  lemma PrefixAssoc<T>(a: seq<T>, b: seq<T>, c: seq<T>, d: seq<T>)
    ensures a + (b + c + d) == (a + b) + c + d
  {
  }

  lemma SpliceAssoc<T>(b: seq<T>, x: T, r: seq<T>, c: seq<T>)
    ensures b + ([x] + r) + c == b + [x] + r + c
  {
  }

  /** A line that holds line breaks, read as the lines it is made of. */
  lemma JoinSplice(head: seq<string>, line: string, rest: seq<string>, tail: seq<string>)
    requires |head| >= 1 && |rest| >= 1 && |tail| >= 1
    ensures Join(head + [line + "\n" + Join(rest, "\n")] + tail, "\n") == Join(head + ([line] + rest) + tail, "\n")
  {
    assert ([line] + rest)[1..] == rest;
    JoinAppend(head, [line] + rest, "\n");
    JoinAppend(head + ([line] + rest), tail, "\n");
    JoinAppend(head, [line + "\n" + Join(rest, "\n")], "\n");
    JoinAppend(head + [line + "\n" + Join(rest, "\n")], tail, "\n");
  }

  /** A chat history of several lines, placed on the template's history line, becomes those
      lines, the first after the template's indentation. */
  lemma ConversationTemplateLines(t: PromptWording, tl: seq<string>, oldMemory: string)
    requires |tl| >= 2
    ensures PromptTemplate(t, Join(tl, "\n"), oldMemory) == Join([[]] + ConversationLines(t, tl, oldMemory) + [Spaces(12)], "\n")
  {
    var i := Spaces(16);
    var head := PromptHead(t, i, oldMemory);
    var tail := PromptTail(t, i);
    var opening: seq<string> := [[]];
    var closing := [Spaces(12)];
    assert Join(tl, "\n") == tl[0] + "\n" + Join(tl[1..], "\n");
    PrefixAssoc(i, tl[0], "\n", Join(tl[1..], "\n"));
    Regroup(opening, head, [i + Join(tl, "\n")], tail, closing);
    JoinSplice(opening + head, i + tl[0], tl[1..], tail + closing);
    Regroup(opening, head, [i + tl[0]] + tl[1..], tail, closing);
    SpliceAssoc(head, i + tl[0], tl[1..], tail);
  }

  lemma ConversationLinesOneLine(t: PromptWording, tl: seq<string>, oldMemory: string)
    requires OneLineWording(t) && |tl| >= 1 && AllWithoutLineBreak(tl) && NoLineBreak(oldMemory)
    ensures AllWithoutLineBreak(ConversationLines(t, tl, oldMemory))
    ensures |tl| >= 2 ==> ConversationLines(t, tl, oldMemory)[9] == tl[1]
  {
    var i := Spaces(16);
    var head := PromptHead(t, i, oldMemory);
    var tail := PromptTail(t, i);
    var body := ConversationLines(t, tl, oldMemory);
    forall k | 0 <= k < |body| ensures NoLineBreak(body[k]) {
      if k < 8 {
        assert body[k] == head[k];
        NoLineBreakAppend(i, [t.task, t.goal, t.merge, "", t.oldMemoryHeading, oldMemory, "", t.chatHeading][k]);
      } else if k == 8 {
        NoLineBreakAppend(i, tl[0]);
      } else if k < |body| - 2 {
        assert body[k] == tl[k - 8];
      } else {
        assert body[k] == tail[k - |body| + 2];
        NoLineBreakAppend(i, t.closing);
      }
    }
  }

  /** A history of several one-line lines whose second line starts at the margin: the
      smallest indent is 0 and `trimIndent` only drops the opening and closing lines. */
  lemma ConversationUnindented(t: PromptWording, tl: seq<string>, oldMemory: string)
    requires OneLineWording(t) && |tl| >= 2 && AllWithoutLineBreak(tl) && NoLineBreak(oldMemory)
    requires tl[1] != [] && !IsWhitespace(tl[1][0])
    ensures TrimIndent(PromptTemplate(t, Join(tl, "\n"), oldMemory)) == Join(ConversationLines(t, tl, oldMemory), "\n")
  {
    var body := ConversationLines(t, tl, oldMemory);
    ConversationTemplateLines(t, tl, oldMemory);
    ConversationLinesOneLine(t, tl, oldMemory);
    TrimIndentOfFlush(body, 9, Spaces(12));
  }

  /** With two or more one-line messages the transcript's second line starts at the margin. */
  lemma PromptOfConversation(t: PromptWording, ms: seq<ChatMessage>, oldMemory: string)
    requires OneLineWording(t) && |ms| >= 2 && OneLineMessages(ms) && NoLineBreak(oldMemory)
    ensures TrimIndent(PromptTemplate(t, Transcript(ms), oldMemory)) == Join(ConversationLines(t, TranscriptLines(ms), oldMemory), "\n")
  {
    var tl := TranscriptLines(ms);
    TranscriptLinesOneLine(ms);
    TranscriptLineFacts(ms[1]);
    assert tl[1] == TranscriptLine(ms[1]);
    ConversationUnindented(t, tl, oldMemory);
  }

  /** With two or more messages the transcript's second line starts at the margin, so
      `trimIndent` keeps the template's 16 spaces on every fixed line of the prompt. */
  lemma SummaryPromptOfConversation(ms: seq<ChatMessage>, oldMemory: string)
    requires |ms| >= 2 && OneLineMessages(ms) && NoLineBreak(oldMemory)
    ensures SummaryPrompt(ms, oldMemory) == Join(ConversationLines(Wording, TranscriptLines(ms), oldMemory), "\n")
  {
    WordingOneLine();
    PromptOfConversation(Wording, ms, oldMemory);
  }

  /** What `summarizeAndSaveMemory` sends to the model: nothing without messages, otherwise
      the consolidation prompt over the transcript and the stored memory or its fallback. */
  function ConsolidationRequest(messages: seq<ChatMessage>, storedMemory: Option<string>): (r: Option<string>)
    ensures r.None? <==> messages == []
  {
    if messages == [] then None else Some(SummaryPrompt(messages, MemorySummary(storedMemory)))
  }

  /** The summary `summarizeAndSaveMemory` hands to `updateMemory`, if it calls it at all:
      only when there was a conversation and the model returned text, and then that text. */
  function MemoryUpdate(messages: seq<ChatMessage>, reply: Outcome): (r: Option<string>)
    ensures r.Some? <==> messages != [] && reply.Returned? && reply.text.Some?
    ensures r.Some? ==> r == reply.text
  {
    if messages == [] then None
    else match reply
      case Returned(t) => t
      case Threw(_) => None
  }

  /** The `updateMemory` calls one `summarizeAndSaveMemory` issues: at most one. */
  function UpdateCalls(messages: seq<ChatMessage>, reply: Outcome): (r: seq<MemoryCall>)
    ensures |r| <= 1
    ensures r == [] <==> messages == [] || reply.Threw? || reply.text.None?
    ensures forall i | 0 <= i < |r| :: reply.Returned? && r[i] == UpdateMemory(reply.text.value)
  {
    match MemoryUpdate(messages, reply)
    case Some(summary) => [UpdateMemory(summary)]
    case None => []
  }

  // ---------------------------------------------------------------------------------------
  // The view-model
  // ---------------------------------------------------------------------------------------

  /** `ChatViewModel`: the screen state, the history the lazily created chat session was
      seeded with (None until the first reply is awaited), and the writes it made to the
      memory table. The memory row, read afresh at each use, the vocabulary table's random
      words and the model's answers are inputs. */
  class ChatViewModel {
    var uiState: ChatUiState
    var sessionHistory: Option<seq<Content>>
    var memoryCalls: seq<MemoryCall>

    constructor()
      ensures uiState == InitialState && sessionHistory.None? && memoryCalls == []
    {
      uiState := InitialState;
      sessionHistory := None;
      memoryCalls := [];
    }

    /** `sendMessage` up to the launch of its coroutine. */
    method SendMessage(userInput: string)
      modifies this
      ensures uiState == WithPending(old(uiState), userInput)
      ensures sessionHistory == old(sessionHistory) && memoryCalls == old(memoryCalls)
    {
      var userMessage := ChatMessage(userInput, true);
      var loadingMessage := ChatMessage(TypingText, false);
      var currentMessages := uiState.messages;
      uiState := uiState.(messages := currentMessages + [userMessage, loadingMessage], isLoading := true);
    }

    /** The coroutine of `sendMessage`, run to completion: the chat session is created on
        first use from the memory row and the random words read then, and the reply (or the
        failure) replaces the last message. */
    method CompleteReply(memoryRow: Option<string>, randomWords: seq<string>, reply: Outcome)
      modifies this
      ensures old(sessionHistory).None? ==> sessionHistory == Some(InitialHistory(memoryRow, randomWords))
      ensures old(sessionHistory).Some? ==> sessionHistory == old(sessionHistory)
      ensures uiState == WithReply(old(uiState), reply)
      ensures memoryCalls == old(memoryCalls)
    {
      if sessionHistory.None? {
        sessionHistory := Some(InitialHistory(memoryRow, randomWords));
      }
      var text: string;
      match reply {
        case Returned(t) => text := t.GetOr(NoReplyText);
        case Threw(m) => text := ErrorText(m);
      }
      var aiMessage := ChatMessage(text, false);
      uiState := uiState.(messages := DropLast(uiState.messages) + [aiMessage], isLoading := false);
    }

    /** `summarizeAndSaveMemory`, run to completion, with `memoryRow` the row read when it
        runs; `prompt` is what was sent to the model, if anything. The only change is the
        `updateMemory` call it may record. */
    method SummarizeAndSaveMemory(memoryRow: Option<string>, reply: Outcome) returns (prompt: Option<string>)
      modifies this
      ensures prompt == ConsolidationRequest(old(uiState.messages), memoryRow)
      ensures memoryCalls == old(memoryCalls) + UpdateCalls(old(uiState.messages), reply)
      ensures uiState == old(uiState) && sessionHistory == old(sessionHistory)
    {
      var messages := uiState.messages;
      if messages == [] {
        return None;
      }
      var chatHistory := Transcript(messages);
      var oldMemory := MemorySummary(memoryRow);
      var request := TrimIndent(SummaryPromptTemplate(chatHistory, oldMemory));
      prompt := Some(request);
      assert prompt == ConsolidationRequest(messages, memoryRow);
      // A thrown call and a reply without text make no write.
      if reply.Returned? && reply.text.Some? {
        memoryCalls := memoryCalls + [UpdateMemory(reply.text.value)];
      }
    }
  }
}
