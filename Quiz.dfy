/** The quiz game of `QuizViewModel`: choosing an answer, submitting it for scoring, moving
    to the next question, finishing, and the fresh states `generateQuiz` publishes. */
module QuizGame {
  import opened Common
  import opened ModelResponse

  datatype QuizQuestion = QuizQuestion(questionText: string, options: seq<string>, correctAnswer: string)

  datatype Quiz = Quiz(questions: seq<QuizQuestion>)

  /** `QuizUiState`: fetching state, then the game state. Kotlin's `Int` fields are unbounded
      here. */
  datatype QuizUiState = QuizUiState(
    isLoading: bool,
    error: Option<string>,
    quiz: Option<Quiz>,
    currentQuestionIndex: int,
    selectedAnswer: Option<string>,
    isAnswerSubmitted: bool,
    score: int,
    isQuizFinished: bool)

  /** `QuizUiState()`: every field at its default. */
  const InitialState := QuizUiState(false, None, None, 0, None, false, 0, false)

  /** The state `generateQuiz` publishes first. */
  const LoadingState := InitialState.(isLoading := true)

  const MinimumSavedWords := 5

  const TooFewWordsError := "You need to save at least 5 vocabulary words to generate a quiz!"

  /** `questions.size`, or 0 when no quiz is loaded. */
  function QuestionCount(s: QuizUiState): nat {
    if s.quiz.Some? then |s.quiz.value.questions| else 0
  }

  /** `submitAnswer` reads `questions[currentQuestionIndex]`, which throws unless the index is
      in range; without a quiz it returns early. */
  predicate CanSubmit(s: QuizUiState) {
    s.quiz.Some? ==> 0 <= s.currentQuestionIndex < |s.quiz.value.questions|
  }

  function CurrentQuestion(s: QuizUiState): QuizQuestion
    requires s.quiz.Some? && 0 <= s.currentQuestionIndex < |s.quiz.value.questions|
  {
    s.quiz.value.questions[s.currentQuestionIndex]
  }

  /** The chosen answer is correct: a missing selection never equals the correct answer. */
  predicate IsCorrect(s: QuizUiState)
    requires s.quiz.Some? && 0 <= s.currentQuestionIndex < |s.quiz.value.questions|
  {
    s.selectedAnswer == Some(CurrentQuestion(s).correctAnswer)
  }

  // ---------------------------------------------------------------------------------------
  // Transitions
  // ---------------------------------------------------------------------------------------

  /** `onAnswerSelected`: records the answer and changes nothing else. */
  function SelectAnswer(s: QuizUiState, answer: string): (r: QuizUiState)
    ensures r.selectedAnswer == Some(answer)
    ensures r.(selectedAnswer := s.selectedAnswer) == s
  {
    s.(selectedAnswer := Some(answer))
  }

  /** `submitAnswer`: without a quiz nothing happens; otherwise the answer is marked submitted
      and the score goes up by one exactly when the selection is correct. */
  function Submit(s: QuizUiState): (r: QuizUiState)
    requires CanSubmit(s)
    ensures s.quiz.None? ==> r == s
    ensures s.quiz.Some? ==> r.isAnswerSubmitted
    ensures s.quiz.Some? ==> (r.score == s.score + 1 <==> IsCorrect(s))
    ensures s.quiz.Some? ==> (r.score == s.score <==> !IsCorrect(s))
    ensures r.(isAnswerSubmitted := s.isAnswerSubmitted, score := s.score) == s
  {
    if s.quiz.None? then s
    else if IsCorrect(s) then s.(isAnswerSubmitted := true, score := s.score + 1)
    else s.(isAnswerSubmitted := true)
  }

  /** `nextQuestion`: before the last question, move on with a cleared selection; on the last
      question, or without a quiz, mark the quiz finished and stay where we are. */
  function Next(s: QuizUiState): (r: QuizUiState)
    ensures s.currentQuestionIndex < QuestionCount(s) - 1 ==>
      && r.currentQuestionIndex == s.currentQuestionIndex + 1
      && r.selectedAnswer.None? && !r.isAnswerSubmitted
      && r.(currentQuestionIndex := s.currentQuestionIndex, selectedAnswer := s.selectedAnswer,
            isAnswerSubmitted := s.isAnswerSubmitted) == s
    ensures s.currentQuestionIndex >= QuestionCount(s) - 1 ==>
      r.isQuizFinished && r.(isQuizFinished := s.isQuizFinished) == s
  {
    if s.currentQuestionIndex < QuestionCount(s) - 1 then
      s.(currentQuestionIndex := s.currentQuestionIndex + 1, isAnswerSubmitted := false,
         selectedAnswer := None)
    else s.(isQuizFinished := true)
  }

  /** What `generateQuiz` publishes last: with fewer than five saved words, the fixed error;
      otherwise the decoded quiz, or "Error: " and the exception's message when the model
      call or the decoding throws. A missing reply text is decoded as "". */
  function Generated(savedWords: seq<string>, reply: Outcome, decode: string -> Decoded<Quiz>): (r: QuizUiState)
    ensures r.(error := None, quiz := None) == InitialState
    ensures r.quiz.Some? <==> r.error.None?
    ensures |savedWords| < MinimumSavedWords ==> r.error == Some(TooFewWordsError)
    ensures |savedWords| >= MinimumSavedWords && reply.Threw? ==> r.error == Some(ErrorText(reply.message))
    ensures |savedWords| >= MinimumSavedWords && reply.Returned? ==>
      match decode(CleanJson(reply.text.GetOr("")))
      case Decoded(q) => r.quiz == Some(q)
      case DecodeThrew(m) => r.error == Some(ErrorText(m))
  {
    if |savedWords| < MinimumSavedWords then InitialState.(error := Some(TooFewWordsError))
    else match reply
      case Threw(m) => InitialState.(error := Some(ErrorText(m)))
      case Returned(text) =>
        match decode(CleanJson(text.GetOr("")))
        case Decoded(q) => InitialState.(quiz := Some(q))
        case DecodeThrew(m) => InitialState.(error := Some(ErrorText(m)))
  }

  // ---------------------------------------------------------------------------------------
  // Playing a game
  // ---------------------------------------------------------------------------------------

  /** The question index stays on a question of the loaded quiz. */
  predicate IndexInRange(s: QuizUiState) {
    s.quiz.Some? && 0 <= s.currentQuestionIndex < |s.quiz.value.questions|
  }

  datatype Action = SelectAction(answer: string) | SubmitAction | NextAction

  /** A sequence of handler calls; None when `submitAnswer` would throw. */
  function Play(s: QuizUiState, actions: seq<Action>): Option<QuizUiState>
    decreases |actions|
  {
    if actions == [] then Some(s)
    else match actions[0]
      case SelectAction(a) => Play(SelectAnswer(s, a), actions[1..])
      case SubmitAction => if CanSubmit(s) then Play(Submit(s), actions[1..]) else None
      case NextAction => Play(Next(s), actions[1..])
  }

  function SubmitCount(actions: seq<Action>): nat
    decreases |actions|
  {
    if actions == [] then 0 else (if actions[0].SubmitAction? then 1 else 0) + SubmitCount(actions[1..])
  }

  /** Once a quiz is on a question, no sequence of select, submit and next leaves the
      questions, throws, or replaces the quiz; the score never drops and rises by at most one
      per submission. */
  lemma {:induction false} PlayKeepsIndexInRange(s: QuizUiState, actions: seq<Action>)
    requires IndexInRange(s)
    ensures Play(s, actions).Some?
    ensures IndexInRange(Play(s, actions).value)
    ensures Play(s, actions).value.quiz == s.quiz
    ensures s.score <= Play(s, actions).value.score <= s.score + SubmitCount(actions)
    decreases |actions|
  {
    if actions != [] {
      match actions[0]
      case SelectAction(a) => PlayKeepsIndexInRange(SelectAnswer(s, a), actions[1..]);
      case SubmitAction => PlayKeepsIndexInRange(Submit(s), actions[1..]);
      case NextAction => PlayKeepsIndexInRange(Next(s), actions[1..]);
    }
  }

  /** A freshly generated quiz with at least one question starts a game on its first
      question with score 0. */
  lemma GeneratedGameStarts(savedWords: seq<string>, reply: Outcome, decode: string -> Decoded<Quiz>)
    requires Generated(savedWords, reply, decode).quiz.Some?
    requires |Generated(savedWords, reply, decode).quiz.value.questions| >= 1
    ensures IndexInRange(Generated(savedWords, reply, decode))
    ensures Generated(savedWords, reply, decode).currentQuestionIndex == 0
    ensures Generated(savedWords, reply, decode).score == 0
  {
  }

  /** Once finished, the game stays finished whatever the player does. */
  lemma {:induction false} FinishedStaysFinished(s: QuizUiState, actions: seq<Action>)
    requires s.isQuizFinished
    requires Play(s, actions).Some?
    ensures Play(s, actions).value.isQuizFinished
    decreases |actions|
  {
    if actions != [] {
      match actions[0]
      case SelectAction(a) => FinishedStaysFinished(SelectAnswer(s, a), actions[1..]);
      case SubmitAction => FinishedStaysFinished(Submit(s), actions[1..]);
      case NextAction => FinishedStaysFinished(Next(s), actions[1..]);
    }
  }

  // ---------------------------------------------------------------------------------------
  // The view-model
  // ---------------------------------------------------------------------------------------

  /** `QuizViewModel`: the `_uiState` flow is the one field; the vocabulary table, the
      language model and the JSON decoder are inputs of `GenerateQuiz`. */
  class QuizViewModel {
    var uiState: QuizUiState

    constructor()
      ensures uiState == InitialState
    {
      uiState := InitialState;
    }

    method OnAnswerSelected(answer: string)
      modifies this
      ensures uiState == SelectAnswer(old(uiState), answer)
    {
      uiState := uiState.(selectedAnswer := Some(answer));
    }

    method SubmitAnswer()
      requires CanSubmit(uiState)
      modifies this
      ensures uiState == Submit(old(uiState))
    {
      var currentState := uiState;
      if currentState.quiz.None? {
        return;
      }
      var currentQuestion := currentState.quiz.value.questions[currentState.currentQuestionIndex];
      if currentState.selectedAnswer == Some(currentQuestion.correctAnswer) {
        uiState := uiState.(isAnswerSubmitted := true, score := uiState.score + 1);
      } else {
        uiState := uiState.(isAnswerSubmitted := true);
      }
    }

    method NextQuestion()
      modifies this
      ensures uiState == Next(old(uiState))
    {
      var currentState := uiState;
      var totalQuestions := if currentState.quiz.Some? then |currentState.quiz.value.questions| else 0;
      if currentState.currentQuestionIndex < totalQuestions - 1 {
        uiState := uiState.(currentQuestionIndex := uiState.currentQuestionIndex + 1,
                            isAnswerSubmitted := false, selectedAnswer := None);
      } else {
        uiState := uiState.(isQuizFinished := true);
      }
    }

    /** `generateQuiz`, run to completion: the loading state, then the saved-word check, the
        model call, the fence cleaning and the decoding. */
    method GenerateQuiz(savedWords: seq<string>, reply: Outcome, decode: string -> Decoded<Quiz>)
      modifies this
      ensures uiState == Generated(savedWords, reply, decode)
    {
      uiState := LoadingState;
      if |savedWords| < MinimumSavedWords {
        uiState := InitialState.(error := Some(TooFewWordsError));
        return;
      }
      match reply {
        case Threw(m) =>
          uiState := InitialState.(error := Some(ErrorText(m)));
        case Returned(text) =>
          var response := text.GetOr("");
          var cleanedResponse := CleanJson(response);
          match decode(cleanedResponse) {
            case Decoded(quiz) => uiState := InitialState.(quiz := Some(quiz));
            case DecodeThrew(m) => uiState := InitialState.(error := Some(ErrorText(m)));
          }
      }
    }
  }
}
