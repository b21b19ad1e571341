/** The quiz session: the question list, the position in it, the score and
    the answer records, and the handlers that start, answer, advance and
    restart a quiz. Each handler is one sequential update of the state. */
module QuizSession {
  import opened Prelude
  import opened QuizHelpers
  import opened CategorySelector
  import opened QuizDrafts
  import opened QuizGenerator
  import opened QuizCard

  /** One answer record: the question, the option chosen, and its verdict. */
  datatype UserAnswer = UserAnswer(question: QuizQuestion, userAnswer: string, isCorrect: bool)

  /** The number of questions every quiz asks for. */
  const QuestionsPerQuiz: int := 10

  /** The number of records marked correct. */
  function CorrectCount(answers: seq<UserAnswer>): (n: nat)
    ensures n <= |answers|
    ensures n == |answers| <==> forall k :: 0 <= k < |answers| ==> answers[k].isCorrect
  {
    if |answers| == 0 then 0
    else CorrectCount(answers[..|answers| - 1]) + (if answers[|answers| - 1].isCorrect then 1 else 0)
  }

  const PerfectMessage: string := "Perfect score! You're an astrology expert! \U{2728}"
  const GoodMessage: string := "Great job! You know your astrology quite well."
  const StudyMessage: string := "Keep studying, you'll get there! The stars are complex."

  /** The final-score message: perfect for full marks, praise for at least
      half (`score >= questions.length / 2`, a real division in JavaScript),
      encouragement otherwise. */
  function ScoreMessage(score: nat, total: nat): (message: string)
    ensures message == PerfectMessage <==> score == total
    ensures message == GoodMessage <==> score != total && 2 * score >= total
    ensures message == StudyMessage <==> score != total && 2 * score < total
  {
    if score == total then PerfectMessage
    else if 2 * score >= total then GoodMessage
    else StudyMessage
  }

  /** The rank of a message: 0 for encouragement, 1 for praise, 2 for perfect. */
  function MessageRank(message: string): nat {
    if message == PerfectMessage then 2 else if message == GoodMessage then 1 else 0
  }

  /** A higher score out of the same total never earns a lesser message. */
  lemma ScoreMessageMonotone(s1: nat, s2: nat, total: nat)
    requires s1 <= s2 <= total
    ensures MessageRank(ScoreMessage(s1, total)) <= MessageRank(ScoreMessage(s2, total))
  {
  }

  /** What `generateQuiz(10, mode, categories)` hands the session: at most 10
      questions, as many as the pool offers up to 10, none repeated and no id
      twice, drawn from a pool of well-shaped questions of the selected
      categories that holds what each selected category's generator
      delivers and nothing of the others; any non-empty selection gives a
      full quiz. */
  ghost predicate Drawn(qs: seq<QuizQuestion>, pool: seq<QuizQuestion>, categories: seq<Category>, mode: Mode) {
    |qs| == (if QuestionsPerQuiz < |pool| then QuestionsPerQuiz else |pool|)
    && multiset(qs) <= multiset(pool) && Distinct(qs) && UniqueIds(qs)
    && Selected(pool, categories)
    && (|categories| > 0 ==> |qs| == QuestionsPerQuiz)
    && Assembled(pool, mode, categories)
  }

  /** The call `generateQuiz(10, mode, categories)`. */
  method DrawQuiz(mode: Mode, categories: seq<Category>, tape: Tape, pos: nat)
    returns (qs: seq<QuizQuestion>, pos': nat, ghost pool: seq<QuizQuestion>)
    ensures Drawn(qs, pool, categories, mode)
    ensures |qs| <= QuestionsPerQuiz && Distinct(qs) && UniqueIds(qs)
    ensures Selected(qs, categories)
    ensures |categories| > 0 ==> |qs| == QuestionsPerQuiz
  {
    qs, pos', pool := GenerateQuiz(QuestionsPerQuiz, mode, categories, tape, pos);
  }

  /** The state of the `Quiz` component. `tape` and `pos` stand for
      `Math.random`. */
  class Session {
    var questions: seq<QuizQuestion>
    var currentQuestionIndex: nat
    var score: nat
    var isQuizComplete: bool
    var loading: bool
    var userAnswers: seq<UserAnswer>
    var mode: Mode
    var quizStarted: bool
    var selectedCategories: seq<Category>
    var hasAnsweredCurrent: bool
    const tape: Tape
    var pos: nat
    /** The pool the current questions were drawn from. */
    ghost var pool: seq<QuizQuestion>

    /** The score counts the correct records, and the index points into the
        question list (or is 0 when the list is empty). */
    ghost predicate Valid()
      reads this
    {
      score == CorrectCount(userAnswers)
      && (currentQuestionIndex == 0 || currentQuestionIndex < |questions|)
    }

    /** The records keep pace with the questions: one record per question
        passed, in order, plus one for the current question once answered. */
    ghost predicate Paced()
      reads this
    {
      |userAnswers| == currentQuestionIndex + (if hasAnsweredCurrent then 1 else 0)
      && (hasAnsweredCurrent ==> currentQuestionIndex < |questions|)
      && |userAnswers| <= |questions|
      && forall k :: 0 <= k < |userAnswers| ==> userAnswers[k].question == questions[k]
    }

    /** The initial state, after the mount effect has run with `quizStarted`
        false (which only clears `loading`). */
    constructor(tape: Tape)
      ensures Valid() && Paced()
      ensures questions == [] && currentQuestionIndex == 0 && score == 0 && !isQuizComplete && !loading
      ensures userAnswers == [] && mode == Easy && !quizStarted && selectedCategories == AllCategories
      ensures !hasAnsweredCurrent && this.tape == tape && pos == 0
    {
      questions := [];
      currentQuestionIndex := 0;
      score := 0;
      isQuizComplete := false;
      loading := true;
      userAnswers := [];
      mode := Easy;
      quizStarted := false;
      selectedCategories := AllCategories;
      hasAnsweredCurrent := false;
      this.tape := tape;
      pos := 0;
      pool := [];
      // the effect on `quizStarted`
      loading := false;
    }

    /** `generateQuizQuestions`: asks for 10 questions in the current mode
        and categories and resets the progress. */
    method GenerateQuizQuestions()
      modifies this
      ensures Valid() && Paced()
      ensures currentQuestionIndex == 0 && score == 0 && userAnswers == [] && !isQuizComplete
      ensures !hasAnsweredCurrent && !loading && quizStarted
      ensures mode == old(mode) && selectedCategories == old(selectedCategories)
      ensures Drawn(questions, pool, selectedCategories, mode)
    {
      loading := true;
      var quizQuestions, p;
      ghost var drawnFrom;
      quizQuestions, p, drawnFrom := DrawQuiz(mode, selectedCategories, tape, pos);
      pool := drawnFrom;
      questions, pos := quizQuestions, p;
      ResetProgress();
    }

    /** The `set...` calls after the new questions arrive: loading done, quiz
        started, back at the first question with a clean record. */
    method ResetProgress()
      modifies this
      ensures Valid() && Paced()
      ensures currentQuestionIndex == 0 && score == 0 && userAnswers == [] && !isQuizComplete
      ensures !hasAnsweredCurrent && !loading && quizStarted
      ensures questions == old(questions) && pool == old(pool) && pos == old(pos)
      ensures mode == old(mode) && selectedCategories == old(selectedCategories)
    {
      loading, quizStarted := false, true;
      currentQuestionIndex, score, userAnswers, isQuizComplete, hasAnsweredCurrent := 0, 0, [], false, false;
    }

    /** `handleAnswer(isCorrect, selectedOption)`: records the current
        question with the chosen option and verdict, and scores a correct
        answer. The card is rendered, and so can call this, only while there
        are questions. */
    method HandleAnswer(isCorrect: bool, selectedOption: string)
      requires Valid() && |questions| > 0
      modifies this
      ensures Valid() && currentQuestionIndex < |questions|
      ensures userAnswers == old(userAnswers) + [UserAnswer(questions[currentQuestionIndex], selectedOption, isCorrect)]
      ensures score == old(score) + (if isCorrect then 1 else 0)
      ensures hasAnsweredCurrent
      ensures questions == old(questions) && currentQuestionIndex == old(currentQuestionIndex)
      ensures isQuizComplete == old(isQuizComplete) && mode == old(mode) && quizStarted == old(quizStarted)
      ensures selectedCategories == old(selectedCategories) && loading == old(loading) && pos == old(pos)
      ensures pool == old(pool)
      ensures old(!hasAnsweredCurrent && Paced()) ==> Paced()
    {
      var currentQuestion := questions[currentQuestionIndex];
      var answer := UserAnswer(currentQuestion, selectedOption, isCorrect);
      assert (userAnswers + [answer])[..|userAnswers|] == userAnswers;
      userAnswers := userAnswers + [answer];
      if isCorrect {
        score := score + 1;
      }
      hasAnsweredCurrent := true;
    }

    /** `handleNextQuestion`: moves on before the last question, and marks
        the quiz complete on it. Once every shown question is answered, the
        quiz completes with one record per question. */
    method HandleNextQuestion()
      requires Valid()
      modifies this
      ensures Valid()
      ensures old(currentQuestionIndex) < |questions| - 1 ==>
        currentQuestionIndex == old(currentQuestionIndex) + 1 && !hasAnsweredCurrent
        && isQuizComplete == old(isQuizComplete)
      ensures old(currentQuestionIndex) >= |questions| - 1 ==>
        isQuizComplete && currentQuestionIndex == old(currentQuestionIndex)
        && hasAnsweredCurrent == old(hasAnsweredCurrent)
      ensures questions == old(questions) && userAnswers == old(userAnswers) && score == old(score)
      ensures mode == old(mode) && quizStarted == old(quizStarted) && selectedCategories == old(selectedCategories)
      ensures loading == old(loading) && pos == old(pos) && pool == old(pool)
      ensures old(hasAnsweredCurrent && Paced()) ==> Paced()
      ensures old(hasAnsweredCurrent && Paced()) && isQuizComplete && !old(isQuizComplete) ==>
        |userAnswers| == |questions|
    {
      if currentQuestionIndex < |questions| - 1 {
        currentQuestionIndex := currentQuestionIndex + 1;
        hasAnsweredCurrent := false;
      } else {
        isQuizComplete := true;
      }
    }

    /** `restartQuiz`: a new quiz with the current settings. */
    method RestartQuiz()
      modifies this
      ensures Valid() && Paced()
      ensures currentQuestionIndex == 0 && score == 0 && userAnswers == [] && !isQuizComplete
      ensures !hasAnsweredCurrent && !loading && quizStarted
      ensures mode == old(mode) && selectedCategories == old(selectedCategories)
      ensures Drawn(questions, pool, selectedCategories, mode)
    {
      GenerateQuizQuestions();
    }

    /** The start button sets `quizStarted`; the effect keyed on it then
        generates the questions. The button exists only before the start. */
    method StartQuiz()
      requires !quizStarted
      modifies this
      ensures Valid() && Paced()
      ensures currentQuestionIndex == 0 && score == 0 && userAnswers == [] && !isQuizComplete
      ensures !hasAnsweredCurrent && !loading && quizStarted
      ensures mode == old(mode) && selectedCategories == old(selectedCategories)
      ensures Drawn(questions, pool, selectedCategories, mode)
    {
      quizStarted := true;
      GenerateQuizQuestions();
    }

    /** `handleModeChange(newMode)`: sets the mode when it differs, so a
        repeated choice changes nothing. The questions are not regenerated. */
    method HandleModeChange(newMode: Mode)
      modifies this
      ensures mode == newMode
      ensures old(mode) == newMode ==> unchanged(this)
      ensures questions == old(questions) && currentQuestionIndex == old(currentQuestionIndex)
      ensures score == old(score) && userAnswers == old(userAnswers) && isQuizComplete == old(isQuizComplete)
      ensures hasAnsweredCurrent == old(hasAnsweredCurrent) && quizStarted == old(quizStarted)
      ensures selectedCategories == old(selectedCategories) && loading == old(loading) && pos == old(pos)
      ensures pool == old(pool)
    {
      if newMode != mode {
        mode := newMode;
      }
    }

    /** `handleCategoriesChange(categories)`: takes the selection the
        category picker reports. */
    method HandleCategoriesChange(categories: seq<Category>)
      modifies this
      ensures selectedCategories == categories
      ensures questions == old(questions) && currentQuestionIndex == old(currentQuestionIndex)
      ensures score == old(score) && userAnswers == old(userAnswers) && isQuizComplete == old(isQuizComplete)
      ensures hasAnsweredCurrent == old(hasAnsweredCurrent) && quizStarted == old(quizStarted)
      ensures mode == old(mode) && loading == old(loading) && pos == old(pos) && pool == old(pool)
    {
      selectedCategories := categories;
    }
  }

  /** The rendered quiz: the session, and the answer card while a question is
      on screen. The card is mounted afresh whenever the quiz view appears and
      receives the current question as its prop. */
  class Screen {
    const session: Session
    var card: Option<Card>

    /** The card is on screen exactly while a started, unfinished quiz has
        questions; it shows the current question, and its answered flag is
        the session's. The selection, which only the category picker
        changes, is never empty and names no category twice. */
    ghost predicate Valid()
      reads this, session, if card.Some? then {card.value} else {}
    {
      session.Valid() && session.Paced() && !session.loading
      && UniqueIds(session.questions)
      && |session.selectedCategories| > 0 && Distinct(session.selectedCategories)
      && (card.Some? <==> session.quizStarted && !session.isQuizComplete && |session.questions| > 0)
      && (card.Some? ==>
            card.value.Valid()
            && session.currentQuestionIndex < |session.questions|
            && card.value.question == session.questions[session.currentQuestionIndex]
            && card.value.hasAnswered == session.hasAnsweredCurrent)
    }

    /** The start page, before anything is generated. */
    constructor(tape: Tape)
      ensures Valid() && fresh(session) && card.None?
      ensures !session.quizStarted && session.questions == []
    {
      session := new Session(tape);
      card := None;
      assert AllCategories[1..][1..][1..] == [aspect];
    }

    /** Mounts a fresh card on the current question when the quiz view shows one. */
    method Remount()
      requires session.Valid() && session.Paced() && !session.loading && UniqueIds(session.questions)
      requires |session.selectedCategories| > 0 && Distinct(session.selectedCategories)
      requires session.currentQuestionIndex == 0 && !session.hasAnsweredCurrent
      modifies this
      ensures Valid()
      ensures card.Some? ==> fresh(card.value)
    {
      if session.quizStarted && !session.isQuizComplete && |session.questions| > 0 {
        var c := new Card(session.questions[0]);
        card := Some(c);
      } else {
        card := None;
      }
    }

    /** The start button of the start page. */
    method Start()
      requires Valid() && !session.quizStarted
      modifies this, session
      ensures Valid()
      ensures session.userAnswers == [] && session.score == 0 && session.quizStarted
      ensures card.Some? ==> fresh(card.value)
      ensures card.Some? && |session.questions| == QuestionsPerQuiz
    {
      session.StartQuiz();
      Remount();
    }

    /** "Take Quiz Again" on the results page. */
    method Restart()
      requires Valid() && session.isQuizComplete
      modifies this, session
      ensures Valid()
      ensures session.userAnswers == [] && session.score == 0 && !session.isQuizComplete
      ensures card.Some? ==> fresh(card.value)
    {
      session.RestartQuiz();
      Remount();
    }

    /** A click on a category button, on the start page or the results
        page: the picker reports the toggled selection, or nothing for the
        only selected category, and the session takes what it reports. */
    method ToggleCategoryButton(c: Category)
      requires Valid() && (!session.quizStarted || session.isQuizComplete)
      modifies session
      ensures Valid() && card == old(card)
      ensures session.selectedCategories == Selection(old(session.selectedCategories), c)
      ensures c in session.selectedCategories <==> c !in old(session.selectedCategories) || Disabled(old(session.selectedCategories), c)
      ensures session.questions == old(session.questions) && session.userAnswers == old(session.userAnswers)
      ensures session.mode == old(session.mode) && session.quizStarted == old(session.quizStarted)
    {
      ghost var before := session.selectedCategories;
      ToggleNeverEmpties(before, c);
      ToggleKeepsDistinct(before, c);
      DisabledIffNoChange(before, c);
      var report := ToggleCategory(session.selectedCategories, c);
      if report.Some? {
        session.HandleCategoriesChange(report.value);
      }
    }

    /** A click on an option of the card: the card reports only its first
        click, and the session records what it reports. */
    method Click(option: string)
      requires Valid() && card.Some?
      modifies session, card.value
      ensures Valid() && card == old(card)
      ensures old(session.hasAnsweredCurrent) ==> session.userAnswers == old(session.userAnswers)
      ensures !old(session.hasAnsweredCurrent) ==>
        session.userAnswers == old(session.userAnswers)
          + [UserAnswer(card.value.question, option, option == card.value.question.correctAnswer)]
    {
      var report := card.value.HandleOptionClick(option);
      if report.Some? {
        session.HandleAnswer(report.value.isCorrect, report.value.selectedOption);
      }
    }

    /** The next button, shown once the current question is answered. On the
        last question the quiz completes with exactly one record per
        question, the i-th for the i-th question. */
    method Next()
      requires Valid() && card.Some? && session.hasAnsweredCurrent
      modifies this, session, card.value
      ensures Valid()
      ensures session.userAnswers == old(session.userAnswers) && session.score == old(session.score)
      ensures session.isQuizComplete ==>
        |session.userAnswers| == |session.questions|
        && forall k :: 0 <= k < |session.questions| ==> session.userAnswers[k].question == session.questions[k]
      ensures !session.isQuizComplete ==> card == old(card) && !card.value.hasAnswered
    {
      var c := card.value;
      session.HandleNextQuestion();
      if session.isQuizComplete {
        card := None;
      } else {
        assert session.currentQuestionIndex == old(session.currentQuestionIndex) + 1;
        c.ShowQuestion(session.questions[session.currentQuestionIndex]);
      }
    }
  }
}
