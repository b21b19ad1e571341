/** The answer card: it shows one question, accepts the first click on an
    option, reports it to the session, and then colours the chosen option and
    shows the verdict. */
module QuizCard {
  import opened Prelude
  import opened QuizGenerator

  /** The arguments of `onAnswer(isCorrect, selectedOption)`. */
  datatype Report = Report(isCorrect: bool, selectedOption: string)

  /** `getOptionClassName(option)`: only the chosen option of an answered card
      is highlighted, green when it is the correct answer and red otherwise. */
  function OptionClassName(answered: bool, selected: Option<string>, correct: string, option: string): (cls: string)
    ensures cls in ["option", "option correct", "option incorrect"]
    ensures cls != "option" <==> answered && selected == Some(option)
    ensures cls == "option correct" <==> answered && selected == Some(option) && option == correct
  {
    if !answered || selected != Some(option) then "option"
    else if option == correct then "option correct"
    else "option incorrect"
  }

  /** At most one option (as a string) is highlighted, and a highlighted
      option is green exactly when the chosen answer is the correct one. */
  lemma HighlightedIsSelected(answered: bool, selected: Option<string>, correct: string, o1: string, o2: string)
    requires OptionClassName(answered, selected, correct, o1) != "option"
    requires OptionClassName(answered, selected, correct, o2) != "option"
    ensures o1 == o2
    ensures OptionClassName(answered, selected, correct, o1) == "option correct" <==> Feedback(answered, selected, correct) == Some(true)
  {
  }

  /** The feedback block: nothing before the click, then whether the chosen
      answer equals the correct one ("Correct!" or "Incorrect" with the
      correct answer shown). */
  function Feedback(answered: bool, selected: Option<string>, correct: string): (verdict: Option<bool>)
    ensures verdict.Some? <==> answered
    ensures verdict == Some(true) <==> answered && selected == Some(correct)
  {
    if answered then Some(selected == Some(correct)) else None
  }

  /** The caption of the next button, `None` when the button is not shown. */
  function NextButtonLabel(showNextButton: bool, isLastQuestion: bool): (caption: Option<string>)
    ensures caption.Some? <==> showNextButton
    ensures caption == Some("See Results") <==> showNextButton && isLastQuestion
    ensures caption == Some("\U{2192}") <==> showNextButton && !isLastQuestion
  {
    if !showNextButton then None
    else if !isLastQuestion then Some("\U{2192}")
    else Some("See Results")
  }

  /** The card's state: the question prop and the two pieces of local state. */
  class Card {
    var question: QuizQuestion
    var selectedAnswer: Option<string>
    var hasAnswered: bool

    /** An answer is recorded exactly when the card counts as answered. */
    ghost predicate Valid()
      reads this
    {
      hasAnswered <==> selectedAnswer.Some?
    }

    /** A freshly mounted card: nothing selected. */
    constructor(q: QuizQuestion)
      ensures Valid()
      ensures question == q && selectedAnswer == None && !hasAnswered
    {
      question := q;
      selectedAnswer := None;
      hasAnswered := false;
    }

    /** A new `question` prop; the effect keyed on `question.id` clears the
        selection and the answered flag when the id differs. */
    method ShowQuestion(q: QuizQuestion)
      requires Valid()
      modifies this
      ensures Valid()
      ensures question == q
      ensures q.id != old(question.id) ==> selectedAnswer == None && !hasAnswered
      ensures q.id == old(question.id) ==> selectedAnswer == old(selectedAnswer) && hasAnswered == old(hasAnswered)
    {
      if q.id != question.id {
        selectedAnswer := None;
        hasAnswered := false;
      }
      question := q;
    }

    /** `handleOptionClick(option)`: ignored once answered; the first click
        records the option and reports whether it is the correct answer. The
        report is what the card passes to `onAnswer`. */
    method HandleOptionClick(option: string) returns (report: Option<Report>)
      requires Valid()
      modifies this
      ensures Valid()
      ensures question == old(question) && hasAnswered
      ensures old(hasAnswered) ==> report == None && selectedAnswer == old(selectedAnswer)
      ensures !old(hasAnswered) ==>
        report == Some(Report(option == question.correctAnswer, option)) && selectedAnswer == Some(option)
      ensures report.Some? ==>
        Feedback(hasAnswered, selectedAnswer, question.correctAnswer) == Some(report.value.isCorrect)
        && OptionClassName(hasAnswered, selectedAnswer, question.correctAnswer, option)
           == (if report.value.isCorrect then "option correct" else "option incorrect")
    {
      if hasAnswered {
        return None;
      }
      selectedAnswer := Some(option);
      hasAnswered := true;
      var isCorrect := option == question.correctAnswer;
      report := Some(Report(isCorrect, option));
    }
  }
}
