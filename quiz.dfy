/** The quiz screen: a cursor over the catalog and the answers collected so far. */
module Quiz {
  import opened Answers
  import opened Catalog
  import QuestionCard

  /** `currentAnswer !== undefined && currentAnswer !== null && currentAnswer !== ''`.
      No handler ever stores `null`, so only a missing key and the empty string
      are unanswered. */
  predicate Answered(a: Option<Answer>)
  {
    a.Some? && a.value != Single("")
  }

  /** Only a missing answer and the empty string are unanswered: an emptied
      list and the number 0 count as answered. */
  lemma AnsweredExactly(a: Option<Answer>)
    ensures !Answered(a) <==> a == None || a == Some(Single(""))
    ensures Answered(Some(Multi([])))
    ensures Answered(Some(Num(0)))
  {
  }

  /** The slider shows 5 before it is moved but records nothing, so the
      confidence question is unanswered until the slider moves. */
  lemma UnmovedSliderUnanswered(answers: AnswerMap)
    requires 2 !in answers
    ensures Questions[1].SliderQuestion? && !Answered(Get(answers, Questions[1].id))
  {
  }

  class QuizScreen {
    var currentQuestion: int
    var answers: AnswerMap

    /** The cursor always points into the catalog. */
    predicate Valid()
      reads this
    {
      0 <= currentQuestion < |Questions|
    }

    function CurrentQuestionData(): Question
      reads this
      requires Valid()
    {
      Questions[currentQuestion]
    }

    function CurrentAnswer(): Option<Answer>
      reads this
      requires Valid()
    {
      Get(answers, CurrentQuestionData().id)
    }

    predicate IsAnswered()
      reads this
      requires Valid()
    {
      Answered(CurrentAnswer())
    }

    /** The Next/Finish button is enabled exactly when the current question is answered. */
    predicate NextEnabled()
      reads this
      requires Valid()
    {
      IsAnswered()
    }

    /** The Back button is disabled on the first question. */
    predicate BackEnabled()
      reads this
    {
      currentQuestion != 0
    }

    /** A freshly mounted quiz starts on the first question with no answers. */
    constructor ()
      ensures Valid()
      ensures currentQuestion == 0 && answers == map[]
    {
      currentQuestion := 0;
      answers := map[];
    }

    /** `handleAnswer(questionId, answer)`: upsert one entry. */
    method HandleAnswer(questionId: int, answer: Answer)
      modifies this
      ensures answers == old(answers)[questionId := answer]
      ensures currentQuestion == old(currentQuestion)
      ensures questionId in answers && answers[questionId] == answer
      ensures forall id :: id != questionId ==> Get(answers, id) == Get(old(answers), id)
    {
      answers := answers[questionId := answer];
    }

    /** `handleNext()`: step forward, or on the last question report completion
        with the current answers. The 150 ms animation delay is not modelled. */
    method HandleNext() returns (completed: Option<AnswerMap>)
      requires Valid()
      modifies this
      ensures Valid()
      ensures answers == old(answers)
      ensures old(currentQuestion) < |Questions| - 1 ==>
                currentQuestion == old(currentQuestion) + 1 && completed == None
      ensures old(currentQuestion) == |Questions| - 1 ==>
                currentQuestion == old(currentQuestion) && completed == Some(answers)
    {
      if currentQuestion < |Questions| - 1 {
        currentQuestion := currentQuestion + 1;
        completed := None;
      } else {
        completed := Some(answers);
      }
    }

    /** `handlePrevious()`: step back unless on the first question. */
    method HandlePrevious()
      requires Valid()
      modifies this
      ensures Valid()
      ensures answers == old(answers)
      ensures old(currentQuestion) > 0 ==> currentQuestion == old(currentQuestion) - 1
      ensures old(currentQuestion) == 0 ==> currentQuestion == 0
      ensures currentQuestion != old(currentQuestion) <==> old(BackEnabled())
    {
      if currentQuestion > 0 {
        currentQuestion := currentQuestion - 1;
      }
    }

    /** A press of the Next/Finish button: a disabled button does nothing. */
    method ClickNext() returns (completed: Option<AnswerMap>)
      requires Valid()
      modifies this
      ensures Valid()
      ensures answers == old(answers)
      ensures !old(NextEnabled()) ==> currentQuestion == old(currentQuestion) && completed == None
      ensures old(NextEnabled()) && old(currentQuestion) < |Questions| - 1 ==>
                currentQuestion == old(currentQuestion) + 1 && completed == None
      ensures old(NextEnabled()) && old(currentQuestion) == |Questions| - 1 ==>
                currentQuestion == old(currentQuestion) && completed == Some(answers)
    {
      if NextEnabled() {
        completed := HandleNext();
      } else {
        completed := None;
      }
    }

    /** A click on one of the current question's option buttons: the card
        computes the new answer and hands it to `handleAnswer` under the
        current question's id. The answered question is then answered, and
        answers of the catalog's shape stay of that shape. */
    method ChooseOption(value: string)
      requires Valid()
      requires CurrentQuestionData().ChoiceQuestion? && value in CurrentQuestionData().options
      modifies this
      ensures Valid() && currentQuestion == old(currentQuestion)
      ensures answers == old(answers)[CurrentQuestionData().id :=
                QuestionCard.OptionClick(CurrentQuestionData(), old(CurrentAnswer()), value)]
      ensures IsAnswered()
      ensures forall id :: id != CurrentQuestionData().id ==> Get(answers, id) == Get(old(answers), id)
      ensures Get(answers, 2) == Get(old(answers), 2)
      ensures old(WellTyped(answers)) ==> WellTyped(answers)
    {
      var q := CurrentQuestionData();
      var a := QuestionCard.OptionClick(q, CurrentAnswer(), value);
      CatalogShape();
      if WellTyped(answers) {
        QuestionCard.ClickFits(q, CurrentAnswer(), value);
      }
      HandleAnswer(q.id, a);
    }

    /** A move of the current question's slider to `value`, which the range
        input keeps within [min, max]. */
    method MoveSlider(value: int)
      requires Valid()
      requires CurrentQuestionData().SliderQuestion?
      requires CurrentQuestionData().min <= value <= CurrentQuestionData().max
      modifies this
      ensures Valid() && currentQuestion == old(currentQuestion)
      ensures answers == old(answers)[CurrentQuestionData().id := Num(value)]
      ensures IsAnswered()
      ensures forall id :: id != CurrentQuestionData().id ==> Get(answers, id) == Get(old(answers), id)
      ensures old(WellTyped(answers)) ==> WellTyped(answers)
    {
      CatalogShape();
      HandleAnswer(CurrentQuestionData().id, Num(value));
    }
  }

  /** From any question but the last, Next followed by Back returns to the
      same question with the same answers. */
  method NextThenPrevious(quiz: QuizScreen)
    requires quiz.Valid() && quiz.currentQuestion < |Questions| - 1
    modifies quiz
    ensures quiz.Valid()
    ensures quiz.currentQuestion == old(quiz.currentQuestion)
    ensures quiz.answers == old(quiz.answers)
  {
    var completed := quiz.HandleNext();
    quiz.HandlePrevious();
  }
}
