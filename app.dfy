/** The screen orchestrator: which of the three screens is shown, and the
    answer map handed from the quiz to the results screen. */
module Shell {
  import opened Answers
  import opened Catalog
  import Quiz
  import QuestionCard
  import Results

  datatype Screen = Welcome | QuizShown | ResultsShown

  /** The callbacks the three screens wire to the orchestrator. */
  datatype Event = Start | Complete(data: AnswerMap) | Restart

  /** Which callback is wired under which screen value: once the previous
      screen's exit animation has finished, only the current screen's callback
      is wired, so Start fires on the welcome screen, Complete on the quiz and
      Restart on the results. */
  predicate Wired(s: Screen, e: Event)
  {
    match e
    case Start => s == Welcome
    case Complete(_) => s == QuizShown
    case Restart => s == ResultsShown
  }

  class App {
    var currentScreen: Screen
    var quizData: AnswerMap

    /** The stored map is always one the quiz can build. */
    predicate Valid()
      reads this
    {
      WellTyped(quizData)
    }

    constructor ()
      ensures Valid()
      ensures currentScreen == Welcome && quizData == map[]
    {
      currentScreen := Welcome;
      quizData := map[];
    }

    /** `handleStartQuiz()` */
    method HandleStartQuiz()
      requires Valid()
      modifies this
      ensures Valid()
      ensures currentScreen == QuizShown && quizData == old(quizData)
    {
      currentScreen := QuizShown;
    }

    /** `handleQuizComplete(data)`: its only caller is the quiz's completion,
        which hands over a map of the catalog's shape. */
    method HandleQuizComplete(data: AnswerMap)
      requires Valid() && WellTyped(data)
      modifies this
      ensures Valid()
      ensures currentScreen == ResultsShown && quizData == data
    {
      quizData := data;
      currentScreen := ResultsShown;
    }

    /** `handleRestart()` */
    method HandleRestart()
      requires Valid()
      modifies this
      ensures Valid()
      ensures currentScreen == Welcome && quizData == map[]
    {
      quizData := map[];
      currentScreen := Welcome;
    }

    /** A callback firing: the wired one runs its handler; the others belong to
        screens that are not mounted and change nothing. */
    method Dispatch(e: Event)
      requires Valid()
      requires e.Complete? ==> WellTyped(e.data)
      modifies this
      ensures Valid()
      ensures !Wired(old(currentScreen), e) ==>
                currentScreen == old(currentScreen) && quizData == old(quizData)
      ensures Wired(old(currentScreen), e) && e.Start? ==>
                currentScreen == QuizShown && quizData == old(quizData)
      ensures Wired(old(currentScreen), e) && e.Complete? ==>
                currentScreen == ResultsShown && quizData == e.data
      ensures Wired(old(currentScreen), e) && e.Restart? ==>
                currentScreen == Welcome && quizData == map[]
    {
      if Wired(currentScreen, e) {
        match e
        case Start => HandleStartQuiz();
        case Complete(data) => HandleQuizComplete(data);
        case Restart => HandleRestart();
      }
    }

    /** `<ResultsScreen data={quizData} />`: the score shown is that of the
        stored map. */
    function ShownScore(): (score: int)
      reads this
      requires Valid() && currentScreen == ResultsShown
      ensures Results.ConfidenceIsNumber(quizData)
      ensures 22 <= score <= 100
      ensures score == Results.RawTotal(quizData)
    {
      Results.WellTypedTotal(quizData);
      Results.ReadinessScore(quizData)
    }
  }

  /** After a restart and a new completion only the new answers are scored. */
  method RestartThenComplete(app: App, data: AnswerMap)
    requires app.Valid() && app.currentScreen == ResultsShown && WellTyped(data)
    modifies app
    ensures app.Valid() && app.currentScreen == ResultsShown
    ensures app.quizData == data
    ensures Results.ConfidenceIsNumber(data) && app.ShownScore() == Results.ReadinessScore(data)
  {
    app.HandleRestart();
    app.HandleStartQuiz();
    app.HandleQuizComplete(data);
  }

  /** Question 1 of the session, first click: "math" is appended to no list. */
  method SelectMath(quiz: Quiz.QuizScreen)
    requires quiz.Valid() && quiz.currentQuestion == 0 && quiz.answers == map[]
    modifies quiz
    ensures quiz.Valid() && quiz.currentQuestion == 0
    ensures quiz.answers == map[1 := Multi(["math"])]
  {
    var subjects := Questions[0];
    assert subjects.id == 1 && IsMultiple(subjects) && "math" in subjects.options;
    assert QuestionCard.OptionClick(subjects, None, "math") == Multi(["math"]);
    quiz.ChooseOption("math");
  }

  /** Question 1 of the session, second click: "science" is appended, then Next. */
  method SelectScienceAndNext(quiz: Quiz.QuizScreen)
    requires quiz.Valid() && quiz.currentQuestion == 0 && quiz.answers == map[1 := Multi(["math"])]
    modifies quiz
    ensures quiz.Valid() && quiz.currentQuestion == 1
    ensures quiz.answers == map[1 := Multi(["math", "science"])]
  {
    var subjects := Questions[0];
    assert subjects.id == 1 && IsMultiple(subjects) && "science" in subjects.options;
    assert "science" !in ["math"];
    assert QuestionCard.OptionClick(subjects, Some(Multi(["math"])), "science") == Multi(["math", "science"]);
    quiz.ChooseOption("science");
    var completed := quiz.ClickNext();
  }

  /** Question 2 of the session: the slider moved to 8, then Next. */
  method AnswerConfidence(quiz: Quiz.QuizScreen)
    requires quiz.Valid() && quiz.currentQuestion == 1
    modifies quiz
    ensures quiz.Valid() && quiz.currentQuestion == 2
    ensures quiz.answers == old(quiz.answers)[2 := Num(8)]
  {
    CatalogShape();
    quiz.MoveSlider(8);
    var completed := quiz.ClickNext();
  }

  /** Questions 3 to 5 of the session. */
  method AnswerSingleChoices(quiz: Quiz.QuizScreen)
    requires quiz.Valid() && quiz.currentQuestion == 2
    modifies quiz
    ensures quiz.Valid() && quiz.currentQuestion == 5
    ensures quiz.answers == old(quiz.answers)[3 := Single("often")][4 := Single("setting-rates")][5 := Single("7-10")]
  {
    CatalogShape();
    quiz.ChooseOption("often");
    var completed := quiz.ClickNext();
    quiz.ChooseOption("setting-rates");
    completed := quiz.ClickNext();
    quiz.ChooseOption("7-10");
    completed := quiz.ClickNext();
  }

  /** A full session: start, answer the six questions through the cards,
      finish, and read the score and level off the results screen. */
  method ScenarioRun() returns (score: int, level: Results.Level)
    ensures score == 93
    ensures level == Results.ReadyToLaunch
  {
    var app := new App();
    app.HandleStartQuiz();

    var quiz := new Quiz.QuizScreen();
    SelectMath(quiz);
    SelectScienceAndNext(quiz);
    AnswerConfidence(quiz);
    AnswerSingleChoices(quiz);
    CatalogShape();
    quiz.ChooseOption("all-above");
    var completed := quiz.ClickNext();
    assert completed == Some(Results.Scenario);

    Results.ScenarioScore();
    app.HandleQuizComplete(completed.value);
    score := app.ShownScore();
    level := Results.ReadinessLevel(score);
  }
}
