/** The results screen's scoring and recommendation engine: a readiness score
    in [0, 100] from the answer map, a three-tier level, and a two-item plan. */
module Results {
  import opened Answers
  import opened Catalog

  function Min(a: int, b: int): int
  {
    if a <= b then a else b
  }

  /** Question 1 (subjects): `data[1] || []`; a list scores 0 if it holds
      "none" and otherwise 15 per subject up to 25; a value that is not a list
      scores 20 unless it is "none". */
  function SubjectPoints(data: AnswerMap): (r: int)
    ensures 0 <= r <= 25
  {
    var subjects := GetOr(data, 1, Multi([]));
    if subjects.Multi? then
      (if "none" in subjects.items then 0 else Min(|subjects.items| * 15, 25))
    else if subjects != Single("none") then 20
    else 0
  }

  /** `confidence * 2` is plain arithmetic exactly when `data[2] || 5` is a
      number: question 2 is absent, falsy ('' or 0, when the default 5
      applies), or a number. */
  predicate ConfidenceIsNumber(data: AnswerMap)
  {
    GetOr(data, 2, Num(5)).Num?
  }

  /** Question 2 (confidence): `(data[2] || 5) * 2`. */
  function ConfidencePoints(data: AnswerMap): int
    requires ConfidenceIsNumber(data)
  {
    GetOr(data, 2, Num(5)).n * 2
  }

  /** Question 3 (helping others). */
  function ExperiencePoints(data: AnswerMap): (r: int)
    ensures r == 25 <==> Get(data, 3) == Some(Single("often"))
    ensures r == 15 <==> Get(data, 3) == Some(Single("sometimes"))
    ensures r == 5 || r == 15 || r == 25
  {
    var experience := Get(data, 3);
    if experience == Some(Single("often")) then 25
    else if experience == Some(Single("sometimes")) then 15
    else 5
  }

  /** Question 5 (weekly hours): "1-3", a missing answer and any other value
      all score 5. */
  function TimePoints(data: AnswerMap): (r: int)
    ensures r == 15 <==> Get(data, 5) == Some(Single("10+"))
    ensures r == 12 <==> Get(data, 5) == Some(Single("7-10"))
    ensures r == 8 <==> Get(data, 5) == Some(Single("4-6"))
    ensures r == 5 || r == 8 || r == 12 || r == 15
  {
    var time := Get(data, 5);
    if time == Some(Single("10+")) then 15
    else if time == Some(Single("7-10")) then 12
    else if time == Some(Single("4-6")) then 8
    else 5
  }

  /** Question 6 (motivation). */
  function MotivationPoints(data: AnswerMap): (r: int)
    ensures r == 15 <==> Get(data, 6) == Some(Single("all-above"))
    ensures r == 10 || r == 15
  {
    if Get(data, 6) == Some(Single("all-above")) then 15 else 10
  }

  /** The five terms before the clamp. Question 4 contributes nothing. */
  function RawTotal(data: AnswerMap): int
    requires ConfidenceIsNumber(data)
  {
    SubjectPoints(data) + ConfidencePoints(data) + ExperiencePoints(data)
      + TimePoints(data) + MotivationPoints(data)
  }

  /** `calculateReadinessScore()` as a value: `Math.min(total, 100)`. */
  function ReadinessScore(data: AnswerMap): int
    requires ConfidenceIsNumber(data)
  {
    Min(RawTotal(data), 100)
  }

  /** `calculateReadinessScore()`: the score accumulated term by term. */
  method CalculateReadinessScore(data: AnswerMap) returns (score: int)
    requires ConfidenceIsNumber(data)
    ensures score == ReadinessScore(data)
    ensures score <= 100
  {
    score := 0;

    var subjects := GetOr(data, 1, Multi([]));
    if subjects.Multi? {
      if "none" in subjects.items {
        score := score + 0;
      } else {
        score := score + Min(|subjects.items| * 15, 25);
      }
    } else if subjects != Single("none") {
      score := score + 20;
    }

    var confidence := GetOr(data, 2, Num(5));
    score := score + confidence.n * 2;

    var experience := Get(data, 3);
    if experience == Some(Single("often")) {
      score := score + 25;
    } else if experience == Some(Single("sometimes")) {
      score := score + 15;
    } else {
      score := score + 5;
    }

    var time := Get(data, 5);
    if time == Some(Single("10+")) {
      score := score + 15;
    } else if time == Some(Single("7-10")) {
      score := score + 12;
    } else if time == Some(Single("4-6")) {
      score := score + 8;
    } else {
      score := score + 5;
    }

    if Get(data, 6) == Some(Single("all-above")) {
      score := score + 15;
    } else {
      score := score + 10;
    }

    score := Min(score, 100);
  }

  /** With a non-negative confidence the score lies in [0, 100]. */
  lemma ScoreInRange(data: AnswerMap)
    requires ConfidenceIsNumber(data)
    requires 2 in data && data[2].Num? ==> data[2].n >= 0
    ensures 0 <= ReadinessScore(data) <= 100
    ensures ReadinessScore(data) <= RawTotal(data)
    ensures RawTotal(data) >= 100 ==> ReadinessScore(data) == 100
  {
  }

  lemma WellTypedConfidence(data: AnswerMap)
    requires WellTyped(data)
    ensures ConfidenceIsNumber(data)
    ensures 2 in data ==> 1 <= data[2].n <= 10
  {
  }

  /** Every answer map the quiz can build scores between 22 and 100 before the
      clamp, so for those the clamp never changes the total. */
  lemma WellTypedTotal(data: AnswerMap)
    requires WellTyped(data)
    ensures ConfidenceIsNumber(data)
    ensures 22 <= RawTotal(data) <= 100
    ensures ReadinessScore(data) == RawTotal(data)
  {
  }

  /** A confidence far outside the slider's range is where the clamp shows. */
  lemma ClampExample()
    ensures ConfidenceIsNumber(map[2 := Num(50)])
    ensures RawTotal(map[2 := Num(50)]) == 120
    ensures ReadinessScore(map[2 := Num(50)]) == 100
  {
  }

  /** The question-1 term case by case. */
  lemma SubjectCases(data: AnswerMap)
    ensures 1 !in data ==> SubjectPoints(data) == 0
    ensures 1 in data && data[1].Multi? && "none" in data[1].items ==> SubjectPoints(data) == 0
    ensures 1 in data && data[1].Multi? && "none" !in data[1].items ==>
              SubjectPoints(data) == Min(15 * |data[1].items|, 25)
    ensures 1 in data && data[1].Single? && data[1].text != "" && data[1].text != "none" ==>
              SubjectPoints(data) == 20
    ensures 1 in data && (data[1] == Single("none") || data[1] == Single("")) ==>
              SubjectPoints(data) == 0
    ensures 1 in data && data[1].Num? ==> SubjectPoints(data) == if data[1].n == 0 then 0 else 20
  {
  }

  /** A list holding "none" scores 0 whatever else it holds. */
  lemma NoneDominates(data: AnswerMap, others: seq<string>)
    ensures SubjectPoints(data[1 := Multi(others + ["none"])]) == 0
    ensures SubjectPoints(data[1 := Multi(["none"] + others)]) == 0
  {
  }

  /** The question-2 term: a missing or falsy confidence ('' or 0) counts as 5. */
  lemma ConfidenceCases(data: AnswerMap)
    requires ConfidenceIsNumber(data)
    ensures 2 !in data ==> ConfidencePoints(data) == 10
    ensures 2 in data && !Truthy(data[2]) ==> ConfidencePoints(data) == 10
    ensures 2 in data && data[2].Num? && data[2].n != 0 ==> ConfidencePoints(data) == 2 * data[2].n
  {
  }

  /** Only a truthy answer to question 2 that is not a number falls outside the
      model; the empty string and 0 take the default like a missing answer. */
  lemma ConfidenceDomain(data: AnswerMap)
    ensures ConfidenceIsNumber(data) <==> 2 !in data || !Truthy(data[2]) || data[2].Num?
    ensures ConfidenceIsNumber(map[2 := Single("")]) && ConfidencePoints(map[2 := Single("")]) == 10
  {
  }

  /** Two maps that agree on the scored ids 1, 2, 3, 5 and 6. */
  predicate AgreeOnScoredIds(d1: AnswerMap, d2: AnswerMap)
  {
    Get(d1, 1) == Get(d2, 1) && Get(d1, 2) == Get(d2, 2) && Get(d1, 3) == Get(d2, 3)
      && Get(d1, 5) == Get(d2, 5) && Get(d1, 6) == Get(d2, 6)
  }

  /** The score reads no key but 1, 2, 3, 5 and 6. */
  lemma ScoreReadsScoredIdsOnly(d1: AnswerMap, d2: AnswerMap)
    requires ConfidenceIsNumber(d1) && AgreeOnScoredIds(d1, d2)
    ensures ConfidenceIsNumber(d2)
    ensures ReadinessScore(d1) == ReadinessScore(d2)
  {
  }

  /** Adding, changing or removing the answer to question 4 leaves the score as it was. */
  lemma Question4Ignored(data: AnswerMap, a: Answer)
    requires ConfidenceIsNumber(data)
    ensures ConfidenceIsNumber(data[4 := a]) && ReadinessScore(data[4 := a]) == ReadinessScore(data)
    ensures ConfidenceIsNumber(data - {4}) && ReadinessScore(data - {4}) == ReadinessScore(data)
  {
  }

  datatype Level = GettingStarted | AlmostThere | ReadyToLaunch

  /** The text shown for a level. */
  function LevelName(l: Level): string
  {
    match l
    case ReadyToLaunch => "Ready to Launch!"
    case AlmostThere => "Almost There!"
    case GettingStarted => "Getting Started"
  }

  /** `getReadinessLevel(score)`: the first threshold the score reaches. */
  function ReadinessLevel(score: int): (l: Level)
    ensures l == ReadyToLaunch <==> score >= 80
    ensures l == AlmostThere <==> 60 <= score < 80
    ensures l == GettingStarted <==> score < 60
  {
    if score >= 80 then ReadyToLaunch
    else if score >= 60 then AlmostThere
    else GettingStarted
  }

  function Rank(l: Level): nat
  {
    match l
    case GettingStarted => 0
    case AlmostThere => 1
    case ReadyToLaunch => 2
  }

  /** A higher score never gives a lower level. */
  lemma LevelMonotone(s: int, t: int)
    requires s <= t
    ensures Rank(ReadinessLevel(s)) <= Rank(ReadinessLevel(t))
  {
  }

  lemma LevelBoundaries()
    ensures LevelName(ReadinessLevel(80)) == "Ready to Launch!"
    ensures LevelName(ReadinessLevel(79)) == "Almost There!"
    ensures LevelName(ReadinessLevel(60)) == "Almost There!"
    ensures LevelName(ReadinessLevel(59)) == "Getting Started"
  {
  }

  /** One recommendation of the action plan (its icon is presentation). */
  datatype Action = Action(title: string, description: string)

  const MarketYourself := Action("Start Marketing Yourself",
    "Create profiles on tutoring platforms like Wyzant, Tutor.com, or Varsity Tutors")
  const SetRates := Action("Set Your Rates",
    "Research local tutoring rates and price yourself competitively ($15-30/hour)")
  const PracticeTeaching := Action("Practice Teaching",
    "Offer free sessions to friends or family to build confidence")
  const FindNiche := Action("Identify Your Niche",
    "Focus on 1-2 subjects you excel at most")
  const BuildExpertise := Action("Build Subject Expertise",
    "Strengthen your knowledge in subjects you want to tutor")
  const StartSmall := Action("Start Small",
    "Help classmates or younger students informally first")

  /** The fixed pair of recommendations for each level. */
  function Plan(l: Level): (p: seq<Action>)
    ensures |p| == 2
  {
    match l
    case ReadyToLaunch => [MarketYourself, SetRates]
    case AlmostThere => [PracticeTeaching, FindNiche]
    case GettingStarted => [BuildExpertise, StartSmall]
  }

  /** `getActionPlan(score, data)`: two recommendations pushed according to
      the score tier; the answer map is passed but never read. */
  method GetActionPlan(score: int, data: AnswerMap) returns (actions: seq<Action>)
    ensures |actions| == 2
    ensures actions == Plan(ReadinessLevel(score))
  {
    actions := [];
    if score >= 80 {
      actions := actions + [MarketYourself];
      actions := actions + [SetRates];
    } else if score >= 60 {
      actions := actions + [PracticeTeaching];
      actions := actions + [FindNiche];
    } else {
      actions := actions + [BuildExpertise];
      actions := actions + [StartSmall];
    }
  }

  /** Different levels get different plans, so the plan shown always
      belongs to the level shown. */
  lemma PlanIdentifiesLevel(l1: Level, l2: Level)
    ensures Plan(l1) == Plan(l2) <==> l1 == l2
  {
  }

  /** The three values the results screen computes when it renders: the
      score, its level and that level's plan, all from one map. */
  method Evaluate(data: AnswerMap) returns (score: int, level: Level, plan: seq<Action>)
    requires ConfidenceIsNumber(data)
    ensures score == ReadinessScore(data)
    ensures level == ReadinessLevel(score)
    ensures plan == Plan(level)
  {
    score := CalculateReadinessScore(data);
    level := ReadinessLevel(score);
    plan := GetActionPlan(score, data);
  }

  /** All defaults: 0 + 10 + 5 + 5 + 10. */
  lemma EmptyMapScore()
    ensures ConfidenceIsNumber(map[])
    ensures ReadinessScore(map[]) == 30
    ensures ReadinessLevel(ReadinessScore(map[])) == GettingStarted
  {
  }

  const Scenario: AnswerMap := map[
    1 := Multi(["math", "science"]), 2 := Num(8), 3 := Single("often"),
    4 := Single("setting-rates"), 5 := Single("7-10"), 6 := Single("all-above")]

  /** 25 + 16 + 25 + 12 + 15 = 93: ready to launch, with the top-tier plan. */
  lemma ScenarioScore()
    ensures WellTyped(Scenario) && ConfidenceIsNumber(Scenario)
    ensures ReadinessScore(Scenario) == 93
    ensures ReadinessLevel(ReadinessScore(Scenario)) == ReadyToLaunch
    ensures Plan(ReadinessLevel(ReadinessScore(Scenario))) == [MarketYourself, SetRates]
  {
  }
}
