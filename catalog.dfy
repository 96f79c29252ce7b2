/** The fixed catalog of six questions, in navigation order, and the shape of
    answer each one admits. */
module Catalog {
  import opened Answers

  /** A question as the catalog defines it. Prompts, option labels and icons
      are presentation and are not modelled; only the option values are. */
  datatype Question =
    | ChoiceQuestion(id: int, multiple: bool, options: seq<string>)
    | SliderQuestion(id: int, min: int, max: int, step: int)

  /** `question.type === 'multiple'` */
  predicate IsMultiple(q: Question)
  {
    q.ChoiceQuestion? && q.multiple
  }

  const Questions: seq<Question> := [
    ChoiceQuestion(1, true, ["math", "reading", "science", "testprep", "none"]),
    SliderQuestion(2, 1, 10, 1),
    ChoiceQuestion(3, false, ["often", "sometimes", "not-yet"]),
    ChoiceQuestion(4, false, ["finding-students", "setting-rates", "explaining-concepts",
                              "managing-time", "no-concerns"]),
    ChoiceQuestion(5, false, ["1-3", "4-6", "7-10", "10+"]),
    ChoiceQuestion(6, false, ["earn-money", "help-others", "build-skills", "college-apps",
                              "all-above"])
  ]

  /** The catalog has six questions whose ids are their positions plus one,
      so ids are unique and the scoring keys 1..6 name questions 1..6. */
  lemma CatalogShape()
    ensures |Questions| == 6
    ensures forall i :: 0 <= i < |Questions| ==> Questions[i].id == i + 1
    ensures Questions[1].SliderQuestion? && Questions[1].min == 1 && Questions[1].max == 10
    ensures IsMultiple(Questions[0]) && "none" in Questions[0].options
    ensures forall i :: 2 <= i < |Questions| ==> Questions[i].ChoiceQuestion? && !IsMultiple(Questions[i])
  {
  }

  /** An answer of the shape the question's input widget produces: a
      duplicate-free list of its option values for a multiple-choice question,
      one of its option values for a single-choice question, and an integer in
      [min, max] for a slider. */
  predicate Fits(q: Question, a: Answer)
  {
    match q
    case ChoiceQuestion(_, multiple, options) =>
      if multiple then
        a.Multi? && NoDuplicates(a.items) && forall x :: x in a.items ==> x in options
      else
        a.Single? && a.text in options
    case SliderQuestion(_, lo, hi, _) =>
      a.Num? && lo <= a.n <= hi
  }

  /** Every key is a catalog id and every answer fits its question. */
  predicate WellTyped(data: AnswerMap)
  {
    forall id :: id in data ==> 1 <= id <= |Questions| && Fits(Questions[id - 1], data[id])
  }
}
