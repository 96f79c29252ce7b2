/** The answer-update rule of one question card: what an option click or a
    slider move hands to the quiz, and which options are shown as selected. */
module QuestionCard {
  import opened Answers
  import opened Catalog

  /** `xs.filter(a => a !== v)`: every occurrence of `v` removed. */
  function RemoveAll(xs: seq<string>, v: string): (r: seq<string>)
    ensures forall x :: x in r <==> x in xs && x != v
    ensures |r| <= |xs|
    ensures v !in xs ==> r == xs
  {
    if xs == [] then []
    else (if xs[0] == v then [] else [xs[0]]) + RemoveAll(xs[1..], v)
  }

  /** Filtering distributes over concatenation: the kept elements stay in
      their relative order. */
  lemma {:induction false} RemoveAllAppend(xs: seq<string>, ys: seq<string>, v: string)
    ensures RemoveAll(xs + ys, v) == RemoveAll(xs, v) + RemoveAll(ys, v)
  {
    if xs == [] {
      assert xs + ys == ys;
    } else {
      assert (xs + ys)[1..] == xs[1..] + ys;
      RemoveAllAppend(xs[1..], ys, v);
    }
  }

  /** Every occurrence of `v` goes, every other element keeps its multiplicity. */
  lemma {:induction false} RemoveAllCounts(xs: seq<string>, v: string)
    ensures multiset(RemoveAll(xs, v)) == multiset(xs)[v := 0]
  {
    if xs == [] {
    } else {
      RemoveAllCounts(xs[1..], v);
      assert xs == [xs[0]] + xs[1..];
    }
  }

  lemma {:induction false} RemoveAllNoDuplicates(xs: seq<string>, v: string)
    requires NoDuplicates(xs)
    ensures NoDuplicates(RemoveAll(xs, v))
  {
    if xs != [] {
      assert xs == [xs[0]] + xs[1..];
      NoDuplicatesCons(xs[0], xs[1..]);
      RemoveAllNoDuplicates(xs[1..], v);
      if xs[0] != v {
        NoDuplicatesCons(xs[0], RemoveAll(xs[1..], v));
      }
    }
  }

  /** The multiple-choice click: drop `v` if it is in the list, else append it. */
  function Toggle(xs: seq<string>, v: string): (r: seq<string>)
    ensures v in r <==> v !in xs
    ensures forall x :: x != v ==> (x in r <==> x in xs)
  {
    if v in xs then RemoveAll(xs, v) else xs + [v]
  }

  /** Clicking a value twice, starting from a list without it, gives the list back. */
  lemma ToggleTwice(xs: seq<string>, v: string)
    requires v !in xs
    ensures Toggle(Toggle(xs, v), v) == xs
  {
    RemoveAllAppend(xs, [v], v);
    assert RemoveAll([v], v) == [];
  }

  /** A click never introduces a duplicate. */
  lemma ToggleNoDuplicates(xs: seq<string>, v: string)
    requires NoDuplicates(xs)
    ensures NoDuplicates(Toggle(xs, v))
  {
    if v in xs {
      RemoveAllNoDuplicates(xs, v);
    } else {
      NoDuplicatesSnoc(xs, v);
    }
  }

  /** `Array.isArray(answer) ? answer : []` */
  function CurrentList(answer: Option<Answer>): seq<string>
  {
    match answer
    case Some(Multi(xs)) => xs
    case _ => []
  }

  /** `handleOptionClick(value)`: the answer handed to the quiz. A
      multiple-choice click yields a list in which the clicked value's
      membership is flipped; any other click yields the clicked value. */
  function OptionClick(q: Question, answer: Option<Answer>, value: string): (r: Answer)
    ensures IsMultiple(q) ==> r.Multi? && (value in r.items <==> value !in CurrentList(answer))
    ensures IsMultiple(q) ==> forall x :: x != value ==> (x in r.items <==> x in CurrentList(answer))
    ensures !IsMultiple(q) ==> r.Single? && r.text == value
  {
    if IsMultiple(q) then Multi(Toggle(CurrentList(answer), value)) else Single(value)
  }

  /** Whether the option `value` is drawn as selected. */
  predicate IsSelected(q: Question, answer: Option<Answer>, value: string)
  {
    if IsMultiple(q) then answer.Some? && answer.value.Multi? && value in answer.value.items
    else answer == Some(Single(value))
  }

  /** For a multiple-choice question: a value absent from the list is appended
      at the end; a present one is removed everywhere, the rest kept in order;
      an answer that is not a list counts as the empty list. */
  lemma ClickMultiple(q: Question, answer: Option<Answer>, value: string)
    requires IsMultiple(q)
    ensures var xs := CurrentList(answer);
      && (value !in xs ==> OptionClick(q, answer, value) == Multi(xs + [value]))
      && (value in xs ==> OptionClick(q, answer, value) == Multi(RemoveAll(xs, value)))
    ensures !(answer.Some? && answer.value.Multi?) ==> OptionClick(q, answer, value) == Multi([value])
  {
  }

  /** For any other question a click replaces the answer, and clicking again
      changes nothing. */
  lemma ClickReplaces(q: Question, answer: Option<Answer>, value: string)
    requires !IsMultiple(q)
    ensures OptionClick(q, answer, value) == Single(value)
    ensures OptionClick(q, Some(OptionClick(q, answer, value)), value) == OptionClick(q, answer, value)
  {
  }

  /** A click flips the selection of the clicked option of a multiple-choice
      question and leaves every other option's selection as it was; on any other
      kind of question it selects the clicked option and only that one. */
  lemma ClickSelection(q: Question, answer: Option<Answer>, value: string, other: string)
    requires other != value
    ensures IsMultiple(q) ==> (IsSelected(q, Some(OptionClick(q, answer, value)), value) <==> !IsSelected(q, answer, value))
    ensures IsMultiple(q) ==> (IsSelected(q, Some(OptionClick(q, answer, value)), other) <==> IsSelected(q, answer, other))
    ensures !IsMultiple(q) ==> IsSelected(q, Some(OptionClick(q, answer, value)), value)
    ensures !IsMultiple(q) ==> !IsSelected(q, Some(OptionClick(q, answer, value)), other)
  {
  }

  /** Clicking one of a choice question's own options keeps the answer of the
      shape the catalog admits. */
  lemma ClickFits(q: Question, answer: Option<Answer>, value: string)
    requires q.ChoiceQuestion? && value in q.options
    requires answer.Some? ==> Fits(q, answer.value)
    ensures Fits(q, OptionClick(q, answer, value))
  {
    if IsMultiple(q) {
      ToggleNoDuplicates(CurrentList(answer), value);
    }
  }
}
