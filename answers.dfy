/** Answer values as the quiz stores them, and the few JavaScript value rules
    that the scoring and the navigation guard rely on. */
module Answers {

  datatype Option<+T> = None | Some(value: T)

  /** One stored answer. A multiple-choice question collects an ordered list of
      option values, a single-choice question holds one option value, and the
      slider holds the integer it was moved to. */
  datatype Answer = Multi(items: seq<string>) | Single(text: string) | Num(n: int)

  /** Question id to answer. An unanswered question has no key. */
  type AnswerMap = map<int, Answer>

  /** `data[id]`, with a missing key read as `undefined`. */
  function Get(data: AnswerMap, id: int): Option<Answer>
  {
    if id in data then Some(data[id]) else None
  }

  /** JavaScript truthiness of a stored answer: every array is truthy, the
      empty string and the number 0 are falsy. */
  predicate Truthy(a: Answer)
  {
    match a
    case Multi(_) => true
    case Single(s) => s != ""
    case Num(k) => k != 0
  }

  /** The expression `data[id] || fallback`. */
  function GetOr(data: AnswerMap, id: int, fallback: Answer): Answer
  {
    if id in data && Truthy(data[id]) then data[id] else fallback
  }

  /** No value occurs twice in the list. */
  predicate NoDuplicates(xs: seq<string>)
  {
    forall i, j :: 0 <= i < j < |xs| ==> xs[i] != xs[j]
  }

  lemma NoDuplicatesCons(x: string, xs: seq<string>)
    ensures NoDuplicates([x] + xs) <==> x !in xs && NoDuplicates(xs)
  {
    var s := [x] + xs;
    assert forall k :: 0 <= k < |xs| ==> s[k + 1] == xs[k];
    if NoDuplicates(s) {
      forall k | 0 <= k < |xs| ensures xs[k] != x {
        assert s[0] != s[k + 1];
      }
      forall i, j | 0 <= i < j < |xs| ensures xs[i] != xs[j] {
        assert s[i + 1] != s[j + 1];
      }
    }
    if x !in xs && NoDuplicates(xs) {
      forall i, j | 0 <= i < j < |s| ensures s[i] != s[j] {
        if i == 0 {
          assert s[j] == xs[j - 1];
        } else {
          assert s[i] == xs[i - 1] && s[j] == xs[j - 1];
        }
      }
    }
  }

  lemma NoDuplicatesSnoc(xs: seq<string>, x: string)
    ensures NoDuplicates(xs + [x]) <==> x !in xs && NoDuplicates(xs)
  {
    var s := xs + [x];
    assert forall k :: 0 <= k < |xs| ==> s[k] == xs[k];
    if NoDuplicates(s) {
      forall k | 0 <= k < |xs| ensures xs[k] != x {
        assert s[k] != s[|xs|];
      }
    }
  }
}
