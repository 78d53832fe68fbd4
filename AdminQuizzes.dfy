/**
 * The quiz management screen: the list of stored quizzes, and a draft quiz
 * whose questions each carry four options.
 */
module AdminQuizzes {
  import opened Options
  import opened QuizData
  import JsArray

  /** A question being written: text, options and the correct answer. */
  datatype DraftQuestion = DraftQuestion(questionText: string, options: seq<string>, correctAnswer: string)

  datatype Draft = Draft(title: string, questions: seq<DraftQuestion>)

  const BlankQuestion: DraftQuestion := DraftQuestion("", ["", "", "", ""], "")

  /** The draft the form starts from and returns to after a create. */
  const BlankDraft: Draft := Draft("", [BlankQuestion])

  /** Every draft question has four options. */
  predicate FourOptions(qs: seq<DraftQuestion>) {
    forall i :: 0 <= i < |qs| ==> |qs[i].options| == 4
  }

  /** The list after deleting quiz `id`: every quiz with another id, in order. */
  function WithoutId(quizzes: seq<Quiz>, id: string): (r: seq<Quiz>)
    ensures |r| <= |quizzes|
    ensures forall q :: q in r <==> q in quizzes && q.id != id
    decreases |quizzes|
  {
    if quizzes == [] then []
    else (if quizzes[0].id == id then [] else [quizzes[0]]) + WithoutId(quizzes[1..], id)
  }

  /** Deleting from a concatenation deletes from each part, so the kept quizzes keep their order. */
  lemma {:induction false} WithoutIdDistributes(a: seq<Quiz>, b: seq<Quiz>, id: string)
    ensures WithoutId(a + b, id) == WithoutId(a, id) + WithoutId(b, id)
    decreases |a|
  {
    if a == [] {
      assert a + b == b;
    } else {
      assert (a + b)[1..] == a[1..] + b;
      WithoutIdDistributes(a[1..], b, id);
    }
  }

  /** When no quiz carries `id`, the list is unchanged. */
  lemma {:induction false} WithoutAbsentId(quizzes: seq<Quiz>, id: string)
    requires forall q :: q in quizzes ==> q.id != id
    ensures WithoutId(quizzes, id) == quizzes
    decreases |quizzes|
  {
    if quizzes != [] {
      assert quizzes[0] in quizzes;
      WithoutAbsentId(quizzes[1..], id);
      assert [quizzes[0]] + quizzes[1..] == quizzes;
    }
  }

  /** Appending a blank question and then removing the last question restores the draft's list. */
  lemma AddThenRemoveRestores(qs: seq<DraftQuestion>)
    ensures JsArray.FilterOutIndex(qs + [BlankQuestion], |qs|) == qs
  {
    JsArray.FilterOutIndexIsRemoval(qs + [BlankQuestion], |qs|);
    assert (qs + [BlankQuestion])[..|qs|] == qs;
  }

  /** The screen's state: the stored quizzes and the draft being written. */
  class QuizManager {
    var quizzes: seq<Quiz>
    var draft: Draft

    ghost predicate Valid()
      reads this
    {
      FourOptions(draft.questions)
    }

    /** `fetched` is the list the server returned, or None when the fetch failed. */
    constructor (fetched: Option<seq<Quiz>>)
      ensures Valid()
      ensures quizzes == if fetched.Some? then fetched.value else []
      ensures draft == BlankDraft
    {
      quizzes := if fetched.Some? then fetched.value else [];
      draft := BlankDraft;
    }

    method HandleQuizTitleChange(value: string)
      requires Valid()
      modifies this`draft
      ensures Valid()
      ensures draft.title == value && draft.questions == old(draft.questions)
    {
      draft := draft.(title := value);
    }

    method HandleQuestionChange(index: int, value: string)
      requires Valid() && 0 <= index < |draft.questions|
      modifies this`draft
      ensures Valid()
      ensures draft.title == old(draft.title) && |draft.questions| == |old(draft.questions)|
      ensures draft.questions[index] == old(draft.questions[index]).(questionText := value)
      ensures forall j :: 0 <= j < |draft.questions| && j != index ==> draft.questions[j] == old(draft.questions[j])
    {
      var qs := draft.questions;
      draft := draft.(questions := qs[index := qs[index].(questionText := value)]);
    }

    method HandleOptionChange(qIndex: int, oIndex: int, value: string)
      requires Valid() && 0 <= qIndex < |draft.questions| && 0 <= oIndex < 4
      modifies this`draft
      ensures Valid()
      ensures draft.title == old(draft.title) && |draft.questions| == |old(draft.questions)|
      ensures var q, q0 := draft.questions[qIndex], old(draft.questions[qIndex]);
              q.questionText == q0.questionText && q.correctAnswer == q0.correctAnswer &&
              q.options[oIndex] == value &&
              forall o :: 0 <= o < 4 && o != oIndex ==> q.options[o] == q0.options[o]
      ensures forall j :: 0 <= j < |draft.questions| && j != qIndex ==> draft.questions[j] == old(draft.questions[j])
    {
      var qs := draft.questions;
      var q := qs[qIndex];
      draft := draft.(questions := qs[qIndex := q.(options := q.options[oIndex := value])]);
    }

    method HandleCorrectAnswerChange(qIndex: int, value: string)
      requires Valid() && 0 <= qIndex < |draft.questions|
      modifies this`draft
      ensures Valid()
      ensures draft.title == old(draft.title) && |draft.questions| == |old(draft.questions)|
      ensures draft.questions[qIndex] == old(draft.questions[qIndex]).(correctAnswer := value)
      ensures forall j :: 0 <= j < |draft.questions| && j != qIndex ==> draft.questions[j] == old(draft.questions[j])
    {
      var qs := draft.questions;
      draft := draft.(questions := qs[qIndex := qs[qIndex].(correctAnswer := value)]);
    }

    method AddQuestion()
      requires Valid()
      modifies this`draft
      ensures Valid()
      ensures draft == old(draft).(questions := old(draft.questions) + [BlankQuestion])
    {
      draft := draft.(questions := draft.questions + [BlankQuestion]);
    }

    /** Removes question `index` by filtering on position; any other index leaves the list alone. */
    method RemoveQuestion(index: int)
      requires Valid()
      modifies this`draft
      ensures Valid()
      ensures draft.title == old(draft.title)
      ensures draft.questions == JsArray.FilterOutIndex(old(draft.questions), index)
      ensures draft.questions == if 0 <= index < |old(draft.questions)|
                                 then old(draft.questions)[..index] + old(draft.questions)[index + 1..]
                                 else old(draft.questions)
    {
      JsArray.FilterOutIndexIsRemoval(draft.questions, index);
      draft := draft.(questions := JsArray.FilterOutIndex(draft.questions, index));
    }

    /** Posts the draft. `created` is the stored quiz returned, or None when the post fails. */
    method HandleCreateQuiz(created: Option<Quiz>) returns (posted: Draft)
      requires Valid()
      modifies this
      ensures Valid()
      ensures posted == old(draft)
      ensures created.Some? ==> quizzes == old(quizzes) + [created.value] && draft == BlankDraft
      ensures created.None? ==> quizzes == old(quizzes) && draft == old(draft)
    {
      posted := draft;
      if created.Some? {
        quizzes := quizzes + [created.value];
        draft := BlankDraft;
      }
    }

    /** Deletes quiz `id` after the user confirms; `deleted` is whether the server call succeeded. */
    method HandleDeleteQuiz(id: string, confirmed: bool, deleted: bool)
      requires Valid()
      modifies this`quizzes
      ensures Valid()
      ensures quizzes == if confirmed && deleted then WithoutId(old(quizzes), id) else old(quizzes)
    {
      if !confirmed {
        return;
      }
      if deleted {
        quizzes := WithoutId(quizzes, id);
      }
    }
  }
}
