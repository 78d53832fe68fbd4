/**
 * The result screen: a stored score projected into display lines, one per
 * submitted answer, with the question looked up by id.
 */
module ResultView {
  import opened Options
  import opened QuizData
  import opened Text
  import JsArray

  /** A graded answer as stored with the score. */
  datatype ScoredAnswer = ScoredAnswer(questionId: string, selectedAnswer: Option<string>)

  /** The parts of a stored score the answer list and the status colour read. */
  datatype Score = Score(quiz: Quiz, status: string, answers: seq<ScoredAnswer>)

  datatype Colour = Green | Red

  /** One list item: its numbered heading, the student's answer, and the correct answer if known. */
  datatype AnswerLine = AnswerLine(heading: string, yourAnswer: string, correctAnswer: Option<string>)

  datatype Screen = Loading | NoResult | Shown(colour: Colour, lines: seq<AnswerLine>)

  const NotAnswered: string := "Not answered"

  /** The status line is green exactly for a passed score. */
  function StatusColour(status: string): (c: Colour)
    ensures c == Green <==> status == "passed"
  {
    if status == "passed" then Green else Red
  }

  /** The first question of the quiz whose id is `id`. */
  function LookupQuestion(questions: seq<Question>, id: string): (r: Option<Question>)
    ensures r.Some? ==> r.value.id == id && r.value in questions
    ensures r.None? <==> forall q :: q in questions ==> q.id != id
    ensures r.Some? ==> exists k :: 0 <= k < |questions| && questions[k] == r.value &&
                          forall j :: 0 <= j < k ==> questions[j].id != id
  {
    match JsArray.FirstIndex(questions, (q: Question) => q.id == id)
    case Some(k) => Some(questions[k])
    case None => None
  }

  /** `a.selectedAnswer || "Not answered"`. */
  function ShownAnswer(selected: Option<string>): (s: string)
    ensures selected.None? || selected.value == "" ==> s == NotAnswered
    ensures selected.Some? && selected.value != "" ==> s == selected.value
  {
    if selected.Some? && selected.value != "" then selected.value else NotAnswered
  }

  /** `${i + 1}. ${question?.questionText}`: a missing question interpolates as "undefined". */
  function Heading(i: nat, q: Option<Question>): string {
    DecimalString(i + 1) + ". " + (if q.Some? then q.value.questionText else "undefined")
  }

  function Line(score: Score, i: nat): AnswerLine
    requires i < |score.answers|
  {
    var q := LookupQuestion(score.quiz.questions, score.answers[i].questionId);
    AnswerLine(Heading(i, q), ShownAnswer(score.answers[i].selectedAnswer),
               if q.Some? then Some(q.value.correctAnswer) else None)
  }

  /** One line per stored answer, in order. */
  function AnswerLines(score: Score): (lines: seq<AnswerLine>)
    ensures |lines| == |score.answers|
    ensures forall i :: 0 <= i < |lines| ==> lines[i] == Line(score, i)
  {
    seq(|score.answers|, i requires 0 <= i < |score.answers| => Line(score, i))
  }

  /** What the screen shows for its loading flag and fetched score. */
  function View(loading: bool, score: Option<Score>): (s: Screen)
    ensures loading <==> s == Loading
    ensures !loading && score.None? <==> s == NoResult
    ensures s.Shown? ==> score.Some? &&
                         s.colour == StatusColour(score.value.status) &&
                         s.lines == AnswerLines(score.value)
  {
    if loading then Loading
    else if score.None? then NoResult
    else Shown(StatusColour(score.value.status), AnswerLines(score.value))
  }

  /** The fetch ends loading either way; a failed fetch leaves no score, so "No result found." shows. */
  function AfterFetch(response: Option<Score>): (s: Screen)
    ensures response.None? <==> s == NoResult
    ensures s != Loading
  {
    View(false, response)
  }

  /** Line `i` is numbered `i + 1`, and the number reads back from its heading. */
  lemma LineNumbering(score: Score, i: nat)
    requires i < |score.answers|
    ensures var h := AnswerLines(score)[i].heading;
            var n := DecimalString(i + 1);
            |h| > |n| + 1 && h[..|n|] == n && h[|n|..|n| + 2] == ". " &&
            DecimalValue(h[..|n|]) == i + 1
  {
    DecimalRoundTrip(i + 1);
  }

  /** A line whose question exists shows that question's text and correct answer; otherwise
      the correct answer is absent. */
  lemma LineShowsMatchedQuestion(score: Score, i: nat)
    requires i < |score.answers|
    ensures var line := AnswerLines(score)[i];
            var id := score.answers[i].questionId;
            (forall q :: q in score.quiz.questions ==> q.id != id) <==> line.correctAnswer.None?
    ensures var line := AnswerLines(score)[i];
            var id := score.answers[i].questionId;
            forall k :: 0 <= k < |score.quiz.questions| && score.quiz.questions[k].id == id &&
                        (forall j :: 0 <= j < k ==> score.quiz.questions[j].id != id) ==>
              line.correctAnswer == Some(score.quiz.questions[k].correctAnswer) &&
              line.heading == DecimalString(i + 1) + ". " + score.quiz.questions[k].questionText
  {
    var qs := score.quiz.questions;
    var id := score.answers[i].questionId;
    forall k | 0 <= k < |qs| && qs[k].id == id && (forall j :: 0 <= j < k ==> qs[j].id != id)
      ensures LookupQuestion(qs, id) == Some(qs[k])
    {
      var r := LookupQuestion(qs, id);
      assert r.Some? by { assert qs[k] in qs; }
      var k' :| 0 <= k' < |qs| && qs[k'] == r.value && forall j :: 0 <= j < k' ==> qs[j].id != id;
      assert !(k' < k) && !(k < k');
    }
  }
}
