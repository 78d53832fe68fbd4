/**
 * The stand-alone quiz form: a title and questions whose four options are
 * separate fields, converted to an options list when the quiz is posted.
 */
module App {
  import opened Options
  import opened QuizData
  import JsArray

  /** A question as the form holds it: six text fields. */
  datatype FlatQuestion = FlatQuestion(
    questionText: string, option1: string, option2: string, option3: string, option4: string,
    correctAnswer: string)

  /** The field names the inputs pass to the change handler. */
  datatype Field = QuestionText | Option1 | Option2 | Option3 | Option4 | CorrectAnswer

  const BlankQuestion: FlatQuestion := FlatQuestion("", "", "", "", "", "")

  const FallbackError: string := "Error adding quiz. Make sure all fields are correct."

  function Get(q: FlatQuestion, f: Field): string {
    match f
    case QuestionText => q.questionText
    case Option1 => q.option1
    case Option2 => q.option2
    case Option3 => q.option3
    case Option4 => q.option4
    case CorrectAnswer => q.correctAnswer
  }

  /** `q[field] = value`: the named field takes the value, every other field keeps its own. */
  function Set(q: FlatQuestion, f: Field, value: string): (r: FlatQuestion)
    ensures Get(r, f) == value
    ensures forall g :: g != f ==> Get(r, g) == Get(q, g)
  {
    match f
    case QuestionText => q.(questionText := value)
    case Option1 => q.(option1 := value)
    case Option2 => q.(option2 := value)
    case Option3 => q.(option3 := value)
    case Option4 => q.(option4 := value)
    case CorrectAnswer => q.(correctAnswer := value)
  }

  /** A question as the server receives it. */
  datatype PostedQuestion = PostedQuestion(questionText: string, options: seq<string>, correctAnswer: string)

  datatype QuizPayload = QuizPayload(title: string, questions: seq<PostedQuestion>)

  function ToPosted(q: FlatQuestion): (p: PostedQuestion)
    ensures |p.options| == 4
  {
    PostedQuestion(q.questionText, [q.option1, q.option2, q.option3, q.option4], q.correctAnswer)
  }

  /** The body posted on submit: the title, and each question in order with its options as a list. */
  function ToPayload(title: string, questions: seq<FlatQuestion>): (p: QuizPayload)
    ensures p.title == title && |p.questions| == |questions|
    ensures forall i :: 0 <= i < |questions| ==>
      p.questions[i].questionText == questions[i].questionText &&
      p.questions[i].correctAnswer == questions[i].correctAnswer &&
      p.questions[i].options == [Get(questions[i], Option1), Get(questions[i], Option2),
                                 Get(questions[i], Option3), Get(questions[i], Option4)]
  {
    QuizPayload(title, seq(|questions|, i requires 0 <= i < |questions| => ToPosted(questions[i])))
  }

  /** Reads a posted question back into the form's six fields. */
  function FromPosted(p: PostedQuestion): FlatQuestion
    requires |p.options| == 4
  {
    FlatQuestion(p.questionText, p.options[0], p.options[1], p.options[2], p.options[3], p.correctAnswer)
  }

  /** The conversion loses nothing: every question of the form can be read back from the payload. */
  lemma PayloadRoundTrip(title: string, questions: seq<FlatQuestion>)
    ensures var p := ToPayload(title, questions);
            p.title == title &&
            forall i :: 0 <= i < |questions| ==> FromPosted(p.questions[i]) == questions[i]
  {
  }

  /** `err.response?.data?.message || fallback`: an absent or empty message gives the fallback. */
  function ErrorText(message: Option<string>): (e: string)
    ensures e != ""
    ensures message.Some? && message.value != "" ==> e == message.value
    ensures message.None? || message.value == "" ==> e == FallbackError
  {
    if message.Some? && message.value != "" then message.value else FallbackError
  }

  /** What the initial fetch of the list produced. */
  datatype ListResponse = ListFailed | ListOk(quizzesField: Option<seq<Quiz>>)

  /** `res.data.quizzes || []`, and the empty list when the fetch fails. */
  function InitialQuizzes(response: ListResponse): (r: seq<Quiz>)
    ensures response.ListOk? && response.quizzesField.Some? ==> r == response.quizzesField.value
    ensures response.ListFailed? || response.quizzesField.None? ==> r == []
  {
    match response
    case ListOk(Some(qs)) => qs
    case _ => []
  }

  /** What the post of a new quiz produced: the stored quiz, or a failure with the server's message if any. */
  datatype PostResponse = Created(quiz: Quiz) | Failed(message: Option<string>)

  /** The form's state. */
  class QuizForm {
    var quizzes: seq<Quiz>
    var quizTitle: string
    var questions: seq<FlatQuestion>
    var error: string

    constructor (response: ListResponse)
      ensures quizzes == InitialQuizzes(response)
      ensures quizTitle == "" && questions == [BlankQuestion] && error == ""
    {
      quizzes := InitialQuizzes(response);
      quizTitle := "";
      questions := [BlankQuestion];
      error := "";
    }

    method HandleTitleInput(value: string)
      modifies this`quizTitle
      ensures quizTitle == value
    {
      quizTitle := value;
    }

    method AddQuestion()
      modifies this`questions
      ensures questions == old(questions) + [BlankQuestion]
    {
      questions := questions + [BlankQuestion];
    }

    /** `splice(index, 1)` on a copy of the list. */
    method RemoveQuestion(index: int)
      modifies this`questions
      ensures questions == JsArray.SpliceOne(old(questions), index)
      ensures 0 <= index < |old(questions)| ==>
        questions == old(questions)[..index] + old(questions)[index + 1..]
      ensures index >= |old(questions)| ==> questions == old(questions)
    {
      questions := JsArray.SpliceOne(questions, index);
    }

    method HandleQuestionChange(index: int, field: Field, value: string)
      requires 0 <= index < |questions|
      modifies this`questions
      ensures |questions| == |old(questions)|
      ensures Get(questions[index], field) == value
      ensures forall g :: g != field ==> Get(questions[index], g) == Get(old(questions[index]), g)
      ensures forall j :: 0 <= j < |questions| && j != index ==> questions[j] == old(questions[j])
    {
      questions := questions[index := Set(questions[index], field, value)];
    }

    /** Clears the error and posts the converted quiz. On success the new quiz is appended and the
        form resets; on failure the error message is shown and everything else stays. */
    method HandleSubmit(response: PostResponse) returns (posted: QuizPayload)
      modifies this
      ensures posted == ToPayload(old(quizTitle), old(questions))
      ensures response.Created? ==>
        quizzes == old(quizzes) + [response.quiz] && quizTitle == "" &&
        questions == [BlankQuestion] && error == ""
      ensures response.Failed? ==>
        quizzes == old(quizzes) && quizTitle == old(quizTitle) && questions == old(questions) &&
        error == ErrorText(response.message)
    {
      error := "";
      posted := ToPayload(quizTitle, questions);
      match response
      case Created(q) =>
        quizzes := quizzes + [q];
        quizTitle := "";
        questions := [BlankQuestion];
      case Failed(message) =>
        error := ErrorText(message);
    }
  }
}
