/** The quiz records the server returns, as the screens read them. */
module QuizData {

  /** A stored question: its `_id`, text, answer options and the correct answer. */
  datatype Question = Question(id: string, questionText: string, options: seq<string>, correctAnswer: string)

  /** A stored quiz: its `_id`, title and ordered questions. */
  datatype Quiz = Quiz(id: string, title: string, questions: seq<Question>)
}
