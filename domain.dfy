/** Records shared by the server and the quiz page: questions as served by
    `/quiz/questions` and answers as posted to `/quiz/submit`. */
module Domain {
  /** One selectable option of a question, e.g. id "A". */
  datatype Choice = Choice(id: string, text: string)

  datatype Question = Question(id: int, text: string, options: seq<Choice>)

  /** The record the quiz page stores per answered question: `{ qId, answer }`. */
  datatype Answer = Answer(qId: int, answer: string)
}
