/** Facts that connect the components: what the quiz page posts, what the
    server recommends for it, and how the result page shows that recommendation. */
module Flow {
  import opened Wrappers
  import opened Domain
  import Recommender
  import Store
  import QuizPage
  import ResultPage

  /** An answer array the quiz page posts (nothing remaining) passes the server's null check, so
      the submission is scored rather than failing with 500, and every answer is kept. */
  lemma PostedAnswersAreScored(answers: seq<Option<Answer>>)
    requires QuizPage.CountUnanswered(answers) == 0
    ensures Store.AllPresent(answers)
    ensures |Store.Unwrap(answers)| == |answers|
    ensures |answers| <= Recommender.Score(Store.Unwrap(answers)) <= 3 * |answers|
  {
  }

  /** The result page never shows a recommendation as low confidence; it shows high confidence
      exactly when the answers score at least 40. */
  lemma RecommendationBand(answers: seq<Answer>)
    ensures ResultPage.ConfidenceLabel(Recommender.Recommend(answers).confidence) != "Low Confidence"
    ensures ResultPage.ConfidenceLabel(Recommender.Recommend(answers).confidence) == "High Confidence" <==>
              Recommender.Score(answers) >= 40
  {
  }
}
