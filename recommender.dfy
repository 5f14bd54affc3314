/** The stub recommender behind `/quiz/submit`: answers are scored through a
    fixed lookup table, three career templates derive clamped linear
    confidences from the score, and the first candidate with the strictly
    greatest confidence is recommended. Confidences are exact reals. */
module Recommender {
  import opened Domain

  /** Points one answer contributes: A=3, B=2, C=1, D=2, and 1 for any other option id. */
  function Points(choice: string): (p: nat)
    ensures 1 <= p <= 3
    ensures p == 3 <==> choice == "A"
    ensures p == 2 <==> choice == "B" || choice == "D"
  {
    if choice == "A" then 3
    else if choice == "B" then 2
    else if choice == "C" then 1
    else if choice == "D" then 2
    else 1
  }

  /** The left fold `answers.reduce((acc, a) => acc + points(a.answer), 0)`. */
  function Score(answers: seq<Answer>): (s: nat)
    ensures |answers| <= s <= 3 * |answers|
  {
    if answers == [] then 0
    else Score(answers[..|answers| - 1]) + Points(answers[|answers| - 1].answer)
  }

  function Max(a: real, b: real): real { if a >= b then a else b }
  function Min(a: real, b: real): real { if a <= b then a else b }

  /** `Math.min(hi, Math.max(lo, x))`. */
  function Clamp(x: real, lo: real, hi: real): (c: real)
    requires lo <= hi
    ensures lo <= c <= hi
    ensures lo <= x <= hi ==> c == x
    ensures x < lo ==> c == lo
    ensures hi < x ==> c == hi
  {
    Min(hi, Max(lo, x))
  }

  datatype Path = SoftwareDevelopment | DataScience | ProductManagement {
    /** The `careerPath` string the server sends. */
    function Title(): string {
      match this
      case SoftwareDevelopment => "Software Development"
      case DataScience => "Data Science"
      case ProductManagement => "Product Management"
    }
  }

  /** A recommendation; its explanation, strengths and roadmap are constant texts per path. */
  datatype Career = Career(path: Path, confidence: real)

  /** The three templates in declaration order, each with its clamped linear confidence. */
  function Candidates(score: nat): (cs: seq<Career>)
    ensures |cs| == 3
    ensures cs[0].path == SoftwareDevelopment && 60.0 <= cs[0].confidence <= 95.0
    ensures cs[1].path == DataScience && 55.0 <= cs[1].confidence <= 90.0
    ensures cs[2].path == ProductManagement && 50.0 <= cs[2].confidence <= 85.0
  {
    [ Career(SoftwareDevelopment, Clamp(score as real * 2.0, 60.0, 95.0)),
      Career(DataScience, Clamp(score as real * 1.8, 55.0, 90.0)),
      Career(ProductManagement, Clamp(score as real * 1.5, 50.0, 85.0)) ]
  }

  /** Index of the accumulator of `reduce((best, cur) => cur.confidence > best.confidence ? cur : best)`:
      the first candidate whose confidence is strictly greatest. */
  function SelectIndex(cs: seq<Career>): (k: nat)
    requires cs != []
    ensures k < |cs|
    ensures forall j :: 0 <= j < |cs| ==> cs[j].confidence <= cs[k].confidence
    ensures forall j :: 0 <= j < k ==> cs[j].confidence < cs[k].confidence
  {
    if |cs| == 1 then 0
    else
      var b := SelectIndex(cs[..|cs| - 1]);
      if cs[|cs| - 1].confidence > cs[b].confidence then |cs| - 1 else b
  }

  /** The recommendation stored in the attempt and returned to the caller. */
  function Recommend(answers: seq<Answer>): Career
  {
    var cs := Candidates(Score(answers));
    cs[SelectIndex(cs)]
  }

  /** For every non-negative score, Software Development > Data Science > Product Management. */
  lemma ConfidencesStrictlyOrdered(score: nat)
    ensures Candidates(score)[0].confidence > Candidates(score)[1].confidence
    ensures Candidates(score)[1].confidence > Candidates(score)[2].confidence
  {
  }

  /** Whatever the answers, the recommendation is Software Development with confidence min(95, max(60, 2·score)). */
  lemma AlwaysSoftwareDevelopment(answers: seq<Answer>)
    ensures Recommend(answers).path == SoftwareDevelopment
    ensures Recommend(answers).confidence == Clamp(Score(answers) as real * 2.0, 60.0, 95.0)
    ensures 60.0 <= Recommend(answers).confidence <= 95.0
  {
  }
}
