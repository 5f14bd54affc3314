/** The quiz page: a cursor `current` over the fetched questions and one answer
    slot per question (`None` while unanswered), with the handlers that move the
    cursor, record an answer and submit, and the values the page derives for
    display (answered/remaining counts, the quick-navigation window, the
    forward button and the progress percentage). */
module QuizPage {
  import opened Wrappers
  import opened Domain

  /** What pressing "Submit Quiz" does: alert how many questions are unanswered, or post the answers. */
  datatype SubmitOutcome = Alert(unanswered: nat) | Post(answers: seq<Option<Answer>>)

  /** The button right of the quick navigation: "Next", or "Submit Quiz" at the last question. */
  datatype Forward = NextButton(enabled: bool) | SubmitButton(enabled: bool)

  /** `answers.filter(a => a === null).length`. */
  function CountUnanswered(answers: seq<Option<Answer>>): nat
  {
    if answers == [] then 0
    else (if answers[0].None? then 1 else 0) + CountUnanswered(answers[1..])
  }

  /** `answers.filter(a => a !== null).length`. */
  function CountAnswered(answers: seq<Option<Answer>>): nat
  {
    if answers == [] then 0
    else (if answers[0].Some? then 1 else 0) + CountAnswered(answers[1..])
  }

  /** Every slot is counted exactly once, as answered or as remaining. */
  lemma {:induction false} CountsPartition(answers: seq<Option<Answer>>)
    ensures CountAnswered(answers) + CountUnanswered(answers) == |answers|
  {
    if answers != [] {
      CountsPartition(answers[1..]);
    }
  }

  /** Nothing remains unanswered exactly when every slot holds an answer. */
  lemma {:induction false} NoneRemainingIffAllAnswered(answers: seq<Option<Answer>>)
    ensures CountUnanswered(answers) == 0 <==> forall i :: 0 <= i < |answers| ==> answers[i].Some?
  {
    if answers != [] {
      NoneRemainingIffAllAnswered(answers[1..]);
      assert forall i :: 1 <= i < |answers| ==> answers[i] == answers[1..][i - 1];
    }
  }

  /** First index of the quick navigation: `Math.max(0, current - 2)`. */
  function WindowStart(current: nat): nat { if current >= 2 then current - 2 else 0 }

  /** The buttons `start + i .. start + count - 1` of `Array.from`, dropping those at or past `total`. */
  function Buttons(start: nat, i: nat, count: nat, total: nat): (b: seq<nat>)
    requires i <= count
    ensures |b| == if start + i >= total then 0 else MinNat(count - i, total - start - i)
    ensures forall k :: 0 <= k < |b| ==> b[k] == start + i + k && b[k] < total
    decreases count - i
  {
    if i == count then []
    else if start + i >= total then Buttons(start, i + 1, count, total)
    else [start + i] + Buttons(start, i + 1, count, total)
  }

  /** The quick-navigation window: consecutive question indices from `max(0, current - 2)`, at most
      `min(5, total)` of them, all below `total`, and the current question among them. */
  function NavWindow(current: nat, total: nat): (w: seq<nat>)
    ensures |w| <= MinNat(5, total)
    ensures |w| == if WindowStart(current) >= total then 0 else MinNat(MinNat(5, total), total - WindowStart(current))
    ensures forall k :: 0 <= k < |w| ==> w[k] == WindowStart(current) + k && w[k] < total
    ensures current < total ==> current in w
  {
    var w := Buttons(WindowStart(current), 0, MinNat(5, total), total);
    assert current < total ==> w[current - WindowStart(current)] == current;
    w
  }

  /** A fraction `c / n` with `0 < c <= n` lies in (0, 1] and is 1 only when `c == n`. */
  lemma Fraction(c: real, n: real)
    requires 0.0 < c <= n
    ensures 0.0 < c / n <= 1.0
    ensures c / n == 1.0 <==> c == n
  {
  }

  /** The component's state. */
  class Quiz {
    var questions: seq<Question>
    var current: nat
    var answers: seq<Option<Answer>>
    var loading: bool
    var submitting: bool

    /** One slot per question, and the cursor on a question whenever there is one. */
    predicate Valid()
      reads this
    {
      |answers| == |questions| && (current < |questions| || current == 0)
    }

    /** The initial state: no questions, cursor 0, no answers, loading. */
    constructor ()
      ensures Valid()
      ensures questions == [] && current == 0 && answers == [] && loading && !submitting
    {
      questions, current, answers := [], 0, [];
      loading, submitting := true, false;
    }

    /** The effect that fetches the questions: on success they are stored with an all-null answer
        array of the same length; either way loading ends. */
    method Loaded(fetched: Option<seq<Question>>)
      requires Valid() && current == 0
      modifies this`questions, this`answers, this`loading
      ensures Valid() && !loading
      ensures fetched.Some? ==> questions == fetched.value && |answers| == |questions|
                                 && forall i :: 0 <= i < |answers| ==> answers[i].None?
      ensures fetched.None? ==> questions == old(questions) && answers == old(answers)
    {
      if fetched.Some? {
        questions := fetched.value;
        answers := seq(|fetched.value|, _ => None);
      }
      loading := false;
    }

    /** `handleAnswer`: only slot `current` changes, to the current question's id and the chosen option. */
    method Choose(answerId: string)
      requires Valid() && |questions| > 0
      modifies this`answers
      ensures Valid()
      ensures |answers| == |old(answers)|
      ensures answers[current] == Some(Answer(questions[current].id, answerId))
      ensures forall i :: 0 <= i < |answers| && i != current ==> answers[i] == old(answers[i])
    {
      answers := answers[current := Some(Answer(questions[current].id, answerId))];
    }

    /** `handleNext`: advance unless at the last question. */
    method Next()
      requires Valid()
      modifies this`current
      ensures Valid()
      ensures current == if old(current) + 1 < |questions| then old(current) + 1 else old(current)
    {
      if current < |questions| - 1 {
        current := current + 1;
      }
    }

    /** `handlePrevious`: go back unless at the first question. */
    method Previous()
      requires Valid()
      modifies this`current
      ensures Valid()
      ensures current == if old(current) > 0 then old(current) - 1 else old(current)
    {
      if current > 0 {
        current := current - 1;
      }
    }

    /** A quick-navigation button: jump to the question it shows. */
    method JumpTo(n: nat)
      requires Valid() && n in NavWindow(current, |questions|)
      modifies this`current
      ensures Valid() && current == n
    {
      current := n;
    }

    /** `handleSubmit`: with a slot still null, report how many and post nothing; otherwise start
        submitting and post the answer array as it is. */
    method Submit() returns (o: SubmitOutcome)
      requires Valid()
      modifies this`submitting
      ensures CountUnanswered(answers) > 0 ==> o == Alert(CountUnanswered(answers)) && submitting == old(submitting)
      ensures CountUnanswered(answers) == 0 ==> o == Post(answers) && submitting
      ensures o.Post? ==> forall i :: 0 <= i < |o.answers| ==> o.answers[i].Some?
    {
      var unanswered := CountUnanswered(answers);
      NoneRemainingIffAllAnswered(answers);
      if unanswered > 0 {
        return Alert(unanswered);
      }
      submitting := true;
      o := Post(answers);
    }

    /** The `finally` after the request: submitting ends whatever the server answered. */
    method SubmitSettled()
      modifies this`submitting
      ensures !submitting
    {
      submitting := false;
    }

    /** The counts under the question: answered plus remaining is the number of questions. */
    function Counts(): (counts: (nat, nat))
      reads this
      requires Valid()
      ensures counts.0 + counts.1 == |questions|
      ensures counts.1 == 0 <==> forall i :: 0 <= i < |answers| ==> answers[i].Some?
    {
      CountsPartition(answers);
      NoneRemainingIffAllAnswered(answers);
      (CountAnswered(answers), CountUnanswered(answers))
    }

    /** "Submit Quiz" replaces "Next" exactly at the last question; "Next" is disabled while the
        current slot is null, "Submit Quiz" also while submitting. */
    function ForwardButton(): (b: Forward)
      reads this
      requires Valid() && |questions| > 0
      ensures b.SubmitButton? <==> current == |questions| - 1
      ensures b.enabled ==> answers[current].Some?
      ensures b.SubmitButton? && b.enabled ==> !submitting
      ensures b.NextButton? && answers[current].Some? ==> b.enabled
      ensures b.SubmitButton? && !submitting && answers[current].Some? ==> b.enabled
    {
      if current == |questions| - 1 then SubmitButton(!submitting && answers[current].Some?)
      else NextButton(answers[current].Some?)
    }

    /** The progress bar width `(current + 1) / questions.length * 100`, exact. */
    function ProgressPercent(): (p: real)
      reads this
      requires Valid() && |questions| > 0
      ensures 0.0 < p <= 100.0
      ensures p == 100.0 <==> current == |questions| - 1
    {
      var n := |questions| as real;
      var c := (current + 1) as real;
      Fraction(c, n);
      (c / n) * 100.0
    }
  }
}
