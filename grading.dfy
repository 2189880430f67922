/** `quiz_function`: grade one submitted answer against the expected one. */
module Grading {
  import opened Text

  /** What `quiz_function` returns: the message and the new score and trial count. */
  datatype Graded = Graded(result: string, score: nat, trials: nat)

  function CorrectMessage(answer: string): string
  {
    "Correct! The answer was '" + answer + "'."
  }

  function WrongMessage(answer: string): string
  {
    "Wrong! The correct answer was '" + answer + "'."
  }

  /**
   * The trial count always goes up by one; the score goes up by one exactly
   * when the submission, stripped and lower-cased, equals the expected
   * answer, and the message says which case it was, quoting the expected
   * answer as stored.
   */
  function QuizFunction(userAnswer: string, correctAnswer: string, score: nat, trials: nat): (g: Graded)
    ensures g.trials == trials + 1
    ensures g.score == score || g.score == score + 1
    ensures g.score == score + 1 <==> Normalize(userAnswer) == correctAnswer
    ensures g.result == CorrectMessage(correctAnswer) || g.result == WrongMessage(correctAnswer)
    ensures g.result == CorrectMessage(correctAnswer) <==> g.score == score + 1
    ensures score <= trials ==> g.score <= g.trials
  {
    if Normalize(userAnswer) == correctAnswer then
      Graded(CorrectMessage(correctAnswer), score + 1, trials + 1)
    else
      assert CorrectMessage(correctAnswer)[0] != WrongMessage(correctAnswer)[0];
      Graded(WrongMessage(correctAnswer), score, trials + 1)
  }

  /**
   * Against the expected answer built from a cell, typing the cell's value,
   * or the expected answer the result message quotes, is graded correct.
   */
  lemma StoredAnswerAccepted(value: string, score: nat, trials: nat)
    ensures QuizFunction(value, Normalize(value), score, trials).score == score + 1
    ensures QuizFunction(Normalize(value), Normalize(value), score, trials).score == score + 1
  {
  }

  /** A stored "Voiced" expects "voiced", and " VOICED " is graded correct against it. */
  lemma VoicedExample()
    ensures Normalize("Voiced") == "voiced"
    ensures Normalize(" VOICED ") == "voiced"
    ensures QuizFunction(" VOICED ", Normalize("Voiced"), 0, 0) == Graded(CorrectMessage("voiced"), 1, 1)
  {
    StripTrimmed("Voiced");
    LowerLetters("Voiced");
    StripVoiced();
    LowerLetters("VOICED");
    assert Normalize(" VOICED ") == "voiced";
  }

  lemma StripVoiced()
    ensures Strip(" VOICED ") == "VOICED"
  {
    assert LeadingSpaces(" VOICED ") == 1;
    assert " VOICED "[1..] == "VOICED ";
    assert TrailingSpaces("VOICED ") == 1;
  }

  lemma LowerLetters(s: string)
    requires s == "Voiced" || s == "VOICED"
    ensures Lower(s) == "voiced"
  {
    var u := Lower(s);
    assert u[0] == 'v' && u[1] == 'o' && u[2] == 'i' && u[3] == 'c' && u[4] == 'e' && u[5] == 'd';
  }
}
