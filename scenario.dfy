/** A whole session on a one-row table, driven through the class's methods. */
module Scenario {
  import opened Wrappers
  import opened Text
  import opened Symbols
  import opened Generator
  import opened Grading
  import opened Session

  /** The table holding only `p`, whose voicing alone is known. */
  function OneRow(): Table
  {
    Table(true, [Row(Some("p"), map[Voicing := Some("voiceless"), Place := None,
                                    Centrality := None, OroNasal := None, Manner := None])])
  }

  lemma OneRowAvailable()
    ensures HasAllColumns(OneRow().rows[0])
    ensures Available(OneRow().rows[0]) == [Voicing]
  {
  }

  lemma VoicelessNormal(s: string)
    requires s == "voiceless" || s == "Voiceless"
    ensures Normalize(s) == "voiceless"
  {
  }

  /** The question the one-row table yields while `p` is unused. */
  lemma OneRowQuestion(used: seq<string>, pick: nat)
    requires "p" !in used
    ensures Generate(OneRow(), used, [0], pick)
         == Success(Generated(0, "p", Voicing, Prompt("p", Voicing), "voiceless", used + ["p"]))
  {
    OneRowAvailable();
    VoicelessNormal("voiceless");
  }

  const Asked: State := Initial.(name := "Ava", currentAnswer := "voiceless", usedIpaSymbols := ["p"],
                                 question := Prompt("p", Voicing),
                                 quizStarted := true)
  const Answered: State := Asked.(score := 1, trials := 1, showNext := true)

  lemma AvaStarts()
    ensures StartStep(OneRow(), Initial, "Ava", [0], 0) == Step(Asked, Quiet)
  {
    OneRowQuestion([], 0);
    assert [] + ["p"] == ["p"];
    var g := Generate(OneRow(), [], [0], 0);
    assert g.value == Generated(0, "p", Voicing, Prompt("p", Voicing), "voiceless", ["p"]);
  }

  lemma AvaAnswers()
    ensures SubmitStep(Asked, "Voiceless") == Step(Answered, SuccessBox(CorrectMessage("voiceless")))
  {
    VoicelessNormal("Voiceless");
  }

  /**
   * With `p` used, the draw `[0]` does not stop the sampling loop, so the
   * model's cut-off reports `Exhausted`; the source would keep drawing.
   */
  lemma NothingLeft()
    ensures NextStep(OneRow(), Answered, [0], 0) == Step(Answered, ErrorBox("Error: " + ErrorText(Exhausted)))
  {
  }

  lemma AvaQuits()
    ensures QuitStep(Answered) == Step(Initial, SuccessBox(Summary("Ava", 1, 1)))
    ensures NatToString(1) == "1"
  {
  }

  lemma BlankRestart()
    ensures StartStep(OneRow(), Initial, "", [0], 0) == Step(Initial, ErrorBox(NameMissing))
  {
  }

  /**
   * Ava starts, is asked for the voicing of `p`, answers "Voiceless" and is
   * scored 1/1; Quit reports the score and clears the name, so a new start
   * with an empty name field is refused. (Show Next Symbol is not pressed:
   * with `p` used, the sampling loop would never return on this table.)
   */
  method AvaSession()
  {
    var q := new QuizSession(OneRow());
    var n := q.StartQuiz("Ava", [0], 0);
    AvaStarts();
    assert q.question == Prompt("p", Voicing) && n == Quiet;

    n := q.Submit("Voiceless");
    AvaAnswers();
    assert q.score == 1 && q.trials == 1 && n == SuccessBox(CorrectMessage("voiceless"));

    n := q.Quit();
    AvaQuits();
    assert n == SuccessBox(Summary("Ava", 1, 1));

    n := q.StartQuiz("", [0], 0);
    BlankRestart();
    assert n == ErrorBox(NameMissing) && !q.quizStarted;
  }
}
