/**
 * The quiz session: the eight `st.session_state` fields and the buttons that
 * change them (Start Quiz, Submit, Show Next Symbol, Quit), plus the name
 * field, whose non-empty contents are copied into the session on every rerun.
 *
 * Each button is specified by a step function on a `State` value; the
 * `QuizSession` class holds the fields and updates them in place, and each
 * of its methods is proved to perform exactly its step.
 */
module Session {
  import opened Wrappers
  import opened Text
  import opened Symbols
  import opened Generator
  import opened Grading

  /** The session fields. */
  datatype State = State(score: nat, trials: nat, usedIpaSymbols: seq<string>,
                         currentAnswer: string, name: string, question: string,
                         quizStarted: bool, showNext: bool)

  /** The values the session starts with, and returns to on Quit. */
  const Initial: State := State(0, 0, [], "", "", "", false, false)

  /** What the page shows after an action: nothing, a success box or an error box. */
  datatype Notice = Quiet | SuccessBox(text: string) | ErrorBox(text: string)

  /** The state after an action and what it reports. */
  datatype Step = Step(state: State, notice: Notice)

  const NameMissing: string := "Please enter your name to start the quiz."
  const AnswerMissing: string := "Please enter an answer before submitting."

  /** The message Quit shows. */
  function Summary(name: string, score: nat, trials: nat): string
  {
    "Quiz ended. Well done, " + name + "! Your total score: "
      + NatToString(score) + "/" + NatToString(trials) + " points."
  }

  /**
   * What holds of every reachable session: the score never exceeds the
   * trials, no symbol is asked twice, every asked symbol belongs to an
   * answerable row, and before a quiz starts everything but the name is
   * at its initial value.
   */
  ghost predicate Inv(t: Table, s: State)
  {
    && s.score <= s.trials
    && Distinct(s.usedIpaSymbols)
    && Elements(s.usedIpaSymbols) <= AnswerableSymbols(t)
    && (!s.quizStarted ==> s == Initial.(name := s.name))
  }

  /** The name field: a non-empty entry replaces the stored name. */
  function NameStep(s: State, input: string): State
  {
    if input != "" then s.(name := input) else s
  }

  /** Start Quiz with `input` in the name field. */
  function StartStep(t: Table, s: State, input: string, draws: seq<nat>, pick: nat): Step
    requires DrawsFrom(t, draws)
  {
    var named := NameStep(s, input);
    if s.quizStarted then Step(named, Quiet)
    else if input == "" then Step(named, ErrorBox(NameMissing))
    else
      match Generate(t, s.usedIpaSymbols, draws, pick)
      case Failure(e) => Step(named, ErrorBox("Error: " + ErrorText(e)))
      case Success(g) =>
        Step(named.(currentAnswer := g.answer, usedIpaSymbols := g.used,
                    question := g.prompt, quizStarted := true), Quiet)
  }

  /** Submit with `answer` in the answer field; the button exists once the quiz has started. */
  function SubmitStep(s: State, answer: string): Step
    requires s.quizStarted
  {
    if answer == "" then Step(s, ErrorBox(AnswerMissing))
    else
      var g := QuizFunction(answer, s.currentAnswer, s.score, s.trials);
      Step(s.(score := g.score, trials := g.trials, showNext := true), SuccessBox(g.result))
  }

  /** Show Next Symbol; the button exists only after an answer was submitted. */
  function NextStep(t: Table, s: State, draws: seq<nat>, pick: nat): Step
    requires s.quizStarted && s.showNext && DrawsFrom(t, draws)
  {
    match Generate(t, s.usedIpaSymbols, draws, pick)
    case Failure(e) => Step(s, ErrorBox("Error: " + ErrorText(e)))
    case Success(g) =>
      Step(s.(currentAnswer := g.answer, usedIpaSymbols := g.used,
              question := g.prompt, showNext := false), Quiet)
  }

  /** Quit; the button exists once the quiz has started. */
  function QuitStep(s: State): Step
    requires s.quizStarted
  {
    Step(Initial, SuccessBox(Summary(s.name, s.score, s.trials)))
  }

  /** Appending a fresh answerable symbol keeps the used list repeat-free and answerable. */
  lemma AppendFresh(t: Table, used: seq<string>, draws: seq<nat>, g: Generated)
    requires Distinct(used) && Elements(used) <= AnswerableSymbols(t)
    requires SoundQuestion(t, used, draws, g)
    ensures Distinct(g.used) && Elements(g.used) <= AnswerableSymbols(t)
  {
  }

  lemma InitialInv(t: Table)
    ensures Inv(t, Initial)
  {
  }

  lemma NameKeepsInv(t: Table, s: State, input: string)
    requires Inv(t, s)
    ensures Inv(t, NameStep(s, input))
  {
  }

  lemma StartKeepsInv(t: Table, s: State, input: string, draws: seq<nat>, pick: nat)
    requires Inv(t, s) && DrawsFrom(t, draws)
    ensures Inv(t, StartStep(t, s, input, draws, pick).state)
  {
    GenerateSound(t, s.usedIpaSymbols, draws, pick);
    var r := Generate(t, s.usedIpaSymbols, draws, pick);
    if !s.quizStarted && input != "" && r.Success? {
      AppendFresh(t, s.usedIpaSymbols, draws, r.value);
    }
  }

  lemma SubmitKeepsInv(t: Table, s: State, answer: string)
    requires Inv(t, s) && s.quizStarted
    ensures Inv(t, SubmitStep(s, answer).state)
  {
  }

  lemma NextKeepsInv(t: Table, s: State, draws: seq<nat>, pick: nat)
    requires Inv(t, s) && s.quizStarted && s.showNext && DrawsFrom(t, draws)
    ensures Inv(t, NextStep(t, s, draws, pick).state)
  {
    GenerateSound(t, s.usedIpaSymbols, draws, pick);
    var r := Generate(t, s.usedIpaSymbols, draws, pick);
    if r.Success? {
      AppendFresh(t, s.usedIpaSymbols, draws, r.value);
    }
  }

  lemma QuitKeepsInv(t: Table, s: State)
    requires s.quizStarted
    ensures Inv(t, QuitStep(s).state)
  {
  }

  /**
   * Start Quiz: a blank name, a running quiz or a generator error changes
   * nothing but the stored name, and a generator error is reported as an
   * error; otherwise the quiz starts with a question on a fresh symbol of
   * an eligible row, the only addition to the used list, and score, trials
   * and the Next flag keep their values.
   */
  lemma StartOutcome(t: Table, s: State, input: string, draws: seq<nat>, pick: nat)
    requires DrawsFrom(t, draws)
    ensures var r := StartStep(t, s, input, draws, pick);
            r.state.name == (if input != "" then input else s.name)
    ensures var r := StartStep(t, s, input, draws, pick);
            (s.quizStarted || r.notice.ErrorBox?) ==> r.state == s.(name := r.state.name)
    ensures s.quizStarted ==> StartStep(t, s, input, draws, pick).notice == Quiet
    ensures var r := StartStep(t, s, input, draws, pick);
            !s.quizStarted && input == "" ==> r.notice == ErrorBox(NameMissing)
    ensures var r := StartStep(t, s, input, draws, pick);
            var g := Generate(t, s.usedIpaSymbols, draws, pick);
            !s.quizStarted && input != "" && g.Failure? ==>
              r.state == s.(name := input) && r.notice == ErrorBox("Error: " + ErrorText(g.error))
    ensures var r := StartStep(t, s, input, draws, pick);
            !s.quizStarted && input != "" && Generate(t, s.usedIpaSymbols, draws, pick).Success? ==>
              r.notice == Quiet
    ensures StartStep(t, s, input, draws, pick).notice.ErrorBox? || StartStep(t, s, input, draws, pick).notice == Quiet
    ensures var r := StartStep(t, s, input, draws, pick);
            !s.quizStarted && r.notice == Quiet ==>
              && r.state.quizStarted
              && |r.state.usedIpaSymbols| == |s.usedIpaSymbols| + 1
              && r.state.usedIpaSymbols[..|s.usedIpaSymbols|] == s.usedIpaSymbols
              && (exists i, p :: 0 <= i < |t.rows| && Eligible(t, t.rows[i], s.usedIpaSymbols)
                   && p in Available(t.rows[i])
                   && r.state.usedIpaSymbols[|s.usedIpaSymbols|] == t.rows[i].ipa.value
                   && r.state.question == Prompt(t.rows[i].ipa.value, p)
                   && r.state.currentAnswer == Normalize(t.rows[i].props[p].value))
              && r.state.(usedIpaSymbols := s.usedIpaSymbols, question := s.question,
                          currentAnswer := s.currentAnswer, quizStarted := false) == s.(name := r.state.name)
  {
    GenerateSound(t, s.usedIpaSymbols, draws, pick);
    var g := Generate(t, s.usedIpaSymbols, draws, pick);
    if !s.quizStarted && input != "" && g.Success? {
      var q := g.value;
      assert (s.usedIpaSymbols + [q.symbol])[..|s.usedIpaSymbols|] == s.usedIpaSymbols;
      assert 0 <= q.row < |t.rows| && Eligible(t, t.rows[q.row], s.usedIpaSymbols)
           && q.property in Available(t.rows[q.row]);
    }
  }

  /**
   * Submit: a blank answer changes nothing; otherwise trials go up by one,
   * the score goes up by one exactly for a matching answer, the Next button
   * appears, and the question, answer and used list stay as they were. A
   * second submission on the same question is graded and counted again.
   */
  lemma SubmitOutcome(s: State, answer: string)
    requires s.quizStarted
    ensures var r := SubmitStep(s, answer);
            answer == "" ==> r == Step(s, ErrorBox(AnswerMissing))
    ensures var r := SubmitStep(s, answer);
            answer != "" ==>
              && r.state.trials == s.trials + 1
              && (r.state.score == s.score + 1 <==> Normalize(answer) == s.currentAnswer)
              && (r.state.score == s.score <==> Normalize(answer) != s.currentAnswer)
              && r.state.showNext
              && r.state.(score := s.score, trials := s.trials, showNext := s.showNext) == s
              && r.notice.SuccessBox?
              && (Normalize(answer) == s.currentAnswer ==> r.notice == SuccessBox(CorrectMessage(s.currentAnswer)))
              && (Normalize(answer) != s.currentAnswer ==> r.notice == SuccessBox(WrongMessage(s.currentAnswer)))
  {
  }

  /**
   * Show Next Symbol: a generator error changes nothing and is reported as
   * an error; otherwise the Next button is hidden again, the new symbol is
   * fresh and the only addition to the used list, the question and stored
   * answer are built from that symbol's eligible row, and score, trials and
   * name stay as they were.
   */
  lemma NextOutcome(t: Table, s: State, draws: seq<nat>, pick: nat)
    requires s.quizStarted && s.showNext && DrawsFrom(t, draws)
    ensures var r := NextStep(t, s, draws, pick);
            r.notice.ErrorBox? ==> r.state == s
    ensures var r := NextStep(t, s, draws, pick);
            var g := Generate(t, s.usedIpaSymbols, draws, pick);
            g.Failure? ==> r.state == s && r.notice == ErrorBox("Error: " + ErrorText(g.error))
    ensures var r := NextStep(t, s, draws, pick);
            Generate(t, s.usedIpaSymbols, draws, pick).Success? ==> r.notice == Quiet
    ensures var r := NextStep(t, s, draws, pick);
            r.notice == Quiet ==>
              && !r.state.showNext
              && r.state.quizStarted
              && |r.state.usedIpaSymbols| == |s.usedIpaSymbols| + 1
              && r.state.usedIpaSymbols[..|s.usedIpaSymbols|] == s.usedIpaSymbols
              && r.state.usedIpaSymbols[|s.usedIpaSymbols|] !in s.usedIpaSymbols
              && (exists i, p :: 0 <= i < |t.rows| && Eligible(t, t.rows[i], s.usedIpaSymbols)
                   && p in Available(t.rows[i])
                   && r.state.usedIpaSymbols[|s.usedIpaSymbols|] == t.rows[i].ipa.value
                   && r.state.question == Prompt(t.rows[i].ipa.value, p)
                   && r.state.currentAnswer == Normalize(t.rows[i].props[p].value))
              && r.state.(usedIpaSymbols := s.usedIpaSymbols, question := s.question,
                          currentAnswer := s.currentAnswer, showNext := true) == s
    ensures NextStep(t, s, draws, pick).notice.ErrorBox? || NextStep(t, s, draws, pick).notice == Quiet
  {
    GenerateSound(t, s.usedIpaSymbols, draws, pick);
    var g := Generate(t, s.usedIpaSymbols, draws, pick);
    if g.Success? {
      var q := g.value;
      assert (s.usedIpaSymbols + [q.symbol])[..|s.usedIpaSymbols|] == s.usedIpaSymbols;
      assert 0 <= q.row < |t.rows| && Eligible(t, t.rows[q.row], s.usedIpaSymbols)
           && q.property in Available(t.rows[q.row]);
    }
  }

  /** Quit reports name, score and trials, and puts every field back to its initial value. */
  lemma QuitOutcome(s: State)
    requires s.quizStarted
    ensures QuitStep(s).state == Initial
    ensures QuitStep(s).state.name == "" && !QuitStep(s).state.quizStarted
    ensures QuitStep(s).notice == SuccessBox(Summary(s.name, s.score, s.trials))
  {
  }

  /**
   * A session never asks more questions than the table has answerable
   * symbols, and once it has asked them all, no draw sequence gives Show
   * Next Symbol a new question. The error notice is the model's cut-off
   * when `draws` runs out; the source keeps drawing instead.
   */
  lemma SessionExhaustion(t: Table, s: State, draws: seq<nat>, pick: nat)
    requires Inv(t, s) && DrawsFrom(t, draws)
    ensures |s.usedIpaSymbols| <= |AnswerableSymbols(t)|
    ensures s.quizStarted && s.showNext && |s.usedIpaSymbols| == |AnswerableSymbols(t)| ==>
              NextStep(t, s, draws, pick) == Step(s, NextStep(t, s, draws, pick).notice)
              && NextStep(t, s, draws, pick).notice.ErrorBox?
  {
    UsedBounded(t, s.usedIpaSymbols);
    if |s.usedIpaSymbols| == |AnswerableSymbols(t)| {
      NoEligibleNoQuestion(t, s.usedIpaSymbols, draws, pick);
    }
  }

  /** The session state, held in place and updated by one method per button. */
  class QuizSession {
    /** The table loaded at start-up; it never changes. */
    const table: Table
    var score: nat
    var trials: nat
    var usedIpaSymbols: seq<string>
    var currentAnswer: string
    var name: string
    var question: string
    var quizStarted: bool
    var showNext: bool

    ghost function Snapshot(): State
      reads this
    {
      State(score, trials, usedIpaSymbols, currentAnswer, name, question, quizStarted, showNext)
    }

    ghost predicate Valid()
      reads this
    {
      Inv(table, Snapshot())
    }

    /** The first run of the page initialises the session. */
    constructor (t: Table)
      ensures table == t && Snapshot() == Initial && Valid()
    {
      table := t;
      score, trials := 0, 0;
      usedIpaSymbols := [];
      currentAnswer, name, question := "", "", "";
      quizStarted, showNext := false, false;
    }

    /** A rerun with `input` in the name field. */
    method EnterName(input: string)
      requires Valid()
      modifies this
      ensures Valid()
      ensures Snapshot() == NameStep(old(Snapshot()), input)
    {
      if input != "" {
        name := input;
      }
      NameKeepsInv(table, old(Snapshot()), input);
    }

    /** Start Quiz pressed with `input` in the name field. */
    method StartQuiz(input: string, draws: seq<nat>, pick: nat) returns (notice: Notice)
      requires Valid() && DrawsFrom(table, draws)
      modifies this
      ensures Valid()
      ensures Step(Snapshot(), notice) == StartStep(table, old(Snapshot()), input, draws, pick)
    {
      if input != "" {
        name := input;
      }
      notice := Quiet;
      if !quizStarted {
        if input != "" {
          var r := GenerateQuestion(table, usedIpaSymbols, draws, pick);
          match r {
            case Success(g) =>
              currentAnswer := g.answer;
              usedIpaSymbols := g.used;
              question := g.prompt;
              quizStarted := true;
            case Failure(e) =>
              notice := ErrorBox("Error: " + ErrorText(e));
          }
        } else {
          notice := ErrorBox(NameMissing);
        }
      }
      StartKeepsInv(table, old(Snapshot()), input, draws, pick);
    }

    /** Submit pressed with `answer` in the answer field. */
    method Submit(answer: string) returns (notice: Notice)
      requires Valid() && quizStarted
      modifies this
      ensures Valid()
      ensures Step(Snapshot(), notice) == SubmitStep(old(Snapshot()), answer)
    {
      if answer != "" {
        var g := QuizFunction(answer, currentAnswer, score, trials);
        score, trials := g.score, g.trials;
        notice := SuccessBox(g.result);
        showNext := true;
      } else {
        notice := ErrorBox(AnswerMissing);
      }
      SubmitKeepsInv(table, old(Snapshot()), answer);
    }

    /** Show Next Symbol pressed. */
    method ShowNext(draws: seq<nat>, pick: nat) returns (notice: Notice)
      requires Valid() && quizStarted && showNext && DrawsFrom(table, draws)
      modifies this
      ensures Valid()
      ensures Step(Snapshot(), notice) == NextStep(table, old(Snapshot()), draws, pick)
    {
      notice := Quiet;
      var r := GenerateQuestion(table, usedIpaSymbols, draws, pick);
      match r {
        case Success(g) =>
          currentAnswer := g.answer;
          usedIpaSymbols := g.used;
          question := g.prompt;
          showNext := false;
        case Failure(e) =>
          notice := ErrorBox("Error: " + ErrorText(e));
      }
      NextKeepsInv(table, old(Snapshot()), draws, pick);
    }

    /** Quit pressed. */
    method Quit() returns (notice: Notice)
      requires Valid() && quizStarted
      modifies this
      ensures Valid()
      ensures Step(Snapshot(), notice) == QuitStep(old(Snapshot()))
    {
      notice := SuccessBox(Summary(name, score, trials));
      score := 0;
      trials := 0;
      usedIpaSymbols := [];
      currentAnswer := "";
      name := "";
      question := "";
      quizStarted := false;
      showNext := false;
      QuitKeepsInv(table, old(Snapshot()));
    }
  }
}
