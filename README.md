# IPA quiz: a verified model of the quiz session

The IPA quiz is a single-page quiz. It loads a table of phonetic symbols: an
`IPA` column, plus five property columns (Voicing, Place, Centrality,
Oro-nasal, Manner), each of which may hold a null cell. To ask a question it
draws a row whose symbol is non-null, not yet asked and has at least one known
property, then asks about one of that row's known properties. The answer is
graded after both sides are stripped and lower-cased. A score and a trial
count are kept for a named player until the player quits.

The model covers the three parts of `ipaquiz.py` that hold logic:

- **`generate_question`** (module `Generator`). The function `Generate` is its
  outcome, and the method `GenerateQuestion` keeps its loop. Random sampling
  becomes a parameter: `draws` lists the row indices `df.sample(1)` would
  return, in order, and `pick` selects the property `random.choice` would
  return, at position `pick % |available|`. Every draw sequence is allowed, so
  the lemmas cover every possible run of the sampler.
- **`quiz_function`** (module `Grading`). A pure function with its grading
  contract.
- **The session.** The eight `st.session_state` fields and the four buttons
  live in module `Session`. `State` is the record of fields. `NameStep`,
  `StartStep`, `SubmitStep`, `NextStep` and `QuitStep` say what each action
  does to it. `Inv` is the session invariant, and lemmas prove every step
  keeps it. The class `QuizSession` holds the fields and changes them in
  place, one method per button, and each method is proved to perform exactly
  its step.

Supporting modules: `Text` (Python's `str.strip()` with the exact `isspace`
character set, lower-casing, `str()` of a count) and `Symbols` (rows,
properties, eligibility). Module `Scenario` proves, step by step through the
class's methods, what one session on a one-row table does: start, answer,
quit and a refused restart (Show Next Symbol is left out of that trace,
because on that table the source's sampling loop would never return).

What the code does at its edges, and how the model follows it:

- The key column is `IPA` (ipaquiz.py:10,24,30).
- A missing property column raises `KeyError`. The lookup `current_ipa[prop]`
  in the comprehension at ipaquiz.py:31 fails as soon as a drawn row with a
  non-null, unused symbol lacks a column. The model returns `KeyMissing`. The
  session shows `Error: 'Place'` (for example) and changes nothing
  (ipaquiz.py:77-78, 113-114).
- The result message quotes `correct_answer`, which is already stripped and
  lower-cased (ipaquiz.py:38, 45, 47).
- Submit stays available for as long as `quiz_started` is true
  (ipaquiz.py:83-97). Submitting again on the same question grades it again
  and adds another trial.
- An empty table, or one without an `IPA` column, raises `ValueError("IPA
  data is not loaded properly or missing.")` (ipaquiz.py:24-25). This is
  `NotLoaded`.
- The `while True` loop (ipaquiz.py:28-33) never ends when no row `Stops`
  it. A row stops the loop when its symbol is non-null and unused and it
  either lacks a property column (a `KeyError`) or has a known property (a
  question). The model ends when `draws` runs out and returns `Exhausted`.
  The lemmas `GenerateSound`, `NoEligibleNoQuestion` and `SessionExhaustion`
  show that no draw sequence yields a question once no row is eligible; in
  the source such a call does not return at all unless a drawn candidate
  lacks a property column.

## Model

| member | source | states |
|---|---|---|
| `Text.IsSpace` | ipaquiz.py:38 | defines the characters `str.isspace()` accepts, which `strip()` removes |
| `Text.Lower` | ipaquiz.py:38 | defines `lower()` as character-by-character ASCII lower-casing |
| `Text.Normalize` | ipaquiz.py:38 | defines `strip().lower()`, the form both answers are compared in |
| `Symbols.Loaded` | ipaquiz.py:24 | defines the guard: the frame is not empty and has an `IPA` column |
| `Symbols.HasAllColumns` | ipaquiz.py:31 | defines when every `current_ipa[prop]` lookup succeeds |
| `Symbols.Available` | ipaquiz.py:31 | defines `available_properties`, the non-null tracked properties in list order |
| `Symbols.MissingColumn` | ipaquiz.py:31 | defines the column whose lookup raises the `KeyError` |
| `Symbols.Eligible` | ipaquiz.py:30-32 | defines the three acceptance conditions: non-null symbol, not yet used, at least one non-null property; it also demands a loaded table and every property column present, since otherwise line 24 raises `ValueError` or the comprehension at line 31 raises `KeyError` |
| `Generator.ErrorText` | ipaquiz.py:25 | defines `str(e)` for the `ValueError` and the `KeyError` |
| `Generator.Prompt` | ipaquiz.py:37 | defines the prompt: `IPA Symbol: {sym}`, a line break, then `Asking` |
| `Generator.Asking` | ipaquiz.py:37 | defines the prompt's second line, `What is the {prop.lower()} of this IPA symbol?` |
| `Generator.Stops` | ipaquiz.py:30-33 | defines when a drawn row ends the loop: a non-null unused symbol, and either a missing column or a known property |
| `Generator.Ask` | ipaquiz.py:35-39 | defines the result for the accepted row: the symbol appended, the property at `pick`, the prompt and the normalised answer |
| `Generator.Scan` | ipaquiz.py:28-39 | defines the rejection loop over the draws: skip non-stopping rows, raise `KeyError` or ask at the first stopping row |
| `Generator.Generate` | ipaquiz.py:23-39 | defines the outcome of `generate_question`: `NotLoaded` for an empty or `IPA`-less table, otherwise `Scan` |
| `Grading.CorrectMessage` | ipaquiz.py:45 | defines the message for a correct answer |
| `Grading.WrongMessage` | ipaquiz.py:47 | defines the message for a wrong answer |
| `Session.Summary` | ipaquiz.py:118 | defines the Quit message with name, score and trials |
| `Session.Inv` | ipaquiz.py:30-48 | defines the session invariant: `score <= trials`, no repeated used symbol, every used symbol from an answerable row, and the initial values while no quiz runs |
| `Session.NameStep` | ipaquiz.py:64-66 | defines the name field: a non-empty entry replaces the stored name |
| `Session.StartStep` | ipaquiz.py:65-80 | defines Start Quiz on the session fields, with its three failure paths |
| `Session.SubmitStep` | ipaquiz.py:90-100 | defines Submit on the session fields, grading through `QuizFunction` |
| `Session.NextStep` | ipaquiz.py:103-114 | defines Show Next Symbol on the session fields |
| `Session.QuitStep` | ipaquiz.py:117-127 | defines Quit: the summary notice and the initial values |
| `Text.Strip` | ipaquiz.py:38 | `strip()` returns a slice of its input that neither starts nor ends with whitespace, and everything cut off on either side is whitespace |
| `Text.LeadingSpaces` | ipaquiz.py:38 | counts exactly the run of whitespace at the start of a string |
| `Text.TrailingSpaces` | ipaquiz.py:38 | counts exactly the run of whitespace at the end of a string |
| `Text.StripTrimmed` | ipaquiz.py:43 | a string with no whitespace at either end is unchanged by `strip()` |
| `Text.LowerKeepsEnds` | ipaquiz.py:43 | lower-casing does not create whitespace at the ends of a string |
| `Text.NormalizeIdempotent` | ipaquiz.py:43 | applying `strip().lower()` to an already normalised answer changes nothing |
| `Text.NatToString` | ipaquiz.py:118 | `str(n)` is a non-empty string of decimal digits with no leading zero; it is one digit exactly when `n < 10`, so together with the round trip `str(0)` is `"0"` |
| `Text.NatToStringRoundTrip` | ipaquiz.py:118 | reading the decimal text of a count back gives the count |
| `Symbols.Present` | ipaquiz.py:31 | the comprehension keeps exactly the properties whose cell is non-null |
| `Symbols.FirstAbsent` | ipaquiz.py:31 | the `KeyError` names the first property column, in list order, that the row lacks |
| `Symbols.DistinctCard` | ipaquiz.py:35 | a used list without repeats has as many symbols as its set |
| `Symbols.UsedBounded` | ipaquiz.py:28-35 | a repeat-free list of answerable symbols is no longer than the set of answerable symbols; once it is that long, no row is eligible |
| `Generator.GenerateQuestion` | ipaquiz.py:23-39 | the loop of `generate_question` returns exactly the outcome `Generate` describes |
| `Generator.ScanSound` | ipaquiz.py:28-39 | the rejection loop ends at the first draw that `Stops` it (a non-null unused symbol with a missing column or a known property); there it yields a sound question or a `KeyError` for that row, and it runs out exactly when no draw stops it |
| `Generator.GenerateSound` | ipaquiz.py:24-39 | a question comes from an eligible row drawn before any other stopping row; its symbol was not used and is the only addition to the list; its property is non-null; the prompt is the fixed template; the answer is the cell stripped and lower-cased; `NotLoaded` happens exactly for an empty or `IPA`-less table; `KeyError` only for a drawn candidate lacking a column that is the first draw to stop the loop |
| `Generator.NoEligibleNoQuestion` | ipaquiz.py:28-33 | with no eligible row left, no draw sequence yields a question |
| `Generator.EligibleDrawAsks` | ipaquiz.py:28-33 | when every row has all property columns, drawing an eligible row always ends the loop with a question |
| `Generator.PromptInjective` | ipaquiz.py:37 | the prompt determines its symbol and property (for symbols without a line break) |
| `Grading.QuizFunction` | ipaquiz.py:42-49 | trials go up by one; the score goes up by one exactly when the stripped, lower-cased answer equals the expected one; the message says which case it was and quotes the expected answer; `score <= trials` is kept |
| `Grading.StoredAnswerAccepted` | ipaquiz.py:38-43 | typing the cell's own value, or the expected answer quoted back, is graded correct |
| `Grading.VoicedExample` | ipaquiz.py:38-45 | a stored "Voiced" expects "voiced", and " VOICED " is graded correct against it |
| `Session.InitialInv` | ipaquiz.py:52-60 | the initial session satisfies the invariant |
| `Session.NameKeepsInv` | ipaquiz.py:64-66 | entering a name keeps the invariant |
| `Session.StartKeepsInv` | ipaquiz.py:69-80 | Start Quiz keeps the invariant, including that used symbols never repeat |
| `Session.SubmitKeepsInv` | ipaquiz.py:90-100 | Submit keeps the invariant, including `score <= trials` |
| `Session.NextKeepsInv` | ipaquiz.py:103-114 | Show Next Symbol keeps the invariant, including that used symbols never repeat |
| `Session.QuitKeepsInv` | ipaquiz.py:117-127 | Quit establishes the invariant |
| `Session.StartOutcome` | ipaquiz.py:65-80 | a blank name, a running quiz or a generator error changes nothing but the stored name, a running quiz shows no notice, and a generator error is shown as `Error: ...`; a successful start asks about a fresh symbol of an eligible row, appends only that symbol, and leaves score, trials and the Next flag alone |
| `Session.SubmitOutcome` | ipaquiz.py:90-100 | a blank answer changes nothing; otherwise trials go up by one, the score goes up exactly for a matching answer, the notice is the Correct! or Wrong! message quoting the stored answer accordingly, Next appears, and nothing else changes |
| `Session.NextOutcome` | ipaquiz.py:103-114 | a generator error changes nothing and is shown as `Error: ...`; a success hides Next again and appends exactly one fresh symbol, from an eligible row whose known property `p` gives the new question (`Prompt(symbol, p)`) and stored answer (that cell, normalised), leaving score, trials and name alone |
| `Session.QuitOutcome` | ipaquiz.py:117-127 | Quit reports name, score and trials, and resets all eight fields to their initial values, including `name = ""` |
| `Session.SessionExhaustion` | ipaquiz.py:28-35 | a session never uses more symbols than the table has answerable ones; once it has used them all, no draw sequence gives Show Next Symbol a new question (the source then keeps drawing; the model's error notice is its `Exhausted` cut-off) |
| `Session.QuizSession.constructor` | ipaquiz.py:52-60 | the session starts with score 0, trials 0, no used symbols, empty strings and both flags false |
| `Session.QuizSession.EnterName` | ipaquiz.py:64-66 | a non-empty name field replaces the stored name and nothing else |
| `Session.QuizSession.StartQuiz` | ipaquiz.py:65-80 | updates the fields exactly as `StartStep` says and keeps the invariant |
| `Session.QuizSession.Submit` | ipaquiz.py:90-100 | updates the fields exactly as `SubmitStep` says and keeps the invariant |
| `Session.QuizSession.ShowNext` | ipaquiz.py:103-114 | updates the fields exactly as `NextStep` says and keeps the invariant |
| `Session.QuizSession.Quit` | ipaquiz.py:117-127 | updates the fields exactly as `QuitStep` says and keeps the invariant |
| `Scenario.OneRowQuestion` | ipaquiz.py:28-39 | on the one-row table holding `p` with only its voicing known, the question asks for the voicing of `p` and expects "voiceless" |
| `Scenario.AvaStarts` | ipaquiz.py:69-80 | starting as "Ava" on that table asks that question and appends `p` |
| `Scenario.AvaAnswers` | ipaquiz.py:90-97 | answering "Voiceless" scores 1 of 1 with the "Correct!" message |
| `Scenario.NothingLeft` | ipaquiz.py:103-114 | once `p` has been asked, the draw `[0]` yields no question: the model ends with the `Exhausted` error notice and no change, where the source would keep drawing |
| `Scenario.AvaQuits` | ipaquiz.py:117-127 | quitting reports "Ava", 1 and 1 and resets the session |
| `Scenario.BlankRestart` | ipaquiz.py:69-80 | after quitting, Start Quiz with an empty name field is refused |

## Left out

- Rendering and widgets are not modelled. This covers `st.title`, `st.subheader`, the text inputs, the buttons and `st.experimental_rerun` (lines 63-64, 84-87, 112). Each button press is a method call. What the page would show in `st.success` or `st.error` is returned as a `Notice`.
- The name field is re-read on every rerun (lines 64-66). The model applies this only in `EnterName` and at the start of `StartQuiz`. Submit, Show Next Symbol and Quit assume the field has not changed since the last rerun.
- `load_data` (lines 6-15) is not modelled, because it is CSV input through pandas. The table is a given value. A file that cannot be loaded, or that has no `IPA` column, becomes an empty table, which `Generate` reports as `NotLoaded`.
- Randomness (lines 29 and 36) is a parameter, not a probability: `draws` for `df.sample`, `pick` for `random.choice`.
- `Generator.GenerateQuestion` does not model the source loop running forever when no row stops it. The source keeps drawing; the model stops when `draws` runs out and returns `Exhausted`, a result the source never produces.
- Scenario.NothingLeft: the error notice it states is the model's `Exhausted` cut-off. In the source, Show Next Symbol on that state never returns (lines 28-33), so no notice is shown.
- Session.SessionExhaustion: its error-notice clause describes the model's cut-off when `draws` runs out. In the source the loop never returns in that state unless a drawn candidate lacks a property column.
- `Text.Lower` lower-cases only ASCII letters. Unicode case mapping, including mappings that change a string's length, is left out.
- Cells are modelled as strings, so `str(value)` is the identity. Numeric cells and pandas' text rendering of them are left out.
- Python's list membership for `not in used_ipa_symbols` is modelled as sequence membership on strings. NaN-versus-NaN comparison does not arise, because null symbols are rejected first.
