/**
 * `generate_question`: draw rows until one has an unused symbol and a known
 * property, append its symbol to the used list, and build the prompt and
 * the expected answer for one of its known properties.
 *
 * `df.sample(1)` is modelled by `draws`, the row indices the sampler yields
 * in turn, and `random.choice` by `pick`, which selects the property at
 * position `pick % |available|`.
 */
module Generator {
  import opened Wrappers
  import opened Text
  import opened Symbols

  /** The exceptions `generate_question` raises, plus running out of draws. */
  datatype GenError =
    | NotLoaded                        // ValueError: empty frame or no `IPA` column
    | KeyMissing(column: Property)     // KeyError from `current_ipa[prop]`
    | Exhausted                        // no draw stopped the loop

  /** `str(e)` of the exception. */
  function ErrorText(e: GenError): string
  {
    match e
    case NotLoaded => "IPA data is not loaded properly or missing."
    case KeyMissing(p) => "'" + Name(p) + "'"
    case Exhausted => "No unused IPA symbol was drawn."
  }

  /**
   * What a successful call returns (`question`, `answer`, the extended list),
   * with the drawn row and the chosen symbol and property alongside.
   */
  datatype Generated = Generated(row: nat, symbol: string, property: Property,
                                 prompt: string, answer: string, used: seq<string>)

  /** The question text for a symbol and a property. */
  function Prompt(symbol: string, p: Property): string
  {
    "IPA Symbol: " + symbol + Asking(p)
  }

  /** The second line of the prompt, which names the property in lower case. */
  function Asking(p: Property): string
  {
    "\nWhat is the " + Lower(Name(p)) + " of this IPA symbol?"
  }

  /** Every draw names a row of the table. */
  predicate DrawsFrom(t: Table, draws: seq<nat>)
  {
    forall k :: 0 <= k < |draws| ==> draws[k] < |t.rows|
  }

  /** Drawing `r` ends the loop: with a question, or with a `KeyError`. */
  predicate Stops(r: Row, used: seq<string>)
  {
    Candidate(r, used) && (!HasAllColumns(r) || Available(r) != [])
  }

  /** The question built from row `i` once the loop accepted it. */
  function Ask(t: Table, i: nat, used: seq<string>, pick: nat): Generated
    requires i < |t.rows|
    requires Candidate(t.rows[i], used) && HasAllColumns(t.rows[i]) && Available(t.rows[i]) != []
  {
    var r := t.rows[i];
    var avail := Available(r);
    var p := avail[pick % |avail|];
    var symbol := r.ipa.value;
    Generated(i, symbol, p, Prompt(symbol, p), Normalize(r.props[p].value), used + [symbol])
  }

  /** The rejection loop over the remaining draws. */
  function Scan(t: Table, used: seq<string>, draws: seq<nat>, pick: nat): Result<Generated, GenError>
    requires DrawsFrom(t, draws)
    decreases |draws|
  {
    if draws == [] then Failure(Exhausted)
    else
      var r := t.rows[draws[0]];
      if !Stops(r, used) then Scan(t, used, draws[1..], pick)
      else if !HasAllColumns(r) then Failure(KeyMissing(MissingColumn(r)))
      else Success(Ask(t, draws[0], used, pick))
  }

  /** The outcome of `generate_question(used)` when the sampler yields `draws`. */
  function Generate(t: Table, used: seq<string>, draws: seq<nat>, pick: nat): Result<Generated, GenError>
    requires DrawsFrom(t, draws)
  {
    if !Loaded(t) then Failure(NotLoaded) else Scan(t, used, draws, pick)
  }

  /** `generate_question`, with its sampling loop. */
  method GenerateQuestion(t: Table, used: seq<string>, draws: seq<nat>, pick: nat)
    returns (r: Result<Generated, GenError>)
    requires DrawsFrom(t, draws)
    ensures r == Generate(t, used, draws, pick)
  {
    if |t.rows| == 0 || !t.hasIpaColumn {
      return Failure(NotLoaded);
    }
    var k := 0;
    while k < |draws|
      invariant k <= |draws|
      invariant Scan(t, used, draws, pick) == Scan(t, used, draws[k..], pick)
    {
      var row := t.rows[draws[k]];
      if row.ipa.Some? && row.ipa.value !in used {
        if !HasAllColumns(row) {
          return Failure(KeyMissing(MissingColumn(row)));
        }
        var available := Available(row);
        if available != [] {
          var property := available[pick % |available|];
          var symbol := row.ipa.value;
          var answer := Normalize(row.props[property].value);
          return Success(Generated(draws[k], symbol, property, Prompt(symbol, property), answer, used + [symbol]));
        }
      }
      assert draws[k..][1..] == draws[k + 1..];
      k := k + 1;
    }
    return Failure(Exhausted);
  }

  /** What a successful call promises about the row, the list, the prompt and the answer. */
  ghost predicate SoundQuestion(t: Table, used: seq<string>, draws: seq<nat>, g: Generated)
  {
    && DrawsFrom(t, draws)
    && g.row < |t.rows|
    && Eligible(t, t.rows[g.row], used)
    && g.symbol == t.rows[g.row].ipa.value
    && g.symbol !in used
    && g.used == used + [g.symbol]
    && g.property in Available(t.rows[g.row])
    && t.rows[g.row].props[g.property].Some?
    && g.prompt == Prompt(g.symbol, g.property)
    && g.answer == Normalize(t.rows[g.row].props[g.property].value)
    && exists k :: 0 <= k < |draws| && draws[k] == g.row
                && forall j :: 0 <= j < k ==> !Stops(t.rows[draws[j]], used)
  }

  /** Prefixing a draw that does not stop the loop shifts a run of non-stopping draws by one. */
  lemma NoStopShift(t: Table, used: seq<string>, draws: seq<nat>, k: nat)
    requires DrawsFrom(t, draws) && draws != [] && k < |draws|
    requires !Stops(t.rows[draws[0]], used)
    requires forall j :: 0 <= j < k ==> !Stops(t.rows[draws[1..][j]], used)
    ensures forall j :: 0 <= j < k + 1 ==> !Stops(t.rows[draws[j]], used)
  {
    forall j | 0 <= j < k + 1 ensures !Stops(t.rows[draws[j]], used) {
      if j > 0 { assert draws[j] == draws[1..][j - 1]; }
    }
  }

  lemma {:induction false} ScanSound(t: Table, used: seq<string>, draws: seq<nat>, pick: nat)
    requires t.hasIpaColumn && DrawsFrom(t, draws)
    ensures var r := Scan(t, used, draws, pick);
            r.Success? ==> SoundQuestion(t, used, draws, r.value)
    ensures var r := Scan(t, used, draws, pick);
            r.Failure? && r.error.Exhausted? <==> forall k :: 0 <= k < |draws| ==> !Stops(t.rows[draws[k]], used)
    ensures var r := Scan(t, used, draws, pick);
            r.Failure? && r.error.KeyMissing? ==>
              exists k :: 0 <= k < |draws| && Candidate(t.rows[draws[k]], used)
                       && !HasAllColumns(t.rows[draws[k]])
                       && r.error.column == MissingColumn(t.rows[draws[k]])
                       && forall j :: 0 <= j < k ==> !Stops(t.rows[draws[j]], used)
    ensures !Scan(t, used, draws, pick).Failure? || !Scan(t, used, draws, pick).error.NotLoaded?
    decreases |draws|
  {
    if draws != [] {
      var r := t.rows[draws[0]];
      if !Stops(r, used) {
        ScanSound(t, used, draws[1..], pick);
        var s := Scan(t, used, draws[1..], pick);
        if s.Success? {
          var k :| 0 <= k < |draws[1..]| && draws[1..][k] == s.value.row
                   && forall j :: 0 <= j < k ==> !Stops(t.rows[draws[1..][j]], used);
          assert draws[k + 1] == s.value.row;
          NoStopShift(t, used, draws, k);
        }
        if s.Failure? && s.error.KeyMissing? {
          var k :| 0 <= k < |draws[1..]| && Candidate(t.rows[draws[1..][k]], used)
                   && !HasAllColumns(t.rows[draws[1..][k]])
                   && s.error.column == MissingColumn(t.rows[draws[1..][k]])
                   && forall j :: 0 <= j < k ==> !Stops(t.rows[draws[1..][j]], used);
          assert draws[1..][k] == draws[k + 1];
          NoStopShift(t, used, draws, k);
        }
        assert (forall k :: 0 <= k < |draws| ==> !Stops(t.rows[draws[k]], used))
           <==> (forall k :: 0 <= k < |draws[1..]| ==> !Stops(t.rows[draws[1..][k]], used)) by {
          forall k | 0 <= k < |draws[1..]| ensures draws[1..][k] == draws[k + 1] { }
        }
      } else if HasAllColumns(r) {
        var g := Ask(t, draws[0], used, pick);
        assert g.property in Available(r);
      }
    }
  }

  /**
   * A generated question comes from an eligible row drawn before any other
   * row that would have stopped the loop; its symbol is new and is the only
   * addition to the list; its prompt and answer are built from that row.
   * The call fails with `NotLoaded` exactly when the table is empty or has
   * no `IPA` column, runs out of draws exactly when no draw would stop the
   * loop, and raises `KeyError` only for a drawn candidate row that lacks a
   * property column and is the first draw to stop the loop.
   */
  lemma GenerateSound(t: Table, used: seq<string>, draws: seq<nat>, pick: nat)
    requires DrawsFrom(t, draws)
    ensures var r := Generate(t, used, draws, pick);
            r.Success? ==> SoundQuestion(t, used, draws, r.value)
    ensures var r := Generate(t, used, draws, pick);
            r.Failure? && r.error.NotLoaded? <==> !Loaded(t)
    ensures var r := Generate(t, used, draws, pick);
            r.Failure? && r.error.Exhausted? <==>
              Loaded(t) && forall k :: 0 <= k < |draws| ==> !Stops(t.rows[draws[k]], used)
    ensures var r := Generate(t, used, draws, pick);
            r.Failure? && r.error.KeyMissing? ==>
              exists k :: 0 <= k < |draws| && Candidate(t.rows[draws[k]], used)
                       && !HasAllColumns(t.rows[draws[k]])
                       && r.error.column == MissingColumn(t.rows[draws[k]])
                       && forall j :: 0 <= j < k ==> !Stops(t.rows[draws[j]], used)
  {
    if Loaded(t) {
      ScanSound(t, used, draws, pick);
    }
  }

  /** With no eligible row left, no draw sequence yields a question. */
  lemma NoEligibleNoQuestion(t: Table, used: seq<string>, draws: seq<nat>, pick: nat)
    requires DrawsFrom(t, draws)
    requires forall i :: 0 <= i < |t.rows| ==> !Eligible(t, t.rows[i], used)
    ensures Generate(t, used, draws, pick).Failure?
  {
    GenerateSound(t, used, draws, pick);
  }

  /**
   * When every row has every property column, a draw of an eligible row
   * always ends the loop with a question.
   */
  lemma EligibleDrawAsks(t: Table, used: seq<string>, draws: seq<nat>, pick: nat, k: nat)
    requires DrawsFrom(t, draws)
    requires forall i :: 0 <= i < |t.rows| ==> HasAllColumns(t.rows[i])
    requires k < |draws| && Eligible(t, t.rows[draws[k]], used)
    ensures Generate(t, used, draws, pick).Success?
  {
    GenerateSound(t, used, draws, pick);
  }

  /** The prompt names its symbol and property unambiguously (for symbols without a line break). */
  lemma PromptInjective(s1: string, p1: Property, s2: string, p2: Property)
    requires '\n' !in s1 && '\n' !in s2
    requires Prompt(s1, p1) == Prompt(s2, p2)
    ensures s1 == s2 && p1 == p2
  {
    SplitAtBreak("IPA Symbol: ", s1, Asking(p1), s2, Asking(p2));
    assert |Asking(p1)| == |Asking(p2)|;
    assert |Name(p1)| == |Name(p2)|;
  }

  /** Two ways of writing one string as a head, a break-free part and a break-led tail agree. */
  lemma SplitAtBreak(head: string, s1: string, x1: string, s2: string, x2: string)
    requires '\n' !in s1 && '\n' !in s2
    requires x1 != [] && x1[0] == '\n' && x2 != [] && x2[0] == '\n'
    requires head + s1 + x1 == head + s2 + x2
    ensures s1 == s2 && x1 == x2
  {
    var q := head + s1 + x1;
    assert s1 == q[|head|..|head| + |s1|];
    assert s2 == q[|head|..|head| + |s2|];
    assert x1 == q[|head| + |s1|..];
  }

}
