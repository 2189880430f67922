/**
 * The loaded symbol table: rows keyed by the `IPA` column, each with the five
 * tracked property columns, any of whose cells may be null.
 */
module Symbols {
  import opened Wrappers

  /** The properties a question may ask about. */
  datatype Property = Voicing | Place | Centrality | OroNasal | Manner

  /** The tracked properties, in the order the comprehension visits them. */
  const Properties: seq<Property> := [Voicing, Place, Centrality, OroNasal, Manner]

  /** The column heading of a property. */
  function Name(p: Property): string
  {
    match p
    case Voicing => "Voicing"
    case Place => "Place"
    case Centrality => "Centrality"
    case OroNasal => "Oro-nasal"
    case Manner => "Manner"
  }

  /** A cell of the table: `None` is a null (NaN) cell. */
  type Cell = Option<string>

  /**
   * One row: its `IPA` cell and the cells of those property columns the
   * file has (a column the file lacks has no key here).
   */
  datatype Row = Row(ipa: Cell, props: map<Property, Cell>)

  /** The loaded data frame: whether it has an `IPA` column, and its rows. */
  datatype Table = Table(hasIpaColumn: bool, rows: seq<Row>)

  /** Neither `df.empty` nor a missing `IPA` column. */
  predicate Loaded(t: Table)
  {
    t.hasIpaColumn && |t.rows| > 0
  }

  /** The row has a non-null symbol that has not been asked yet. */
  predicate Candidate(r: Row, used: seq<string>)
  {
    r.ipa.Some? && r.ipa.value !in used
  }

  /** Every tracked property column is present, so `row[prop]` raises no `KeyError`. */
  predicate HasAllColumns(r: Row)
  {
    forall p <- Properties :: p in r.props
  }

  /** The properties of `ps` whose cell in `r` is non-null, in the order of `ps`. */
  function Present(r: Row, ps: seq<Property>): (qs: seq<Property>)
    requires forall p <- ps :: p in r.props
    ensures forall p :: p in qs <==> p in ps && r.props[p].Some?
    ensures |qs| <= |ps|
  {
    if ps == [] then []
    else (if r.props[ps[0]].Some? then [ps[0]] else []) + Present(r, ps[1..])
  }

  /** The non-null tracked properties of a row (`available_properties`). */
  function Available(r: Row): seq<Property>
    requires HasAllColumns(r)
  {
    Present(r, Properties)
  }

  /** The position in `ps` of the first property whose column `r` lacks. */
  function FirstAbsent(r: Row, ps: seq<Property>): (k: nat)
    requires exists p <- ps :: p !in r.props
    ensures k < |ps| && ps[k] !in r.props
    ensures forall j :: 0 <= j < k ==> ps[j] in r.props
  {
    if ps[0] !in r.props then 0 else 1 + FirstAbsent(r, ps[1..])
  }

  /** The property column whose lookup raises the `KeyError`. */
  function MissingColumn(r: Row): Property
    requires !HasAllColumns(r)
  {
    Properties[FirstAbsent(r, Properties)]
  }

  /** The row can be asked about at all: symbol, every column, one known property. */
  predicate Answerable(t: Table, r: Row)
  {
    t.hasIpaColumn && r.ipa.Some? && HasAllColumns(r) && Available(r) != []
  }

  /** The row can be asked about now (ipaquiz.py's three acceptance conditions). */
  predicate Eligible(t: Table, r: Row, used: seq<string>)
  {
    Answerable(t, r) && r.ipa.value !in used
  }

  /** The symbols of all answerable rows. */
  function AnswerableSymbols(t: Table): set<string>
  {
    set i | 0 <= i < |t.rows| && Answerable(t, t.rows[i]) :: t.rows[i].ipa.value
  }

  /** No symbol occurs twice. */
  predicate Distinct(s: seq<string>)
  {
    forall i, j :: 0 <= i < j < |s| ==> s[i] != s[j]
  }

  /** The elements of a list, as a set. */
  function Elements(s: seq<string>): set<string>
  {
    set x | x in s
  }

  /** A list without repeats has as many elements as its set. */
  lemma {:induction false} DistinctCard(s: seq<string>)
    requires Distinct(s)
    ensures |Elements(s)| == |s|
  {
    if s != [] {
      var rest := s[1..];
      assert Distinct(rest);
      DistinctCard(rest);
      assert Elements(s) == Elements(rest) + {s[0]};
      assert s[0] !in Elements(rest);
    }
  }

  /**
   * A repeat-free list of answerable symbols is no longer than the set of
   * answerable symbols, and once it is that long no row is eligible.
   */
  lemma UsedBounded(t: Table, used: seq<string>)
    requires Distinct(used)
    requires Elements(used) <= AnswerableSymbols(t)
    ensures |used| <= |AnswerableSymbols(t)|
    ensures |used| == |AnswerableSymbols(t)| ==>
              forall i :: 0 <= i < |t.rows| ==> !Eligible(t, t.rows[i], used)
  {
    DistinctCard(used);
    assert |Elements(used)| <= |AnswerableSymbols(t)| by {
      SubsetCard(Elements(used), AnswerableSymbols(t));
    }
    if |used| == |AnswerableSymbols(t)| {
      SubsetSameCard(Elements(used), AnswerableSymbols(t));
      forall i | 0 <= i < |t.rows| ensures !Eligible(t, t.rows[i], used) {
        if Answerable(t, t.rows[i]) {
          assert t.rows[i].ipa.value in AnswerableSymbols(t);
        }
      }
    }
  }

  /** A subset is no larger than its superset. */
  lemma SubsetCard(a: set<string>, b: set<string>)
    requires a <= b
    ensures |a| <= |b|
  {
    assert b == a + (b - a);
  }

  /** A subset as large as its superset is the superset. */
  lemma SubsetSameCard(a: set<string>, b: set<string>)
    requires a <= b && |a| == |b|
    ensures a == b
  {
    assert b == a + (b - a);
    assert |b - a| == 0;
  }
}
