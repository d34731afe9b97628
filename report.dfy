/**
  The output record as the estimator lays it out: an insertion-ordered table
  of ten named rows (the eight categories, then "Total" and "Total (tons)"),
  and the slice of it that the distribution chart is drawn from.
 */
module Report {
  import opened Calculator

  type Row = (string, real)

  /** The eight category names, in the order of the record. */
  const CategoryNames: seq<string> :=
    ["Electricity", "Transport", "Cooking", "Flights", "Diet", "Digital", "Waste", "Appliances"]

  /** The two aggregate rows that close the record. */
  const AggregateNames: seq<string> := ["Total", "Total (tons)"]

  /**
    The rows of an output record, in insertion order: the eight categories
    under their names, then the total and the total in tonnes.
   */
  function Data(o: EmissionOutput): (rows: seq<Row>)
    ensures |rows| == 10
    ensures Keys(rows) == CategoryNames + AggregateNames
    ensures Values(rows) == [o.electricity, o.transport, o.cooking, o.flights, o.diet,
                             o.digital, o.waste, o.appliances, o.total, o.tons]
  {
    [ ("Electricity", o.electricity),
      ("Transport", o.transport),
      ("Cooking", o.cooking),
      ("Flights", o.flights),
      ("Diet", o.diet),
      ("Digital", o.digital),
      ("Waste", o.waste),
      ("Appliances", o.appliances),
      ("Total", o.total),
      ("Total (tons)", o.tons) ]
  }

  /** The keys of a table, in order. */
  function Keys(rows: seq<Row>): (ks: seq<string>)
    ensures |ks| == |rows|
    ensures forall i :: 0 <= i < |rows| ==> ks[i] == rows[i].0
  {
    seq(|rows|, i requires 0 <= i < |rows| => rows[i].0)
  }

  /** Python's s[:-2]: everything but the last two items, empty when there are fewer. */
  function DropLastTwo<T>(s: seq<T>): (r: seq<T>)
    ensures |s| >= 2 ==> |r| == |s| - 2
    ensures |s| < 2 ==> r == []
    ensures r <= s
  {
    if |s| >= 2 then s[..|s| - 2] else []
  }

  /** The value stored under key k: that of its first row. */
  function Lookup(rows: seq<Row>, k: string): (v: real)
    requires k in Keys(rows)
    ensures (k, v) in rows
  {
    if rows[0].0 == k then rows[0].1
    else
      assert Keys(rows) == [rows[0].0] + Keys(rows[1..]);
      Lookup(rows[1..], k)
  }

  /** The keys the chart shows: all keys but exactly the last two. */
  function ChartKeys(rows: seq<Row>): (ks: seq<string>)
    ensures ks <= Keys(rows)
    ensures |rows| >= 2 ==> |ks| == |rows| - 2
    ensures |rows| < 2 ==> ks == []
  {
    DropLastTwo(Keys(rows))
  }

  /** The chart's values: the table's value under each chart key, in order. */
  function ChartValues(rows: seq<Row>, keys: seq<string>): (vs: seq<real>)
    requires forall k :: k in keys ==> k in Keys(rows)
    ensures |vs| == |keys|
    ensures forall i :: 0 <= i < |keys| ==> vs[i] == Lookup(rows, keys[i])
  {
    if keys == [] then [] else [Lookup(rows, keys[0])] + ChartValues(rows, keys[1..])
  }

  /** The sum of a sequence of reals. */
  function Sum(s: seq<real>): real {
    if s == [] then 0.0 else s[0] + Sum(s[1..])
  }

  /** No two rows of a table share a key. */
  predicate DistinctKeys(rows: seq<Row>) {
    forall i, j :: 0 <= i < j < |rows| ==> rows[i].0 != rows[j].0
  }

  /** In a table without repeated keys, looking up the key of row i gives row i's value. */
  lemma {:induction false} LookupRow(rows: seq<Row>, i: nat)
    requires DistinctKeys(rows) && i < |rows|
    ensures rows[i].0 in Keys(rows)
    ensures Lookup(rows, rows[i].0) == rows[i].1
  {
    assert Keys(rows)[i] == rows[i].0;
    if i > 0 {
      assert rows[0].0 != rows[i].0;
      assert rows[1..][i - 1] == rows[i];
      LookupRow(rows[1..], i - 1);
    }
  }

  /** The record's keys are the eight categories then the two aggregates, none repeated. */
  lemma DataKeys(o: EmissionOutput)
    ensures Keys(Data(o)) == CategoryNames + AggregateNames
    ensures DistinctKeys(Data(o))
  {
    assert Keys(Data(o)) == CategoryNames + AggregateNames;
  }

  /**
    The chart is drawn from exactly the eight categories, in record order,
    and never from the aggregates "Total" or "Total (tons)".
   */
  lemma ChartKeysAreCategories(o: EmissionOutput)
    ensures ChartKeys(Data(o)) == CategoryNames
    ensures "Total" !in ChartKeys(Data(o)) && "Total (tons)" !in ChartKeys(Data(o))
  {
    DataKeys(o);
    assert (CategoryNames + AggregateNames)[..8] == CategoryNames;
  }

  /** The values of a table, in order. */
  function Values(rows: seq<Row>): (vs: seq<real>)
    ensures |vs| == |rows|
    ensures forall i :: 0 <= i < |rows| ==> vs[i] == rows[i].1
  {
    seq(|rows|, i requires 0 <= i < |rows| => rows[i].1)
  }

  /** In a table without repeated keys, looking up its first n keys gives its first n values. */
  lemma LookupPrefix(rows: seq<Row>, n: nat)
    requires DistinctKeys(rows) && n <= |rows|
    ensures forall k :: k in Keys(rows)[..n] ==> k in Keys(rows)
    ensures ChartValues(rows, Keys(rows)[..n]) == Values(rows)[..n]
  {
    var ks := Keys(rows)[..n];
    assert ks <= Keys(rows);
    var vs := ChartValues(rows, ks);
    forall i | 0 <= i < n ensures vs[i] == Values(rows)[..n][i] {
      LookupRow(rows, i);
    }
  }

  /** The first eight values of the record are its categories, in order. */
  lemma DataValues(o: EmissionOutput)
    ensures Values(Data(o))[..8]
      == [o.electricity, o.transport, o.cooking, o.flights, o.diet, o.digital, o.waste, o.appliances]
  {
  }

  /** Each chart value is the record's value for that category, in order. */
  lemma ChartValuesAreCategories(o: EmissionOutput)
    ensures forall k :: k in ChartKeys(Data(o)) ==> k in Keys(Data(o))
    ensures ChartValues(Data(o), ChartKeys(Data(o)))
      == [o.electricity, o.transport, o.cooking, o.flights, o.diet, o.digital, o.waste, o.appliances]
  {
    DataKeys(o);
    ChartKeysAreCategories(o);
    assert Keys(Data(o))[..8] == CategoryNames;
    LookupPrefix(Data(o), 8);
    DataValues(o);
  }

  /** The eight chart values add up to the record's total: the chart's shares are shares of the total. */
  lemma {:induction false} ChartSumIsTotal(o: EmissionOutput)
    requires Consistent(o)
    ensures forall k :: k in ChartKeys(Data(o)) ==> k in Keys(Data(o))
    ensures Sum(ChartValues(Data(o), ChartKeys(Data(o)))) == o.total
  {
    ChartValuesAreCategories(o);
    var s := [o.electricity, o.transport, o.cooking, o.flights, o.diet, o.digital, o.waste, o.appliances];
    // Unfold Sum once per category.
    var t := s[1..][1..][1..][1..][1..][1..][1..];
    assert t[1..] == [];
    calc {
      Sum(s);
      o.electricity + Sum(s[1..]);
      o.electricity + o.transport + Sum(s[1..][1..]);
      o.electricity + o.transport + o.cooking + Sum(s[1..][1..][1..]);
      o.electricity + o.transport + o.cooking + o.flights + Sum(s[1..][1..][1..][1..]);
      o.electricity + o.transport + o.cooking + o.flights + o.diet + Sum(s[1..][1..][1..][1..][1..]);
      o.electricity + o.transport + o.cooking + o.flights + o.diet + o.digital + Sum(s[1..][1..][1..][1..][1..][1..]);
      o.electricity + o.transport + o.cooking + o.flights + o.diet + o.digital + o.waste + Sum(t);
      CategorySum(o);
    }
  }

  /** For every record the calculator produces, the chart's values add up to its total. */
  lemma ComputedChartSumIsTotal(input: EmissionInput)
    requires Compute(input).Ok?
    ensures ChartKeys(Data(Compute(input).value)) == CategoryNames
    ensures forall k :: k in CategoryNames ==> k in Keys(Data(Compute(input).value))
    ensures Sum(ChartValues(Data(Compute(input).value), CategoryNames)) == Compute(input).value.total
  {
    ChartKeysAreCategories(Compute(input).value);
    ChartSumIsTotal(Compute(input).value);
  }

  /** The "Total (tons)" row is the "Total" row over 1000. */
  lemma TonsRowIsTotalOver1000(o: EmissionOutput)
    requires Consistent(o)
    ensures "Total" in Keys(Data(o)) && "Total (tons)" in Keys(Data(o))
    ensures Lookup(Data(o), "Total (tons)") == Lookup(Data(o), "Total") / 1000.0
  {
    DataKeys(o);
    LookupRow(Data(o), 8);
    LookupRow(Data(o), 9);
  }
}
