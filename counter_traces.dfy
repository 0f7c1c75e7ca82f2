/**
  `MyExperiment.get_data` of first_soc/my_experiment.py: the counter samples of one test,
  read row by row from its sampler output, split into the producer's pushes and the
  consumer's pops, with the idle end of the test cut off.
 */
module CounterTraces {
  import opened Wrappers

  /** One row as the CSV reader yields it: every column name with its cell, in header order. */
  type Row = seq<(string, string)>

  predicate EndsWith(s: string, suffix: string)
  {
    |suffix| <= |s| && s[|s| - |suffix|..] == suffix
  }

  const PushedSuffix: string := "stats.pushed"
  const PoppedSuffix: string := "stats.popped"

  /** The two series `get_data` returns. */
  datatype Series = Production | Consumption

  /** The key `get_data` files a series under. */
  function SeriesKey(series: Series): string
  {
    match series
    case Production => "production"
    case Consumption => "consumption"
  }

  /**
    Which series a column feeds: a pushed counter feeds production, else a popped counter
    feeds consumption, else none. No column ends in both suffixes, so the order of the
    two tests does not matter.
   */
  function Classify(column: string): (r: Option<Series>)
    ensures r == Some(Production) <==> EndsWith(column, PushedSuffix)
    ensures r == Some(Consumption) <==> EndsWith(column, PoppedSuffix)
  {
    if EndsWith(column, PushedSuffix) then
      assert column[|column| - 1] == 'd';
      Some(Production)
    else if EndsWith(column, PoppedSuffix) then Some(Consumption)
    else None
  }

  /** The cells of `row` that feed `series`, in column order. */
  function RowSamples(row: Row, series: Series): seq<string>
    decreases |row|
  {
    if |row| == 0 then []
    else RowSamples(row[..|row| - 1], series) + (if Classify(row[|row| - 1].0) == Some(series) then [row[|row| - 1].1] else [])
  }

  /** The cells of all rows that feed `series`, row after row. */
  function Samples(rows: seq<Row>, series: Series): seq<string>
    decreases |rows|
  {
    if |rows| == 0 then [] else Samples(rows[..|rows| - 1], series) + RowSamples(rows[|rows| - 1], series)
  }

  /** How many samples at the end of a test are idle. */
  const IdleTail: nat := 10

  /** `xs[:-10]`: all but the last ten samples, none when there are at most ten. */
  function DropIdleTail<T>(xs: seq<T>): (r: seq<T>)
    ensures |r| == if |xs| <= IdleTail then 0 else |xs| - IdleTail
    ensures r == xs[..|r|]
  {
    if |xs| <= IdleTail then [] else xs[..|xs| - IdleTail]
  }

  /**
    `get_data`: both series collected in one pass over rows and columns, each with its
    idle tail removed.
   */
  method GetData(rows: seq<Row>) returns (results: map<string, seq<string>>)
    ensures results.Keys == {SeriesKey(Production), SeriesKey(Consumption)}
    ensures results[SeriesKey(Production)] == DropIdleTail(Samples(rows, Production))
    ensures results[SeriesKey(Consumption)] == DropIdleTail(Samples(rows, Consumption))
  {
    var production: seq<string> := [];
    var consumption: seq<string> := [];
    for i := 0 to |rows|
      invariant production == Samples(rows[..i], Production)
      invariant consumption == Samples(rows[..i], Consumption)
    {
      var row := rows[i];
      for j := 0 to |row|
        invariant production == Samples(rows[..i], Production) + RowSamples(row[..j], Production)
        invariant consumption == Samples(rows[..i], Consumption) + RowSamples(row[..j], Consumption)
      {
        var (column, cell) := row[j];
        assert row[..j + 1][..j] == row[..j];
        if EndsWith(column, PushedSuffix) {
          production := production + [cell];
        } else if EndsWith(column, PoppedSuffix) {
          consumption := consumption + [cell];
        }
      }
      assert row[..|row|] == row;
      assert rows[..i + 1][..i] == rows[..i];
    }
    assert rows[..|rows|] == rows;
    results := map[SeriesKey(Production) := DropIdleTail(production), SeriesKey(Consumption) := DropIdleTail(consumption)];
  }

  // ---- what the samples are ----

  /** A cell is a sample of `series` exactly when some column feeding `series` holds it. */
  lemma {:induction false} RowSamplesMembers(row: Row, series: Series, cell: string)
    ensures cell in RowSamples(row, series) <==>
      exists j | 0 <= j < |row| :: row[j].1 == cell && Classify(row[j].0) == Some(series)
    decreases |row|
  {
    if |row| > 0 {
      var init := row[..|row| - 1];
      RowSamplesMembers(init, series, cell);
      if exists j | 0 <= j < |init| :: init[j].1 == cell && Classify(init[j].0) == Some(series) {
        var j :| 0 <= j < |init| && init[j].1 == cell && Classify(init[j].0) == Some(series);
        assert row[j] == init[j];
      }
      if exists j | 0 <= j < |row| :: row[j].1 == cell && Classify(row[j].0) == Some(series) {
        var j :| 0 <= j < |row| && row[j].1 == cell && Classify(row[j].0) == Some(series);
        if j < |init| {
          assert init[j] == row[j];
        }
      }
    }
  }

  /** No cell feeds both series: at most one sample per column. */
  lemma {:induction false} RowSamplesDisjoint(row: Row)
    ensures |RowSamples(row, Production)| + |RowSamples(row, Consumption)| <= |row|
    decreases |row|
  {
    if |row| > 0 {
      RowSamplesDisjoint(row[..|row| - 1]);
    }
  }

  /** Reading more rows only appends: the samples of `a + b` are those of `a`, then those of `b`. */
  lemma {:induction false} SamplesConcat(a: seq<Row>, b: seq<Row>, series: Series)
    ensures Samples(a + b, series) == Samples(a, series) + Samples(b, series)
    decreases |b|
  {
    if |b| == 0 {
      assert a + b == a;
    } else {
      assert (a + b)[..|a + b| - 1] == a + b[..|b| - 1];
      SamplesConcat(a, b[..|b| - 1], series);
    }
  }

  /**
    When every row holds exactly one counter of `series` (one connection, one row per
    sampled clock), the series has one sample per row, the `i`-th from row `i`.
   */
  lemma {:induction false} OneSamplePerRow(rows: seq<Row>, series: Series)
    requires forall i | 0 <= i < |rows| :: |RowSamples(rows[i], series)| == 1
    ensures |Samples(rows, series)| == |rows|
    ensures forall i | 0 <= i < |rows| :: Samples(rows, series)[i] == RowSamples(rows[i], series)[0]
    decreases |rows|
  {
    if |rows| > 0 {
      var init := rows[..|rows| - 1];
      assert forall i | 0 <= i < |init| :: init[i] == rows[i];
      OneSamplePerRow(init, series);
    }
  }

  /** With one counter per row, the returned series covers all but the last ten sampled clocks. */
  lemma TrimmedPerRow(rows: seq<Row>, series: Series)
    requires forall i | 0 <= i < |rows| :: |RowSamples(rows[i], series)| == 1
    ensures var r := DropIdleTail(Samples(rows, series));
      |r| == (if |rows| <= IdleTail then 0 else |rows| - IdleTail) &&
      forall i | 0 <= i < |r| :: r[i] == RowSamples(rows[i], series)[0]
  {
    OneSamplePerRow(rows, series);
  }
}
