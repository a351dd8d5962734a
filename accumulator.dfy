/** The result accumulator of the Bayesian search (`BayesianSearchCV._Report`):
    columnar buffers of pre-allocated capacity that double when nearly full,
    and the final `cv_results_` table with the best row. */
module Accumulator {
  import opened Values

  /** A decoded parameter setting. */
  type Params = map<Value, Value>

  /** What one cross-validation run reports, already reduced to means and
      standard deviations, with the raw per-fold test scores. */
  datatype FoldScores = FoldScores(
    meanFitTime: real, stdFitTime: real,
    meanScoreTime: real, stdScoreTime: real,
    testScores: seq<real>,
    meanTestScore: real, stdTestScore: real)

  /** One recorded iteration. */
  datatype Row = Row(params: Params, scores: FoldScores)

  /** A column of `cv_results_`: numbers, or the list of parameter settings. */
  datatype Column = Reals(xs: seq<real>) | ParamList(ps: seq<Params>)

  /** A column name of `cv_results_`: one of the per-iteration scalars,
      `params`, or `split{f}_test_score` for fold `f`. */
  datatype Key = Stat(field: Field) | ParamsKey | Split(fold: nat)

  /** `cv_results_`: column name to column. */
  type Table = map<Key, Column>

  function ColumnLength(c: Column): nat {
    match c
    case Reals(xs) => |xs|
    case ParamList(ps) => |ps|
  }

  /** Every row holds one test score per fold. */
  predicate HasFolds(rows: seq<Row>, cv: nat) {
    forall i :: 0 <= i < |rows| ==> |rows[i].scores.testScores| == cv
  }

  /** The per-iteration scalars of `_Report`, one buffer each. */
  datatype Field = MeanFitTime | StdFitTime | MeanScoreTime | StdScoreTime | MeanTestScore | StdTestScore

  const FixedKeys: set<Key> :=
    {Stat(MeanFitTime), Stat(StdFitTime), Stat(MeanScoreTime), Stat(StdScoreTime),
     ParamsKey, Stat(MeanTestScore), Stat(StdTestScore)}

  function FieldName(f: Field): string {
    match f
    case MeanFitTime => "mean_fit_time"
    case StdFitTime => "std_fit_time"
    case MeanScoreTime => "mean_score_time"
    case StdScoreTime => "std_score_time"
    case MeanTestScore => "mean_test_score"
    case StdTestScore => "std_test_score"
  }

  /** The string under which a column appears in `cv_results_`. */
  function KeyName(k: Key): string {
    match k
    case Stat(f) => FieldName(f)
    case ParamsKey => "params"
    case Split(f) => "split" + NatToString(f) + "_test_score"
  }

  function Get(sc: FoldScores, f: Field): real {
    match f
    case MeanFitTime => sc.meanFitTime
    case StdFitTime => sc.stdFitTime
    case MeanScoreTime => sc.meanScoreTime
    case StdScoreTime => sc.stdScoreTime
    case MeanTestScore => sc.meanTestScore
    case StdTestScore => sc.stdTestScore
  }

  /** The values of `field`, one per row, in order. */
  function Series(rows: seq<Row>, field: Field): (c: seq<real>)
    ensures |c| == |rows|
    ensures forall i :: 0 <= i < |rows| ==> c[i] == Get(rows[i].scores, field)
  {
    if rows == [] then [] else Series(rows[..|rows| - 1], field) + [Get(rows[|rows| - 1].scores, field)]
  }

  /** The parameter settings, one per row, in order. */
  function ParamsOf(rows: seq<Row>): (ps: seq<Params>)
    ensures |ps| == |rows|
    ensures forall i :: 0 <= i < |rows| ==> ps[i] == rows[i].params
  {
    if rows == [] then [] else ParamsOf(rows[..|rows| - 1]) + [rows[|rows| - 1].params]
  }

  /** The mean test score of each row, in order. */
  function MeanScores(rows: seq<Row>): seq<real> {
    Series(rows, MeanTestScore)
  }

  /** The seven columns that do not depend on the number of folds. */
  function FixedColumns(rows: seq<Row>): Table {
    map[
      Stat(MeanFitTime) := Reals(Series(rows, MeanFitTime)),
      Stat(StdFitTime) := Reals(Series(rows, StdFitTime)),
      Stat(MeanScoreTime) := Reals(Series(rows, MeanScoreTime)),
      Stat(StdScoreTime) := Reals(Series(rows, StdScoreTime)),
      ParamsKey := ParamList(ParamsOf(rows)),
      Stat(MeanTestScore) := Reals(Series(rows, MeanTestScore)),
      Stat(StdTestScore) := Reals(Series(rows, StdTestScore))
    ]
  }

  /** The test scores of fold `f`, one per row. */
  function FoldColumn(rows: seq<Row>, cv: nat, f: nat): seq<real>
    requires HasFolds(rows, cv) && f < cv
  {
    seq(|rows|, i requires 0 <= i < |rows| => rows[i].scores.testScores[f])
  }

  /** The table after the loop over folds has added folds 0 .. f-1. */
  function SplitColumns(rows: seq<Row>, cv: nat, f: nat): Table
    requires HasFolds(rows, cv) && f <= cv
  {
    if f == 0 then FixedColumns(rows)
    else SplitColumns(rows, cv, f - 1)[Split(f - 1) := Reals(FoldColumn(rows, cv, f - 1))]
  }

  /** `cv_results_` built from `rows`. */
  function Columns(rows: seq<Row>, cv: nat): Table
    requires HasFolds(rows, cv)
  {
    SplitColumns(rows, cv, cv)
  }

  /** Distinct folds get distinct column names. */
  lemma SplitNameInjective(a: nat, b: nat)
    requires KeyName(Split(a)) == KeyName(Split(b))
    ensures a == b
  {
    var ka, kb := KeyName(Split(a)), KeyName(Split(b));
    assert ka[5..|ka| - 11] == NatToString(a);
    assert kb[5..|kb| - 11] == NatToString(b);
    NatToStringInjective(a, b);
  }

  /** Distinct columns have distinct names, so `cv_results_` as a dictionary
      keyed by strings has exactly the columns of the table. */
  lemma KeyNameInjective(a: Key, b: Key)
    requires KeyName(a) == KeyName(b)
    ensures a == b
  {
    var ka, kb := KeyName(a), KeyName(b);
    if a.Split? && b.Split? {
      SplitNameInjective(a.fold, b.fold);
    } else if a.Split? || b.Split? {
    } else {
      assert |ka| == |kb| && ka[1] == kb[1] && ka[4] == kb[4] && ka[5] == kb[5];
    }
  }

  /** The index that `argsort()[-1]` picks when the sort keeps equal scores in
      iteration order: a largest score, and the last of the largest. */
  function BestIndex(xs: seq<real>): (k: nat)
    requires |xs| > 0
    ensures k < |xs|
    ensures forall j :: 0 <= j < |xs| ==> xs[j] <= xs[k]
    ensures forall j :: k < j < |xs| ==> xs[j] < xs[k]
    decreases |xs|
  {
    if |xs| == 1 then 0
    else
      var k := BestIndex(xs[..|xs| - 1]);
      if xs[|xs| - 1] >= xs[k] then |xs| - 1 else k
  }

  /** The scores [0.7, 0.9, 0.85] select the second row. */
  lemma BestIndexExample()
    ensures BestIndex([0.7, 0.9, 0.85]) == 1
  {
    var xs: seq<real> := [0.7, 0.9, 0.85];
    var k := BestIndex(xs);
    assert xs[k] >= xs[1];
  }

  /** The loop over folds adds exactly one `split{f}_test_score` column per fold. */
  lemma {:induction false} SplitColumnsKeys(rows: seq<Row>, cv: nat, f: nat)
    requires HasFolds(rows, cv) && f <= cv
    ensures SplitColumns(rows, cv, f).Keys == FixedKeys + (set g | 0 <= g < f :: Split(g))
    decreases f
  {
    if f > 0 {
      SplitColumnsKeys(rows, cv, f - 1);
      assert (set g | 0 <= g < f :: Split(g)) == (set g | 0 <= g < f - 1 :: Split(g)) + {Split(f - 1)};
    }
  }

  /** Fold `g`'s column holds that fold's scores, and the fixed columns are
      never overwritten by a fold column. */
  lemma {:induction false} SplitColumnsValues(rows: seq<Row>, cv: nat, f: nat)
    requires HasFolds(rows, cv) && f <= cv
    ensures forall g :: 0 <= g < f ==>
              Split(g) in SplitColumns(rows, cv, f) && SplitColumns(rows, cv, f)[Split(g)] == Reals(FoldColumn(rows, cv, g))
    ensures forall k :: k in FixedKeys ==>
              k in SplitColumns(rows, cv, f) && SplitColumns(rows, cv, f)[k] == FixedColumns(rows)[k]
    decreases f
  {
    if f > 0 {
      SplitColumnsValues(rows, cv, f - 1);
    }
  }

  /** Every column of the table has one entry per row. */
  lemma {:induction false} SplitColumnsLengths(rows: seq<Row>, cv: nat, f: nat)
    requires HasFolds(rows, cv) && f <= cv
    ensures forall k :: k in SplitColumns(rows, cv, f) ==> ColumnLength(SplitColumns(rows, cv, f)[k]) == |rows|
    decreases f
  {
    if f > 0 {
      SplitColumnsLengths(rows, cv, f - 1);
    }
  }

  /** The columns of `cv_results_`: the seven fixed columns plus exactly one
      `split{f}_test_score` column per fold, each with one entry per row. */
  lemma ColumnsKeys(rows: seq<Row>, cv: nat)
    requires HasFolds(rows, cv)
    ensures Columns(rows, cv).Keys == FixedKeys + (set f | 0 <= f < cv :: Split(f))
    ensures forall k :: k in Columns(rows, cv) ==> ColumnLength(Columns(rows, cv)[k]) == |rows|
  {
    SplitColumnsKeys(rows, cv, cv);
    SplitColumnsLengths(rows, cv, cv);
  }

  /** The contents of `cv_results_`: fold `f`'s column holds that fold's
      scores, and the mean test scores and parameter settings are listed in
      iteration order. */
  lemma ColumnsValues(rows: seq<Row>, cv: nat)
    requires HasFolds(rows, cv)
    ensures forall f, i :: 0 <= f < cv && 0 <= i < |rows| ==>
              Split(f) in Columns(rows, cv) && Columns(rows, cv)[Split(f)] == Reals(FoldColumn(rows, cv, f))
              && FoldColumn(rows, cv, f)[i] == rows[i].scores.testScores[f]
    ensures Stat(MeanTestScore) in Columns(rows, cv) && Columns(rows, cv)[Stat(MeanTestScore)] == Reals(MeanScores(rows))
    ensures ParamsKey in Columns(rows, cv) && Columns(rows, cv)[ParamsKey] == ParamList(ParamsOf(rows))
  {
    SplitColumnsValues(rows, cv, cv);
    var fixed := FixedColumns(rows);
    assert Stat(MeanTestScore) in FixedKeys && fixed[Stat(MeanTestScore)] == Reals(MeanScores(rows));
    assert ParamsKey in FixedKeys && fixed[ParamsKey] == ParamList(ParamsOf(rows));
  }

  /** `"." * n` in Python: `n` dots, none when `n` is not positive. */
  function Dots(n: int): (d: string)
    ensures |d| == if n < 0 then 0 else n
    ensures forall i :: 0 <= i < |d| ==> d[i] == '.'
  {
    if n <= 0 then "" else seq(n, _ => '.')
  }

  /** The progress line: `end_msg` and `result_msg` joined by dots up to a
      width of 80 characters; a longer pair is joined without dots. */
  function PadLine(endMsg: string, resultMsg: string): (line: string)
    ensures |line| == if |endMsg| + |resultMsg| < 80 then 80 else |endMsg| + |resultMsg|
    ensures line[..|endMsg|] == endMsg
    ensures line[|line| - |resultMsg|..] == resultMsg
    ensures forall i :: |endMsg| <= i < |line| - |resultMsg| ==> line[i] == '.'
  {
    endMsg + Dots(80 - |endMsg| - |resultMsg|) + resultMsg
  }

  /** `ndarray.resize(n)` on a growing buffer: the old entries, then `fill`. */
  method Resized<T>(a: array<T>, n: nat, fill: T) returns (b: array<T>)
    requires a.Length <= n
    ensures fresh(b) && b.Length == n
    ensures b[..a.Length] == a[..]
    ensures forall i :: a.Length <= i < n ==> b[i] == fill
  {
    b := new T[n](i requires 0 <= i < n reads a => if i < a.Length then a[i] else fill);
  }

  /** `np.hstack((m, np.zeros(m.shape)))`: the old columns, then as many columns of zeros. */
  method Hstack(m: array2<real>) returns (r: array2<real>)
    ensures fresh(r) && r.Length0 == m.Length0 && r.Length1 == 2 * m.Length1
    ensures forall f, i :: 0 <= f < m.Length0 && 0 <= i < m.Length1 ==> r[f, i] == m[f, i]
    ensures forall f, i :: 0 <= f < m.Length0 && m.Length1 <= i < 2 * m.Length1 ==> r[f, i] == 0.0
  {
    r := new real[m.Length0, 2 * m.Length1]((f, i) requires 0 <= f < m.Length0 && 0 <= i < 2 * m.Length1 reads m =>
                                               if i < m.Length1 then m[f, i] else 0.0);
  }

  /** `rows` is what a report of `cv` folds returned: the table of exactly
      these rows, and as best the row `argsort()[-1]` selects. */
  predicate Reports(rows: seq<Row>, cv: nat, r: Result<Table>, bestScore: Option<real>, bestParams: Option<Params>) {
    && HasFolds(rows, cv)
    && |rows| > 0
    && var k := BestIndex(MeanScores(rows));
    && r == Ok(Columns(rows, cv))
    && bestScore == Some(rows[k].scores.meanTestScore)
    && bestParams == Some(rows[k].params)
  }

  /** Six distinct scalar buffers. */
  predicate Distinct(a1: array<real>, a2: array<real>, a3: array<real>, a4: array<real>, a5: array<real>, a6: array<real>) {
    && a1 != a2 && a1 != a3 && a1 != a4 && a1 != a5 && a1 != a6
    && a2 != a3 && a2 != a4 && a2 != a5 && a2 != a6
    && a3 != a4 && a3 != a5 && a3 != a6
    && a4 != a5 && a4 != a6 && a5 != a6
  }

  /** The first `k` slots of the buffer `a` hold `field` of each of `rows`. */
  ghost predicate HoldsSeries(a: array<real>, field: Field, k: nat, rows: seq<Row>)
    reads a
  {
    |rows| == k && k <= a.Length && forall i :: 0 <= i < k ==> a[i] == Get(rows[i].scores, field)
  }

  /** The first `k` slots of the buffer `p` hold the parameter setting of each of `rows`. */
  ghost predicate HoldsParams(p: array<Params>, k: nat, rows: seq<Row>)
    reads p
  {
    |rows| == k && k <= p.Length && forall i :: 0 <= i < k ==> p[i] == rows[i].params
  }

  /** The first `k` columns of `m` hold the fold scores of each of `rows`, one row of `m` per fold. */
  ghost predicate HoldsScores(m: array2<real>, k: nat, rows: seq<Row>)
    reads m
  {
    && |rows| == k && k <= m.Length1 && HasFolds(rows, m.Length0)
    && forall f, i :: 0 <= f < m.Length0 && 0 <= i < k ==> m[f, i] == rows[i].scores.testScores[f]
  }

  /** A buffer holding `rows` cut to its first `n` entries is the series of the first `n` rows. */
  lemma SeriesPrefix(a: array<real>, field: Field, k: nat, rows: seq<Row>, n: nat)
    requires HoldsSeries(a, field, k, rows) && n <= k
    ensures a[..n] == Series(rows[..n], field)
  {
  }

  /** The parameter buffer cut to its first `n` entries holds the settings of the first `n` rows. */
  lemma ParamsPrefix(p: array<Params>, k: nat, rows: seq<Row>, n: nat)
    requires HoldsParams(p, k, rows) && n <= k
    ensures p[..n] == ParamsOf(rows[..n])
  {
  }

  /** `np.put(a, k, x)` of one scalar of `row`. */
  method PutSeries(a: array<real>, field: Field, k: nat, ghost rows: seq<Row>, row: Row)
    requires HoldsSeries(a, field, k, rows) && k < a.Length
    modifies a
    ensures HoldsSeries(a, field, k + 1, rows + [row])
  {
    a[k] := Get(row.scores, field);
  }

  /** `np.put(params, k, p)`. */
  method PutParams(p: array<Params>, k: nat, ghost rows: seq<Row>, row: Row)
    requires HoldsParams(p, k, rows) && k < p.Length
    modifies p
    ensures HoldsParams(p, k + 1, rows + [row])
  {
    p[k] := row.params;
  }

  /** `test_scores[:, k] = scores`: column `k` gets one score per fold. */
  method PutScores(m: array2<real>, k: nat, ghost rows: seq<Row>, row: Row)
    requires HoldsScores(m, k, rows) && k < m.Length1 && |row.scores.testScores| == m.Length0
    modifies m
    ensures HoldsScores(m, k + 1, rows + [row])
  {
    forall f | 0 <= f < m.Length0 {
      m[f, k] := row.scores.testScores[f];
    }
    assert (rows + [row])[k] == row;
  }

  /** The four timing writes of `_Report.update` at index `k`. */
  method PutTimes(a1: array<real>, a2: array<real>, a3: array<real>, a4: array<real>,
                  k: nat, ghost rows: seq<Row>, row: Row)
    requires a1 != a2 && a1 != a3 && a1 != a4 && a2 != a3 && a2 != a4 && a3 != a4
    requires HoldsSeries(a1, MeanFitTime, k, rows) && HoldsSeries(a2, StdFitTime, k, rows)
    requires HoldsSeries(a3, MeanScoreTime, k, rows) && HoldsSeries(a4, StdScoreTime, k, rows)
    requires k < a1.Length && k < a2.Length && k < a3.Length && k < a4.Length
    modifies a1, a2, a3, a4
    ensures HoldsSeries(a1, MeanFitTime, k + 1, rows + [row]) && HoldsSeries(a2, StdFitTime, k + 1, rows + [row])
    ensures HoldsSeries(a3, MeanScoreTime, k + 1, rows + [row]) && HoldsSeries(a4, StdScoreTime, k + 1, rows + [row])
  {
    PutSeries(a1, MeanFitTime, k, rows, row);
    PutSeries(a2, StdFitTime, k, rows, row);
    PutSeries(a3, MeanScoreTime, k, rows, row);
    PutSeries(a4, StdScoreTime, k, rows, row);
  }

  /** The writes of `_Report.update` at index `k` that record the setting and its scores. */
  method PutResults(p: array<Params>, m: array2<real>, a5: array<real>, a6: array<real>,
                    k: nat, ghost rows: seq<Row>, row: Row)
    requires a5 != a6
    requires HoldsParams(p, k, rows) && HoldsScores(m, k, rows)
    requires HoldsSeries(a5, MeanTestScore, k, rows) && HoldsSeries(a6, StdTestScore, k, rows)
    requires k < p.Length && k < m.Length1 && k < a5.Length && k < a6.Length
    requires |row.scores.testScores| == m.Length0
    modifies p, m, a5, a6
    ensures HoldsParams(p, k + 1, rows + [row]) && HoldsScores(m, k + 1, rows + [row])
    ensures HoldsSeries(a5, MeanTestScore, k + 1, rows + [row]) && HoldsSeries(a6, StdTestScore, k + 1, rows + [row])
  {
    PutParams(p, k, rows, row);
    PutSeries(a5, MeanTestScore, k, rows, row);
    PutSeries(a6, StdTestScore, k, rows, row);
    PutScores(m, k, rows, row);
  }

  /** `a.resize(n)` on a buffer that holds `rows`: it holds them still. */
  method GrownSeries(a: array<real>, field: Field, ghost k: nat, ghost rows: seq<Row>, n: nat) returns (b: array<real>)
    requires HoldsSeries(a, field, k, rows) && a.Length <= n
    ensures fresh(b) && b.Length == n
    ensures HoldsSeries(b, field, k, rows)
  {
    b := Resized(a, n, 0.0);
  }

  /** `params.resize(n)`: the new slots hold `0`, modelled as the empty setting. */
  method GrownParams(p: array<Params>, ghost k: nat, ghost rows: seq<Row>, n: nat) returns (q: array<Params>)
    requires HoldsParams(p, k, rows) && p.Length <= n
    ensures fresh(q) && q.Length == n
    ensures HoldsParams(q, k, rows)
  {
    q := Resized(p, n, map[]);
  }

  /** The `np.hstack` step on a score matrix that holds `rows`: it holds them still. */
  method GrownScores(m: array2<real>, ghost k: nat, ghost rows: seq<Row>) returns (r: array2<real>)
    requires HoldsScores(m, k, rows)
    ensures fresh(r) && r.Length0 == m.Length0 && r.Length1 == 2 * m.Length1
    ensures HoldsScores(r, k, rows)
  {
    r := Hstack(m);
  }

  /** The eight buffers of `_Report` resized to twice their capacity, keeping
      the rows they hold. */
  method Doubled(a1: array<real>, a2: array<real>, a3: array<real>, a4: array<real>, p: array<Params>,
                 m: array2<real>, a5: array<real>, a6: array<real>, ghost k: nat, ghost rows: seq<Row>)
    returns (b1: array<real>, b2: array<real>, b3: array<real>, b4: array<real>, q: array<Params>,
             r: array2<real>, b5: array<real>, b6: array<real>)
    requires a2.Length == a3.Length == a4.Length == p.Length == a5.Length == a6.Length == m.Length1 == a1.Length
    requires HoldsSeries(a1, MeanFitTime, k, rows) && HoldsSeries(a2, StdFitTime, k, rows)
    requires HoldsSeries(a3, MeanScoreTime, k, rows) && HoldsSeries(a4, StdScoreTime, k, rows)
    requires HoldsParams(p, k, rows) && HoldsScores(m, k, rows)
    requires HoldsSeries(a5, MeanTestScore, k, rows) && HoldsSeries(a6, StdTestScore, k, rows)
    ensures fresh(b1) && fresh(b2) && fresh(b3) && fresh(b4) && fresh(q) && fresh(r) && fresh(b5) && fresh(b6)
    ensures Distinct(b1, b2, b3, b4, b5, b6)
    ensures b1.Length == b2.Length == b3.Length == b4.Length == q.Length == b5.Length == b6.Length == r.Length1 == 2 * a1.Length
    ensures r.Length0 == m.Length0
    ensures HoldsSeries(b1, MeanFitTime, k, rows) && HoldsSeries(b2, StdFitTime, k, rows)
    ensures HoldsSeries(b3, MeanScoreTime, k, rows) && HoldsSeries(b4, StdScoreTime, k, rows)
    ensures HoldsParams(q, k, rows) && HoldsScores(r, k, rows)
    ensures HoldsSeries(b5, MeanTestScore, k, rows) && HoldsSeries(b6, StdTestScore, k, rows)
  {
    var n := 2 * a1.Length;
    b1 := GrownSeries(a1, MeanFitTime, k, rows, n);
    b2 := GrownSeries(a2, StdFitTime, k, rows, n);
    b3 := GrownSeries(a3, MeanScoreTime, k, rows, n);
    b4 := GrownSeries(a4, StdScoreTime, k, rows, n);
    q := GrownParams(p, k, rows, n);
    r := GrownScores(m, k, rows);
    b5 := GrownSeries(a5, MeanTestScore, k, rows, n);
    b6 := GrownSeries(a6, StdTestScore, k, rows, n);
  }

  /** The buffers of a new `_Report`: `np.zeros(s)` for each scalar and for
      the parameter settings, `np.zeros((cv, s))` for the fold scores. */
  method Zeros(cv: nat, s: nat)
    returns (b1: array<real>, b2: array<real>, b3: array<real>, b4: array<real>, q: array<Params>,
             r: array2<real>, b5: array<real>, b6: array<real>)
    ensures fresh(b1) && fresh(b2) && fresh(b3) && fresh(b4) && fresh(q) && fresh(r) && fresh(b5) && fresh(b6)
    ensures Distinct(b1, b2, b3, b4, b5, b6)
    ensures b1.Length == b2.Length == b3.Length == b4.Length == q.Length == b5.Length == b6.Length == r.Length1 == s
    ensures r.Length0 == cv
  {
    b1 := new real[s](_ => 0.0);
    b2 := new real[s](_ => 0.0);
    b3 := new real[s](_ => 0.0);
    b4 := new real[s](_ => 0.0);
    q := new Params[s](_ => map[]);
    r := new real[cv, s]((_, _) => 0.0);
    b5 := new real[s](_ => 0.0);
    b6 := new real[s](_ => 0.0);
  }

  class Report {
    /** Number of recorded iterations; the next row is written at this index. */
    var iter: nat
    /** Total time of the recorded cross-validation runs. */
    var t: real
    /** Capacity of every buffer. */
    var s: nat
    const verbose: int
    /** Number of cross-validation folds. */
    const cv: nat
    var bestScore: Option<real>
    var bestParams: Option<Params>

    var meanFitTime: array<real>
    var stdFitTime: array<real>
    var meanScoreTime: array<real>
    var stdScoreTime: array<real>
    var params: array<Params>
    /** One row per fold, one column per iteration. */
    var testScores: array2<real>
    var meanTestScore: array<real>
    var stdTestScore: array<real>

    /** The rows recorded so far. */
    ghost var Rows: seq<Row>
    ghost var Repr: set<object>

    /** Every buffer is its own array, of capacity `s`. */
    ghost predicate Allocated()
      reads this`Repr, this`s, this`meanFitTime, this`stdFitTime, this`meanScoreTime,
              this`stdScoreTime, this`params, this`testScores, this`meanTestScore, this`stdTestScore
    {
      && Repr == {meanFitTime, stdFitTime, meanScoreTime, stdScoreTime,
                  params, testScores, meanTestScore, stdTestScore}
      && meanFitTime.Length == s && stdFitTime.Length == s
      && meanScoreTime.Length == s && stdScoreTime.Length == s
      && params.Length == s && meanTestScore.Length == s && stdTestScore.Length == s
      && testScores.Length0 == cv && testScores.Length1 == s
      && Distinct(meanFitTime, stdFitTime, meanScoreTime, stdScoreTime, meanTestScore, stdTestScore)
    }

    /** The buffers hold `Rows` in their first `iter` slots. */
    ghost predicate Stored()
      reads this`Repr, this`iter, this`s, this`Rows, this`meanFitTime, this`stdFitTime, this`meanScoreTime,
              this`stdScoreTime, this`params, this`testScores, this`meanTestScore, this`stdTestScore, Repr
    {
      && Allocated()
      && iter < s
      && HoldsSeries(meanFitTime, MeanFitTime, iter, Rows)
      && HoldsSeries(stdFitTime, StdFitTime, iter, Rows)
      && HoldsSeries(meanScoreTime, MeanScoreTime, iter, Rows)
      && HoldsSeries(stdScoreTime, StdScoreTime, iter, Rows)
      && HoldsParams(params, iter, Rows)
      && HoldsScores(testScores, iter, Rows)
      && HoldsSeries(meanTestScore, MeanTestScore, iter, Rows)
      && HoldsSeries(stdTestScore, StdTestScore, iter, Rows)
    }

    /** The object invariant: the buffers hold the rows and at least two slots are free. */
    ghost predicate Valid()
      reads this`Repr, this`iter, this`s, this`Rows, this`meanFitTime, this`stdFitTime, this`meanScoreTime,
              this`stdScoreTime, this`params, this`testScores, this`meanTestScore, this`stdTestScore, Repr
    {
      Stored() && iter < s - 1
    }

    /** `_Report(cv, s=100, verbose=0)`: empty buffers of capacity `s`. */
    constructor (cv: nat, s: nat := 100, verbose: int := 0)
      requires 2 <= s
      ensures Valid() && fresh(Repr)
      ensures Rows == [] && iter == 0 && t == 0.0 && this.s == s
      ensures this.cv == cv && this.verbose == verbose
      ensures bestScore == None && bestParams == None
    {
      iter, t, this.s, this.verbose := 0, 0.0, s, verbose;
      bestScore, bestParams := None, None;
      this.cv := cv;
      var mft, sft, mst, sst, ps, ts, mts, sts := Zeros(cv, s);
      meanFitTime, stdFitTime, meanScoreTime, stdScoreTime := mft, sft, mst, sst;
      params, testScores, meanTestScore, stdTestScore := ps, ts, mts, sts;
      Rows := [];
      Repr := {meanFitTime, stdFitTime, meanScoreTime, stdScoreTime,
               params, testScores, meanTestScore, stdTestScore};
    }

    /** `update`: write the row at index `iter`, advance `iter`, add the run's
        time, and double every buffer once only one free slot is left. */
    method Update(p: Params, scores: FoldScores, execTime: real)
      requires Valid()
      requires |scores.testScores| == cv
      modifies this, Repr
      ensures Valid() && fresh(Repr - old(Repr))
      ensures Rows == old(Rows) + [Row(p, scores)]
      ensures iter == old(iter) + 1 && t == old(t) + execTime
      ensures s == if old(iter) + 1 == old(s) - 1 then 2 * old(s) else old(s)
      ensures forall i :: 0 <= i < old(iter) ==>
                && meanFitTime[i] == old(meanFitTime[i]) && stdFitTime[i] == old(stdFitTime[i])
                && meanScoreTime[i] == old(meanScoreTime[i]) && stdScoreTime[i] == old(stdScoreTime[i])
                && params[i] == old(params[i])
                && meanTestScore[i] == old(meanTestScore[i]) && stdTestScore[i] == old(stdTestScore[i])
      ensures forall f, i :: 0 <= f < cv && 0 <= i < old(iter) ==> testScores[f, i] == old(testScores[f, i])
      ensures bestScore == old(bestScore) && bestParams == old(bestParams)
    {
      Record(p, scores);
      t := t + execTime;
      if iter == s - 1 {
        Grow();
      }
    }

    /** The writes of `update`: every buffer gets the row at index `iter`. */
    method Record(p: Params, scores: FoldScores)
      requires Valid()
      requires |scores.testScores| == cv
      modifies this, Repr
      ensures Stored() && Repr == old(Repr)
      ensures Rows == old(Rows) + [Row(p, scores)]
      ensures iter == old(iter) + 1 && s == old(s) && t == old(t)
      ensures bestScore == old(bestScore) && bestParams == old(bestParams)
    {
      var row := Row(p, scores);
      PutTimes(meanFitTime, stdFitTime, meanScoreTime, stdScoreTime, iter, Rows, row);
      PutResults(params, testScores, meanTestScore, stdTestScore, iter, Rows, row);
      Rows := Rows + [row];
      iter := iter + 1;
    }

    /** The doubling step of `update`: every buffer gets twice the capacity and
        keeps its first entries. */
    method Grow()
      requires Stored() && iter == s - 1
      modifies this`meanFitTime, this`stdFitTime, this`meanScoreTime, this`stdScoreTime,
               this`params, this`testScores, this`meanTestScore, this`stdTestScore, this`Repr, this`s
      ensures Valid() && fresh(Repr)
      ensures s == 2 * old(s)
      ensures Rows == old(Rows) && iter == old(iter) && t == old(t)
      ensures bestScore == old(bestScore) && bestParams == old(bestParams)
    {
      var n := 2 * s;
      var mft, sft, mst, sst, ps, ts, mts, sts :=
        Doubled(meanFitTime, stdFitTime, meanScoreTime, stdScoreTime, params, testScores,
                meanTestScore, stdTestScore, iter, Rows);
      Install(mft, sft, mst, sst, ps, mts, sts, ts, n);
    }

    /** Rebinds every buffer, at capacity `n`. */
    method Install(mft: array<real>, sft: array<real>, mst: array<real>, sst: array<real>,
                   ps: array<Params>, mts: array<real>, sts: array<real>, ts: array2<real>, n: nat)
      modifies this`meanFitTime, this`stdFitTime, this`meanScoreTime, this`stdScoreTime,
               this`params, this`testScores, this`meanTestScore, this`stdTestScore, this`Repr, this`s
      ensures meanFitTime == mft && stdFitTime == sft && meanScoreTime == mst && stdScoreTime == sst
      ensures params == ps && meanTestScore == mts && stdTestScore == sts && testScores == ts
      ensures Repr == {mft, sft, mst, sst, ps, ts, mts, sts} && s == n
    {
      meanFitTime, stdFitTime, meanScoreTime, stdScoreTime := mft, sft, mst, sst;
      params, meanTestScore, stdTestScore, testScores := ps, mts, sts, ts;
      Repr := {mft, sft, mst, sst, ps, ts, mts, sts};
      s := n;
    }

    /** The seven fixed columns of the first `n` rows: each buffer cut to `n`
        entries (`np.resize(buffer, n)`). */
    method FixedResults(n: nat) returns (cols: Table)
      requires Stored() && n <= iter
      ensures cols == FixedColumns(Rows[..n])
      ensures meanTestScore[..n] == MeanScores(Rows[..n]) && params[..n] == ParamsOf(Rows[..n])
    {
      SeriesPrefix(meanFitTime, MeanFitTime, iter, Rows, n);
      SeriesPrefix(stdFitTime, StdFitTime, iter, Rows, n);
      SeriesPrefix(meanScoreTime, MeanScoreTime, iter, Rows, n);
      SeriesPrefix(stdScoreTime, StdScoreTime, iter, Rows, n);
      ParamsPrefix(params, iter, Rows, n);
      SeriesPrefix(meanTestScore, MeanTestScore, iter, Rows, n);
      SeriesPrefix(stdTestScore, StdTestScore, iter, Rows, n);
      cols := map[
        Stat(MeanFitTime) := Reals(meanFitTime[..n]),
        Stat(StdFitTime) := Reals(stdFitTime[..n]),
        Stat(MeanScoreTime) := Reals(meanScoreTime[..n]),
        Stat(StdScoreTime) := Reals(stdScoreTime[..n]),
        ParamsKey := ParamList(params[..n]),
        Stat(MeanTestScore) := Reals(meanTestScore[..n]),
        Stat(StdTestScore) := Reals(stdTestScore[..n])
      ];
    }

    /** `cv_results_` of the first `n` rows: the fixed columns, then one
        `split{f}_test_score` column per fold. */
    method Results(n: nat) returns (cols: Table)
      requires Stored() && n <= iter
      ensures HasFolds(Rows[..n], cv) && cols == Columns(Rows[..n], cv)
      ensures meanTestScore[..n] == MeanScores(Rows[..n]) && params[..n] == ParamsOf(Rows[..n])
    {
      ghost var rows := Rows[..n];
      cols := FixedResults(n);
      var ts := testScores;
      for f := 0 to cv
        invariant cols == SplitColumns(rows, cv, f)
      {
        var column := seq(n, i requires 0 <= i < n reads ts => ts[f, i]);
        assert column == FoldColumn(rows, cv, f);
        cols := cols[Split(f) := Reals(column)];
      }
    }

    /** The table of the first `n` rows and its best row's score and setting;
        on an empty table the selection of the best row fails
        (`argsort()[-1]` on nothing). */
    method Finish(n: nat) returns (r: Result<Table>, score: real, setting: Params)
      requires Stored() && n <= iter
      ensures n == 0 <==> r.Err?
      ensures n == 0 ==> r.error.IndexError?
      ensures n > 0 ==> Reports(Rows[..n], cv, r, Some(score), Some(setting))
    {
      var cols := Results(n);
      if n == 0 {
        return Err(IndexError("index -1 is out of bounds for axis 0 with size 0")), 0.0, map[];
      }
      ghost var rows := Rows[..n];
      var scores := meanTestScore[..n];
      var k := BestIndex(scores);
      assert scores[k] == rows[k].scores.meanTestScore;
      assert params[k] == rows[k].params;
      r, score, setting := Ok(cols), scores[k], params[k];
    }

    /** The end of `report` on the first `n` rows: the table, and the best
        row's score and setting stored in the object; on an empty table
        nothing is stored. */
    method Publish(n: nat) returns (r: Result<Table>)
      requires Valid() && n <= iter
      modifies this`bestScore, this`bestParams
      ensures Valid()
      ensures n == 0 ==> r.Err? && r.error.IndexError?
      ensures n == 0 ==> bestScore == old(bestScore) && bestParams == old(bestParams)
      ensures n > 0 ==> Reports(Rows[..n], cv, r, bestScore, bestParams)
    {
      var score, setting;
      r, score, setting := Finish(n);
      if r.Ok? {
        SetBest(score, setting);
      }
    }

    /** `self.best_score_ = ...; self.best_params_ = ...`. */
    method SetBest(score: real, setting: Params)
      requires Valid()
      modifies this`bestScore, this`bestParams
      ensures Valid()
      ensures bestScore == Some(score) && bestParams == Some(setting)
    {
      bestParams, bestScore := Some(setting), Some(score);
    }

    /** `report` as written: the table keeps `iter - 1` rows, so the last
        recorded iteration is dropped; with nothing recorded, resizing to
        `-1` raises. */
    method ReportAsWritten() returns (r: Result<Table>)
      requires Valid()
      modifies this`bestScore, this`bestParams
      ensures Valid()
      ensures iter == 0 ==> r.Err? && r.error.ValueError?
      ensures iter == 1 ==> r.Err? && r.error.IndexError?
      ensures iter <= 1 ==> bestScore == old(bestScore) && bestParams == old(bestParams)
      ensures iter >= 2 ==> Reports(Rows[..iter - 1], cv, r, bestScore, bestParams)
    {
      if iter == 0 {
        return Err(ValueError("all elements of `new_shape` must be non-negative"));
      }
      r := Publish(iter - 1);
    }

    /** `report` keeping every recorded iteration: the table has one row per
        call of `update`, and the best row is a row with the largest mean test
        score among all of them. */
    method ReportCompleted() returns (r: Result<Table>)
      requires Valid()
      modifies this`bestScore, this`bestParams
      ensures Valid()
      ensures iter == 0 ==> r.Err? && bestScore == old(bestScore) && bestParams == old(bestParams)
      ensures iter >= 1 ==> Reports(Rows, cv, r, bestScore, bestParams)
    {
      assert Rows[..iter] == Rows;
      r := Publish(iter);
    }
  }

  /** Trimming to `iter - 1` rows loses the last recorded iteration, and that
      row can be the best one: with mean scores [0.7, 0.85, 0.9] the trimmed
      table selects 0.85. */
  lemma {:induction false} DroppedRowCanBeBest(p: Params, fs: FoldScores)
    ensures var rows := [Row(p, fs.(meanTestScore := 0.7)), Row(p, fs.(meanTestScore := 0.85)),
                         Row(p, fs.(meanTestScore := 0.9))];
            && MeanScores(rows[..2])[BestIndex(MeanScores(rows[..2]))] == 0.85
            && MeanScores(rows)[BestIndex(MeanScores(rows))] == 0.9
  {
    var rows := [Row(p, fs.(meanTestScore := 0.7)), Row(p, fs.(meanTestScore := 0.85)),
                 Row(p, fs.(meanTestScore := 0.9))];
    var all, kept := MeanScores(rows), MeanScores(rows[..2]);
    assert all == [0.7, 0.85, 0.9];
    assert kept == [0.7, 0.85];
    assert kept[BestIndex(kept)] >= kept[1];
    assert all[BestIndex(all)] >= all[2];
  }
}
