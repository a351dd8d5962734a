/** The checks `BayesianSearchCV.__init__` runs on its arguments, in order:
    the scoring, the iteration budget for `len(param_grid)` parameters, and
    the translation of the grid with `n_iter - init_trials` samples drawn
    from each distribution. */
module SearchCV {
  import opened Values
  import opened Settings
  import opened Domain

  /** What construction keeps: the scorer and direction, the budget and the
      optimiser's domain with its categorical index table. */
  datatype Setup = Setup(scoring: Scoring, budget: Budget, domain: Translation)

  /** The configuration part of `__init__`, or the first exception it raises.
      The scoring is read with the mapping form honoured. */
  function Configure(scoring: Value, nIter: Option<int>, initTrials: Option<int>, grid: Grid, draw: Sampler)
    : (r: Result<Setup>)
    ensures GetScoring(scoring).Err? ==> r == Err(GetScoring(scoring).error)
    ensures grid == GridOther(None) && GetScoring(scoring).Ok? ==> r.Err? && r.error.TypeError?
    ensures r.Ok? ==> GetScoring(scoring) == Ok(r.value.scoring)
    ensures r.Ok? ==> Translate(grid, r.value.budget.nIter - r.value.budget.initTrials, draw) == Ok(r.value.domain)
  {
    var sc :- GetScoring(scoring);
    var count :- GridLen(grid);
    var budget :- CheckTrials(nIter, initTrials, count);
    var domain :- Translate(grid, budget.nIter - budget.initTrials, draw);
    Ok(Setup(sc, budget, domain))
  }

  /** A configured search has at least one initial trial per bound of its
      domain and at least one optimisation step after them, and its budget is
      the one `_check_trials` gives for that many parameters. */
  lemma {:induction false} ConfiguredBudget(scoring: Value, nIter: Option<int>, initTrials: Option<int>,
                                            grid: Grid, draw: Sampler)
    requires Configure(scoring, nIter, initTrials, grid, draw).Ok?
    ensures var c := Configure(scoring, nIter, initTrials, grid, draw).value;
            && CheckTrials(nIter, initTrials, |c.domain.bounds|) == Ok(c.budget)
            && |c.domain.bounds| <= c.budget.initTrials < c.budget.nIter
  {
    var c := Configure(scoring, nIter, initTrials, grid, draw).value;
    GridLenCountsBounds(grid, c.budget.nIter - c.budget.initTrials, draw);
  }

  /** A grid that is neither a mapping nor a list but has a length passes the
      budget check and is rejected by `_check_bounds`. */
  lemma OtherGridRejected(scoring: Value, nIter: Option<int>, initTrials: Option<int>, size: nat, draw: Sampler)
    requires GetScoring(scoring).Ok? && CheckTrials(nIter, initTrials, size).Ok?
    ensures Configure(scoring, nIter, initTrials, GridOther(Some(size)), draw) == Err(TypeError(BadGrid))
  {
  }
}
