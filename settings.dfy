/** The configuration checks of the Bayesian search: the iteration budget
    (`_check_trials`) and the optimisation direction (`_get_scoring`). */
module Settings {
  import opened Values

  const TrialsAboveTotal := "Total number of iterations should be higher than the number of initial trials"
  const TrialsBelowParams := "Number of initial trials should be at leastequal to the number of search params"
  const InvalidScoring := "Invalid scoring"

  /** Python's `not x` for an integer argument that may be None. */
  predicate Falsy(o: Option<int>) {
    o.None? || o.value == 0
  }

  /** The argument, or `default` when the argument is falsy. */
  function OrDefault(o: Option<int>, default: int): int {
    if Falsy(o) then default else o.value
  }

  /** The resolved budget: total iterations and initial (random) trials. */
  datatype Budget = Budget(nIter: int, initTrials: int)

  /** `_check_trials`: fill in the defaults (`n_params` initial trials,
      `5 * n_params` iterations), then reject a budget whose initial trials
      reach the total or fall short of the number of search parameters. */
  function CheckTrials(nIter: Option<int>, initTrials: Option<int>, nParams: nat): (r: Result<Budget>)
    ensures r.Ok? <==> nParams <= OrDefault(initTrials, nParams) < OrDefault(nIter, 5 * nParams)
    ensures r.Ok? ==> r.value == Budget(OrDefault(nIter, 5 * nParams), OrDefault(initTrials, nParams))
    ensures r.Ok? ==> nParams <= r.value.initTrials < r.value.nIter
    ensures r.Err? && OrDefault(initTrials, nParams) >= OrDefault(nIter, 5 * nParams) ==>
              r.error == ValueError(TrialsAboveTotal)
    ensures r.Err? && OrDefault(initTrials, nParams) < OrDefault(nIter, 5 * nParams) ==>
              r.error == ValueError(TrialsBelowParams)
  {
    var init := if Falsy(initTrials) then nParams else initTrials.value;
    var total := if Falsy(nIter) then 5 * nParams else nIter.value;
    if init >= total then Err(ValueError(TrialsAboveTotal))
    else if init < nParams then Err(ValueError(TrialsBelowParams))
    else Ok(Budget(total, init))
  }

  /** With both arguments left out, a non-empty grid is always accepted. */
  lemma DefaultBudgetAccepted(nParams: nat)
    requires 1 <= nParams
    ensures CheckTrials(None, None, nParams) == Ok(Budget(5 * nParams, nParams))
  {
  }

  /** An empty grid is rejected even with the defaults: 0 initial trials reach 0 iterations. */
  lemma EmptyGridRejected()
    ensures CheckTrials(None, None, 0) == Err(ValueError(TrialsAboveTotal))
  {
  }

  /** The scorer handed to cross-validation and the direction handed to the optimiser. */
  datatype Scoring = Scoring(scorer: Value, maximize: Value)

  /** A metric name that names something to minimise. */
  predicate NamesLoss(name: string) {
    EndsWith(name, "loss") || EndsWith(name, "error")
  }

  /** Python's `v[key]` for a string key. */
  function Subscript(v: Value, key: string): (r: Result<Value>)
    ensures r.Ok? <==> v.Dict? && key in v.entries
    ensures r.Ok? ==> r.value == v.entries[key]
  {
    match v
    case Dict(m) => if key in m then Ok(m[key]) else Err(KeyError(key))
    case Str(_) => Err(TypeError("string indices must be integers"))
    case List(_) => Err(TypeError("list indices must be integers or slices, not str"))
    case Array(_) => Err(TypeError("only integers, slices, arrays are valid indices"))
    case _ => Err(TypeError("object is not subscriptable"))
  }

  /** `_get_scoring` as written: in the mapping branch, `maximize` is read from
      the value already extracted under 'scoring' rather than from the mapping. */
  function GetScoringAsWritten(scoring: Value): (r: Result<Scoring>)
    ensures scoring.Str? ==> r.Ok? && r.value.scorer == scoring
    ensures scoring.Str? ==> (r.value.maximize == Bool(false) <==> NamesLoss(scoring.s))
    ensures scoring.Str? ==> (r.value.maximize == Bool(true) <==> !NamesLoss(scoring.s))
    ensures scoring.Dict? ==>
              (r.Ok? <==> "scoring" in scoring.entries && scoring.entries["scoring"].Dict?
                          && "maximize" in scoring.entries["scoring"].entries)
    ensures scoring.Dict? && r.Ok? ==>
              r.value.scorer == scoring.entries["scoring"]
              && r.value.maximize == r.value.scorer.entries["maximize"]
    ensures scoring.Dict? && "scoring" !in scoring.entries ==> r == Err(KeyError("scoring"))
    ensures !scoring.Str? && !scoring.Dict? ==> r == Err(ValueError(InvalidScoring))
  {
    match scoring
    case Str(name) => Ok(Scoring(scoring, Bool(!NamesLoss(name))))
    case Dict(m) =>
      var scorer :- Subscript(scoring, "scoring");
      var maximize :- Subscript(scorer, "maximize");
      Ok(Scoring(scorer, maximize))
    case _ => Err(ValueError(InvalidScoring))
  }

  /** A mapping `{'scoring': f, 'maximize': m}` with a callable `f` — the form the
      class documents — is rejected by the code as written. */
  lemma ScoringMappingRejectedAsWritten(f: nat, m: bool)
    ensures GetScoringAsWritten(Dict(map["scoring" := Obj(f), "maximize" := Bool(m)])).Err?
  {
  }

  /** `_get_scoring` as the class documents it: a string scoring is maximised
      unless its name ends in "loss" or "error"; a mapping supplies the scorer
      and the direction under 'scoring' and 'maximize'; anything else is rejected. */
  function GetScoring(scoring: Value): (r: Result<Scoring>)
    ensures scoring.Str? ==> r.Ok? && r.value.scorer == scoring
    ensures scoring.Str? ==> (r.value.maximize == Bool(false) <==> NamesLoss(scoring.s))
    ensures scoring.Str? ==> (r.value.maximize == Bool(true) <==> !NamesLoss(scoring.s))
    ensures scoring.Dict? ==>
              (r.Ok? <==> "scoring" in scoring.entries && "maximize" in scoring.entries)
    ensures scoring.Dict? && r.Ok? ==>
              r.value == Scoring(scoring.entries["scoring"], scoring.entries["maximize"])
    ensures !scoring.Str? && !scoring.Dict? ==> r == Err(ValueError(InvalidScoring))
  {
    match scoring
    case Str(name) => Ok(Scoring(scoring, Bool(!NamesLoss(name))))
    case Dict(m) =>
      var scorer :- Subscript(scoring, "scoring");
      var maximize :- Subscript(scoring, "maximize");
      Ok(Scoring(scorer, maximize))
    case _ => Err(ValueError(InvalidScoring))
  }

  /** The documented mapping form is honoured exactly as given. */
  lemma ScoringMappingHonoured(f: nat, m: bool)
    ensures GetScoring(Dict(map["scoring" := Obj(f), "maximize" := Bool(m)]))
            == Ok(Scoring(Obj(f), Bool(m)))
  {
  }

  /** Any name ending in "loss" or "error" is minimised, whatever precedes the suffix. */
  lemma {:induction false} LossSuffixMinimized(prefix: string)
    ensures GetScoring(Str(prefix + "loss")).value.maximize == Bool(false)
    ensures GetScoring(Str(prefix + "error")).value.maximize == Bool(false)
  {
    var l, e := prefix + "loss", prefix + "error";
    assert l[|l| - 4..] == "loss";
    assert e[|e| - 5..] == "error";
  }

  /** Two metric names used by scikit-learn, one of each direction. */
  lemma ScoringExamples()
    ensures GetScoring(Str("neg_mean_squared_error")).value.maximize == Bool(false)
    ensures GetScoring(Str("roc_auc")).value.maximize == Bool(true)
  {
    var n := "neg_mean_squared_error";
    assert n[|n| - 5..] == "error";
    assert !EndsWith("roc_auc", "loss") && !EndsWith("roc_auc", "error");
  }
}
