/** The dispatch and selection logic of the optimizer base class `SearchBase`:
    choosing the search class, packaging the fitted results, resolving the
    arguments of `top_estimators` and `save`, and the calibration choice at
    the end of `fit`. The estimators, the search itself, pickling and the
    calibrated classifier are outside the model; their results are
    parameters. */
module CoreBase {
  import opened Values

  /** The search classes a mode string selects. */
  datatype SearchClass = BayesianSearchCV | RandomizedSearchCV

  const InvalidSearch := "Invalid search optimization"
  const NoTopCount := "Number of top estimators is not specified"
  const NoPath := "File path is not specified"

  /** `_search(search_mode)`: the class for `'bayesian'` or `'random'`,
      nothing for a falsy mode, and an error for any other mode. */
  function Search(mode: Value): (r: Result<Option<SearchClass>>)
    ensures r == Ok(Some(BayesianSearchCV)) <==> mode == Str("bayesian")
    ensures r == Ok(Some(RandomizedSearchCV)) <==> mode == Str("random")
    ensures r == Ok(None) <==> !Truthy(mode)
    ensures r.Err? <==> Truthy(mode) && mode != Str("bayesian") && mode != Str("random")
    ensures r.Err? ==> r.error == ValueError(InvalidSearch)
  {
    if Truthy(mode) then
      if mode == Str("bayesian") then Ok(Some(BayesianSearchCV))
      else if mode == Str("random") then Ok(Some(RandomizedSearchCV))
      else Err(ValueError(InvalidSearch))
    else Ok(None)
  }

  /** An attribute of the object: one of those `_results_package` looks for,
      or any other (`task`, `scoring`, ...). */
  datatype Attr =
    | CvResults | BestParams | BestScore | BaseEstimator | BestEstimator | TopEstimators | Cc | Cv
    | Other(name: string)

  /** The attribute's name in `__dict__`. */
  function AttrName(a: Attr): string {
    match a
    case CvResults => "cv_results_"
    case BestParams => "best_params_"
    case BestScore => "best_score_"
    case BaseEstimator => "base_estimator_"
    case BestEstimator => "best_estimator_"
    case TopEstimators => "top_estimators_"
    case Cc => "cc_"
    case Cv => "cv_"
    case Other(name) => name
  }

  /** The attributes `_results_package` looks for. */
  const ResultAttrs: set<Attr> :=
    {CvResults, BestParams, BestScore, BaseEstimator, BestEstimator, TopEstimators, Cc, Cv}

  /** `_results_package()` of an object whose attributes are `attrs`: every
      result attribute the object has, with its value. */
  function ResultsPackage(attrs: map<Attr, Value>): (r: map<Attr, Value>)
    ensures r.Keys == ResultAttrs * attrs.Keys
    ensures forall k :: k in r ==> r[k] == attrs[k]
  {
    map k | k in ResultAttrs * attrs.Keys :: attrs[k]
  }

  /** Packaging a package changes nothing. */
  lemma ResultsPackageIdempotent(attrs: map<Attr, Value>)
    ensures ResultsPackage(ResultsPackage(attrs)) == ResultsPackage(attrs)
  {
    var p := ResultsPackage(attrs);
    assert ResultsPackage(p).Keys == p.Keys;
  }

  /** Attributes other than the result attributes never reach the package,
      and changing them leaves the package as it was. */
  lemma ResultsPackageIgnoresOthers(attrs: map<Attr, Value>, k: Attr, v: Value)
    requires k !in ResultAttrs
    ensures ResultsPackage(attrs[k := v]) == ResultsPackage(attrs)
  {
    var a, b := ResultsPackage(attrs[k := v]), ResultsPackage(attrs);
    assert a.Keys == b.Keys;
  }

  /** `'sigmoid'` calibration below 1000 training rows, `'isotonic'` from 1000 on. */
  function CalibrationMethod(nRows: nat): (m: string)
    ensures m == "sigmoid" || m == "isotonic"
    ensures m == "sigmoid" <==> nRows < 1000
  {
    if nRows < 1000 then "sigmoid" else "isotonic"
  }

  /** The arguments `top_estimators` hands to `get_top_estimators`. */
  datatype TopCall = TopCall(count: Value, ranking: Value, package: map<Attr, Value>)

  /** What `save` pickles: the results package, or the object itself. */
  datatype Payload = Package(results: map<Attr, Value>) | Instance

  /** The file `save` opens and what it writes there. */
  datatype SaveCall = SaveCall(path: Value, payload: Payload)

  /** What a search (`BayesianSearchCV` or `RandomizedSearchCV`) leaves after
      its `fit`: the attributes `SearchBase.fit` copies. The best estimator is
      there only when the search refitted it. */
  datatype Lookup = Lookup(cvResults: Value, bestParams: Value, bestScore: Value, bestEstimator: Option<Value>)

  const NoSearchClass := "'NoneType' object is not callable"
  const NoBestEstimator := "object has no attribute 'best_estimator_'"

  /** The end of `BayesianSearchCV.fit`: the table, the best setting and its
      score always, and the best estimator (`refitted`, the estimator fitted
      with the best setting) only under `refit`. */
  function SearchLookup(refit: bool, cvResults: Value, bestParams: Value, bestScore: Value, refitted: Value): (l: Lookup)
    ensures l.bestEstimator.Some? <==> refit
    ensures refit ==> l.bestEstimator.value == refitted
    ensures l.cvResults == cvResults && l.bestParams == bestParams && l.bestScore == bestScore
  {
    Lookup(cvResults, bestParams, bestScore, if refit then Some(refitted) else None)
  }

  /** The attributes every successful `fit` sets. */
  const FitAttrs: set<Attr> :=
    {CvResults, BestParams, BestScore, BestEstimator, BaseEstimator, Cv}

  /** The attributes `fit` copies from the search before it reads the best estimator. */
  const SearchAttrs: set<Attr> := {CvResults, BestParams, BestScore}

  /** The search results `fit` copies first. */
  function SearchEntries(lookup: Lookup): (m: map<Attr, Value>)
    ensures m.Keys == SearchAttrs
    ensures m[CvResults] == lookup.cvResults && m[BestParams] == lookup.bestParams
            && m[BestScore] == lookup.bestScore
  {
    map[CvResults := lookup.cvResults, BestParams := lookup.bestParams, BestScore := lookup.bestScore]
  }

  /** The attributes `fit` copies from the search and the object: the best
      estimator only when the search has one. */
  function FitEntries(lookup: Lookup, baseEstimator: Value, cv: Value): (m: map<Attr, Value>)
    ensures m.Keys == if lookup.bestEstimator.Some? then FitAttrs else FitAttrs - {BestEstimator}
    ensures forall k :: k in SearchAttrs ==> m[k] == SearchEntries(lookup)[k]
    ensures lookup.bestEstimator.Some? ==> m[BestEstimator] == lookup.bestEstimator.value
    ensures m[BaseEstimator] == baseEstimator && m[Cv] == cv
  {
    SearchEntries(lookup)
    + (if lookup.bestEstimator.Some? then map[BestEstimator := lookup.bestEstimator.value] else map[])
    + map[BaseEstimator := baseEstimator, Cv := cv]
  }

  class SearchBase {
    const task: string
    const refit: bool
    const calibrate: bool
    const getTop: Value
    const topMethod: Value
    const searchMode: Value
    const cv: Value
    /** The extra keyword arguments of the search (`**search_params`). */
    var searchParams: map<string, Value>
    /** The attributes set after construction, by name. */
    var attrs: map<Attr, Value>

    /** The argument-storing part of `__init__`: with a top-estimator method
        and the Bayesian search, predictions are requested from the search. */
    constructor (task: string, searchMode: Value, cv: Value, refit: bool, calibrate: bool,
                 getTop: Value, topMethod: Value, searchParams: map<string, Value>)
      ensures this.task == task && this.searchMode == searchMode && this.cv == cv
      ensures this.refit == refit && this.calibrate == calibrate
      ensures this.getTop == getTop && this.topMethod == topMethod
      ensures this.searchParams ==
                if Truthy(topMethod) && searchMode == Str("bayesian")
                then searchParams["return_predictions" := Bool(true)] else searchParams
      ensures attrs == map[]
    {
      this.task, this.searchMode, this.cv := task, searchMode, cv;
      this.refit, this.calibrate := refit, calibrate;
      this.getTop, this.topMethod := getTop, topMethod;
      this.searchParams := searchParams;
      attrs := map[];
      new;
      if Truthy(topMethod) {
        if searchMode == Str("bayesian") {
          this.searchParams := this.searchParams["return_predictions" := Bool(true)];
        }
      }
    }

    /** `top_estimators(get_top, top_method)`: a falsy count falls back to the
        object's `get_top`, and with both falsy the call fails; a falsy method
        falls back to the object's `top_method`. */
    method TopEstimators(count: Value, ranking: Value) returns (r: Result<TopCall>)
      ensures r.Err? <==> !Truthy(count) && !Truthy(getTop)
      ensures r.Err? ==> r.error == ValueError(NoTopCount)
      ensures r.Ok? ==> Truthy(r.value.count)
      ensures r.Ok? ==> r.value.count == if Truthy(count) then count else getTop
      ensures r.Ok? ==> r.value.ranking == if Truthy(ranking) then ranking else topMethod
      ensures r.Ok? ==> r.value.package == ResultsPackage(attrs)
    {
      var n := count;
      if !Truthy(n) {
        n := getTop;
        if !Truthy(n) {
          return Err(ValueError(NoTopCount));
        }
      }
      var m := ranking;
      if !Truthy(m) {
        m := topMethod;
      }
      r := Ok(TopCall(n, m, ResultsPackage(attrs)));
    }

    /** `save(path_to_file, package)`: a falsy path falls back to the
        `write_path` search parameter, and without one the call fails; the
        package is written when asked for and not empty, the object
        otherwise. */
    method Save(path: Value, package: bool) returns (r: Result<SaveCall>)
      ensures r.Err? <==> !Truthy(path) && "write_path" !in searchParams
      ensures r.Err? ==> r.error == ValueError(NoPath)
      ensures r.Ok? ==> r.value.path == if Truthy(path) then path else searchParams["write_path"]
      ensures r.Ok? && package && ResultsPackage(attrs) != map[] ==> r.value.payload == Package(ResultsPackage(attrs))
      ensures r.Ok? && (!package || ResultsPackage(attrs) == map[]) ==> r.value.payload == Instance
    {
      var results: map<Attr, Value> := map[];
      if package {
        results := ResultsPackage(attrs);
      }
      var p := path;
      if !Truthy(p) {
        if "write_path" in searchParams {
          p := searchParams["write_path"];
        } else {
          return Err(ValueError(NoPath));
        }
      }
      r := Ok(SaveCall(p, if results != map[] then Package(results) else Instance));
    }

    /** The bookkeeping of `fit` once the search has run on `nRows` rows:
        the search's results are copied, the top estimators (`top`, what
        `get_top_estimators` returned) are kept when a count is configured,
        and a classifier asked to be refitted and calibrated is calibrated
        (`calibrated`, the fitted calibrator) with the method that suits the
        number of rows, which is returned. Without a search class the call
        fails at once; a search without a best estimator (one run with
        `refit=False`) fails after the first three attributes are copied. */
    method Fit(nRows: nat, lookup: Lookup, baseEstimator: Value, top: Value, calibrated: Value)
      returns (r: Result<Option<string>>)
      modifies this`attrs
      ensures !Truthy(searchMode) ==> r == Err(TypeError(NoSearchClass)) && attrs == old(attrs)
      ensures Truthy(searchMode) && lookup.bestEstimator.None? ==>
                r == Err(AttributeError(NoBestEstimator)) && attrs == old(attrs) + SearchEntries(lookup)
      ensures Truthy(searchMode) && lookup.bestEstimator.Some? ==> r.Ok?
      ensures r.Ok? ==> (r.value.Some? <==> refit && calibrate && task == "cl")
      ensures r.Ok? && r.value.Some? ==> r.value.value == CalibrationMethod(nRows)
      ensures r.Ok? ==> attrs == old(attrs) + FitEntries(lookup, baseEstimator, cv)
                                 + (if Truthy(getTop) then map[Attr.TopEstimators := top] else map[])
                                 + (if r.value.Some? then map[Cc := calibrated] else map[])
    {
      if !Truthy(searchMode) {
        return Err(TypeError(NoSearchClass));
      }
      if lookup.bestEstimator.None? {
        attrs := attrs + SearchEntries(lookup);
        return Err(AttributeError(NoBestEstimator));
      }
      r := FitCompleted(nRows, lookup, baseEstimator, top, calibrated);
    }

    /** `fit` with the best estimator copied only when the search has one, as
        the class documents (`best_estimator_` is not available when
        `refit=False`): a search class given, it always completes. */
    method FitCompleted(nRows: nat, lookup: Lookup, baseEstimator: Value, top: Value, calibrated: Value)
      returns (r: Result<Option<string>>)
      modifies this`attrs
      ensures !Truthy(searchMode) ==> r == Err(TypeError(NoSearchClass)) && attrs == old(attrs)
      ensures Truthy(searchMode) ==> r.Ok?
      ensures r.Ok? ==> (r.value.Some? <==> refit && calibrate && task == "cl")
      ensures r.Ok? && r.value.Some? ==> r.value.value == CalibrationMethod(nRows)
      ensures r.Ok? ==> attrs == old(attrs) + FitEntries(lookup, baseEstimator, cv)
                                 + (if Truthy(getTop) then map[Attr.TopEstimators := top] else map[])
                                 + (if r.value.Some? then map[Cc := calibrated] else map[])
    {
      if !Truthy(searchMode) {
        return Err(TypeError(NoSearchClass));
      }
      var kept: map<Attr, Value> := map[];
      if Truthy(getTop) {
        kept := map[Attr.TopEstimators := top];
      }
      attrs := attrs + FitEntries(lookup, baseEstimator, cv) + kept;
      var calibration := None;
      var cc: map<Attr, Value> := map[];
      if refit && calibrate && task == "cl" {
        calibration := Some(CalibrationMethod(nRows));
        cc := map[Cc := calibrated];
      }
      attrs := attrs + cc;
      r := Ok(calibration);
    }
  }

  /** After a completed `fit` the package holds everything `fit` copied (the
      best estimator exactly when the search had one), so it is never empty
      and `save` with a package writes the package, not the object itself. */
  lemma {:induction false} FittedPackage(before: map<Attr, Value>, lookup: Lookup, baseEstimator: Value,
                                         cv: Value, extra: map<Attr, Value>)
    requires extra.Keys !! FitAttrs
    ensures var p := ResultsPackage(before + FitEntries(lookup, baseEstimator, cv) + extra);
            && (forall k :: k in FitAttrs && k != BestEstimator ==>
                  k in p && p[k] == FitEntries(lookup, baseEstimator, cv)[k])
            && (lookup.bestEstimator.Some? ==> BestEstimator in p && p[BestEstimator] == lookup.bestEstimator.value)
            && p != map[]
  {
    var p := ResultsPackage(before + FitEntries(lookup, baseEstimator, cv) + extra);
    assert Cv in p;
  }
}
