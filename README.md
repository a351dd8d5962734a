# AutOpt Bayesian search: a Dafny model of its bookkeeping

This project models the logic around the Bayesian hyper-parameter search of
AutOpt (`search.py`, class `BayesianSearchCV`) and the dispatch and
selection logic of its optimizer base class (`auto/core/base.py`, class
`SearchBase`), and proves properties of that model with Dafny. The
Gaussian-process optimizer, cross-validation and the estimators are library
code; their results enter the model as parameters.

The modules follow the source:

- `values.dfy` (`Values`): the Python values the code inspects (`Value`),
  their truthiness, the exceptions raised (`Error`, `Result`), and the
  decimal rendering of a natural number used for the `split{i}_test_score`
  column names.
- `settings.dfy` (`Settings`): `_check_trials` (the iteration budget) and
  `_get_scoring` (the optimisation direction).
- `domain.dfy` (`Domain`): `_check_bounds` with `param_to_bound`,
  `check_bound`, `distr_to_discrete` and `check_str`. The imperative loop is
  a method proved equal to a recursive specification, `TranslateEntries`,
  which runs a given loop body over the grid's elements. The loop's
  properties are proved for any body. `Translate` applies the body of
  `_check_bounds`.
- `decode.dfy` (`Decode`): `_check_int` and `_get_feed_params`, the decoding
  of a point chosen by the optimiser. A round-trip lemma shows that every
  point of a translated domain decodes.
- `accumulator.dfy` (`Accumulator`): the result recorder `_Report`. It is a
  class with one array per numpy buffer (`array2` for the fold-score
  matrix). Its fields `iter`, `t` and `s` are updated in place. Buffers are
  written with `np.put`, resized to double capacity, and cut to size by
  `report`. The class invariant ties the first `iter` slots of every buffer
  to the ghost sequence `Rows` of recorded rows. `report` is specified by
  the function `Columns` (the `cv_results_` table) and by `BestIndex` (the
  row `argsort()[-1]` picks).
- `searchcv.dfy` (`SearchCV`): the checks `BayesianSearchCV.__init__` runs
  in order, tying the budget (`len(param_grid)` parameters) to the domain
  `_check_bounds` builds.
- `base.dfy` (`CoreBase`): `_search`, `_results_package`,
  `top_estimators`, `save`, and the bookkeeping of `fit`, including the
  calibration choice.

## Model

| member | source | states |
|---|---|---|
| Values.NatToString | search.py:180-181 | the decimal rendering used in `'split{}_test_score'.format(cv)` is non-empty and all digits |
| Values.NatToStringInjective | search.py:180-181 | distinct fold numbers render differently |
| Values.Arange | search.py:340 | `np.arange(n)` is `0 .. n-1` in order |
| Settings.CheckTrials | search.py:276-289 | falsy `init_trials` defaults to `n_params` and falsy `n_iter` to `5*n_params`; success iff `n_params <= init_trials < n_iter` with the resolved values returned; otherwise the `ValueError` of whichever check fails first |
| Settings.DefaultBudgetAccepted | search.py:276-289 | with both arguments falsy and at least one parameter the budget is `(5*n_params, n_params)` |
| Settings.EmptyGridRejected | search.py:276-284 | an empty grid with defaults raises the "higher than the number of initial trials" error |
| Settings.GetScoringAsWritten | search.py:292-303 | as written: string scoring is kept, with `maximize` false iff the name ends in "loss" or "error"; a mapping succeeds iff its 'scoring' value is itself a mapping holding 'maximize', and `maximize` is then read from that inner mapping; a mapping without 'scoring' raises `KeyError`; any other value raises `ValueError('Invalid scoring')` |
| Settings.ScoringMappingRejectedAsWritten | search.py:298-300 | the documented form `{'scoring': f, 'maximize': m}` with a callable `f` fails as written |
| Settings.GetScoring | search.py:292-303 | string scoring: `maximize` is false iff the name ends in "loss" or "error", true otherwise; mapping: succeeds iff both keys are present and returns their values; anything else raises |
| Settings.ScoringMappingHonoured | search.py:298-300 | the corrected mapping branch returns the scorer and direction given |
| Settings.LossSuffixMinimized | search.py:293-297 | every name with suffix "loss" or "error" is minimised, whatever the prefix |
| Settings.ScoringExamples | search.py:293-297 | "neg_mean_squared_error" is minimised and "roc_auc" maximised |
| Domain.CheckBounds | search.py:306-355 | the loop's result equals the recursive specification `Translate` of the grid |
| Domain.TranslateEntriesShape | search.py:344-353 | for any loop body: the loop succeeds iff every element is accepted; the result has one bound per element, in grid order |
| Domain.TranslateEntriesFirstError | search.py:344-353 | for any loop body: on failure the exception is that of the first rejected element, all earlier ones being accepted |
| Domain.TranslateEntriesTableKeys | search.py:336-342 | for any loop body: `str_configs` holds exactly the names of the elements accepted as categorical, which for the body of `_check_bounds` are those whose list domain contains a string (`Domain.TranslateEntryCases`) |
| Domain.TranslateEntriesTableValue | search.py:336-342 | for any loop body: the name of a categorical element maps to that element's original values when no later element is categorical under the same name |
| Domain.TranslateEntryCases | search.py:307-342 | per element: the mapping form gives `{name, type='discrete', domain}` and fails with a missing domain exactly when the value is neither a distribution nor iterable; the list form raises the incomplete-bound `TypeError`, the bad-domain `TypeError`, or keeps the dictionary with a sampled distribution and type 'discrete'; a string-holding list domain becomes `0..len-1` and is recorded, any other domain is untouched |
| Domain.GridLenCountsBounds | search.py:200-201 | on a grid `_check_bounds` accepts, `len(param_grid)` is the number of bounds it builds |
| Domain.TranslateShape | search.py:344-355 | a grid that is neither a mapping nor a list raises `TypeError('Invalid grid type')`; a mapping gives one discrete bound per key named by that key; a list keeps each dictionary's keys and name |
| SearchCV.Configure | search.py:191-211 | an invalid scoring raises before anything else; a grid without a length raises `TypeError`; on success the scorer and direction are those `_get_scoring` gives (mapping form honoured) and the domain is `_check_bounds` of the grid with `n_iter - init_trials` samples |
| SearchCV.ConfiguredBudget | search.py:200-211 | a configured search has its budget checked against the number of bounds of its domain, so at least one initial trial per bound and at least one optimisation step |
| SearchCV.OtherGridRejected | search.py:200-211 | a grid of another type with a length passes the budget check and is then rejected with `TypeError('Invalid grid type')` |
| Decode.CheckInt | search.py:358-362 | an integral float becomes the int of the same value, anything else is unchanged, and the result is never an integral float |
| Decode.CheckIntIdempotent | search.py:358-362 | applying `_check_int` twice equals applying it once |
| Decode.CheckIntExamples | search.py:358-362 | `4.0` becomes `4` and `4.3` stays `4.3` |
| Decode.ListIndex | search.py:270 | Python list indexing: an int index succeeds iff it is in `-len .. len-1`, negative indices counting from the end; an index that is neither int nor bool raises `TypeError` |
| Decode.GetFeedParams | search.py:265-273 | the loop's result equals the recursive specification `FeedParams` over all positions |
| Decode.FeedParamsOk | search.py:265-273 | decoding succeeds iff every position decodes |
| Decode.FeedParamsKeys | search.py:265-273 | the decoded dictionary has exactly the bound names as keys |
| Decode.FeedParamsValue | search.py:265-273 | each name holds the value decoded at its (last) position: the categorical lookup by the integer form of the pick, else `_check_int` of the pick |
| Decode.CategoricalDecode | search.py:269-271 | a categorical position picked as float `j` decodes to the `j`-th original value |
| Decode.CategoricalExample | search.py:269-271 | with values `['a','b','c']`, position 1 decodes to `'b'` |
| Decode.CategoricalBound | search.py:336-342 | with distinct names, a name recorded in `str_configs` belongs to a bound whose domain is the positions of its recorded values |
| Decode.TranslatedPointsDecode | search.py:265-273 | round trip: every point drawn from the domain `_check_bounds` built (distinct names) decodes without error; each name receives `_check_int` of its pick, and a categorical name the original value at the picked position (`DecodesAt`) |
| Accumulator.Series | search.py:172-178 | the column of one scalar has one entry per row, row `i`'s value at `i` |
| Accumulator.ParamsOf | search.py:176 | the `params` column has one entry per row, row `i`'s setting at `i` |
| Accumulator.KeyNameInjective | search.py:172-181 | distinct columns of `cv_results_` have distinct names |
| Accumulator.SplitColumnsKeys | search.py:180-181 | after the fold loop has run `f` times, the table holds the seven fixed columns and exactly `split0 .. split{f-1}` |
| Accumulator.SplitColumnsValues | search.py:180-181 | the fold loop stores each fold's scores under its own column and never overwrites a fixed column |
| Accumulator.SplitColumnsLengths | search.py:172-181 | every column of the table has one entry per kept row |
| Accumulator.ColumnsKeys | search.py:172-181 | `cv_results_` has the seven fixed columns and exactly one `split{i}_test_score` per fold `0..cv-1`, each of length equal to the number of kept rows |
| Accumulator.ColumnsValues | search.py:172-181 | fold `f`'s column holds fold `f`'s scores; `mean_test_score` and `params` list the kept rows in iteration order |
| Accumulator.BestIndex | search.py:184-186 | the selected index has the largest mean test score, and no later index has an equal one |
| Accumulator.BestIndexExample | search.py:184-186 | scores `[0.7, 0.9, 0.85]` select index 1 |
| Accumulator.PadLine | search.py:166-167 | the progress line starts with `end_msg`, ends with `result_msg`, is dots in between, and is 80 long when the two are shorter |
| Accumulator.Resized | search.py:133-140 | `ndarray.resize(n)` on a growing buffer keeps the old entries and fills the rest |
| Accumulator.Hstack | search.py:141-142 | the doubled score matrix keeps the old columns and adds as many zero columns |
| Accumulator.Report.constructor | search.py:99-118 | empty buffers of capacity `s`, `iter == 0`, `t == 0`, no best row yet, invariant established |
| Accumulator.Report.Update | search.py:120-142 | the row is recorded at the old `iter`; `iter` grows by one and `t` by `exec_time`; `s` doubles exactly when `iter` reaches `s-1`; all earlier rows of every buffer are unchanged; the invariant (`iter < s-1`, buffers hold the rows) is kept |
| Accumulator.Report.Record | search.py:121-131 | every buffer gets the new row at index `iter` and `iter` advances |
| Accumulator.Report.Grow | search.py:132-142 | every buffer is replaced by a fresh one of twice the capacity that holds the same rows |
| Accumulator.Report.Results | search.py:171-181 | the table built from the buffers cut to `n` entries is `Columns` of the first `n` rows |
| Accumulator.Report.Finish | search.py:171-189 | on `n > 0` rows, the table plus the score and setting of the row `BestIndex` picks; on no rows `argsort()[-1]` raises `IndexError` |
| Accumulator.Report.Publish | search.py:183-190 | the table is returned and `best_score_`/`best_params_` are set from the selected row; nothing is set on failure |
| Accumulator.Report.ReportAsWritten | search.py:170-190 | as written: `iter == 0` raises `ValueError` (negative resize), `iter == 1` raises `IndexError`, otherwise the table and best row of the first `iter-1` rows |
| Accumulator.Report.ReportCompleted | search.py:170-190 | corrected: for `iter >= 1` the table and best row of all recorded rows |
| Accumulator.DroppedRowCanBeBest | search.py:171 | with mean scores `[0.7, 0.85, 0.9]` the as-written report selects 0.85 while the full table's best is 0.9 |
| CoreBase.Search | auto/core/base.py:281-290 | `'bayesian'` gives `BayesianSearchCV`, `'random'` gives `RandomizedSearchCV`, a falsy mode gives `None`, any other truthy mode raises `ValueError` (each an iff) |
| CoreBase.ResultsPackage | auto/core/base.py:249-261 | the package's keys are exactly the fixed attribute list intersected with the attributes present, each with its stored value |
| CoreBase.ResultsPackageIdempotent | auto/core/base.py:249-261 | packaging a package changes nothing |
| CoreBase.ResultsPackageIgnoresOthers | auto/core/base.py:249-261 | setting an attribute outside the list leaves the package unchanged |
| CoreBase.CalibrationMethod | auto/core/base.py:198-201 | `'sigmoid'` iff fewer than 1000 rows, `'isotonic'` otherwise |
| CoreBase.SearchBase.constructor | auto/core/base.py:122-147 | stores the arguments; with a truthy `top_method` and the Bayesian mode, `return_predictions=True` is added to the search parameters |
| CoreBase.SearchBase.TopEstimators | auto/core/base.py:235-247 | a falsy count falls back to `get_top`; it raises iff both are falsy; a falsy method falls back to `top_method`; the current package is passed on |
| CoreBase.SearchBase.Save | auto/core/base.py:208-233 | a falsy path falls back to `search_params['write_path']`; it raises iff the path is falsy and that key is absent; the package is written iff asked for and non-empty, the object otherwise |
| CoreBase.SearchLookup | search.py:240-247 | the search leaves a best estimator iff it was run with `refit`, and it is the refitted one |
| CoreBase.FitEntries | auto/core/base.py:187-192 | `fit` copies the three search results, the base estimator and `cv_`, and the best estimator exactly when the search has one |
| CoreBase.SearchBase.Fit | auto/core/base.py:178-206 | as written: without a search class it raises `TypeError` and sets nothing; a search without a best estimator raises `AttributeError` after `cv_results_`, `best_params_` and `best_score_` are set; otherwise the copies are stored, `top_estimators_` iff `get_top` is truthy, and calibration happens iff `refit`, `calibrate` and `task == 'cl'`, with the method for the number of rows |
| CoreBase.SearchBase.FitCompleted | auto/core/base.py:187-206 | corrected: with a search class it always completes, storing the best estimator only when the search has one; the rest as `Fit` |
| CoreBase.FittedPackage | auto/core/base.py:187-192 | after a completed `fit` the package holds every attribute `fit` copied (the best estimator exactly when present), so it is never empty and `save` writes it |

## Left out

- Floats are finite reals: NaN and infinities are not modelled, so `argsort` over NaN scores is not covered.
- `np.mean` and `np.std` over the fold results are not computed. `FoldScores` carries the means and standard deviations as given values. `_f` and `fit` of `BayesianSearchCV` are not modelled: they pass the optimiser's points to `_get_feed_params`, cross-validation to `update`, and call `report`. Nor is the refit of the best estimator, which is a parameter of `CoreBase.SearchLookup`. Of `__init__`, the `_Report` construction and the `_keys` array are not modelled. The GPyOpt optimiser (`run_optimization`, `eps`, `max_time`) and the disabled methods are foreign code.
- Timing (`timer()`), `print` and `logger.short_format_time` are not modelled. Of the verbose output only the dot padding is modelled (`PadLine`).
- `distr.rvs(n)` is random. It is a function parameter `draw`, and the model does not assume it returns `n` samples.
- Accumulator.BestIndex: `argsort()` is not a stable sort, so among equal best scores numpy may pick any of them. The model picks the last, and only maximality is what the source guarantees.
- Accumulator.Report.constructor: requires `s >= 2`. The only caller passes the default 100. With `s = 0` the first `update` fails, because `np.put` cannot write into an empty buffer. With `s = 1` the second `update` fails, because index 1 is out of bounds. Neither path is modelled.
- `cv` given as a splitter object (`cv.get_n_splits()`) is not modelled: the report takes the number of folds.
- The `params` buffer is `np.zeros(s, dtype=object)`, so its unused slots hold `0`. The model fills them with the empty setting. They are never read.
- Mutation of the caller's bound dictionaries by `check_bound` and `check_str` is not modelled (aliasing). The model returns the updated dictionaries as values.
- `_get_feed_params` does not round a categorical pick. A non-integral float index raises `TypeError`, and a negative integer index counts from the end (`Decode.ListIndex`).
- An empty grid is rejected even with both defaults, because `0 >= 0` (`Settings.EmptyGridRejected`).
- `SearchBase.fit` uses `self.refit & self.calibrate & (task == 'cl')`, a bitwise `&`. `refit` and `calibrate` are modelled as booleans, so integer flags are not covered.
- `SearchBase.__init__` is modelled only in what it stores. It does not raise the `ValueError` of `_search` for an invalid truthy mode; `CoreBase.Search` models that, and `Fit` models the `TypeError` of a falsy mode. Its `_search` call is the separate function `CoreBase.Search`. The `RepeatedKFold` construction with a random seed and the abstract `_grid` and `_estimator_base` are not modelled. `get_top_estimators`, `CalibratedClassifierCV`, `clone` and pickling are foreign calls, and their results are parameters.
- `SearchBase.save` opens the resolved path even when `write_path` holds a falsy value. That failure belongs to file I/O and is not modelled.
- CoreBase.SearchBase.Fit: the lookup is a parameter, so the model does not tie its best estimator to `refit`. `CoreBase.SearchLookup` states that tie for `BayesianSearchCV`. Scikit-learn's `RandomizedSearchCV` behaves the same way, but it is foreign code.
- Python `__dict__` holds other attributes too. They are `Attr.Other(name)`, and only the eight result attributes are distinguished by name.

## Findings

| source | as written | input that shows it | evidently intended | confidence | as-written member | corrected member |
|---|---|---|---|---|---|---|
| search.py:171 | `report` keeps `iter - 1` rows, so the last recorded iteration is dropped (and with one or no iteration it raises) | three `update` calls with mean test scores 0.7, 0.85, 0.9: `cv_results_` has 2 rows and `best_score_` is 0.85 rather than 0.9 | every recorded iteration is in the report and can be the best | not executed | Accumulator.Report.ReportAsWritten, Accumulator.DroppedRowCanBeBest | Accumulator.Report.ReportCompleted |
| search.py:298-300 | the mapping branch reads `maximize` from the scorer it just extracted (`scoring['maximize']` after `scoring = scoring['scoring']`) | `{'scoring': f, 'maximize': True}` with a callable `f`: subscripting `f` raises `TypeError` | the scorer and direction are both read from the mapping | not executed | Settings.GetScoringAsWritten, Settings.ScoringMappingRejectedAsWritten | Settings.GetScoring, Settings.ScoringMappingHonoured |
| auto/core/base.py:190 | `fit` always reads `lookup.best_estimator_`, which a search run with `refit=False` never sets (search.py:243-247) | `SearchBase(..., refit=False).fit(x, y)`: `AttributeError` after `cv_results_`, `best_params_` and `best_score_` are set, and no `base_estimator_`, `cv_`, `top_estimators_` or `cc_` | `fit` completes without `best_estimator_`, as the class documentation says it is not available when `refit=False` (auto/core/base.py:100-103) | not executed | CoreBase.SearchBase.Fit, CoreBase.SearchLookup | CoreBase.SearchBase.FitCompleted |
