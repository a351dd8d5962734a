/** Translation of a parameter grid into the optimiser's discrete domain
    (`_check_bounds` with its helpers `param_to_bound`, `check_bound`,
    `distr_to_discrete` and `check_str`). */
module Domain {
  import opened Values

  /** One bound as the optimiser receives it: a dictionary that holds at least
      'name', 'type' and 'domain'. */
  type Bound = map<string, Value>

  /** The categorical index table: for each parameter whose domain held a
      string, its original list of values. */
  type StrConfigs = map<Value, seq<Value>>

  /** `distr.rvs(n)`: the samples a distribution yields when asked for `n` of them. */
  type Sampler = (Value, int) -> seq<Value>

  const Discrete := Str("discrete")
  const IncompleteBound := "Bound definition is not complete"
  const BadDomain := "Domain is not iterable or Distribution"
  const BadGrid := "Invalid grid type"

  /** The grid argument: a mapping from parameter name to its values (in
      insertion order), a list of bound dictionaries, or any other object. */
  datatype Grid =
    | GridMap(entries: seq<(Value, Value)>)
    | GridList(items: seq<Value>)
    | GridOther(size: Option<nat>)

  /** One element of the grid, as its branch of `_check_bounds` reads it. */
  datatype Entry = Param(name: Value, value: Value) | Descriptor(bound: Value)

  /** A checked bound, and for a categorical one the name and the original values
      that `check_str` records. */
  datatype Categorized =
    | Plain(bound: Bound)
    | Categorical(bound: Bound, name: Value, labels: seq<Value>)

  datatype Translation = Translation(bounds: seq<Bound>, strConfigs: StrConfigs)

  /** A bound that holds the three keys the optimiser reads. */
  predicate WellFormed(b: Bound) {
    "name" in b && "type" in b && "domain" in b
  }

  /** An accepted element whose domain was categorical. */
  predicate IsCategorical(c: Result<Categorized>) {
    c.Ok? && c.value.Categorical?
  }

  /** `distr_to_discrete` applied where the domain is a distribution: the list
      of `n` samples; any other domain is kept. */
  function Sampled(domain: Value, n: int, draw: Sampler): Value {
    if domain.Dist? then List(draw(domain, n)) else domain
  }

  /** `param_to_bound`: a discrete bound named `name`; the domain is left unset
      when `value` is neither a distribution nor iterable. */
  function ParamToBound(name: Value, value: Value, n: int, draw: Sampler): Bound {
    var b := map["name" := name, "type" := Discrete];
    if value.Dist? then b["domain" := Sampled(value, n, draw)]
    else if Iterable(value) then b["domain" := value]
    else b
  }

  /** `check_bound`: a complete bound dictionary is kept, with a distribution
      domain sampled and its type set to discrete. */
  function CheckBound(bound: Value, n: int, draw: Sampler): Result<Bound> {
    match bound
    case Dict(m) =>
      if !("name" in m && "type" in m && "domain" in m) then Err(TypeError(IncompleteBound))
      else if m["domain"].Dist? then Ok(m["domain" := Sampled(m["domain"], n, draw)]["type" := Discrete])
      else if Iterable(m["domain"]) then Ok(m)
      else Err(TypeError(BadDomain))
    case _ => Err(AttributeError("object has no attribute 'keys'"))
  }

  /** `any(isinstance(s, str) for s in xs)`. */
  predicate HasString(xs: seq<Value>) {
    exists x :: x in xs && x.Str?
  }

  /** `check_str`: a list domain holding a string is replaced by the positions
      0 .. len-1 and its values are recorded under the bound's name. */
  function CheckStr(b: Bound): Result<Categorized> {
    if "domain" !in b then Err(KeyError("domain"))
    else match b["domain"]
      case List(xs) =>
        if !HasString(xs) then Ok(Plain(b))
        else if "name" !in b then Err(KeyError("name"))
        else Ok(Categorical(b["domain" := Array(Arange(|xs|))], b["name"], xs))
      case _ => Ok(Plain(b))
  }

  /** One iteration of either loop of `_check_bounds`. */
  function TranslateEntry(e: Entry, n: int, draw: Sampler): Result<Categorized> {
    match e
    case Param(name, value) => CheckStr(ParamToBound(name, value, n, draw))
    case Descriptor(bound) =>
      var b :- CheckBound(bound, n, draw);
      CheckStr(b)
  }

  /** The body of either loop of `_check_bounds`, as a function of the element. */
  type Step = Entry -> Result<Categorized>

  /** The body `_check_bounds` runs, for `n` samples drawn with `draw`. */
  function Body(n: int, draw: Sampler): Step {
    e => TranslateEntry(e, n, draw)
  }

  /** The categorical index table after `check_str` has seen `c`. */
  function Record(strs: StrConfigs, c: Categorized): StrConfigs {
    match c
    case Plain(_) => strs
    case Categorical(_, name, labels) => strs[name := labels]
  }

  /** The names `check_str` has recorded after seeing `c`. */
  lemma RecordKeys(strs: StrConfigs, c: Categorized, v: Value)
    ensures v in Record(strs, c) <==> v in strs || (c.Categorical? && c.name == v)
  {
  }

  /** The bounds and the table after a loop with body `step` has run over
      `es`, or the first exception. The properties of the loop below hold for
      any body; `Translate` uses the one `_check_bounds` runs. */
  function TranslateEntries(es: seq<Entry>, step: Step): Result<Translation>
    decreases |es|
  {
    if es == [] then Ok(Translation([], map[]))
    else
      var t :- TranslateEntries(es[..|es| - 1], step);
      var c :- step(es[|es| - 1]);
      Ok(Translation(t.bounds + [c.bound], Record(t.strConfigs, c)))
  }

  /** The elements the grid's branch iterates over. */
  function GridEntries(grid: Grid): Result<seq<Entry>> {
    match grid
    case GridMap(entries) => Ok(seq(|entries|, i requires 0 <= i < |entries| => Param(entries[i].0, entries[i].1)))
    case GridList(items) => Ok(seq(|items|, i requires 0 <= i < |items| => Descriptor(items[i])))
    case GridOther(_) => Err(TypeError(BadGrid))
  }

  /** `len(param_grid)`. */
  function GridLen(grid: Grid): (r: Result<nat>)
    ensures grid.GridMap? ==> r == Ok(|grid.entries|)
    ensures grid.GridList? ==> r == Ok(|grid.items|)
  {
    match grid
    case GridMap(entries) => Ok(|entries|)
    case GridList(items) => Ok(|items|)
    case GridOther(size) => if size.Some? then Ok(size.value) else Err(TypeError("object has no len()"))
  }

  /** `_check_bounds(candidate, n_samples)` as a specification. */
  function Translate(grid: Grid, n: int, draw: Sampler): Result<Translation> {
    var es :- GridEntries(grid);
    TranslateEntries(es, Body(n, draw))
  }

  /** `_check_bounds`: one pass over the grid that appends a checked bound per
      element and fills the categorical index table. */
  method CheckBounds(grid: Grid, n: int, draw: Sampler) returns (r: Result<Translation>)
    ensures r == Translate(grid, n, draw)
  {
    var es :- GridEntries(grid);
    var bounds: seq<Bound> := [];
    var strConfigs: StrConfigs := map[];
    var i := 0;
    while i < |es|
      invariant 0 <= i <= |es|
      invariant TranslateEntries(es[..i], Body(n, draw)) == Ok(Translation(bounds, strConfigs))
    {
      var c := TranslateEntry(es[i], n, draw);
      assert es[..i + 1][..i] == es[..i];
      if c.Err? {
        ErrorPersists(es, i + 1, Body(n, draw));
        assert es[..|es|] == es;
        return Err(c.error);
      }
      bounds := bounds + [c.value.bound];
      strConfigs := Record(strConfigs, c.value);
      i := i + 1;
    }
    assert es[..i] == es;
    r := Ok(Translation(bounds, strConfigs));
  }

  /** Once a prefix has failed, every longer prefix fails with the same exception. */
  lemma {:induction false} ErrorPersists(es: seq<Entry>, k: nat, step: Step)
    requires k <= |es| && TranslateEntries(es[..k], step).Err?
    ensures TranslateEntries(es, step) == TranslateEntries(es[..k], step)
    decreases |es| - k
  {
    if k < |es| {
      assert es[..k + 1][..k] == es[..k];
      ErrorPersists(es, k + 1, step);
    } else {
      assert es[..k] == es;
    }
  }

  /** The loop succeeds exactly when every element is accepted; then it yields
      one bound per element, in order. */
  lemma {:induction false} TranslateEntriesShape(es: seq<Entry>, step: Step)
    ensures TranslateEntries(es, step).Ok? <==> forall i :: 0 <= i < |es| ==> step(es[i]).Ok?
    ensures TranslateEntries(es, step).Ok? ==>
              |TranslateEntries(es, step).value.bounds| == |es|
              && forall i :: 0 <= i < |es| ==> TranslateEntries(es, step).value.bounds[i] == step(es[i]).value.bound
    decreases |es|
  {
    if es != [] {
      var init := es[..|es| - 1];
      TranslateEntriesShape(init, step);
      assert forall i :: 0 <= i < |init| ==> init[i] == es[i];
    }
  }

  /** On failure the exception is that of the first rejected element. */
  lemma {:induction false} TranslateEntriesFirstError(es: seq<Entry>, step: Step)
    requires TranslateEntries(es, step).Err?
    ensures exists k :: 0 <= k < |es|
              && step(es[k]) == Err(TranslateEntries(es, step).error)
              && forall j :: 0 <= j < k ==> step(es[j]).Ok?
    decreases |es|
  {
    var init := es[..|es| - 1];
    assert forall i :: 0 <= i < |init| ==> init[i] == es[i];
    if TranslateEntries(init, step).Err? {
      TranslateEntriesFirstError(init, step);
      var k :| 0 <= k < |init|
                && step(init[k]) == Err(TranslateEntries(init, step).error)
                && forall j :: 0 <= j < k ==> step(init[j]).Ok?;
      assert step(es[k]) == Err(TranslateEntries(es, step).error);
    } else {
      TranslateEntriesShape(init, step);
      var k := |es| - 1;
      assert step(es[k]) == Err(TranslateEntries(es, step).error);
    }
  }

  /** Element `i` of `es` is accepted as categorical under the name `v`. */
  predicate CategoricalAt(es: seq<Entry>, i: int, v: Value, step: Step)
    requires 0 <= i < |es|
  {
    IsCategorical(step(es[i])) && step(es[i]).value.name == v
  }

  /** The table holds exactly the names of the categorical elements. */
  lemma {:induction false} TranslateEntriesTableKeys(es: seq<Entry>, step: Step)
    requires TranslateEntries(es, step).Ok?
    ensures forall v :: v in TranslateEntries(es, step).value.strConfigs <==>
              exists i :: 0 <= i < |es| && CategoricalAt(es, i, v, step)
    decreases |es|
  {
    if es != [] {
      var init := es[..|es| - 1];
      var last := |es| - 1;
      assert forall i :: 0 <= i < |init| ==> init[i] == es[i];
      TranslateEntriesTableKeys(init, step);
      var t := TranslateEntries(init, step).value;
      var c := step(es[last]).value;
      assert TranslateEntries(es, step).value.strConfigs == Record(t.strConfigs, c);
      forall v | v in Record(t.strConfigs, c)
        ensures exists i :: 0 <= i < |es| && CategoricalAt(es, i, v, step)
      {
        RecordKeys(t.strConfigs, c, v);
        if v in t.strConfigs {
          var i :| 0 <= i < |init| && CategoricalAt(init, i, v, step);
          assert CategoricalAt(es, i, v, step);
        } else {
          assert CategoricalAt(es, last, v, step);
        }
      }
      forall v | exists i :: 0 <= i < |es| && CategoricalAt(es, i, v, step)
        ensures v in Record(t.strConfigs, c)
      {
        RecordKeys(t.strConfigs, c, v);
        var i :| 0 <= i < |es| && CategoricalAt(es, i, v, step);
        if i < last {
          assert CategoricalAt(init, i, v, step);
        }
      }
    }
  }

  /** A categorical name maps to the values of the last categorical element
      with that name (with distinct names, to its only element's values). */
  lemma {:induction false} TranslateEntriesTableValue(es: seq<Entry>, i: nat, step: Step)
    requires TranslateEntries(es, step).Ok?
    requires i < |es| && IsCategorical(step(es[i]))
    requires forall j :: i < j < |es| ==> !CategoricalAt(es, j, step(es[i]).value.name, step)
    ensures step(es[i]).value.name in TranslateEntries(es, step).value.strConfigs
    ensures TranslateEntries(es, step).value.strConfigs[step(es[i]).value.name] == step(es[i]).value.labels
    decreases |es|
  {
    var init := es[..|es| - 1];
    var last := |es| - 1;
    assert forall k :: 0 <= k < |init| ==> init[k] == es[k];
    if i < last {
      var v := step(es[i]).value.name;
      forall j | i < j < |init| ensures !CategoricalAt(init, j, v, step) {
        assert !CategoricalAt(es, j, v, step);
      }
      TranslateEntriesTableValue(init, i, step);
      assert !CategoricalAt(es, last, v, step);
    }
  }

  /** `len(param_grid)`, the parameter count the budget is checked against,
      is the number of bounds `_check_bounds` builds. */
  lemma GridLenCountsBounds(grid: Grid, n: int, draw: Sampler)
    requires Translate(grid, n, draw).Ok?
    ensures GridLen(grid) == Ok(|Translate(grid, n, draw).value.bounds|)
  {
    TranslateShape(grid, n, draw);
  }

  /** Everything `_check_bounds` does to a single element: the exceptions it
      raises and, when it accepts the element, the bound and the record it makes. */
  lemma TranslateEntryCases(e: Entry, n: int, draw: Sampler)
    ensures e.Param? ==>
              (TranslateEntry(e, n, draw).Ok? <==> e.value.Dist? || Iterable(e.value))
    ensures e.Param? && TranslateEntry(e, n, draw).Err? ==>
              TranslateEntry(e, n, draw).error == KeyError("domain")
    ensures e.Param? && TranslateEntry(e, n, draw).Ok? ==>
              var b := TranslateEntry(e, n, draw).value.bound;
              b.Keys == {"name", "type", "domain"} && b["name"] == e.name && b["type"] == Discrete
    ensures e.Descriptor? && !e.bound.Dict? ==>
              TranslateEntry(e, n, draw).Err? && TranslateEntry(e, n, draw).error.AttributeError?
    ensures e.Descriptor? && e.bound.Dict? ==>
              var m := e.bound.entries;
              && (!("name" in m && "type" in m && "domain" in m) ==>
                    TranslateEntry(e, n, draw) == Err(TypeError(IncompleteBound)))
              && ("name" in m && "type" in m && "domain" in m && !m["domain"].Dist? && !Iterable(m["domain"]) ==>
                    TranslateEntry(e, n, draw) == Err(TypeError(BadDomain)))
              && ("name" in m && "type" in m && "domain" in m && (m["domain"].Dist? || Iterable(m["domain"])) ==>
                    && TranslateEntry(e, n, draw).Ok?
                    && var b := TranslateEntry(e, n, draw).value.bound;
                    && b.Keys == m.Keys
                    && (forall k :: k in m && k != "domain" && k != "type" ==> b[k] == m[k])
                    && b["type"] == (if m["domain"].Dist? then Discrete else m["type"]))
    ensures TranslateEntry(e, n, draw).Ok? ==>
              var c := TranslateEntry(e, n, draw).value;
              var raw := if e.Param? then e.value else e.bound.entries["domain"];
              var d := Sampled(raw, n, draw);
              && WellFormed(c.bound)
              && (c.Categorical? <==> d.List? && HasString(d.items))
              && (c.Categorical? ==>
                    c.name == c.bound["name"] && c.labels == d.items
                    && c.bound["domain"] == Array(Arange(|d.items|)))
              && (c.Plain? ==> c.bound["domain"] == d)
  {
  }

  /** `_check_bounds` on a whole grid: a grid that is neither a mapping nor a
      list is rejected; otherwise the result has one bound per element in the
      grid's order, the mapping form names each bound by its key and marks it
      discrete, and the list form keeps each dictionary's name. */
  lemma TranslateShape(grid: Grid, n: int, draw: Sampler)
    ensures grid.GridOther? ==> Translate(grid, n, draw) == Err(TypeError(BadGrid))
    ensures Translate(grid, n, draw).Ok? && grid.GridMap? ==>
              var bs := Translate(grid, n, draw).value.bounds;
              |bs| == |grid.entries|
              && forall i :: 0 <= i < |bs| ==>
                   WellFormed(bs[i]) && bs[i]["name"] == grid.entries[i].0 && bs[i]["type"] == Discrete
    ensures Translate(grid, n, draw).Ok? && grid.GridList? ==>
              var bs := Translate(grid, n, draw).value.bounds;
              |bs| == |grid.items|
              && forall i :: 0 <= i < |bs| ==>
                   grid.items[i].Dict? && bs[i].Keys == grid.items[i].entries.Keys
                   && WellFormed(bs[i]) && bs[i]["name"] == grid.items[i].entries["name"]
  {
    if grid.GridMap? || grid.GridList? {
      var es := GridEntries(grid).value;
      TranslateEntriesShape(es, Body(n, draw));
      if TranslateEntries(es, Body(n, draw)).Ok? {
        var bs := TranslateEntries(es, Body(n, draw)).value.bounds;
        forall i | 0 <= i < |es|
          ensures grid.GridMap? ==>
                    WellFormed(bs[i]) && bs[i]["name"] == grid.entries[i].0 && bs[i]["type"] == Discrete
          ensures grid.GridList? ==>
                    grid.items[i].Dict? && bs[i].Keys == grid.items[i].entries.Keys
                    && WellFormed(bs[i]) && bs[i]["name"] == grid.items[i].entries["name"]
        {
          TranslateEntryCases(es[i], n, draw);
          if grid.GridList? {
            assert es[i] == Descriptor(grid.items[i]);
          } else {
            assert es[i] == Param(grid.entries[i].0, grid.entries[i].1);
          }
        }
      }
    }
  }
}
