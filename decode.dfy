/** Decoding a point chosen by the optimiser back into parameter values
    (`_check_int` and `_get_feed_params`). */
module Decode {
  import opened Values
  import opened Domain

  /** A float with no fractional part, such as `4.0`. */
  predicate IntegralFloat(v: Value) {
    v.Float? && v.x.Floor as real == v.x
  }

  /** `_check_int`: an integral float becomes the int of the same value; every
      other value is returned unchanged. */
  function CheckInt(n: Value): (r: Value)
    ensures !IntegralFloat(r)
    ensures IntegralFloat(n) ==> r.Int? && r.i as real == n.x
    ensures !IntegralFloat(n) ==> r == n
  {
    if IntegralFloat(n) then Int(n.x.Floor) else n
  }

  /** Applying `_check_int` twice is applying it once. */
  lemma CheckIntIdempotent(n: Value)
    ensures CheckInt(CheckInt(n)) == CheckInt(n)
  {
  }

  /** `4.0` is fed as `4`; `4.3` is fed unchanged. */
  lemma CheckIntExamples()
    ensures CheckInt(Float(4.0)) == Int(4)
    ensures CheckInt(Float(4.3)) == Float(4.3)
  {
    assert (4.3).Floor == 4;
  }

  /** Python's `xs[k]` on a list: an int (or bool) index, negative indices
      counting from the end. */
  function ListIndex(xs: seq<Value>, k: Value): (r: Result<Value>)
    ensures k.Int? ==> (r.Ok? <==> -|xs| <= k.i < |xs|)
    ensures k.Int? && 0 <= k.i < |xs| ==> r == Ok(xs[k.i])
    ensures k.Int? && -|xs| <= k.i < 0 ==> r == Ok(xs[|xs| + k.i])
    ensures !k.Int? && !k.Bool? ==> r.Err? && r.error.TypeError?
  {
    if !k.Int? && !k.Bool? then Err(TypeError("list indices must be integers or slices"))
    else
      var i := if k.Int? then k.i else if k.b then 1 else 0;
      if 0 <= i < |xs| then Ok(xs[i])
      else if -|xs| <= i < 0 then Ok(xs[|xs| + i])
      else Err(IndexError("list index out of range"))
  }

  /** The value fed for one parameter: a categorical parameter looks its
      original value up by the picked position; `_check_int` is applied last. */
  function DecodeValue(name: Value, picked: Value, strs: StrConfigs): Result<Value> {
    if name in strs then
      var v :- ListIndex(strs[name], CheckInt(picked));
      Ok(CheckInt(v))
    else Ok(CheckInt(picked))
  }

  /** Every bound carries a name. */
  predicate Named(bounds: seq<Bound>) {
    forall i :: 0 <= i < |bounds| ==> "name" in bounds[i]
  }

  /** The parameters decoded from the first `k` positions of the row, or the
      first exception. */
  function FeedParams(bounds: seq<Bound>, row: seq<Value>, strs: StrConfigs, k: nat): Result<map<Value, Value>>
    requires Named(bounds) && k <= |bounds| <= |row|
  {
    if k == 0 then Ok(map[])
    else
      var m :- FeedParams(bounds, row, strs, k - 1);
      var v :- DecodeValue(bounds[k - 1]["name"], row[k - 1], strs);
      Ok(m[bounds[k - 1]["name"] := v])
  }

  /** `_get_feed_params`: decode the row position by position into a
      name-to-value dictionary. */
  method GetFeedParams(bounds: seq<Bound>, row: seq<Value>, strs: StrConfigs) returns (r: Result<map<Value, Value>>)
    requires Named(bounds) && |bounds| <= |row|
    ensures r == FeedParams(bounds, row, strs, |bounds|)
  {
    var params := map[];
    for i := 0 to |bounds|
      invariant FeedParams(bounds, row, strs, i) == Ok(params)
    {
      var name := bounds[i]["name"];
      var picked := row[i];
      if name in strs {
        var looked := ListIndex(strs[name], CheckInt(picked));
        if looked.Err? {
          FeedErrorPersists(bounds, row, strs, i + 1, |bounds|);
          return Err(looked.error);
        }
        picked := looked.value;
      }
      params := params[name := CheckInt(picked)];
    }
    r := Ok(params);
  }

  /** Once a position has failed, decoding more positions fails with the same exception. */
  lemma {:induction false} FeedErrorPersists(bounds: seq<Bound>, row: seq<Value>, strs: StrConfigs, k: nat, m: nat)
    requires Named(bounds) && k <= m <= |bounds| <= |row|
    requires FeedParams(bounds, row, strs, k).Err?
    ensures FeedParams(bounds, row, strs, m) == FeedParams(bounds, row, strs, k)
    decreases m
  {
    if m > k {
      FeedErrorPersists(bounds, row, strs, k, m - 1);
    }
  }

  /** Decoding succeeds exactly when every position decodes. */
  lemma {:induction false} FeedParamsOk(bounds: seq<Bound>, row: seq<Value>, strs: StrConfigs, k: nat)
    requires Named(bounds) && k <= |bounds| <= |row|
    ensures FeedParams(bounds, row, strs, k).Ok? <==>
              forall i :: 0 <= i < k ==> DecodeValue(bounds[i]["name"], row[i], strs).Ok?
    decreases k
  {
    if k > 0 {
      FeedParamsOk(bounds, row, strs, k - 1);
    }
  }

  /** The decoded dictionary has exactly the bound names as keys. */
  lemma {:induction false} FeedParamsKeys(bounds: seq<Bound>, row: seq<Value>, strs: StrConfigs, k: nat)
    requires Named(bounds) && k <= |bounds| <= |row|
    requires FeedParams(bounds, row, strs, k).Ok?
    ensures FeedParams(bounds, row, strs, k).value.Keys == set i | 0 <= i < k :: bounds[i]["name"]
    decreases k
  {
    if k > 0 {
      FeedParamsKeys(bounds, row, strs, k - 1);
      var prev := FeedParams(bounds, row, strs, k - 1).value;
      var name := bounds[k - 1]["name"];
      assert FeedParams(bounds, row, strs, k).value.Keys == prev.Keys + {name};
      assert (set i | 0 <= i < k :: bounds[i]["name"])
             == (set i | 0 <= i < k - 1 :: bounds[i]["name"]) + {name};
    }
  }

  /** A name holds the value decoded at its last position. */
  lemma {:induction false} FeedParamsValue(bounds: seq<Bound>, row: seq<Value>, strs: StrConfigs, k: nat, i: nat)
    requires Named(bounds) && k <= |bounds| <= |row|
    requires FeedParams(bounds, row, strs, k).Ok?
    requires i < k && forall j :: i < j < k ==> bounds[j]["name"] != bounds[i]["name"]
    ensures bounds[i]["name"] in FeedParams(bounds, row, strs, k).value
    ensures DecodeValue(bounds[i]["name"], row[i], strs)
            == Ok(FeedParams(bounds, row, strs, k).value[bounds[i]["name"]])
    decreases k
  {
    if i < k - 1 {
      FeedParamsValue(bounds, row, strs, k - 1, i);
    }
  }

  /** A categorical position picked as the float `j` decodes to the `j`-th original value. */
  lemma CategoricalDecode(name: Value, strs: StrConfigs, j: nat)
    requires name in strs && j < |strs[name]|
    ensures DecodeValue(name, Float(j as real), strs) == Ok(CheckInt(strs[name][j]))
  {
    assert IntegralFloat(Float(j as real));
  }

  /** The categorical example: with values ["a", "b", "c"], position 1 decodes to "b". */
  lemma CategoricalExample(name: Value)
    ensures DecodeValue(name, Float(1.0), map[name := [Str("a"), Str("b"), Str("c")]]) == Ok(Str("b"))
  {
    CategoricalDecode(name, map[name := [Str("a"), Str("b"), Str("c")]], 1);
  }

  /** The values a numeric domain offers the optimiser. */
  function Elements(domain: Value): seq<Value> {
    match domain
    case List(xs) => xs
    case Array(xs) => xs
    case _ => []
  }

  /** The float the optimiser hands back for a domain element. */
  function AsFloat(v: Value): Value {
    match v
    case Int(i) => Float(i as real)
    case _ => v
  }

  /** The optimiser's coordinate `x` is (the float form of) an element of the bound's domain. */
  predicate PicksFromDomain(b: Bound, x: Value) {
    "domain" in b && exists e :: e in Elements(b["domain"]) && x == AsFloat(e)
  }

  /** No two bounds share a name. */
  predicate DistinctNames(bounds: seq<Bound>) {
    forall i, j :: 0 <= i < j < |bounds| && "name" in bounds[i] && "name" in bounds[j] ==>
      bounds[i]["name"] != bounds[j]["name"]
  }

  /** In a translation with distinct names, a name in the categorical index
      table belongs to a bound whose domain is the positions of its recorded values. */
  lemma {:induction false} CategoricalBound(grid: Grid, n: int, draw: Sampler, i: nat)
    requires Translate(grid, n, draw).Ok?
    requires DistinctNames(Translate(grid, n, draw).value.bounds)
    requires i < |Translate(grid, n, draw).value.bounds|
    ensures WellFormed(Translate(grid, n, draw).value.bounds[i])
    ensures var tr := Translate(grid, n, draw).value;
            tr.bounds[i]["name"] in tr.strConfigs ==>
              tr.bounds[i]["domain"] == Array(Arange(|tr.strConfigs[tr.bounds[i]["name"]]|))
  {
    var tr := Translate(grid, n, draw).value;
    var bs, strs := tr.bounds, tr.strConfigs;
    var es := GridEntries(grid).value;
    TranslateEntriesShape(es, Body(n, draw));
    TranslateEntryCases(es[i], n, draw);
    var name := bs[i]["name"];
    if name in strs {
      TranslateEntriesTableKeys(es, Body(n, draw));
      var j :| 0 <= j < |es| && CategoricalAt(es, j, name, Body(n, draw));
      TranslateEntryCases(es[j], n, draw);
      assert j == i;
      forall j' | i < j' < |es| ensures !CategoricalAt(es, j', name, Body(n, draw)) {
        TranslateEntryCases(es[j'], n, draw);
      }
      TranslateEntriesTableValue(es, i, Body(n, draw));
    }
  }

  /** Position `i` of `row` decoded into `p`: a categorical name holds the
      original value at the picked position, any other name `_check_int` of
      the pick. */
  predicate DecodesAt(tr: Translation, row: seq<Value>, p: map<Value, Value>, i: nat)
    requires Named(tr.bounds) && i < |tr.bounds| <= |row|
  {
    var name := tr.bounds[i]["name"];
    && name in p
    && (name !in tr.strConfigs ==> p[name] == CheckInt(row[i]))
    && (name in tr.strConfigs ==>
          exists k :: 0 <= k < |tr.strConfigs[name]| && row[i] == Float(k as real)
                      && p[name] == CheckInt(tr.strConfigs[name][k]))
  }

  /** Round trip of the two halves: every point of the domain that
      `_check_bounds` builds (with distinct parameter names) decodes, and each
      parameter receives the value at its position, a categorical one the
      original value at the picked index. */
  lemma {:induction false} TranslatedPointsDecode(grid: Grid, n: int, draw: Sampler, row: seq<Value>)
    requires Translate(grid, n, draw).Ok?
    requires DistinctNames(Translate(grid, n, draw).value.bounds)
    requires |Translate(grid, n, draw).value.bounds| <= |row|
    requires forall i :: 0 <= i < |Translate(grid, n, draw).value.bounds| ==>
               PicksFromDomain(Translate(grid, n, draw).value.bounds[i], row[i])
    ensures Named(Translate(grid, n, draw).value.bounds)
    ensures FeedParams(Translate(grid, n, draw).value.bounds, row, Translate(grid, n, draw).value.strConfigs,
                       |Translate(grid, n, draw).value.bounds|).Ok?
    ensures var tr := Translate(grid, n, draw).value;
            var p := FeedParams(tr.bounds, row, tr.strConfigs, |tr.bounds|).value;
            forall i :: 0 <= i < |tr.bounds| ==> DecodesAt(tr, row, p, i)
  {
    var tr := Translate(grid, n, draw).value;
    var bs, strs := tr.bounds, tr.strConfigs;
    forall i | 0 <= i < |bs| ensures WellFormed(bs[i]) {
      CategoricalBound(grid, n, draw, i);
    }
    forall i | 0 <= i < |bs| ensures DecodeValue(bs[i]["name"], row[i], strs).Ok? {
      var name := bs[i]["name"];
      if name in strs {
        CategoricalBound(grid, n, draw, i);
        var e :| e in Elements(bs[i]["domain"]) && row[i] == AsFloat(e);
        var k :| 0 <= k < |strs[name]| && e == Int(k);
        CategoricalDecode(name, strs, k);
      }
    }
    FeedParamsOk(bs, row, strs, |bs|);
    var p := FeedParams(bs, row, strs, |bs|).value;
    forall i | 0 <= i < |bs| ensures DecodesAt(tr, row, p, i) {
      var name := bs[i]["name"];
      FeedParamsValue(bs, row, strs, |bs|, i);
      if name in strs {
        CategoricalBound(grid, n, draw, i);
        var e :| e in Elements(bs[i]["domain"]) && row[i] == AsFloat(e);
        var k :| 0 <= k < |strs[name]| && e == Int(k);
        CategoricalDecode(name, strs, k);
      }
    }
  }
}
