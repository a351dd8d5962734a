/** The Python values that the search code inspects, the exceptions it raises,
    and the few string and integer helpers the other modules share. */
module Values {

  datatype Option<+T> = None | Some(value: T)

  /** The exception classes raised along the modelled paths, with their message
      (or, for KeyError, the missing key). */
  datatype Error =
    | TypeError(msg: string)
    | ValueError(msg: string)
    | KeyError(key: string)
    | IndexError(msg: string)
    | AttributeError(msg: string)

  /** Either a value or the exception that ended the computation. */
  datatype Result<+T> = Ok(value: T) | Err(error: Error) {
    predicate IsFailure() {
      Err?
    }

    function PropagateFailure<U>(): Result<U>
      requires Err?
    {
      Err(error)
    }

    function Extract(): T
      requires Ok?
    {
      value
    }
  }

  /** A Python object as far as the search code looks at it.
      - Float: a finite float, as its exact real value (NaN and infinities are not modelled);
      - List: a Python `list`;
      - Array: any other finite iterable sequence (a tuple, a `range`, a numpy array);
      - Dict: a mapping with string keys;
      - Dist: an object with an `rvs` sampling method (a scipy distribution);
      - Obj: any other object (an estimator, a callable, a splitter). */
  datatype Value =
    | Int(i: int)
    | Float(x: real)
    | Str(s: string)
    | Bool(b: bool)
    | NoneVal
    | List(items: seq<Value>)
    | Array(elems: seq<Value>)
    | Dict(entries: map<string, Value>)
    | Dist(id: nat)
    | Obj(id: nat)

  /** Python truthiness (`bool(v)`); a sequence-like Array counts as a tuple does. */
  predicate Truthy(v: Value) {
    match v
    case Int(i) => i != 0
    case Float(x) => x != 0.0
    case Str(s) => s != []
    case Bool(b) => b
    case NoneVal => false
    case List(xs) => xs != []
    case Array(xs) => xs != []
    case Dict(m) => m != map[]
    case Dist(_) => true
    case Obj(_) => true
  }

  /** `isinstance(v, collections.abc.Iterable)`. */
  predicate Iterable(v: Value) {
    v.Str? || v.List? || v.Array? || v.Dict?
  }

  /** `np.arange(n)`: the integers 0 .. n-1 in order. */
  function Arange(n: nat): (r: seq<Value>)
    ensures |r| == n
    ensures forall i :: 0 <= i < n ==> r[i] == Int(i)
  {
    seq(n, i => Int(i))
  }

  /** `s.endswith(suffix)`. */
  predicate EndsWith(s: string, suffix: string) {
    |suffix| <= |s| && s[|s| - |suffix|..] == suffix
  }

  function DigitChar(d: nat): (c: char)
    requires d < 10
  {
    ('0' as int + d) as char
  }

  /** The decimal form of a natural number, as Python's `str` or an f-string gives it. */
  function NatToString(n: nat): (s: string)
    ensures 1 <= |s|
    ensures forall k :: 0 <= k < |s| ==> '0' <= s[k] <= '9'
    ensures n < 10 <==> |s| == 1
  {
    if n < 10 then [DigitChar(n)] else NatToString(n / 10) + [DigitChar(n % 10)]
  }

  /** Distinct numbers have distinct decimal forms. */
  lemma {:induction false} NatToStringInjective(a: nat, b: nat)
    requires NatToString(a) == NatToString(b)
    ensures a == b
  {
    if a >= 10 && b >= 10 {
      var sa, sb := NatToString(a), NatToString(b);
      assert sa[|sa| - 1] == DigitChar(a % 10) && sb[|sb| - 1] == DigitChar(b % 10);
      assert sa[..|sa| - 1] == NatToString(a / 10);
      assert sb[..|sb| - 1] == NatToString(b / 10);
      NatToStringInjective(a / 10, b / 10);
    }
  }
}
