/** Parsed JSON values as Python's json module hands them to the translator,
    with the two Python idioms the translator applies to them: `d.get(k)` and
    truthiness. */
module Payload {

  datatype Option<+T> = None | Some(value: T)

  /** A parsed JSON value. A number without a fraction or exponent is a Python
      int, any other number a float; the two render differently (`1` against
      `1.0`). An object is a dict, looked up only by fixed keys, so a map
      suffices. */
  datatype Json =
    | Null
    | Bool(b: bool)
    | Int(i: int)
    | Float(x: real)
    | Str(s: string)
    | Arr(items: seq<Json>)
    | Obj(fields: map<string, Json>)

  /** `d.get(k)`: the stored value, or None (a JSON null) when `k` is absent. */
  function Get(d: map<string, Json>, k: string): Json
  {
    if k in d then d[k] else Null
  }

  /** Python truthiness of a parsed JSON value (`if t.get("ok"):`). */
  predicate Truthy(v: Json)
  {
    match v
    case Null => false
    case Bool(b) => b
    case Int(i) => i != 0
    case Float(x) => x != 0.0
    case Str(s) => s != ""
    case Arr(items) => items != []
    case Obj(fields) => fields != map[]
  }
}

/** The early-return search loop the extraction heuristics are built from. */
module Search {
  import opened Payload

  /** The first `Some` that `f` gives along `xs`, or `None` when every element
      gives `None`: a `for` loop that returns on its first hit. */
  function FirstSome<T, U>(xs: seq<T>, f: T -> Option<U>): (r: Option<U>)
    ensures r.None? <==> forall i :: 0 <= i < |xs| ==> f(xs[i]).None?
    ensures r.Some? ==>
      exists i :: 0 <= i < |xs| && f(xs[i]) == r && forall j :: 0 <= j < i ==> f(xs[j]).None?
    decreases |xs|
  {
    if |xs| == 0 then None
    else match f(xs[0])
      case Some(v) => Some(v)
      case None => FirstSome(xs[1..], f)
  }

  /** The hit at index `i`, with misses before it, is what FirstSome returns. */
  lemma FirstHitWins<T, U>(xs: seq<T>, f: T -> Option<U>, i: nat)
    requires i < |xs| && f(xs[i]).Some?
    requires forall j :: 0 <= j < i ==> f(xs[j]).None?
    ensures FirstSome(xs, f) == f(xs[i])
  {
    // The hit FirstSome reports has only misses before it, so it can be
    // neither before nor after `i`.
    assert FirstSome(xs, f).Some? by {
      assert !f(xs[i]).None?;
    }
    var k :| 0 <= k < |xs| && f(xs[k]) == FirstSome(xs, f) && forall j :: 0 <= j < k ==> f(xs[j]).None?;
    assert !(i < k);
    assert !(k < i);
  }
}
