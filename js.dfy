/** The few pieces of JavaScript semantics the components rely on:
    optional values, truthiness, the nullish-coalescing operator `??`,
    and the array methods `find` and `filter`. */
module Js {

  datatype Option<+T> = None | Some(value: T) {
    /** `x ?? d` for an optional value. */
    function GetOr(default: T): T {
      match this
      case Some(v) => v
      case None => default
    }
  }

  /** A router query parameter: undefined, or a string. */
  type QueryParam = Option<string>

  /** JavaScript truthiness of an optional string: undefined and "" are falsy. */
  predicate Present(q: Option<string>) {
    q.Some? && q.value != ""
  }

  /** The primitive JavaScript values the model needs (numbers are integers here). */
  datatype JsValue = Undefined | Null | Bool(b: bool) | Num(n: int) | Str(s: string)

  predicate Truthy(v: JsValue) {
    match v
    case Undefined => false
    case Null => false
    case Bool(b) => b
    case Num(n) => n != 0
    case Str(s) => s != ""
  }

  predicate Nullish(v: JsValue) {
    v.Undefined? || v.Null?
  }

  /** The operator `a ?? b`. */
  function Coalesce(a: JsValue, b: JsValue): JsValue {
    if Nullish(a) then b else a
  }

  /** A `string | null` field as a JavaScript value. */
  function Nullable(o: Option<string>): JsValue {
    match o
    case None => Null
    case Some(s) => Str(s)
  }

  /** The index `Array.prototype.find` stops at: the first element satisfying `p`. */
  function FindIndex<T>(s: seq<T>, p: T -> bool): (r: Option<nat>)
    ensures r.Some? ==> r.value < |s| && p(s[r.value])
    ensures r.Some? ==> forall j :: 0 <= j < r.value ==> !p(s[j])
    ensures r.None? <==> forall j :: 0 <= j < |s| ==> !p(s[j])
  {
    if s == [] then None
    else if p(s[0]) then Some(0)
    else match FindIndex(s[1..], p)
         case None => None
         case Some(k) => Some(k + 1)
  }

  /** `Array.prototype.find`: the first element satisfying `p`, or undefined. */
  function Find<T>(s: seq<T>, p: T -> bool): (r: Option<T>)
    ensures r.None? <==> forall j :: 0 <= j < |s| ==> !p(s[j])
    ensures r.Some? ==> exists k :: 0 <= k < |s| && r.value == s[k] && p(s[k]) && forall j :: 0 <= j < k ==> !p(s[j])
  {
    match FindIndex(s, p)
    case None => None
    case Some(k) => Some(s[k])
  }

  /** `Array.prototype.filter`. */
  function Filter<T>(s: seq<T>, p: T -> bool): (r: seq<T>)
    ensures |r| <= |s|
    ensures forall i :: 0 <= i < |r| ==> r[i] in s && p(r[i])
    ensures forall i :: 0 <= i < |s| && p(s[i]) ==> s[i] in r
  {
    if s == [] then [] else (if p(s[0]) then [s[0]] else []) + Filter(s[1..], p)
  }

  /** Filtering distributes over concatenation; together with the one-element
      case this pins down the order of the kept elements. */
  lemma {:induction false} FilterAppend<T>(a: seq<T>, b: seq<T>, p: T -> bool)
    ensures Filter(a + b, p) == Filter(a, p) + Filter(b, p)
  {
    if a == [] {
      assert a + b == b;
    } else {
      assert (a + b)[1..] == a[1..] + b;
      FilterAppend(a[1..], b, p);
    }
  }

  /** Every kept element occurs exactly as often as in the input; every
      dropped element not at all. */
  lemma {:induction false} FilterMultiplicity<T>(s: seq<T>, p: T -> bool, x: T)
    ensures multiset(Filter(s, p))[x] == if p(x) then multiset(s)[x] else 0
  {
    if s != [] {
      FilterMultiplicity(s[1..], p, x);
      assert s == [s[0]] + s[1..];
      assert multiset(s) == multiset([s[0]]) + multiset(s[1..]);
    }
  }

  /** `filter` keeps something exactly when some element satisfies `p`. */
  lemma {:induction false} FilterNonEmpty<T>(s: seq<T>, p: T -> bool)
    ensures |Filter(s, p)| > 0 <==> exists i :: 0 <= i < |s| && p(s[i])
  {
    if s != [] {
      FilterNonEmpty(s[1..], p);
      if p(s[0]) {
        assert p(s[0]);
      } else if exists i :: 0 <= i < |s| && p(s[i]) {
        var i :| 0 <= i < |s| && p(s[i]);
        assert p(s[1..][i - 1]);
      }
    }
  }

  /** `filter` keeps two or more elements exactly when two distinct
      positions satisfy `p`. */
  lemma FilterAtLeastTwo<T>(s: seq<T>, p: T -> bool)
    ensures |Filter(s, p)| > 1 <==> exists i, j :: 0 <= i < j < |s| && p(s[i]) && p(s[j])
  {
    if exists i, j :: 0 <= i < j < |s| && p(s[i]) && p(s[j]) {
      var i, j :| 0 <= i < j < |s| && p(s[i]) && p(s[j]);
      TwoFromPair(s, p, i, j);
    }
    if |Filter(s, p)| > 1 {
      var i, j := PairFromTwo(s, p);
    }
  }

  lemma {:induction false} TwoFromPair<T>(s: seq<T>, p: T -> bool, i: nat, j: nat)
    requires i < j < |s| && p(s[i]) && p(s[j])
    ensures |Filter(s, p)| > 1
  {
    var t := s[1..];
    assert |Filter(s, p)| == (if p(s[0]) then 1 else 0) + |Filter(t, p)|;
    if i == 0 {
      FilterNonEmpty(t, p);
      assert p(t[j - 1]);
    } else {
      TwoFromPair(t, p, i - 1, j - 1);
    }
  }

  lemma {:induction false} PairFromTwo<T>(s: seq<T>, p: T -> bool) returns (i: nat, j: nat)
    requires |Filter(s, p)| > 1
    ensures i < j < |s| && p(s[i]) && p(s[j])
  {
    var t := s[1..];
    assert |Filter(s, p)| == (if p(s[0]) then 1 else 0) + |Filter(t, p)|;
    if p(s[0]) {
      FilterNonEmpty(t, p);
      var k :| 0 <= k < |t| && p(t[k]);
      i, j := 0, k + 1;
    } else {
      var i', j' := PairFromTwo(t, p);
      i, j := i' + 1, j' + 1;
    }
  }

  /** `find` with two predicates that agree on every element finds the same element. */
  lemma {:induction false} FindCongruent<T>(s: seq<T>, p: T -> bool, q: T -> bool)
    requires forall i :: 0 <= i < |s| ==> p(s[i]) == q(s[i])
    ensures Find(s, p) == Find(s, q)
  {
    FindIndexCongruent(s, p, q);
  }

  lemma {:induction false} FindIndexCongruent<T>(s: seq<T>, p: T -> bool, q: T -> bool)
    requires forall i :: 0 <= i < |s| ==> p(s[i]) == q(s[i])
    ensures FindIndex(s, p) == FindIndex(s, q)
  {
    if s != [] && !p(s[0]) {
      FindIndexCongruent(s[1..], p, q);
    }
  }
}
