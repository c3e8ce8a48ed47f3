/** Python's `zip`, `dict(pairs)`, the slice `[1::2]`, and a loop that
    converts every element of a list and stops at the first exception. */
module Collections {
  import opened Wrappers

  /** Python's `zip(ks, vs)`: pairs up to the shorter of the two. */
  function Zip<K, V>(ks: seq<K>, vs: seq<V>): (r: seq<(K, V)>)
    ensures |r| == if |ks| < |vs| then |ks| else |vs|
    ensures forall i :: 0 <= i < |r| ==> r[i] == (ks[i], vs[i])
  {
    if |ks| == 0 || |vs| == 0 then [] else [(ks[0], vs[0])] + Zip(ks[1..], vs[1..])
  }

  /** Python's `dict(pairs)`: the pairs are entered in order, so a later pair
      overwrites an earlier one with the same key. */
  function DictOf<K, V>(pairs: seq<(K, V)>): map<K, V> {
    if |pairs| == 0 then map[]
    else DictOf(pairs[..|pairs| - 1])[pairs[|pairs| - 1].0 := pairs[|pairs| - 1].1]
  }

  /** The keys of `dict(pairs)` are exactly the first components. */
  lemma {:induction false} DictOfKeys<K, V>(pairs: seq<(K, V)>)
    ensures DictOf(pairs).Keys == set i | 0 <= i < |pairs| :: pairs[i].0
  {
    if |pairs| > 0 {
      var n := |pairs| - 1;
      DictOfKeys(pairs[..n]);
      assert forall i :: 0 <= i < n ==> pairs[..n][i] == pairs[i];
      assert (set i | 0 <= i < |pairs| :: pairs[i].0)
          == (set i | 0 <= i < n :: pairs[..n][i].0) + {pairs[n].0};
    }
  }

  /** Every entry of `dict(pairs)` is one of the pairs. */
  lemma {:induction false} DictOfFrom<K, V>(pairs: seq<(K, V)>, k: K)
    requires k in DictOf(pairs)
    ensures exists i :: 0 <= i < |pairs| && pairs[i] == (k, DictOf(pairs)[k])
  {
    var n := |pairs| - 1;
    if pairs[n].0 != k {
      DictOfFrom(pairs[..n], k);
      var i :| 0 <= i < n && pairs[..n][i] == (k, DictOf(pairs[..n])[k]);
      assert pairs[i] == pairs[..n][i];
    }
  }

  /** A pair that no later pair overwrites gives the value of its key. */
  lemma {:induction false} DictOfLastWins<K, V>(pairs: seq<(K, V)>, i: nat)
    requires i < |pairs|
    requires forall j :: i < j < |pairs| ==> pairs[j].0 != pairs[i].0
    ensures pairs[i].0 in DictOf(pairs) && DictOf(pairs)[pairs[i].0] == pairs[i].1
  {
    var n := |pairs| - 1;
    if i < n {
      assert pairs[..n][i] == pairs[i];
      DictOfLastWins(pairs[..n], i);
    }
  }

  /** No element occurs twice. */
  predicate Distinct<T(==)>(s: seq<T>) {
    forall i, j :: 0 <= i < j < |s| ==> s[i] != s[j]
  }

  /** Appending a new element keeps the elements distinct. */
  lemma DistinctSnoc<T>(s: seq<T>, x: T)
    requires Distinct(s) && x !in s
    ensures Distinct(s + [x])
  {
  }

  /** `dict(zip(ks, vs))` with distinct keys: the keys are the first
      `min(|ks|, |vs|)` of `ks`, each paired with the value at its position. */
  lemma ZipDict<K, V>(ks: seq<K>, vs: seq<V>)
    requires Distinct(ks)
    ensures var n := if |ks| < |vs| then |ks| else |vs|;
      DictOf(Zip(ks, vs)).Keys == (set i | 0 <= i < n :: ks[i])
      && forall i :: 0 <= i < n ==> DictOf(Zip(ks, vs))[ks[i]] == vs[i]
  {
    var z := Zip(ks, vs);
    DictOfKeys(z);
    assert (set i | 0 <= i < |z| :: z[i].0) == set i | 0 <= i < |z| :: ks[i];
    forall i | 0 <= i < |z|
      ensures DictOf(z)[ks[i]] == vs[i]
    {
      DictOfLastWins(z, i);
    }
  }

  /** Python's `s[1::2]`: the elements at odd positions. */
  function OddIndexed<T>(s: seq<T>): (r: seq<T>)
    ensures |r| == |s| / 2
    ensures forall k :: 0 <= k < |r| ==> r[k] == s[2 * k + 1]
  {
    if |s| < 2 then [] else [s[1]] + OddIndexed(s[2..])
  }

  /** Elements already converted, put in front of the outcome of the rest. */
  function Prepend<T>(xs: seq<T>, rest: Result<seq<T>>): Result<seq<T>> {
    match rest
    case Raised => Raised
    case Ok(ys) => Ok(xs + ys)
  }

  /** Nothing in front leaves the outcome alone. */
  lemma PrependNothing<T>(rest: Result<seq<T>>)
    ensures Prepend([], rest) == rest
  {
    if rest.Ok? {
      assert [] + rest.value == rest.value;
    }
  }

  /** Putting `xs` and then `ys` in front is putting `xs + ys` in front. */
  lemma PrependTwice<T>(xs: seq<T>, ys: seq<T>, rest: Result<seq<T>>)
    ensures Prepend(xs, Prepend(ys, rest)) == Prepend(xs + ys, rest)
  {
    if rest.Ok? {
      assert xs + (ys + rest.value) == (xs + ys) + rest.value;
    }
  }

  /** `[f(x) for x in xs]` where `f` may raise: the first exception aborts. */
  function MapAll<A, B>(f: A -> Result<B>, xs: seq<A>): Result<seq<B>> {
    if |xs| == 0 then Ok([])
    else
      match f(xs[0])
      case Raised => Raised
      case Ok(y) => Prepend([y], MapAll(f, xs[1..]))
  }

  /** The conversion fails exactly when some element fails. */
  lemma {:induction false} MapAllOk<A, B>(f: A -> Result<B>, xs: seq<A>)
    ensures MapAll(f, xs).Ok? <==> forall i :: 0 <= i < |xs| ==> f(xs[i]).Ok?
  {
    if |xs| > 0 {
      MapAllOk(f, xs[1..]);
      assert forall i :: 1 <= i < |xs| ==> xs[1..][i - 1] == xs[i];
    }
  }

  /** A successful conversion keeps the length and converts element `i` to
      result `i`. */
  lemma {:induction false} MapAllAt<A, B>(f: A -> Result<B>, xs: seq<A>, i: nat)
    requires MapAll(f, xs).Ok? && i < |xs|
    ensures |MapAll(f, xs).value| == |xs|
    ensures f(xs[i]).Ok? && MapAll(f, xs).value[i] == f(xs[i]).value
  {
    if i == 0 {
      if |xs| > 1 {
        MapAllAt(f, xs[1..], 0);
      }
    } else {
      assert xs[1..][i - 1] == xs[i];
      MapAllAt(f, xs[1..], i - 1);
    }
  }

  /** One more step of the loop: the suffix from `i` is the element at `i`
      followed by the suffix from `i + 1`. */
  lemma MapAllStep<A, B>(f: A -> Result<B>, xs: seq<A>, i: nat)
    requires i < |xs|
    ensures MapAll(f, xs[i..]) == match f(xs[i])
      case Raised => Raised
      case Ok(y) => Prepend([y], MapAll(f, xs[i + 1..]))
  {
    assert xs[i..][1..] == xs[i + 1..];
  }

  /** A loop that updates a state with each element in turn and stops at
      the first exception. */
  function FoldAll<S, A>(f: (S, A) -> Result<S>, s: S, xs: seq<A>): Result<S> {
    if |xs| == 0 then Ok(s)
    else
      match f(s, xs[0])
      case Raised => Raised
      case Ok(t) => FoldAll(f, t, xs[1..])
  }

  /** One more step of the loop. */
  lemma FoldAllStep<S, A>(f: (S, A) -> Result<S>, s: S, xs: seq<A>, i: nat)
    requires i < |xs|
    ensures FoldAll(f, s, xs[i..]) == match f(s, xs[i])
      case Raised => Raised
      case Ok(t) => FoldAll(f, t, xs[i + 1..])
  {
    assert xs[i..][0] == xs[i] && xs[i..][1..] == xs[i + 1..];
  }

  /** Elements that leave the state alone leave the whole loop alone. */
  lemma {:induction false} FoldAllIdle<S, A>(f: (S, A) -> Result<S>, s: S, xs: seq<A>)
    requires forall i :: 0 <= i < |xs| ==> f(s, xs[i]) == Ok(s)
    ensures FoldAll(f, s, xs) == Ok(s)
  {
    if |xs| > 0 {
      assert f(s, xs[0]) == Ok(s);
      assert forall i :: 0 <= i < |xs| - 1 ==> xs[1..][i] == xs[i + 1];
      FoldAllIdle(f, s, xs[1..]);
    }
  }
}
