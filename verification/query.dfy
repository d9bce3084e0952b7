/** The two read shapes the handlers use against the record store: a
    filtered `count` and a filtered `.single()`, which yields a row only
    when the filter matches exactly one row (zero or several matches come
    back as an error the handlers read as "no row"). */
module Query {
  import opened Common

  /** The positions of the rows of `xs` that satisfy `p`, in increasing order. */
  function Indices<T>(xs: seq<T>, p: T -> bool): (r: seq<nat>)
    ensures forall k :: 0 <= k < |r| ==> r[k] < |xs| && p(xs[r[k]])
    ensures forall i :: 0 <= i < |xs| && p(xs[i]) ==> i in r
    ensures forall a, b :: 0 <= a < b < |r| ==> r[a] < r[b]
    ensures |r| <= |xs|
    decreases |xs|
  {
    if xs == [] then []
    else
      var front := Indices(xs[..|xs| - 1], p);
      assert forall k :: 0 <= k < |front| ==> xs[..|xs| - 1][front[k]] == xs[front[k]];
      if p(xs[|xs| - 1]) then front + [|xs| - 1] else front
  }

  /** The filtered `count` of a query. */
  function Count<T>(xs: seq<T>, p: T -> bool): nat {
    |Indices(xs, p)|
  }

  /** `.single()`: the one matching row, or None when zero or several match. */
  function Single<T>(xs: seq<T>, p: T -> bool): (r: Option<nat>)
    ensures r.Some? ==> r.value < |xs| && p(xs[r.value])
    ensures r.Some? ==> forall j :: 0 <= j < |xs| && j != r.value ==> !p(xs[j])
    ensures r.None? ==> Count(xs, p) != 1
    ensures r.Some? <==> Count(xs, p) == 1
  {
    var ix := Indices(xs, p);
    if |ix| == 1 then Some(ix[0]) else None
  }

  /** No row matches exactly when the count is zero. */
  lemma CountZero<T>(xs: seq<T>, p: T -> bool)
    ensures Count(xs, p) == 0 <==> forall i :: 0 <= i < |xs| ==> !p(xs[i])
  {
    var ix := Indices(xs, p);
    if Count(xs, p) != 0 {
      assert p(xs[ix[0]]);
    }
  }

  /** Appending a row adds one to the count iff the row matches. */
  lemma {:induction false} CountAppend<T>(xs: seq<T>, x: T, p: T -> bool)
    ensures Count(xs + [x], p) == Count(xs, p) + (if p(x) then 1 else 0)
  {
    assert (xs + [x])[..|xs + [x]| - 1] == xs;
  }
}
