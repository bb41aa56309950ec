/**
 * The shape shared by the line readers: a loop that looks at each element in turn and appends
 * what it makes of it, when it makes anything.
 */
module Lists {
  import opened Wrappers

  /** What `f` makes of each element of `xs`, in order, leaving out the elements it rejects. */
  function FilterMap<A, B>(xs: seq<A>, f: A -> Option<B>): seq<B>
    decreases |xs|
  {
    if |xs| == 0 then []
    else FilterMap(xs[..|xs| - 1], f) + (match f(xs[|xs| - 1]) case None => [] case Some(b) => [b])
  }

  /** One more element: the loop step. */
  lemma FilterMapSnoc<A, B>(xs: seq<A>, x: A, f: A -> Option<B>)
    ensures FilterMap(xs + [x], f) == FilterMap(xs, f) + (match f(x) case None => [] case Some(b) => [b])
  {
    assert (xs + [x])[..|xs|] == xs;
  }

  /** The loop step phrased over prefixes: taking one more element of `xs`. */
  lemma FilterMapPrefix<A, B>(xs: seq<A>, i: nat, f: A -> Option<B>)
    requires i < |xs|
    ensures FilterMap(xs[..i + 1], f) == FilterMap(xs[..i], f) + (match f(xs[i]) case None => [] case Some(b) => [b])
  {
    assert xs[..i + 1] == xs[..i] + [xs[i]];
    FilterMapSnoc(xs[..i], xs[i], f);
  }

  /** Every output comes from some element. */
  lemma {:induction false} FilterMapSound<A, B>(xs: seq<A>, f: A -> Option<B>)
    decreases |xs|
    ensures |FilterMap(xs, f)| <= |xs|
    ensures forall k :: 0 <= k < |FilterMap(xs, f)| ==> exists j :: 0 <= j < |xs| && f(xs[j]) == Some(FilterMap(xs, f)[k])
  {
    if |xs| > 0 {
      var init := xs[..|xs| - 1];
      FilterMapSound(init, f);
      var out := FilterMap(xs, f);
      forall k | 0 <= k < |out| ensures exists j :: 0 <= j < |xs| && f(xs[j]) == Some(out[k]) {
        if k < |FilterMap(init, f)| {
          assert out[k] == FilterMap(init, f)[k];
          var j :| 0 <= j < |init| && f(init[j]) == Some(FilterMap(init, f)[k]);
          assert xs[j] == init[j];
        } else {
          assert f(xs[|xs| - 1]) == Some(out[k]);
        }
      }
    }
  }

  /** Every element that is not rejected contributes its output. */
  lemma {:induction false} FilterMapComplete<A, B>(xs: seq<A>, f: A -> Option<B>)
    decreases |xs|
    ensures forall j :: 0 <= j < |xs| && f(xs[j]).Some? ==> f(xs[j]).value in FilterMap(xs, f)
  {
    if |xs| > 0 {
      var init := xs[..|xs| - 1];
      FilterMapComplete(init, f);
      forall j | 0 <= j < |xs| && f(xs[j]).Some? ensures f(xs[j]).value in FilterMap(xs, f) {
        if j < |init| {
          assert xs[j] == init[j];
        }
      }
    }
  }
}
