/** The accumulation the library performs at every level of a search: a list
    `results` extended, in order, with what each step produces, where a step
    that raises aborts the whole loop. */
module Accumulate {
  import opened PyValues

  /** `results.extend(step)`: an exception raised so far, or by the step, wins. */
  function Then<T>(acc: Result<seq<T>>, step: Result<seq<T>>): Result<seq<T>> {
    if acc.Err? then acc else if step.Err? then step else Ok(acc.value + step.value)
  }

  /** Runs the steps in order from an empty list. */
  function Concat<T>(steps: seq<Result<seq<T>>>): Result<seq<T>>
    decreases |steps|
  {
    if |steps| == 0 then Ok([]) else Then(Concat(steps[..|steps| - 1]), steps[|steps| - 1])
  }

  function Flatten<T>(xss: seq<seq<T>>): seq<T>
    decreases |xss|
  {
    if |xss| == 0 then [] else Flatten(xss[..|xss| - 1]) + xss[|xss| - 1]
  }

  function SumLengths<T>(xss: seq<seq<T>>): nat
    decreases |xss|
  {
    if |xss| == 0 then 0 else SumLengths(xss[..|xss| - 1]) + |xss[|xss| - 1]|
  }

  function Map<X, Y>(f: X -> Y, xs: seq<X>): seq<Y> {
    seq(|xs|, i requires 0 <= i < |xs| => f(xs[i]))
  }

  predicate AllOk<T>(rs: seq<Result<T>>) {
    forall i :: 0 <= i < |rs| ==> rs[i].Ok?
  }

  function Values<T>(rs: seq<Result<T>>): seq<T>
    requires AllOk(rs)
  {
    seq(|rs|, i requires 0 <= i < |rs| => rs[i].value)
  }

  ghost predicate SortedBy<X>(xs: seq<X>, less: (X, X) -> bool) {
    forall i, k :: 0 <= i < k < |xs| ==> less(xs[i], xs[k])
  }

  /** The loop finishes normally exactly when no step raises, and then holds
      every step's output in step order. */
  lemma {:induction false} ConcatOk<T>(steps: seq<Result<seq<T>>>)
    ensures Concat(steps).Ok? <==> AllOk(steps)
    ensures AllOk(steps) ==> Concat(steps).value == Flatten(Values(steps))
    decreases |steps|
  {
    if |steps| > 0 {
      var n := |steps| - 1;
      var init := steps[..n];
      ConcatOk(init);
      if AllOk(steps) {
        assert AllOk(init);
        assert Values(steps)[..n] == Values(init);
      } else if AllOk(init) {
        assert !steps[n].Ok?;
      }
    }
  }

  /** When the loop raises, the exception is the one of the first step that raised. */
  lemma {:induction false} ConcatErr<T>(steps: seq<Result<seq<T>>>)
    requires Concat(steps).Err?
    ensures exists i :: 0 <= i < |steps| && steps[i] == Concat(steps) && AllOk(steps[..i])
    decreases |steps|
  {
    var n := |steps| - 1;
    var init := steps[..n];
    if Concat(init).Err? {
      ConcatErr(init);
      var i :| 0 <= i < |init| && init[i] == Concat(init) && AllOk(init[..i]);
      assert init[..i] == steps[..i];
    } else {
      ConcatOk(init);
      assert steps[..n] == init;
    }
  }

  /** Once a prefix of the steps has raised, the rest of the loop does not run. */
  lemma {:induction false} ConcatPrefixErr<T>(steps: seq<Result<seq<T>>>, n: nat)
    requires n <= |steps| && Concat(steps[..n]).Err?
    ensures Concat(steps) == Concat(steps[..n])
    decreases |steps|
  {
    if n < |steps| {
      var init := steps[..|steps| - 1];
      assert init[..n] == steps[..n];
      ConcatPrefixErr(init, n);
    } else {
      assert steps[..n] == steps;
    }
  }

  /** One more pass of the loop. */
  lemma ConcatStep<T>(steps: seq<Result<seq<T>>>, i: nat)
    requires i < |steps|
    ensures Concat(steps[..i + 1]) == Then(Concat(steps[..i]), steps[i])
  {
    assert steps[..i + 1][..i] == steps[..i];
  }

  /** Running two lists of steps one after the other. */
  lemma {:induction false} ConcatAppend<T>(xs: seq<Result<seq<T>>>, ys: seq<Result<seq<T>>>)
    ensures Concat(xs + ys) == Then(Concat(xs), Concat(ys))
    decreases |ys|
  {
    if |ys| == 0 {
      assert xs + ys == xs;
      if Concat(xs).Ok? {
        assert Concat(xs).value + [] == Concat(xs).value;
      }
    } else {
      var ys' := ys[..|ys| - 1];
      assert (xs + ys)[..|xs + ys| - 1] == xs + ys';
      assert (xs + ys)[|xs + ys| - 1] == ys[|ys| - 1];
      ConcatAppend(xs, ys');
      ThenAssoc(Concat(xs), Concat(ys'), ys[|ys| - 1]);
    }
  }

  lemma ThenAssoc<T>(a: Result<seq<T>>, b: Result<seq<T>>, c: Result<seq<T>>)
    ensures Then(Then(a, b), c) == Then(a, Then(b, c))
  {
    if a.Ok? && b.Ok? && c.Ok? {
      assert (a.value + b.value) + c.value == a.value + (b.value + c.value);
    }
  }

  /** Nested loops whose inner results are extended onto one list run the
      flattened list of inner steps. */
  lemma {:induction false} ConcatNested<T>(rss: seq<seq<Result<seq<T>>>>)
    ensures Concat(seq(|rss|, i requires 0 <= i < |rss| => Concat(rss[i]))) == Concat(Flatten(rss))
    decreases |rss|
  {
    if |rss| > 0 {
      var n := |rss| - 1;
      var init := rss[..n];
      ConcatNested(init);
      var outer := seq(|rss|, i requires 0 <= i < |rss| => Concat(rss[i]));
      assert outer[..n] == seq(|init|, i requires 0 <= i < |init| => Concat(init[i]));
      ConcatAppend(Flatten(init), rss[n]);
    }
  }

  lemma {:induction false} FlattenLength<T>(xss: seq<seq<T>>)
    ensures |Flatten(xss)| == SumLengths(xss)
    decreases |xss|
  {
    if |xss| > 0 {
      FlattenLength(xss[..|xss| - 1]);
    }
  }

  lemma {:induction false} FlattenMember<T>(xss: seq<seq<T>>, x: T)
    ensures x in Flatten(xss) <==> exists i :: 0 <= i < |xss| && x in xss[i]
    decreases |xss|
  {
    if |xss| > 0 {
      var n := |xss| - 1;
      FlattenMember(xss[..n], x);
      if x in Flatten(xss[..n]) {
        var i :| 0 <= i < n && x in xss[..n][i];
        assert x in xss[i];
      }
      if exists i :: 0 <= i < |xss| && x in xss[i] {
        var i :| 0 <= i < |xss| && x in xss[i];
        if i < n {
          assert x in xss[..n][i];
        }
      }
    }
  }

  lemma {:induction false} MapFlatten<X, Y>(f: X -> Y, xss: seq<seq<X>>)
    ensures Map(f, Flatten(xss)) == Flatten(seq(|xss|, i requires 0 <= i < |xss| => Map(f, xss[i])))
    decreases |xss|
  {
    var yss := seq(|xss|, i requires 0 <= i < |xss| => Map(f, xss[i]));
    if |xss| > 0 {
      var n := |xss| - 1;
      MapFlatten(f, xss[..n]);
      assert yss[..n] == seq(n, i requires 0 <= i < n => Map(f, xss[..n][i]));
      assert Map(f, Flatten(xss[..n]) + xss[n]) == Map(f, Flatten(xss[..n])) + Map(f, xss[n]);
    }
  }

  /** Blocks that are each sorted, every block entirely below the next, flatten to a sorted list. */
  lemma {:induction false} FlattenSorted<X>(xss: seq<seq<X>>, less: (X, X) -> bool)
    requires forall i :: 0 <= i < |xss| ==> SortedBy(xss[i], less)
    requires forall i, k, x, y :: 0 <= i < k < |xss| && x in xss[i] && y in xss[k] ==> less(x, y)
    ensures SortedBy(Flatten(xss), less)
    decreases |xss|
  {
    if |xss| > 0 {
      var n := |xss| - 1;
      var init := xss[..n];
      FlattenSorted(init, less);
      var a, b := Flatten(init), xss[n];
      forall i, k | 0 <= i < k < |a + b|
        ensures less((a + b)[i], (a + b)[k])
      {
        if k >= |a| && i < |a| {
          FlattenMember(init, a[i]);
          var j :| 0 <= j < |init| && a[i] in init[j];
          assert b[k - |a|] in xss[n];
        }
      }
    }
  }

  /** Steps that all produce nothing produce nothing together. */
  lemma {:induction false} ConcatNothing<T>(steps: seq<Result<seq<T>>>)
    requires forall k :: 0 <= k < |steps| ==> steps[k] == Ok([])
    ensures Concat(steps) == Ok([])
    decreases |steps|
  {
    if |steps| > 0 {
      ConcatNothing(steps[..|steps| - 1]);
      var none: seq<T> := [];
      assert none + none == none;
    }
  }

  /** Steps that can only raise e, one of which does, raise e together. */
  lemma {:induction false} ConcatSameErr<T>(steps: seq<Result<seq<T>>>, e: PyError)
    requires forall k :: 0 <= k < |steps| ==> steps[k].Ok? || steps[k] == Err(e)
    requires exists k :: 0 <= k < |steps| && steps[k] == Err(e)
    ensures Concat(steps) == Err(e)
  {
    ConcatOk(steps);
    ConcatErr(steps);
  }

  /** The indices of the steps that produce exactly one item, in step order. */
  function Singles<T>(steps: seq<Result<seq<T>>>): seq<nat>
    decreases |steps|
  {
    if |steps| == 0 then []
    else
      var n := |steps| - 1;
      Singles(steps[..n]) + (if steps[n].Ok? && |steps[n].value| == 1 then [n] else [])
  }

  lemma {:induction false} SinglesFacts<T>(steps: seq<Result<seq<T>>>)
    ensures forall i :: i in Singles(steps) <==> 0 <= i < |steps| && steps[i].Ok? && |steps[i].value| == 1
    ensures forall k, l :: 0 <= k < l < |Singles(steps)| ==> Singles(steps)[k] < Singles(steps)[l]
    decreases |steps|
  {
    if |steps| > 0 {
      var n := |steps| - 1;
      SinglesFacts(steps[..n]);
      var init := Singles(steps[..n]);
      forall k | 0 <= k < |init| ensures init[k] < n {
        assert init[k] in init;
      }
    }
  }

  /** A loop whose every step produces at most one item and none raises: item k
      comes from the k-th step that produces one. */
  lemma {:induction false} ConcatSingles<T>(steps: seq<Result<seq<T>>>)
    requires AllOk(steps) && forall i :: 0 <= i < |steps| ==> |steps[i].value| <= 1
    ensures var xs := Flatten(Values(steps));
            var idx := Singles(steps);
            |xs| == |idx| && forall k :: 0 <= k < |xs| ==> idx[k] < |steps| && steps[idx[k]] == Ok([xs[k]])
    decreases |steps|
  {
    if |steps| > 0 {
      var n := |steps| - 1;
      var init := steps[..n];
      assert Values(steps)[..n] == Values(init);
      ConcatSingles(init);
      assert Flatten(Values(steps)) == Flatten(Values(init)) + steps[n].value;
      SinglesFacts(init);
      var xs0, idx0 := Flatten(Values(init)), Singles(init);
      var xs, idx := Flatten(Values(steps)), Singles(steps);
      forall k | 0 <= k < |xs| ensures idx[k] < |steps| && steps[idx[k]] == Ok([xs[k]]) {
        if k < |xs0| {
          assert idx0[k] in idx0;
          assert xs[k] == xs0[k] && idx[k] == idx0[k];
          assert steps[idx0[k]] == init[idx0[k]];
        } else {
          assert |xs| == |xs0| + |steps[n].value|;
          assert steps[n].value == [steps[n].value[0]];
        }
      }
    }
  }

  /** The elements of xs that `keep` selects, in order. */
  function Filter<X>(keep: X -> bool, xs: seq<X>): seq<X>
    decreases |xs|
  {
    if |xs| == 0 then []
    else
      var n := |xs| - 1;
      Filter(keep, xs[..n]) + (if keep(xs[n]) then [xs[n]] else [])
  }

  /** A loop over xs whose step yields one item for a selected element and none
      for the others: item k comes from the k-th selected element. */
  lemma {:induction false} FlattenSelected<X, T>(f: X -> Result<seq<T>>, keep: X -> bool, xs: seq<X>)
    requires AllOk(Map(f, xs))
    requires forall i :: 0 <= i < |xs| ==> f(xs[i]).Ok? && |f(xs[i]).value| == if keep(xs[i]) then 1 else 0
    ensures var rs := Flatten(Values(Map(f, xs)));
            var hs := Filter(keep, xs);
            |rs| == |hs| && forall k :: 0 <= k < |rs| ==> f(hs[k]) == Ok([rs[k]])
    decreases |xs|
  {
    if |xs| > 0 {
      var n := |xs| - 1;
      var init := xs[..n];
      var steps := Map(f, xs);
      assert steps[..n] == Map(f, init);
      assert Values(steps)[..n] == Values(Map(f, init));
      FlattenSelected(f, keep, init);
      var r := f(xs[n]);
      assert steps[n] == r;
      var rs0, hs0 := Flatten(Values(Map(f, init))), Filter(keep, init);
      var rs, hs := Flatten(Values(steps)), Filter(keep, xs);
      assert rs == rs0 + r.value;
      assert hs == hs0 + (if keep(xs[n]) then [xs[n]] else []);
      forall k | 0 <= k < |rs| ensures f(hs[k]) == Ok([rs[k]]) {
        if k < |rs0| {
          assert rs[k] == rs0[k] && hs[k] == hs0[k];
        } else {
          assert r.value == [rs[k]] && hs[k] == xs[n];
        }
      }
    }
  }

  /** `[f(x) for x in xs]` where f can raise: the first element that raises aborts the list. */
  function TryMap<X, Y>(f: X -> Result<Y>, xs: seq<X>): (r: Result<seq<Y>>)
    ensures r.Ok? <==> forall i :: 0 <= i < |xs| ==> f(xs[i]).Ok?
    ensures r.Ok? ==> |r.value| == |xs| && forall i :: 0 <= i < |xs| ==> f(xs[i]) == Ok(r.value[i])
    ensures r.Err? ==> exists i :: 0 <= i < |xs| && f(xs[i]) == Err(r.error)
                                   && forall j :: 0 <= j < i ==> f(xs[j]).Ok?
    decreases |xs|
  {
    if |xs| == 0 then Ok([])
    else
      var n := |xs| - 1;
      var prefix := xs[..n];
      var init := TryMap(f, prefix);
      var last := f(xs[n]);
      assert forall i :: 0 <= i < n ==> prefix[i] == xs[i];
      if init.Err? then init
      else if last.Err? then Err(last.error)
      else
        var ys := init.value + [last.value];
        assert forall i :: 0 <= i < n ==> ys[i] == init.value[i];
        Ok(ys)
  }
}
