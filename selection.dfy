/**
 Order-preserving selection from a sequence: the `filter` that the registry
 uses to rebuild its record list, and the scan that picks the records a post
 reaches. `KeptIndices` is an independent description of the same selection
 (positions rather than elements); `FilterByIndices` ties the two together and
 is what "exactly these records, in registration order" means below.
 */
module Selection {

  /** The elements of `s` that satisfy `keep`, in their original order. */
  function Filter<X>(s: seq<X>, keep: X -> bool): (r: seq<X>)
    ensures |r| <= |s|
    ensures forall x :: x in r ==> x in s && keep(x)
  {
    if s == [] then []
    else
      var init := Filter(s[..|s| - 1], keep);
      if keep(s[|s| - 1]) then init + [s[|s| - 1]] else init
  }

  /** The positions of `s` whose element satisfies `keep`, in increasing order. */
  function KeptIndices<X>(s: seq<X>, keep: X -> bool): (ix: seq<nat>)
    ensures forall j :: 0 <= j < |ix| ==> ix[j] < |s|
  {
    if s == [] then []
    else
      var init := KeptIndices(s[..|s| - 1], keep);
      if keep(s[|s| - 1]) then init + [|s| - 1] else init
  }

  ghost predicate StrictlyIncreasing(ix: seq<nat>)
  {
    forall j, k :: 0 <= j < k < |ix| ==> ix[j] < ix[k]
  }

  /** `Filter(s, keep)` holds exactly the elements at the positions that
      satisfy `keep`, each once, in the order they have in `s`. */
  lemma {:induction false} FilterByIndices<X>(s: seq<X>, keep: X -> bool)
    ensures var r, ix := Filter(s, keep), KeptIndices(s, keep);
      && |r| == |ix|
      && StrictlyIncreasing(ix)
      && (forall j :: 0 <= j < |ix| ==> r[j] == s[ix[j]])
      && (forall i :: 0 <= i < |s| ==> (keep(s[i]) <==> i in ix))
  {
    FilterAtIndices(s, keep);
    KeptIndicesIncreasing(s, keep);
    KeptIndicesExact(s, keep);
  }

  lemma {:induction false} FilterAtIndices<X>(s: seq<X>, keep: X -> bool)
    ensures var r, ix := Filter(s, keep), KeptIndices(s, keep);
      |r| == |ix| && forall j :: 0 <= j < |ix| ==> r[j] == s[ix[j]]
  {
    if s != [] {
      var n := |s| - 1;
      var prefix := s[..n];
      FilterAtIndices(prefix, keep);
      var r0, ix0 := Filter(prefix, keep), KeptIndices(prefix, keep);
      forall j | 0 <= j < |ix0|
        ensures r0[j] == s[ix0[j]]
      {
        assert r0[j] == prefix[ix0[j]];
      }
    }
  }

  lemma {:induction false} KeptIndicesIncreasing<X>(s: seq<X>, keep: X -> bool)
    ensures StrictlyIncreasing(KeptIndices(s, keep))
  {
    if s != [] {
      KeptIndicesIncreasing(s[..|s| - 1], keep);
    }
  }

  lemma {:induction false} KeptIndicesExact<X>(s: seq<X>, keep: X -> bool)
    ensures forall i :: 0 <= i < |s| ==> (keep(s[i]) <==> i in KeptIndices(s, keep))
  {
    if s != [] {
      var n := |s| - 1;
      var prefix := s[..n];
      KeptIndicesExact(prefix, keep);
      var ix0 := KeptIndices(prefix, keep);
      assert n !in ix0;
      forall i | 0 <= i < n
        ensures keep(s[i]) <==> i in KeptIndices(s, keep)
      {
        assert prefix[i] == s[i];
      }
    }
  }

  /** Appending one element extends the selection by at most that element. */
  lemma {:induction false} FilterAppend<X>(s: seq<X>, x: X, keep: X -> bool)
    ensures Filter(s + [x], keep) == Filter(s, keep) + (if keep(x) then [x] else [])
  {
    assert (s + [x])[..|s|] == s;
  }

  /** Selecting again with the same test changes nothing. */
  lemma {:induction false} FilterIdempotent<X>(s: seq<X>, keep: X -> bool)
    ensures Filter(Filter(s, keep), keep) == Filter(s, keep)
  {
    if s != [] {
      var n := |s| - 1;
      FilterIdempotent(s[..n], keep);
      var init := Filter(s[..n], keep);
      if keep(s[n]) {
        FilterAppend(init, s[n], keep);
      }
    }
  }

  /** When every element passes, the selection is the whole sequence. */
  lemma {:induction false} FilterKeepsAll<X>(s: seq<X>, keep: X -> bool)
    requires forall i :: 0 <= i < |s| ==> keep(s[i])
    ensures Filter(s, keep) == s
  {
    if s != [] {
      var n := |s| - 1;
      FilterKeepsAll(s[..n], keep);
      assert s[..n] + [s[n]] == s;
    }
  }

  /** When no element passes, the selection is empty. */
  lemma {:induction false} FilterDropsAll<X>(s: seq<X>, keep: X -> bool)
    requires forall i :: 0 <= i < |s| ==> !keep(s[i])
    ensures Filter(s, keep) == []
  {
    if s != [] {
      FilterDropsAll(s[..|s| - 1], keep);
    }
  }

  /** Two selections one after the other are the selection by both tests. */
  lemma {:induction false} FilterCompose<X>(s: seq<X>, first: X -> bool, second: X -> bool, both: X -> bool)
    requires forall x :: both(x) == (first(x) && second(x))
    ensures Filter(Filter(s, first), second) == Filter(s, both)
  {
    if s != [] {
      var n := |s| - 1;
      FilterCompose(s[..n], first, second, both);
      if first(s[n]) {
        FilterAppend(Filter(s[..n], first), s[n], second);
      }
    }
  }

  /** The order in which two selections are applied does not matter. */
  lemma {:induction false} FilterCommute<X>(s: seq<X>, f: X -> bool, g: X -> bool)
    ensures Filter(Filter(s, f), g) == Filter(Filter(s, g), f)
  {
    var both := x => f(x) && g(x);
    FilterCompose(s, f, g, both);
    FilterCompose(s, g, f, both);
  }
}
