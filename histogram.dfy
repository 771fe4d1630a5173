/** The per-type counts the report builders keep in a dict: each value seen
    is a key, keys stay in the order they were first inserted (Python dicts
    keep insertion order), and each count is bumped in place. */
module Histograms {
  import opened JsonValues

  /** The dict as its keys in insertion order and its key-to-count map. */
  datatype Histogram = Histogram(keys: seq<Json>, counts: map<Json, nat>)

  /** `d[x] = d.get(x, 0) + 1`: a new key goes to the end. */
  function Bump(h: Histogram, x: Json): Histogram {
    if x in h.counts then Histogram(h.keys, h.counts[x := h.counts[x] + 1])
    else Histogram(h.keys + [x], h.counts[x := 1])
  }

  /** The dict after counting `xs` from the left. */
  function Tally(xs: seq<Json>): Histogram
    decreases |xs|
  {
    if xs == [] then Histogram([], map[]) else Bump(Tally(xs[..|xs| - 1]), xs[|xs| - 1])
  }

  /** The loop `for x in xs: d[x] = d.get(x, 0) + 1`. */
  method Count(xs: seq<Json>) returns (keys: seq<Json>, counts: map<Json, nat>)
    ensures Histogram(keys, counts) == Tally(xs)
  {
    keys, counts := [], map[];
    for i := 0 to |xs|
      invariant Histogram(keys, counts) == Tally(xs[..i])
    {
      assert xs[..i + 1][..i] == xs[..i];
      var x := xs[i];
      if x in counts {
        counts := counts[x := counts[x] + 1];
      } else {
        keys := keys + [x];
        counts := counts[x := 1];
      }
    }
    assert xs[..|xs|] == xs;
  }

  /** The position of the first occurrence of `x`. */
  function FirstIndex(xs: seq<Json>, x: Json): (i: nat)
    requires x in xs
    ensures i < |xs| && xs[i] == x
    ensures forall j :: 0 <= j < i ==> xs[j] != x
  {
    if xs[0] == x then 0 else 1 + FirstIndex(xs[1..], x)
  }

  /** The sum of the counts of `keys`. */
  function Total(keys: seq<Json>, counts: map<Json, nat>): nat
    requires forall k :: 0 <= k < |keys| ==> keys[k] in counts
  {
    if keys == [] then 0 else Total(keys[..|keys| - 1], counts) + counts[keys[|keys| - 1]]
  }

  // ---------------------------------------------------------------------
  // What the dict holds
  // ---------------------------------------------------------------------

  /** The keys are exactly the values seen, each once, and exactly the
      keys of the count map. */
  lemma {:induction false} TallyKeys(xs: seq<Json>)
    decreases |xs|
    ensures var h := Tally(xs);
            && (forall x :: x in h.counts <==> x in h.keys)
            && (forall x :: x in h.keys <==> x in xs)
            && (forall i, j :: 0 <= i < j < |h.keys| ==> h.keys[i] != h.keys[j])
  {
    if xs != [] {
      var p := xs[..|xs| - 1];
      var x := xs[|xs| - 1];
      var h := Tally(p);
      TallyKeys(p);
      assert xs == p + [x];
      assert forall y :: y in xs <==> y in p || y == x;
      if x in h.counts {
        assert Tally(xs) == Histogram(h.keys, h.counts[x := h.counts[x] + 1]);
      } else {
        var keys := h.keys + [x];
        assert Tally(xs) == Histogram(keys, h.counts[x := 1]);
        assert forall y :: y in keys <==> y in h.keys || y == x;
        assert forall i :: 0 <= i < |h.keys| ==> keys[i] == h.keys[i] != x;
      }
    }
  }

  /** Each count is the number of items that have that value. */
  lemma {:induction false} TallyCounts(xs: seq<Json>)
    decreases |xs|
    ensures forall x :: x in Tally(xs).counts ==> Tally(xs).counts[x] == multiset(xs)[x]
  {
    if xs != [] {
      var p := xs[..|xs| - 1];
      var x := xs[|xs| - 1];
      var h := Tally(p);
      TallyCounts(p);
      TallyKeys(p);
      assert xs == p + [x];
      assert multiset(xs) == multiset(p) + multiset{x};
      if x in h.counts {
        assert Tally(xs).counts == h.counts[x := h.counts[x] + 1];
      } else {
        assert x !in p;
        assert multiset(p)[x] == 0;
        assert Tally(xs).counts == h.counts[x := 1];
      }
    }
  }

  /** The counts add up to the number of items. */
  lemma {:induction false} TallyTotal(xs: seq<Json>)
    decreases |xs|
    ensures forall k :: 0 <= k < |Tally(xs).keys| ==> Tally(xs).keys[k] in Tally(xs).counts
    ensures Total(Tally(xs).keys, Tally(xs).counts) == |xs|
  {
    if xs != [] {
      var p := xs[..|xs| - 1];
      var x := xs[|xs| - 1];
      var h := Tally(p);
      TallyTotal(p);
      TallyKeys(p);
      TotalStep(h, x);
    }
  }

  /** Counting one more item adds one to the total. */
  lemma TotalStep(h: Histogram, x: Json)
    requires forall y :: y in h.counts <==> y in h.keys
    requires forall a, b :: 0 <= a < b < |h.keys| ==> h.keys[a] != h.keys[b]
    ensures forall k :: 0 <= k < |h.keys| ==> h.keys[k] in h.counts
    ensures var h' := Bump(h, x);
            && (forall k :: 0 <= k < |h'.keys| ==> h'.keys[k] in h'.counts)
            && Total(h'.keys, h'.counts) == Total(h.keys, h.counts) + 1
  {
    if x in h.counts {
      assert x in h.keys;
      var i :| 0 <= i < |h.keys| && h.keys[i] == x;
      assert Bump(h, x) == Histogram(h.keys, h.counts[h.keys[i] := h.counts[h.keys[i]] + 1]);
      TotalBump(h.keys, h.counts, i);
    } else {
      assert Bump(h, x) == Histogram(h.keys + [x], h.counts[x := 1]);
      TotalFresh(h.keys, h.counts, x);
    }
  }

  /** Bumping the count of one listed key (keys distinct) adds one to the total. */
  lemma {:induction false} TotalBump(keys: seq<Json>, counts: map<Json, nat>, i: nat)
    requires forall k :: 0 <= k < |keys| ==> keys[k] in counts
    requires forall a, b :: 0 <= a < b < |keys| ==> keys[a] != keys[b]
    requires i < |keys|
    decreases |keys|
    ensures Total(keys, counts[keys[i] := counts[keys[i]] + 1]) == Total(keys, counts) + 1
  {
    var last := |keys| - 1;
    var c := counts[keys[i] := counts[keys[i]] + 1];
    if i < last {
      TotalBump(keys[..last], counts, i);
      assert keys[last] != keys[i];
    } else {
      TotalUnaffected(keys[..last], counts, keys[i], counts[keys[i]] + 1);
    }
  }

  /** Changing the count of a key that is not listed leaves the total alone. */
  lemma {:induction false} TotalUnaffected(keys: seq<Json>, counts: map<Json, nat>, x: Json, n: nat)
    requires forall k :: 0 <= k < |keys| ==> keys[k] in counts && keys[k] != x
    decreases |keys|
    ensures Total(keys, counts[x := n]) == Total(keys, counts)
  {
    if keys != [] {
      TotalUnaffected(keys[..|keys| - 1], counts, x, n);
    }
  }

  /** A new key with count one adds one to the total. */
  lemma TotalFresh(keys: seq<Json>, counts: map<Json, nat>, x: Json)
    requires forall k :: 0 <= k < |keys| ==> keys[k] in counts && keys[k] != x
    ensures Total(keys + [x], counts[x := 1]) == Total(keys, counts) + 1
  {
    assert (keys + [x])[..|keys|] == keys;
    TotalUnaffected(keys, counts, x, 1);
  }

  /** Keys appear in the order of their first occurrence. */
  lemma {:induction false} TallyOrder(xs: seq<Json>)
    decreases |xs|
    ensures forall k :: 0 <= k < |Tally(xs).keys| ==> Tally(xs).keys[k] in xs
    ensures forall i, j :: 0 <= i < j < |Tally(xs).keys| ==>
              FirstIndex(xs, Tally(xs).keys[i]) < FirstIndex(xs, Tally(xs).keys[j])
  {
    TallyKeys(xs);
    if xs != [] {
      var p := xs[..|xs| - 1];
      var x := xs[|xs| - 1];
      var h := Tally(p);
      var keys := Tally(xs).keys;
      TallyOrder(p);
      TallyKeys(p);
      forall y | y in p
        ensures FirstIndex(xs, y) == FirstIndex(p, y)
      {
        FirstIndexInPrefix(xs, |xs| - 1, y);
      }
      if x !in h.counts {
        assert x !in p;
        FirstIndexNew(xs, x);
      }
      forall i, j | 0 <= i < j < |keys|
        ensures FirstIndex(xs, keys[i]) < FirstIndex(xs, keys[j])
      {
        assert keys[i] == h.keys[i] && keys[i] in p;
        if j < |h.keys| {
          assert keys[j] == h.keys[j] && keys[j] in p;
        } else {
          assert keys[j] == x;
        }
      }
    }
  }

  /** A value that occurs in a prefix first occurs there. */
  lemma {:induction false} FirstIndexInPrefix(xs: seq<Json>, n: nat, y: Json)
    requires n <= |xs| && y in xs[..n]
    ensures y in xs && FirstIndex(xs, y) == FirstIndex(xs[..n], y)
  {
    var k :| 0 <= k < n && xs[..n][k] == y;
    assert xs[k] == y;
    var a, b := FirstIndex(xs, y), FirstIndex(xs[..n], y);
    assert xs[..n][b] == xs[b];
    assert a <= b;
    assert xs[..n][a] == xs[a];
  }

  /** A value seen only at the end first occurs at the end. */
  lemma FirstIndexNew(xs: seq<Json>, x: Json)
    requires xs != [] && xs[|xs| - 1] == x && x !in xs[..|xs| - 1]
    ensures FirstIndex(xs, x) == |xs| - 1
  {
  }
}
