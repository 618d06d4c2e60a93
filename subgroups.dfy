/**
 The KK/KU/UU subgroup classifier of a batch of drug pairs.

 A batch carries the left drug ids `d1` and the right drug ids `d2`; the pairs
 are `zip(d1, d2)`, so only the first min(|d1|, |d2|) positions are paired.
 Each subgroup is the ascending list of positions whose pair passes that
 subgroup's membership test (`argwhere` over the test's flags). The tests are
 not symmetric: KK asks about `known`, KU and UU ask only about `unknown`.
 */
module Subgroups {
  import opened Drugs

  datatype Tag = KK | KU | UU

  function Min(a: nat, b: nat): nat { if a <= b then a else b }

  /** The membership test of one subgroup for the pair (a, b). */
  predicate Tests(t: Tag, a: DrugId, b: DrugId, known: set<DrugId>, unknown: set<DrugId>)
  {
    match t
    case KK => a in known && b in known
    case KU => (a in unknown) != (b in unknown)
    case UU => a in unknown && b in unknown
  }

  /** One flag per zipped pair: whether that pair passes subgroup t's test. */
  function Mask(t: Tag, d1: seq<DrugId>, d2: seq<DrugId>, known: set<DrugId>, unknown: set<DrugId>): (m: seq<bool>)
    ensures |m| == Min(|d1|, |d2|)
    ensures forall i :: 0 <= i < |m| ==> (m[i] <==> Tests(t, d1[i], d2[i], known, unknown))
    decreases |d1|
  {
    if |d1| == 0 || |d2| == 0 then []
    else [Tests(t, d1[0], d2[0], known, unknown)] + Mask(t, d1[1..], d2[1..], known, unknown)
  }

  /** Number of true flags. */
  function Count(b: seq<bool>): nat
  {
    if |b| == 0 then 0 else (if b[0] then 1 else 0) + Count(b[1..])
  }

  ghost predicate StrictlyIncreasing(r: seq<nat>)
  {
    forall j, k :: 0 <= j < k < |r| ==> r[j] < r[k]
  }

  /** The positions of the true flags in b, where b's first flag stands at position off. */
  function ArgWhereFrom(b: seq<bool>, off: nat): (r: seq<nat>)
    ensures |r| == Count(b)
    ensures forall k :: 0 <= k < |r| ==> off <= r[k] < off + |b|
    decreases |b|
  {
    if |b| == 0 then [] else (if b[0] then [off] else []) + ArgWhereFrom(b[1..], off + 1)
  }

  lemma {:induction false} ArgWhereFromIncreasing(b: seq<bool>, off: nat)
    ensures StrictlyIncreasing(ArgWhereFrom(b, off))
    decreases |b|
  {
    if |b| > 0 && b[0] {
      var rest := ArgWhereFrom(b[1..], off + 1);
      ArgWhereFromIncreasing(b[1..], off + 1);
      var r := [off] + rest;
      assert ArgWhereFrom(b, off) == r;
      forall j, k | 0 <= j < k < |r| ensures r[j] < r[k] {
        assert r[k] == rest[k - 1];
        if j > 0 { assert r[j] == rest[j - 1]; }
      }
    } else if |b| > 0 {
      ArgWhereFromIncreasing(b[1..], off + 1);
    }
  }

  lemma {:induction false} ArgWhereFromSound(b: seq<bool>, off: nat)
    ensures forall k :: 0 <= k < |ArgWhereFrom(b, off)| ==> b[ArgWhereFrom(b, off)[k] - off]
    decreases |b|
  {
    if |b| > 0 {
      var rest := ArgWhereFrom(b[1..], off + 1);
      ArgWhereFromSound(b[1..], off + 1);
      var head: seq<nat> := if b[0] then [off] else [];
      var r := ArgWhereFrom(b, off);
      assert r == head + rest;
      forall k | 0 <= k < |r| ensures b[r[k] - off] {
        if k < |head| {
          assert r[k] == off;
        } else {
          var k' := k - |head|;
          assert r[k] == rest[k'];
          assert b[1..][rest[k'] - (off + 1)] == b[rest[k'] - off];
        }
      }
    }
  }

  lemma {:induction false} ArgWhereFromComplete(b: seq<bool>, off: nat)
    ensures forall i :: 0 <= i < |b| && b[i] ==> off + i in ArgWhereFrom(b, off)
    decreases |b|
  {
    if |b| > 0 {
      var rest := ArgWhereFrom(b[1..], off + 1);
      ArgWhereFromComplete(b[1..], off + 1);
      assert ArgWhereFrom(b, off) == (if b[0] then [off] else []) + rest;
      forall i | 1 <= i < |b| && b[i] ensures off + i in rest {
        assert b[1..][i - 1] == b[i];
      }
    }
  }

  /** The ascending positions of the true flags. */
  function ArgWhere(b: seq<bool>): (r: seq<nat>)
    ensures |r| == Count(b)
    ensures StrictlyIncreasing(r)
    ensures forall k :: 0 <= k < |r| ==> r[k] < |b| && b[r[k]]
    ensures forall i :: 0 <= i < |b| ==> (i in r <==> b[i])
  {
    ArgWhereFromIncreasing(b, 0);
    ArgWhereFromSound(b, 0);
    ArgWhereFromComplete(b, 0);
    var r := ArgWhereFrom(b, 0);
    assert forall k :: 0 <= k < |r| ==> b[r[k]] by {
      forall k | 0 <= k < |r| ensures b[r[k]] {
        assert b[ArgWhereFrom(b, 0)[k] - 0];
      }
    }
    r
  }

  /** The three index lists of one batch. */
  datatype Split = Split(kk: seq<nat>, ku: seq<nat>, uu: seq<nat>)

  /** The classification, one pair at a time, numbering positions from off.
      `ClassifyIsArgWhere` shows it equal to `argwhere` over the three masks. */
  function ClassifyFrom(d1: seq<DrugId>, d2: seq<DrugId>, known: set<DrugId>, unknown: set<DrugId>, off: nat): Split
    decreases |d1|
  {
    if |d1| == 0 || |d2| == 0 then Split([], [], [])
    else
      var rest := ClassifyFrom(d1[1..], d2[1..], known, unknown, off + 1);
      Split((if Tests(KK, d1[0], d2[0], known, unknown) then [off] else []) + rest.kk,
            (if Tests(KU, d1[0], d2[0], known, unknown) then [off] else []) + rest.ku,
            (if Tests(UU, d1[0], d2[0], known, unknown) then [off] else []) + rest.uu)
  }

  /** The KK, KU and UU index lists of a batch. */
  function Classify(d1: seq<DrugId>, d2: seq<DrugId>, known: set<DrugId>, unknown: set<DrugId>): Split
  {
    ClassifyFrom(d1, d2, known, unknown, 0)
  }

  /** The ascending positions whose pair passes subgroup t's test (`ArgWhere`
      over `Mask`). */
  function Indices(t: Tag, d1: seq<DrugId>, d2: seq<DrugId>, known: set<DrugId>, unknown: set<DrugId>): seq<nat>
  {
    ArgWhere(Mask(t, d1, d2, known, unknown))
  }

  function Pick(s: Split, t: Tag): seq<nat>
  {
    match t
    case KK => s.kk
    case KU => s.ku
    case UU => s.uu
  }

  lemma {:induction false} ClassifyFromIsArgWhere(d1: seq<DrugId>, d2: seq<DrugId>, known: set<DrugId>, unknown: set<DrugId>, off: nat, t: Tag)
    ensures Pick(ClassifyFrom(d1, d2, known, unknown, off), t) == ArgWhereFrom(Mask(t, d1, d2, known, unknown), off)
    decreases |d1|
  {
    if |d1| > 0 && |d2| > 0 {
      var m := Mask(t, d1, d2, known, unknown);
      assert m[1..] == Mask(t, d1[1..], d2[1..], known, unknown);
      ClassifyFromIsArgWhere(d1[1..], d2[1..], known, unknown, off + 1, t);
    }
  }

  /** The pair-at-a-time classification yields exactly the source's three
      argwhere lists. */
  lemma ClassifyIsArgWhere(d1: seq<DrugId>, d2: seq<DrugId>, known: set<DrugId>, unknown: set<DrugId>)
    ensures Classify(d1, d2, known, unknown) ==
            Split(Indices(KK, d1, d2, known, unknown), Indices(KU, d1, d2, known, unknown), Indices(UU, d1, d2, known, unknown))
  {
    ClassifyFromIsArgWhere(d1, d2, known, unknown, 0, KK);
    ClassifyFromIsArgWhere(d1, d2, known, unknown, 0, KU);
    ClassifyFromIsArgWhere(d1, d2, known, unknown, 0, UU);
  }

  /** Every index in the three lists is below the number of zipped pairs. */
  lemma ClassifyBounds(d1: seq<DrugId>, d2: seq<DrugId>, known: set<DrugId>, unknown: set<DrugId>)
    ensures var s := Classify(d1, d2, known, unknown);
            && (forall k :: 0 <= k < |s.kk| ==> s.kk[k] < Min(|d1|, |d2|))
            && (forall k :: 0 <= k < |s.ku| ==> s.ku[k] < Min(|d1|, |d2|))
            && (forall k :: 0 <= k < |s.uu| ==> s.uu[k] < Min(|d1|, |d2|))
  {
    ClassifyIsArgWhere(d1, d2, known, unknown);
  }

  /** Each list is strictly increasing, and a position is in a list exactly
      when it is a zipped position whose pair passes that list's test. */
  lemma ClassifySpec(d1: seq<DrugId>, d2: seq<DrugId>, known: set<DrugId>, unknown: set<DrugId>)
    ensures var s := Classify(d1, d2, known, unknown);
            && StrictlyIncreasing(s.kk) && StrictlyIncreasing(s.ku) && StrictlyIncreasing(s.uu)
            && (forall i: nat :: i in s.kk <==> i < Min(|d1|, |d2|) && Tests(KK, d1[i], d2[i], known, unknown))
            && (forall i: nat :: i in s.ku <==> i < Min(|d1|, |d2|) && Tests(KU, d1[i], d2[i], known, unknown))
            && (forall i: nat :: i in s.uu <==> i < Min(|d1|, |d2|) && Tests(UU, d1[i], d2[i], known, unknown))
  {
    ClassifyIsArgWhere(d1, d2, known, unknown);
  }

  /** The length assertion that follows the classification: |KK| + |KU| + |UU| == len(d1). */
  predicate CountsMatch(s: Split, n: nat)
  {
    |s.kk| + |s.ku| + |s.uu| == n
  }

  /** A pair that passes exactly one of the three tests. */
  predicate ValidPair(a: DrugId, b: DrugId, known: set<DrugId>, unknown: set<DrugId>)
  {
    Hits(a, b, known, unknown) == 1
  }

  /** How many of the three tests the pair (a, b) passes. */
  function Hits(a: DrugId, b: DrugId, known: set<DrugId>, unknown: set<DrugId>): nat
  {
    (if Tests(KK, a, b, known, unknown) then 1 else 0)
    + (if Tests(KU, a, b, known, unknown) then 1 else 0)
    + (if Tests(UU, a, b, known, unknown) then 1 else 0)
  }

  /** Sum of Hits over the zipped pairs. */
  function TotalHits(d1: seq<DrugId>, d2: seq<DrugId>, known: set<DrugId>, unknown: set<DrugId>): nat
    decreases |d1|
  {
    if |d1| == 0 || |d2| == 0 then 0
    else Hits(d1[0], d2[0], known, unknown) + TotalHits(d1[1..], d2[1..], known, unknown)
  }

  ghost predicate AllValid(d1: seq<DrugId>, d2: seq<DrugId>, known: set<DrugId>, unknown: set<DrugId>)
  {
    forall i :: 0 <= i < Min(|d1|, |d2|) ==> ValidPair(d1[i], d2[i], known, unknown)
  }

  // ---------------------------------------------------------------------------
  // Properties of the classifier
  // ---------------------------------------------------------------------------

  lemma {:induction false} LengthsAreHitsFrom(d1: seq<DrugId>, d2: seq<DrugId>, known: set<DrugId>, unknown: set<DrugId>, off: nat)
    ensures var s := ClassifyFrom(d1, d2, known, unknown, off);
            |s.kk| + |s.ku| + |s.uu| == TotalHits(d1, d2, known, unknown)
    decreases |d1|
  {
    if |d1| > 0 && |d2| > 0 {
      LengthsAreHitsFrom(d1[1..], d2[1..], known, unknown, off + 1);
    }
  }

  /** The three list lengths add up to the number of tests passed over all pairs. */
  lemma LengthsAreHits(d1: seq<DrugId>, d2: seq<DrugId>, known: set<DrugId>, unknown: set<DrugId>)
    ensures var s := Classify(d1, d2, known, unknown);
            |s.kk| + |s.ku| + |s.uu| == TotalHits(d1, d2, known, unknown)
  {
    LengthsAreHitsFrom(d1, d2, known, unknown, 0);
  }

  lemma {:induction false} TotalHitsOfValid(d1: seq<DrugId>, d2: seq<DrugId>, known: set<DrugId>, unknown: set<DrugId>)
    requires AllValid(d1, d2, known, unknown)
    ensures TotalHits(d1, d2, known, unknown) == Min(|d1|, |d2|)
    decreases |d1|
  {
    if |d1| == 0 || |d2| == 0 {
    } else {
      assert ValidPair(d1[0], d2[0], known, unknown);
      forall i | 0 <= i < Min(|d1[1..]|, |d2[1..]|) ensures ValidPair(d1[1..][i], d2[1..][i], known, unknown) {
        assert ValidPair(d1[i + 1], d2[i + 1], known, unknown);
      }
      TotalHitsOfValid(d1[1..], d2[1..], known, unknown);
    }
  }

  /** With disjoint `known`/`unknown` no pair passes two tests, so the hits
      reach the number of pairs exactly when every pair is valid. */
  lemma {:induction false} TotalHitsDisjoint(d1: seq<DrugId>, d2: seq<DrugId>, known: set<DrugId>, unknown: set<DrugId>)
    requires known !! unknown
    ensures TotalHits(d1, d2, known, unknown) <= Min(|d1|, |d2|)
    ensures TotalHits(d1, d2, known, unknown) == Min(|d1|, |d2|) <==> AllValid(d1, d2, known, unknown)
    decreases |d1|
  {
    if |d1| == 0 || |d2| == 0 {
    } else {
      TotalHitsDisjoint(d1[1..], d2[1..], known, unknown);
      assert Hits(d1[0], d2[0], known, unknown) <= 1;
      if AllValid(d1, d2, known, unknown) {
        TotalHitsOfValid(d1, d2, known, unknown);
      } else if ValidPair(d1[0], d2[0], known, unknown) {
        var i :| 0 <= i < Min(|d1|, |d2|) && !ValidPair(d1[i], d2[i], known, unknown);
        assert !ValidPair(d1[1..][i - 1], d2[1..][i - 1], known, unknown);
      }
    }
  }

  /** With every pair valid, the three lists are pairwise disjoint, their
      union is exactly the positions 0 .. n-1, and the length assertion holds
      exactly when no left id is left unpaired (|d1| <= |d2|). */
  lemma Partition(d1: seq<DrugId>, d2: seq<DrugId>, known: set<DrugId>, unknown: set<DrugId>)
    requires AllValid(d1, d2, known, unknown)
    ensures var s := Classify(d1, d2, known, unknown);
            && (forall i :: !(i in s.kk && i in s.ku) && !(i in s.kk && i in s.uu) && !(i in s.ku && i in s.uu))
            && (forall i: nat :: i in s.kk || i in s.ku || i in s.uu <==> i < Min(|d1|, |d2|))
            && |s.kk| + |s.ku| + |s.uu| == Min(|d1|, |d2|)
            && (CountsMatch(s, |d1|) <==> |d1| <= |d2|)
  {
    var s := Classify(d1, d2, known, unknown);
    ClassifySpec(d1, d2, known, unknown);
    forall i ensures !(i in s.kk && i in s.ku) && !(i in s.kk && i in s.uu) && !(i in s.ku && i in s.uu) {
      if i in s.kk || i in s.ku || i in s.uu {
        assert ValidPair(d1[i], d2[i], known, unknown);
      }
    }
    forall i: nat ensures i in s.kk || i in s.ku || i in s.uu <==> i < Min(|d1|, |d2|) {
      if i < Min(|d1|, |d2|) {
        assert ValidPair(d1[i], d2[i], known, unknown);
      }
    }
    LengthsAreHits(d1, d2, known, unknown);
    TotalHitsOfValid(d1, d2, known, unknown);
  }

  /** For disjoint `known`/`unknown` and a batch with |d1| == |d2|, the length
      assertion holds if and only if every pair is valid. */
  lemma AssertionExact(d1: seq<DrugId>, d2: seq<DrugId>, known: set<DrugId>, unknown: set<DrugId>)
    requires known !! unknown && |d1| == |d2|
    ensures CountsMatch(Classify(d1, d2, known, unknown), |d1|) <==> AllValid(d1, d2, known, unknown)
  {
    LengthsAreHits(d1, d2, known, unknown);
    TotalHitsDisjoint(d1, d2, known, unknown);
  }

  /** Each position lands in exactly one list if and only if its pair is valid;
      for disjoint sets, both known lands in KK only, both unknown in UU only
      and exactly one unknown in KU only. */
  lemma PairPlacement(d1: seq<DrugId>, d2: seq<DrugId>, known: set<DrugId>, unknown: set<DrugId>, i: nat)
    requires i < Min(|d1|, |d2|)
    ensures var s := Classify(d1, d2, known, unknown);
            var n := (if i in s.kk then 1 else 0) + (if i in s.ku then 1 else 0) + (if i in s.uu then 1 else 0);
            && (n == 1 <==> ValidPair(d1[i], d2[i], known, unknown))
            && (known !! unknown && d1[i] in known && d2[i] in known ==> i in s.kk && i !in s.ku && i !in s.uu)
            && (known !! unknown && d1[i] in unknown && d2[i] in unknown ==> i in s.uu && i !in s.kk && i !in s.ku)
            && (known !! unknown && (d1[i] in unknown) != (d2[i] in unknown) ==> i in s.ku && i !in s.kk && i !in s.uu)
  {
    ClassifySpec(d1, d2, known, unknown);
  }

  /** The error condition: a pair with neither drug unknown and not both known
      lands in no list; with disjoint sets the length assertion then fails. */
  lemma UnclassifiedPairFails(d1: seq<DrugId>, d2: seq<DrugId>, known: set<DrugId>, unknown: set<DrugId>, i: nat)
    requires i < Min(|d1|, |d2|) && |d1| == |d2|
    requires d1[i] !in unknown && d2[i] !in unknown && !(d1[i] in known && d2[i] in known)
    ensures var s := Classify(d1, d2, known, unknown);
            i !in s.kk && i !in s.ku && i !in s.uu
    ensures known !! unknown ==> !CountsMatch(Classify(d1, d2, known, unknown), |d1|)
  {
    ClassifySpec(d1, d2, known, unknown);
    if known !! unknown {
      assert !ValidPair(d1[i], d2[i], known, unknown);
      AssertionExact(d1, d2, known, unknown);
    }
  }

  /** Without disjointness the length assertion can pass although one pair is
      in two lists and another in none: an id in both sets balances an id in
      neither. */
  lemma OverlapPassesAssertion()
    ensures Classify(["x", "y"], ["x", "y"], {"x"}, {"x"}) == Split([0], [], [0])
    ensures CountsMatch(Classify(["x", "y"], ["x", "y"], {"x"}, {"x"}), 2)
  {
    var d, k := ["x", "y"], {"x"};
    assert d[1..] == ["y"] && d[1..][1..] == [];
    assert ClassifyFrom(["y"], ["y"], k, k, 1) == Split([], [], []);
  }

  /** Example: known = {A, B}, unknown = {C, D}; the pairs
      (A, B), (A, C), (C, D) go to KK, KU and UU, one each. */
  lemma ClassifyExample()
    ensures Classify(["A", "A", "C"], ["B", "C", "D"], {"A", "B"}, {"C", "D"}) == Split([0], [1], [2])
  {
    var d1, d2, k, u := ["A", "A", "C"], ["B", "C", "D"], {"A", "B"}, {"C", "D"};
    assert d1[1..] == ["A", "C"] && d2[1..] == ["C", "D"];
    assert d1[1..][1..] == ["C"] && d2[1..][1..] == ["D"];
    assert ClassifyFrom(["C"], ["D"], k, u, 2) == Split([], [], [2]) by {
      assert ["C"][1..] == [] && ["D"][1..] == [];
    }
    assert ClassifyFrom(["A", "C"], ["C", "D"], k, u, 1) == Split([], [1], [2]);
  }
}
