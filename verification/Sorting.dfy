/** Sorting under a total order: the sorted sequence is a canonical form of the multiset. */
module Sorting {
  ghost predicate TotalOrder<T(!new)>(leq: (T, T) -> bool) {
    (forall x, y :: leq(x, y) || leq(y, x)) &&
    (forall x, y :: leq(x, y) && leq(y, x) ==> x == y) &&
    (forall x, y, z :: leq(x, y) && leq(y, z) ==> leq(x, z))
  }

  function Insert<T>(x: T, xs: seq<T>, leq: (T, T) -> bool): seq<T> {
    if xs == [] || leq(x, xs[0]) then [x] + xs else [xs[0]] + Insert(x, xs[1..], leq)
  }

  function Sort<T>(xs: seq<T>, leq: (T, T) -> bool): seq<T> {
    if xs == [] then [] else Insert(xs[0], Sort(xs[1..], leq), leq)
  }

  ghost predicate Sorted<T>(xs: seq<T>, leq: (T, T) -> bool) {
    forall i, j | 0 <= i < j < |xs| :: leq(xs[i], xs[j])
  }

  lemma {:induction false} InsertKeeps<T(!new)>(x: T, xs: seq<T>, leq: (T, T) -> bool)
    requires TotalOrder(leq) && Sorted(xs, leq)
    ensures Sorted(Insert(x, xs, leq), leq) && multiset(Insert(x, xs, leq)) == multiset{x} + multiset(xs)
  {
    if xs == [] || leq(x, xs[0]) {
    } else {
      InsertKeeps(x, xs[1..], leq);
      var rest := Insert(x, xs[1..], leq);
      assert xs == [xs[0]] + xs[1..];
      forall i | 0 <= i < |rest| ensures leq(xs[0], rest[i]) {
        assert rest[i] in multiset(rest);
        assert rest[i] == x || rest[i] in xs[1..];
      }
    }
  }

  lemma {:induction false} SortSorts<T(!new)>(xs: seq<T>, leq: (T, T) -> bool)
    requires TotalOrder(leq)
    ensures Sorted(Sort(xs, leq), leq) && multiset(Sort(xs, leq)) == multiset(xs)
  {
    if xs != [] {
      SortSorts(xs[1..], leq);
      InsertKeeps(xs[0], Sort(xs[1..], leq), leq);
      assert xs == [xs[0]] + xs[1..];
    }
  }

  lemma {:induction false} SortedIsUnique<T(!new)>(xs: seq<T>, ys: seq<T>, leq: (T, T) -> bool)
    requires TotalOrder(leq) && Sorted(xs, leq) && Sorted(ys, leq) && multiset(xs) == multiset(ys)
    ensures xs == ys
  {
    assert |xs| == |multiset(xs)| == |multiset(ys)| == |ys|;
    if xs != [] {
      assert xs[0] in multiset(ys);
      assert ys[0] in multiset(xs);
      assert xs[0] == ys[0];
      assert xs == [xs[0]] + xs[1..] && ys == [ys[0]] + ys[1..];
      assert multiset(xs[1..]) == multiset(xs) - multiset{xs[0]};
      assert multiset(ys[1..]) == multiset(ys) - multiset{ys[0]};
      SortedIsUnique(xs[1..], ys[1..], leq);
    }
  }

  /** Two sequences sort to the same sequence exactly when they are permutations of each other. */
  lemma SortIsCanonical<T(!new)>(xs: seq<T>, ys: seq<T>, leq: (T, T) -> bool)
    requires TotalOrder(leq)
    ensures Sort(xs, leq) == Sort(ys, leq) <==> multiset(xs) == multiset(ys)
    ensures Sort(Sort(xs, leq), leq) == Sort(xs, leq)
  {
    SortSorts(xs, leq);
    SortSorts(ys, leq);
    SortSorts(Sort(xs, leq), leq);
    SortedIsUnique(Sort(Sort(xs, leq), leq), Sort(xs, leq), leq);
    if multiset(xs) == multiset(ys) {
      SortedIsUnique(Sort(xs, leq), Sort(ys, leq), leq);
    }
  }

  // ---- pairing off ----

  /** One partner for every place, and no two places share one. */
  predicate Pairing(partners: seq<nat>, n: nat) {
    |partners| == n && (forall i | 0 <= i < n :: partners[i] < n) &&
    forall i, j | 0 <= i < j < n :: partners[i] != partners[j]
  }

  function Without<T>(xs: seq<T>, j: nat): (r: seq<T>)
    requires j < |xs|
    ensures |r| == |xs| - 1
  {
    xs[..j] + xs[j + 1..]
  }

  lemma WithoutLosesOne<T>(xs: seq<T>, j: nat)
    requires j < |xs|
    ensures multiset(Without(xs, j)) == multiset(xs) - multiset{xs[j]}
    ensures multiset(xs) == multiset(Without(xs, j)) + multiset{xs[j]}
  {
    assert xs == xs[..j] + [xs[j]] + xs[j + 1..];
  }

  /** The partners of the first places in the whole, from their partners in what is left without j. */
  function WithJ(before: seq<nat>, j: nat): seq<nat> {
    seq(|before|, i requires 0 <= i < |before| => if before[i] < j then before[i] else before[i] + 1) + [j]
  }

  lemma PairingGrows(before: seq<nat>, j: nat, n: nat)
    requires Pairing(before, n) && j <= n
    ensures Pairing(WithJ(before, j), n + 1)
  {
  }

  lemma {:induction false} SameMultisetPairs<T>(xs: seq<T>, ys: seq<T>) returns (partners: seq<nat>)
    requires multiset(xs) == multiset(ys)
    ensures |xs| == |ys| && Pairing(partners, |xs|) && forall i | 0 <= i < |xs| :: xs[i] == ys[partners[i]]
    decreases |xs|
  {
    assert |xs| == |multiset(xs)| == |multiset(ys)| == |ys|;
    if xs == [] {
      partners := [];
    } else {
      var n := |xs| - 1;
      assert xs[n] in multiset(ys);
      var j :| 0 <= j < |ys| && ys[j] == xs[n];
      WithoutLosesOne(xs, n);
      WithoutLosesOne(ys, j);
      assert Without(xs, n) == xs[..n];
      var before := SameMultisetPairs(xs[..n], Without(ys, j));
      PairingGrows(before, j, n);
      partners := WithJ(before, j);
    }
  }

  /** And back: the partners of the first places in what is left without the last one's partner. */
  function WithoutLast(partners: seq<nat>): (before: seq<nat>)
    requires partners != [] && Pairing(partners, |partners|)
    ensures Pairing(before, |partners| - 1)
  {
    var n := |partners| - 1;
    seq(n, i requires 0 <= i < n => if partners[i] < partners[n] then partners[i] else partners[i] - 1)
  }

  lemma {:induction false} PairedAreSameMultiset<T>(xs: seq<T>, ys: seq<T>, partners: seq<nat>)
    requires |xs| == |ys| && Pairing(partners, |xs|) && forall i | 0 <= i < |xs| :: xs[i] == ys[partners[i]]
    ensures multiset(xs) == multiset(ys)
    decreases |xs|
  {
    if xs != [] {
      var n := |xs| - 1;
      var j := partners[n];
      PairedAreSameMultiset(xs[..n], Without(ys, j), WithoutLast(partners));
      WithoutLosesOne(xs, n);
      WithoutLosesOne(ys, j);
      assert Without(xs, n) == xs[..n];
    }
  }
}
