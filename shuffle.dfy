/** The Fisher-Yates shuffle of the array extension, and the copies built on it.
    The random numbers are an input: `draws[i]` is the value `arc4random_uniform(count - i)`
    returned at step `i`, so the swap partner of position `i` is `i + draws[i]`. */
module ArrayShuffle {

  /** One draw per step: there are `n - 1` steps, and the draw of step `i` is below `n - i`. */
  predicate ValidDraws(n: nat, draws: seq<nat>) {
    |draws| + 1 >= n &&
    forall i :: 0 <= i < |draws| && i + 1 < n ==> draws[i] < n - i
  }

  function Swap<T>(s: seq<T>, i: nat, j: nat): (r: seq<T>)
    requires i < |s| && j < |s|
    ensures |r| == |s| && r[i] == s[j] && r[j] == s[i]
    ensures forall k :: 0 <= k < |s| && k != i && k != j ==> r[k] == s[k]
  {
    s[i := s[j]][j := s[i]]
  }

  lemma SwapPermutes<T>(s: seq<T>, i: nat, j: nat)
    requires i < |s| && j < |s|
    ensures multiset(Swap(s, i, j)) == multiset(s)
  {
    assert Swap(s, i, j) == s[i := s[j]][j := s[i]];
  }

  /** The steps `i, i + 1, ..., n - 2` of the shuffle applied to `s`: step `k` swaps
      position `k` with position `k + draws[k]`, unless the two are the same. */
  function FisherYates<T>(s: seq<T>, draws: seq<nat>, i: nat): (r: seq<T>)
    requires ValidDraws(|s|, draws)
    ensures |r| == |s|
    decreases |s| - i
  {
    if i + 1 >= |s| then s
    else
      var j := draws[i] + i;
      FisherYates(if j != i then Swap(s, i, j) else s, draws, i + 1)
  }

  /** The shuffle is a permutation: same length, same elements with the same multiplicities. */
  lemma {:induction false} FisherYatesPermutes<T>(s: seq<T>, draws: seq<nat>, i: nat)
    requires ValidDraws(|s|, draws)
    ensures multiset(FisherYates(s, draws, i)) == multiset(s)
    decreases |s| - i
  {
    if i + 1 < |s| {
      var j := draws[i] + i;
      if j != i {
        SwapPermutes(s, i, j);
        FisherYatesPermutes(Swap(s, i, j), draws, i + 1);
      } else {
        FisherYatesPermutes(s, draws, i + 1);
      }
    }
  }

  /** Steps from `i` on never touch the positions before `i`. */
  lemma {:induction false} FisherYatesKeepsPrefix<T>(s: seq<T>, draws: seq<nat>, i: nat)
    requires ValidDraws(|s|, draws)
    requires i <= |s|
    ensures FisherYates(s, draws, i)[..i] == s[..i]
    decreases |s| - i
  {
    if i + 1 < |s| {
      var j := draws[i] + i;
      var t := if j != i then Swap(s, i, j) else s;
      FisherYatesKeepsPrefix(t, draws, i + 1);
      assert t[..i] == s[..i];
    }
  }

  /** Arrays of zero or one element come back unchanged. */
  lemma ShortArraysUnchanged<T>(s: seq<T>, draws: seq<nat>)
    requires ValidDraws(|s|, draws)
    requires |s| <= 1
    ensures FisherYates(s, draws, 0) == s
  {
  }

  /** `shuffle`: shuffles `a` in place, one swap per position except the last. */
  method Shuffle<T>(a: array<T>, draws: seq<nat>)
    requires ValidDraws(a.Length, draws)
    modifies a
    ensures a[..] == FisherYates(old(a[..]), draws, 0)
    ensures multiset(a[..]) == multiset(old(a[..]))
  {
    var i := 0;
    while i + 1 < a.Length
      invariant i <= a.Length
      invariant ValidDraws(|a[..]|, draws)
      invariant FisherYates(a[..], draws, i) == FisherYates(old(a[..]), draws, 0)
      invariant multiset(a[..]) == multiset(old(a[..]))
    {
      var index := draws[i] + i;
      if index != i {
        ghost var before := a[..];
        a[i], a[index] := a[index], a[i];
        assert a[..] == Swap(before, i, index);
        SwapPermutes(before, i, index);
      }
      i := i + 1;
    }
  }

  /** `shuffled`: a shuffled copy; the receiver, a value, is left as it was. */
  method Shuffled<T>(s: seq<T>, draws: seq<nat>) returns (r: seq<T>)
    requires ValidDraws(|s|, draws)
    ensures r == FisherYates(s, draws, 0)
    ensures |r| == |s| && multiset(r) == multiset(s)
  {
    var elements := new T[|s|](i requires 0 <= i < |s| => s[i]);
    assert elements[..] == s;
    Shuffle(elements, draws);
    r := elements[..];
    FisherYatesPermutes(s, draws, 0);
  }

  /** `choose(n)`: the first `n` elements of a shuffled copy (all of them when there are fewer). */
  method Choose<T>(s: seq<T>, n: nat, draws: seq<nat>) returns (r: seq<T>)
    requires ValidDraws(|s|, draws)
    ensures |r| == if n < |s| then n else |s|
    ensures multiset(r) <= multiset(s)
  {
    var all := Shuffled(s, draws);
    var k := if n < |all| then n else |all|;
    r := all[..k];
    assert all == all[..k] + all[k..];
    assert multiset(all) == multiset(all[..k]) + multiset(all[k..]);
  }
}
