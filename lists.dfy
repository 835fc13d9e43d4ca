/** Generic list helpers: the order-keeping filter used by the registry's lookups and
    counts, and facts about it. */
module Lists {

  /** `filter(f)`: the elements satisfying `f`, in order. */
  function Filter<T>(v: seq<T>, f: T -> bool): (r: seq<T>)
    ensures |r| <= |v|
  {
    if v == [] then [] else (if f(v[0]) then [v[0]] else []) + Filter(v[1..], f)
  }

  /** Position `k` is the one and only entry of `v` satisfying `f`. */
  predicate UniqueIndex<T>(v: seq<T>, f: T -> bool, k: int) {
    0 <= k < |v| && f(v[k]) && forall j :: 0 <= j < |v| && f(v[j]) ==> j == k
  }

  /** The first position of `v` satisfying `f`, or `|v|` when there is none. */
  function IndexWhere<T>(v: seq<T>, f: T -> bool): (k: nat)
    ensures k <= |v|
    ensures k < |v| ==> f(v[k])
    ensures forall j :: 0 <= j < k ==> !f(v[j])
  {
    if v == [] then 0 else if f(v[0]) then 0 else 1 + IndexWhere(v[1..], f)
  }

  lemma {:induction false} FilterConcat<T>(a: seq<T>, b: seq<T>, f: T -> bool)
    ensures Filter(a + b, f) == Filter(a, f) + Filter(b, f)
  {
    if a != [] {
      assert (a + b)[0] == a[0] && (a + b)[1..] == a[1..] + b;
      FilterConcat(a[1..], b, f);
      var h := if f(a[0]) then [a[0]] else [];
      assert Filter(a + b, f) == h + (Filter(a[1..], f) + Filter(b, f));
    } else {
      assert a + b == b;
    }
  }

  lemma {:induction false} FilterMember<T>(v: seq<T>, f: T -> bool, x: T)
    ensures x in Filter(v, f) <==> x in v && f(x)
  {
    if v != [] {
      FilterMember(v[1..], f, x);
      assert v == [v[0]] + v[1..];
    }
  }

  lemma {:induction false} FilterEmpty<T>(v: seq<T>, f: T -> bool)
    ensures Filter(v, f) == [] <==> forall j :: 0 <= j < |v| ==> !f(v[j])
  {
    if v != [] {
      FilterEmpty(v[1..], f);
      assert forall j :: 1 <= j < |v| ==> v[j] == v[1..][j - 1];
    }
  }

  /** A filter has exactly one element iff exactly one position satisfies the condition,
      and then that element is the entry at that position. */
  lemma {:induction false} FilterSingle<T>(v: seq<T>, f: T -> bool)
    ensures |Filter(v, f)| == 1 <==> exists k :: UniqueIndex(v, f, k)
    ensures forall k :: UniqueIndex(v, f, k) ==> Filter(v, f) == [v[k]]
  {
    if v != [] {
      var w := v[1..];
      FilterSingle(w, f);
      FilterEmpty(w, f);
      assert forall j :: 1 <= j < |v| ==> v[j] == w[j - 1];
      if f(v[0]) {
        assert Filter(v, f) == [v[0]] + Filter(w, f);
        if |Filter(v, f)| == 1 {
          assert UniqueIndex(v, f, 0);
        }
        forall k | UniqueIndex(v, f, k) ensures Filter(v, f) == [v[k]] {
          assert k == 0;
        }
      } else {
        assert Filter(v, f) == Filter(w, f);
        forall k | UniqueIndex(v, f, k) ensures UniqueIndex(w, f, k - 1) {
          forall j | 0 <= j < |w| && f(w[j]) ensures j == k - 1 {
            assert f(v[j + 1]);
          }
        }
        forall k | UniqueIndex(w, f, k) ensures UniqueIndex(v, f, k + 1) {
        }
        forall k | UniqueIndex(v, f, k) ensures Filter(v, f) == [v[k]] {
          assert UniqueIndex(w, f, k - 1);
        }
      }
    }
  }

  /** Replacing one entry changes a filter's size by what the old and new entries contribute. */
  lemma FilterUpdate<T>(v: seq<T>, k: nat, y: T, f: T -> bool)
    requires k < |v|
    ensures |Filter(v[k := y], f)| == |Filter(v, f)| - (if f(v[k]) then 1 else 0) + (if f(y) then 1 else 0)
  {
    var pre, post := v[..k], v[k + 1..];
    assert v == pre + [v[k]] + post;
    assert v[k := y] == pre + [y] + post;
    FilterConcat(pre + [v[k]], post, f);
    FilterConcat(pre, [v[k]], f);
    FilterConcat(pre + [y], post, f);
    FilterConcat(pre, [y], f);
    assert Filter([v[k]], f) == if f(v[k]) then [v[k]] else [];
    assert Filter([y], f) == if f(y) then [y] else [];
  }

  /** A filter keeps a list whose every element passes. */
  lemma {:induction false} FilterAllKept<T>(v: seq<T>, f: T -> bool)
    requires forall j :: 0 <= j < |v| ==> f(v[j])
    ensures Filter(v, f) == v
  {
    if v != [] {
      FilterAllKept(v[1..], f);
    }
  }

  /** One unfolding of the filter. */
  lemma FilterStep<T>(s: seq<T>, f: T -> bool)
    requires s != []
    ensures Filter(s, f) == (if f(s[0]) then [s[0]] else []) + Filter(s[1..], f)
  {
  }
}
