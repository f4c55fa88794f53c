/** The two list updates every component performs on its state arrays:
    `Array.prototype.filter` and the "replace the matching entries" `map`. */
module Lists {

  /** `s.filter(p)`: the elements satisfying `p`, in their original order. */
  function Filter<T>(p: T -> bool, s: seq<T>): (r: seq<T>)
    ensures |r| <= |s|
    ensures forall i :: 0 <= i < |r| ==> r[i] in s && p(r[i])
    ensures forall i :: 0 <= i < |s| && p(s[i]) ==> s[i] in r
    decreases |s|
  {
    if s == [] then [] else (if p(s[0]) then [s[0]] else []) + Filter(p, s[1..])
  }

  /** The positions of `s` from `k` on whose element satisfies `p`: every such position is
      listed, and no other (`KeptIncreasing` adds that they come in increasing order). */
  function Kept<T>(p: T -> bool, s: seq<T>, k: nat): (idx: seq<nat>)
    requires k <= |s|
    ensures forall i :: 0 <= i < |idx| ==> k <= idx[i] < |s| && p(s[idx[i]])
    ensures forall m :: k <= m < |s| && p(s[m]) ==> m in idx
    decreases |s| - k
  {
    if k == |s| then []
    else
      var rest := Kept(p, s, k + 1);
      if p(s[k]) then [k] + rest else rest
  }

  predicate Increasing(idx: seq<nat>)
  {
    forall i, j :: 0 <= i < j < |idx| ==> idx[i] < idx[j]
  }

  /** The kept positions come in increasing order. */
  lemma {:induction false} KeptIncreasing<T>(p: T -> bool, s: seq<T>, k: nat)
    requires k <= |s|
    ensures Increasing(Kept(p, s, k))
    decreases |s| - k
  {
    if k < |s| {
      KeptIncreasing(p, s, k + 1);
      var rest := Kept(p, s, k + 1);
      if p(s[k]) {
        IncreasingCons(k, rest);
      }
    }
  }

  /** A position below every position of an increasing list can go in front of it. */
  lemma IncreasingCons(k: nat, rest: seq<nat>)
    requires Increasing(rest) && forall i :: 0 <= i < |rest| ==> k < rest[i]
    ensures Increasing([k] + rest)
  {
    var idx := [k] + rest;
    forall i, j | 0 <= i < j < |idx|
      ensures idx[i] < idx[j]
    {
      assert idx[j] == rest[j - 1];
      if i > 0 {
        assert idx[i] == rest[i - 1];
      }
    }
  }

  /** `r` lists, in their original order, exactly the elements of `s` that satisfy `p`. */
  predicate IsFilterOf<T(==)>(r: seq<T>, p: T -> bool, s: seq<T>)
  {
    var idx := Kept(p, s, 0);
    Increasing(idx) && |r| == |idx| && forall i :: 0 <= i < |r| ==> r[i] == s[idx[i]]
  }

  /** Filtering the suffix from `k` keeps the satisfying positions from `k` on, in order. */
  lemma {:induction false} FilterFrom<T>(p: T -> bool, s: seq<T>, k: nat)
    requires k <= |s|
    ensures |Filter(p, s[k..])| == |Kept(p, s, k)|
    ensures forall i :: 0 <= i < |Kept(p, s, k)| ==> Filter(p, s[k..])[i] == s[Kept(p, s, k)[i]]
    decreases |s| - k
  {
    if k < |s| {
      FilterFrom(p, s, k + 1);
      var f, g := Filter(p, s[k..]), Filter(p, s[k + 1..]);
      var idx, rest := Kept(p, s, k), Kept(p, s, k + 1);
      assert f == (if p(s[k]) then [s[k]] else []) + g by {
        assert s[k..][0] == s[k] && s[k..][1..] == s[k + 1..];
      }
      if p(s[k]) {
        assert idx == [k] + rest;
        forall i | 0 <= i < |idx|
          ensures f[i] == s[idx[i]]
        {
          if i > 0 {
            assert f[i] == g[i - 1] && idx[i] == rest[i - 1];
          }
        }
      } else {
        assert idx == rest && f == g;
      }
    }
  }

  /** `Filter` keeps the satisfying elements in their original order, and nothing else. */
  lemma FilterOrder<T>(p: T -> bool, s: seq<T>)
    ensures IsFilterOf(Filter(p, s), p, s)
  {
    FilterFrom(p, s, 0);
    KeptIncreasing(p, s, 0);
    assert s[0..] == s;
  }

  /** Filtering distributes over concatenation, so the kept elements keep their relative order. */
  lemma {:induction false} FilterConcat<T>(p: T -> bool, a: seq<T>, b: seq<T>)
    ensures Filter(p, a + b) == Filter(p, a) + Filter(p, b)
    decreases |a|
  {
    if a == [] {
      assert a + b == b;
    } else {
      var ab := a + b;
      assert ab[0] == a[0] && ab[1..] == a[1..] + b;
      FilterConcat(p, a[1..], b);
    }
  }

  /** A filter that rejects nothing returns its input unchanged. */
  lemma {:induction false} FilterKeepsAll<T>(p: T -> bool, s: seq<T>)
    requires forall i :: 0 <= i < |s| ==> p(s[i])
    ensures Filter(p, s) == s
    decreases |s|
  {
    if s != [] {
      FilterKeepsAll(p, s[1..]);
    }
  }

  /** A filter that accepts nothing returns the empty list. */
  lemma {:induction false} FilterDropsAll<T>(p: T -> bool, s: seq<T>)
    requires forall i :: 0 <= i < |s| ==> !p(s[i])
    ensures Filter(p, s) == []
    decreases |s|
  {
    if s != [] {
      FilterDropsAll(p, s[1..]);
    }
  }

  /** `s.map(x => matches(x) ? v : x)`: every matching entry is replaced by `v`, the rest stay put. */
  function ReplaceWhere<T>(matches: T -> bool, s: seq<T>, v: T): (r: seq<T>)
    ensures |r| == |s|
    ensures forall i :: 0 <= i < |s| ==> r[i] == if matches(s[i]) then v else s[i]
    decreases |s|
  {
    if s == [] then [] else [if matches(s[0]) then v else s[0]] + ReplaceWhere(matches, s[1..], v)
  }

  /** Replacing where nothing matches leaves the list as it was. */
  lemma ReplaceWhereNone<T>(matches: T -> bool, s: seq<T>, v: T)
    requires forall i :: 0 <= i < |s| ==> !matches(s[i])
    ensures ReplaceWhere(matches, s, v) == s
  {
    var r := ReplaceWhere(matches, s, v);
    assert forall i :: 0 <= i < |s| ==> r[i] == s[i];
  }
}
