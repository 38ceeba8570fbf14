/** `Array.prototype.filter` and what it guarantees: the kept elements are
    exactly those the predicate accepts, with their multiplicities, in their
    original order. */
module Seqs {

  /** `s.filter(p)` */
  function Filter<T>(s: seq<T>, p: T -> bool): (r: seq<T>)
    ensures |r| <= |s|
    ensures forall k | 0 <= k < |r| :: p(r[k])
    decreases |s|
  {
    if s == [] then []
    else (if p(s[0]) then [s[0]] else []) + Filter(s[1..], p)
  }

  /** `idx` picks the elements of `r` out of `s` at strictly increasing positions. */
  ghost predicate Embeds<T>(r: seq<T>, s: seq<T>, idx: seq<nat>) {
    && |idx| == |r|
    && (forall k | 0 <= k < |idx| :: idx[k] < |s| && r[k] == s[idx[k]])
    && (forall k, l | 0 <= k < l < |idx| :: idx[k] < idx[l])
  }

  function Shift(idx: seq<nat>): (r: seq<nat>)
    ensures |r| == |idx| && forall k | 0 <= k < |idx| :: r[k] == idx[k] + 1
  {
    seq(|idx|, k requires 0 <= k < |idx| => idx[k] + 1)
  }

  lemma ShiftEmbeds<T>(r: seq<T>, s: seq<T>, idx: seq<nat>)
    requires s != [] && Embeds(r, s[1..], idx)
    ensures Embeds(r, s, Shift(idx))
    ensures forall k | 0 <= k < |idx| :: Shift(idx)[k] > 0
  {
    forall k | 0 <= k < |idx| ensures Shift(idx)[k] < |s| && r[k] == s[Shift(idx)[k]] {
      assert s[1..][idx[k]] == s[idx[k] + 1];
    }
  }

  lemma ConsEmbeds<T>(r: seq<T>, s: seq<T>, idx: seq<nat>)
    requires s != [] && Embeds(r, s, idx)
    requires forall k | 0 <= k < |idx| :: idx[k] > 0
    ensures Embeds([s[0]] + r, s, [0] + idx)
  {
    var r', idx' := [s[0]] + r, [0] + idx;
    forall k | 0 <= k < |idx'| ensures idx'[k] < |s| && r'[k] == s[idx'[k]] {
      if k > 0 { assert r'[k] == r[k - 1] && idx'[k] == idx[k - 1]; }
    }
    forall k, l | 0 <= k < l < |idx'| ensures idx'[k] < idx'[l] {
      assert idx'[l] == idx[l - 1];
      if k > 0 { assert idx'[k] == idx[k - 1]; }
    }
  }

  lemma ShiftCovers<T>(s: seq<T>, p: T -> bool, tail: seq<nat>)
    requires s != []
    requires forall i | 0 <= i < |s[1..]| && p(s[1..][i]) :: i in tail
    ensures forall i | 1 <= i < |s| && p(s[i]) :: i in Shift(tail)
  {
    forall i | 1 <= i < |s| && p(s[i]) ensures i in Shift(tail) {
      assert s[1..][i - 1] == s[i];
      var k :| 0 <= k < |tail| && tail[k] == i - 1;
      assert Shift(tail)[k] == i;
    }
  }

  /** The filtered sequence is the subsequence of `s` made of every position whose
      element the predicate accepts, in the original order. */
  lemma {:induction false} FilterKeepsOrder<T>(s: seq<T>, p: T -> bool) returns (idx: seq<nat>)
    ensures Embeds(Filter(s, p), s, idx)
    ensures forall i | 0 <= i < |s| && p(s[i]) :: i in idx
    decreases |s|
  {
    if s == [] {
      idx := [];
    } else {
      var tail := FilterKeepsOrder(s[1..], p);
      var rest := Filter(s[1..], p);
      ShiftEmbeds(rest, s, tail);
      ShiftCovers(s, p, tail);
      var shifted := Shift(tail);
      if p(s[0]) {
        ConsEmbeds(rest, s, shifted);
        idx := [0] + shifted;
        assert Filter(s, p) == [s[0]] + rest;
      } else {
        idx := shifted;
        assert Filter(s, p) == rest;
      }
    }
  }

  /** Each value keeps all its occurrences when the predicate accepts it and loses all
      of them otherwise. */
  lemma {:induction false} FilterCount<T>(s: seq<T>, p: T -> bool, x: T)
    ensures multiset(Filter(s, p))[x] == if p(x) then multiset(s)[x] else 0
    decreases |s|
  {
    if s != [] {
      FilterCount(s[1..], p, x);
      assert s == [s[0]] + s[1..];
      assert multiset(s) == multiset([s[0]]) + multiset(s[1..]);
      var head := if p(s[0]) then [s[0]] else [];
      assert multiset(Filter(s, p)) == multiset(head) + multiset(Filter(s[1..], p));
    }
  }

  /** A value is in the filtered sequence exactly when it is in `s` and accepted. */
  lemma FilterMembership<T>(s: seq<T>, p: T -> bool, x: T)
    ensures x in Filter(s, p) <==> x in s && p(x)
  {
    FilterCount(s, p, x);
    assert x in Filter(s, p) <==> multiset(Filter(s, p))[x] > 0;
    assert x in s <==> multiset(s)[x] > 0;
  }

  /** When the predicate accepts every element, filtering changes nothing. */
  lemma {:induction false} FilterAll<T>(s: seq<T>, p: T -> bool)
    requires forall k | 0 <= k < |s| :: p(s[k])
    ensures Filter(s, p) == s
    decreases |s|
  {
    if s != [] {
      FilterAll(s[1..], p);
      assert s == [s[0]] + s[1..];
    }
  }
}
