/**
 * `toIngest.sort((a, b) => a.eqanunId - b.eqanunId)`: JavaScript's
 * `Array.prototype.sort` is stable, so the result is determined: ascending
 * by id, and raw acts with equal ids keep their relative order. `SortById`
 * is that result as a function; `SortByEqanunId` sorts an array in place
 * (by insertion) and is proved to produce it.
 */
module Sorting {
  import opened Mapper

  /** Ascending by `eqanunId`. */
  ghost predicate SortedById(s: seq<RawAct>) {
    forall i, j :: 0 <= i < j < |s| ==> s[i].eqanunId <= s[j].eqanunId
  }

  /** `x` placed after the last element of `s`, scanning from the end, whose id is not above its own. */
  function InsertById(s: seq<RawAct>, x: RawAct): (r: seq<RawAct>)
    ensures |r| == |s| + 1
    decreases |s|
  {
    if s == [] || s[|s| - 1].eqanunId <= x.eqanunId then s + [x]
    else InsertById(s[..|s| - 1], x) + [s[|s| - 1]]
  }

  /** The stable sort by id, element by element from the left. */
  function SortById(s: seq<RawAct>): (r: seq<RawAct>)
    ensures |r| == |s|
    decreases |s|
  {
    if s == [] then [] else InsertById(SortById(s[..|s| - 1]), s[|s| - 1])
  }

  /** The elements of `s` whose id is `id`, in order. */
  function WithId(s: seq<RawAct>, id: int): seq<RawAct>
    decreases |s|
  {
    if s == [] then []
    else WithId(s[..|s| - 1], id) + (if s[|s| - 1].eqanunId == id then [s[|s| - 1]] else [])
  }

  lemma WithIdSnoc(s: seq<RawAct>, x: RawAct, id: int)
    ensures WithId(s + [x], id) == WithId(s, id) + (if x.eqanunId == id then [x] else [])
  {
    assert (s + [x])[..|s|] == s;
  }

  /** Insertion splits `s` into a prefix, `x` and a suffix of strictly larger ids. */
  lemma {:induction false} InsertSplits(s: seq<RawAct>, x: RawAct) returns (k: nat)
    ensures k <= |s| && InsertById(s, x) == s[..k] + [x] + s[k..]
    ensures forall m :: k <= m < |s| ==> s[m].eqanunId > x.eqanunId
    decreases |s|
  {
    if s == [] || s[|s| - 1].eqanunId <= x.eqanunId {
      k := |s|;
      assert InsertById(s, x) == s[..|s|] + [x] + s[|s|..];
    } else {
      var init := s[..|s| - 1];
      k := InsertSplits(init, x);
      assert s[..k] == init[..k];
      assert s[k..] == init[k..] + [s[|s| - 1]];
      assert InsertById(s, x) == s[..k] + [x] + s[k..];
    }
  }

  /** Insertion keeps a sorted sequence sorted. */
  lemma {:induction false} InsertSorted(s: seq<RawAct>, x: RawAct)
    requires SortedById(s)
    ensures SortedById(InsertById(s, x))
    decreases |s|
  {
    if !(s == [] || s[|s| - 1].eqanunId <= x.eqanunId) {
      var init := s[..|s| - 1];
      InsertSorted(init, x);
      var t := InsertById(init, x);
      var k := InsertSplits(init, x);
      assert forall m :: 0 <= m < |t| ==> t[m] == x || t[m] in init;
      assert forall m :: 0 <= m < |t| ==> t[m].eqanunId <= s[|s| - 1].eqanunId;
    }
  }

  /** Insertion adds exactly `x`. */
  lemma {:induction false} InsertPermutes(s: seq<RawAct>, x: RawAct)
    ensures multiset(InsertById(s, x)) == multiset(s) + multiset{x}
    decreases |s|
  {
    if !(s == [] || s[|s| - 1].eqanunId <= x.eqanunId) {
      var init := s[..|s| - 1];
      InsertPermutes(init, x);
      assert s == init + [s[|s| - 1]];
    }
  }

  /** Among equal ids, the inserted element comes last, and nothing else moves. */
  lemma InsertStable(s: seq<RawAct>, x: RawAct, id: int)
    ensures WithId(InsertById(s, x), id) == WithId(s, id) + (if x.eqanunId == id then [x] else [])
  {
    var k := InsertSplits(s, x);
    var a, b := s[..k], s[k..];
    assert InsertById(s, x) == (a + [x]) + b;
    assert s == a + b;
    WithIdAppend(a + [x], b, id);
    WithIdAppend(a, b, id);
    WithIdSnoc(a, x, id);
    if x.eqanunId == id {
      WithIdNone(b, id);
    }
  }

  lemma {:induction false} WithIdAppend(a: seq<RawAct>, b: seq<RawAct>, id: int)
    ensures WithId(a + b, id) == WithId(a, id) + WithId(b, id)
    decreases |b|
  {
    if b == [] {
      assert a + b == a;
    } else {
      var init := b[..|b| - 1];
      WithIdAppend(a, init, id);
      assert a + b == (a + init) + [b[|b| - 1]];
      WithIdSnoc(a + init, b[|b| - 1], id);
      WithIdSnoc(init, b[|b| - 1], id);
      assert b == init + [b[|b| - 1]];
    }
  }

  lemma {:induction false} WithIdNone(s: seq<RawAct>, id: int)
    requires forall m :: 0 <= m < |s| ==> s[m].eqanunId != id
    ensures WithId(s, id) == []
    decreases |s|
  {
    if s != [] {
      WithIdNone(s[..|s| - 1], id);
    }
  }

  /**
   * The sorted batch is ascending by id, holds the same raw acts, and keeps
   * the input order among acts with the same id.
   */
  lemma {:induction false} SortByIdCorrect(s: seq<RawAct>)
    ensures SortedById(SortById(s))
    ensures multiset(SortById(s)) == multiset(s)
    ensures forall id :: WithId(SortById(s), id) == WithId(s, id)
    decreases |s|
  {
    if s != [] {
      var init := s[..|s| - 1];
      var x := s[|s| - 1];
      SortByIdCorrect(init);
      InsertSorted(SortById(init), x);
      InsertPermutes(SortById(init), x);
      assert s == init + [x];
      forall id ensures WithId(SortById(s), id) == WithId(s, id) {
        InsertStable(SortById(init), x, id);
        WithIdSnoc(init, x, id);
      }
    }
  }

  /** Insertion stops right after the last element whose id is not above that of `x`. */
  lemma {:induction false} InsertAt(p: seq<RawAct>, x: RawAct, j: int)
    requires 0 <= j <= |p|
    requires j == 0 || p[j - 1].eqanunId <= x.eqanunId
    requires forall k :: j <= k < |p| ==> p[k].eqanunId > x.eqanunId
    ensures InsertById(p, x) == p[..j] + [x] + p[j..]
    decreases |p|
  {
    if j < |p| {
      var init := p[..|p| - 1];
      InsertAt(init, x, j);
      assert init[..j] == p[..j];
      assert p[j..] == init[j..] + [p[|p| - 1]];
    } else {
      assert p[..j] == p;
    }
  }

  /**
   * The inner loop of one insertion step: moves the elements of `a[..i]`
   * whose ids are above that of `x`, from the right, one place to the right,
   * and returns the gap left in front of them.
   */
  method ShiftLarger(a: array<RawAct>, i: int, x: RawAct) returns (j: int)
    requires 0 <= i < a.Length
    modifies a
    ensures 0 <= j <= i
    ensures j == 0 || a[j - 1].eqanunId <= x.eqanunId
    ensures forall k :: 0 <= k < j ==> a[k] == old(a[k])
    ensures forall k :: j < k <= i ==> a[k] == old(a[k - 1])
    ensures forall k :: i < k < a.Length ==> a[k] == old(a[k])
    ensures forall k :: j <= k < i ==> old(a[k]).eqanunId > x.eqanunId
  {
    j := i;
    while j > 0 && a[j - 1].eqanunId > x.eqanunId
      invariant 0 <= j <= i
      invariant forall k :: 0 <= k < j ==> a[k] == old(a[k])
      invariant forall k :: j < k <= i ==> a[k] == old(a[k - 1])
      invariant forall k :: i < k < a.Length ==> a[k] == old(a[k])
      invariant forall k :: j <= k < i ==> old(a[k]).eqanunId > x.eqanunId
    {
      a[j] := a[j - 1];
      j := j - 1;
    }
  }

  /**
   * One step of the insertion sort: moves `a[i]` left past the elements of
   * the sorted prefix `a[..i]` whose ids are larger.
   */
  method InsertLast(a: array<RawAct>, i: int)
    requires 0 <= i < a.Length
    modifies a
    ensures a[..i + 1] == InsertById(old(a[..i]), old(a[i]))
    ensures a[i + 1..] == old(a[i + 1..])
  {
    ghost var p := a[..i];
    var x := a[i];
    var j := ShiftLarger(a, i, x);
    a[j] := x;
    assert a[..i + 1] == p[..j] + [x] + p[j..i] by {
      ghost var want := p[..j] + [x] + p[j..i];
      forall k | 0 <= k <= i
        ensures a[k] == want[k]
      {
        if k > j {
          assert want[k] == p[k - 1];
        }
      }
    }
    InsertAt(p, x, j);
  }

  /**
   * Sorts `a` in place, by id, stably: each element in turn is moved left
   * past the elements with larger ids.
   */
  method SortByEqanunId(a: array<RawAct>)
    modifies a
    ensures a[..] == SortById(old(a[..]))
  {
    ghost var input := a[..];
    var i := 0;
    while i < a.Length
      invariant 0 <= i <= a.Length
      invariant a[..i] == SortById(input[..i])
      invariant a[i..] == input[i..]
    {
      assert input[..i + 1][..i] == input[..i];
      InsertLast(a, i);
      i := i + 1;
    }
    assert input[..a.Length] == input;
  }
}
