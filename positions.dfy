/**
 * Removing positions from a sequence: one position (`Array.remove(at:)`) and
 * a set of positions (what deleting the rows of an `IndexSet` should do).
 */
module Positions {

  /** `s.remove(at: i)`: the element at `i` goes, the others close up in order. */
  function RemoveAt<T>(s: seq<T>, i: nat): (r: seq<T>)
    requires i < |s|
    ensures |r| == |s| - 1
    ensures forall k :: 0 <= k < i ==> r[k] == s[k]
    ensures forall k :: i <= k < |r| ==> r[k] == s[k + 1]
  {
    s[..i] + s[i + 1..]
  }

  /** The elements of `s` from position `lo` on whose positions are not in `positions`. */
  function KeepFrom<T>(s: seq<T>, positions: set<nat>, lo: nat): (r: seq<T>)
    ensures lo <= |s| ==> |r| <= |s| - lo
    decreases |s| - lo
  {
    if lo >= |s| then []
    else (if lo in positions then [] else [s[lo]]) + KeepFrom(s, positions, lo + 1)
  }

  /** `s` with exactly the positions in `positions` taken out, the rest in order. */
  function Without<T>(s: seq<T>, positions: set<nat>): (r: seq<T>)
    ensures |r| <= |s|
  {
    KeepFrom(s, positions, 0)
  }

  /** Every element `KeepFrom` keeps is an element of `s[lo..]`. */
  lemma {:induction false} KeepFromElements<T>(s: seq<T>, positions: set<nat>, lo: nat)
    requires lo <= |s|
    ensures forall x :: x in KeepFrom(s, positions, lo) ==> x in s[lo..]
    decreases |s| - lo
  {
    if lo < |s| {
      KeepFromElements(s, positions, lo + 1);
      assert s[lo..] == [s[lo]] + s[lo + 1..];
    }
  }

  /** Removing positions only takes elements away: what is left all comes from `s`. */
  lemma WithoutElements<T>(s: seq<T>, positions: set<nat>)
    ensures forall x :: x in Without(s, positions) ==> x in s
  {
    KeepFromElements(s, positions, 0);
    assert s[0..] == s;
  }

  /** Only the positions at or after `lo` matter to `KeepFrom(s, _, lo)`. */
  lemma {:induction false} KeepFromAgree<T>(s: seq<T>, p1: set<nat>, p2: set<nat>, lo: nat)
    requires forall j :: lo <= j < |s| ==> (j in p1 <==> j in p2)
    ensures KeepFrom(s, p1, lo) == KeepFrom(s, p2, lo)
    decreases |s| - lo
  {
    if lo < |s| {
      KeepFromAgree(s, p1, p2, lo + 1);
    }
  }

  /** A stretch without removed positions is kept whole. */
  lemma {:induction false} KeepFromPrefix<T>(s: seq<T>, positions: set<nat>, lo: nat, i: nat)
    requires lo <= i <= |s|
    requires forall j :: lo <= j < i ==> j !in positions
    ensures KeepFrom(s, positions, lo) == s[lo..i] + KeepFrom(s, positions, i)
    decreases i - lo
  {
    if lo < i {
      KeepFromPrefix(s, positions, lo + 1, i);
      assert KeepFrom(s, positions, lo) == [s[lo]] + KeepFrom(s, positions, lo + 1);
      assert s[lo..i] == [s[lo]] + s[lo + 1..i];
    } else {
      assert s[lo..i] == [];
    }
  }

  /** Positions beyond the end of `s` remove nothing. */
  lemma OutOfRangeIgnored<T>(s: seq<T>, positions: set<nat>, i: nat)
    requires i >= |s|
    ensures Without(s, positions + {i}) == Without(s, positions)
  {
    KeepFromAgree(s, positions + {i}, positions, 0);
  }

  /**
   * When every position already removed lies above `i`, element `i` is still
   * in place, and removing it there is the same as removing `positions + {i}`
   * from the original: why deleting in descending order is correct.
   */
  lemma RemoveBelowRemoved<T>(s: seq<T>, positions: set<nat>, i: nat)
    requires i < |s|
    requires forall q :: q in positions ==> q > i
    ensures i < |Without(s, positions)| && Without(s, positions)[i] == s[i]
    ensures RemoveAt(Without(s, positions), i) == Without(s, positions + {i})
  {
    var rest := KeepFrom(s, positions, i + 1);
    KeepFromPrefix(s, positions, 0, i);
    assert KeepFrom(s, positions, i) == [s[i]] + rest;
    assert Without(s, positions) == s[..i] + [s[i]] + rest;
    KeepFromPrefix(s, positions + {i}, 0, i);
    KeepFromAgree(s, positions + {i}, positions, i + 1);
    assert KeepFrom(s, positions + {i}, i) == rest;
    assert Without(s, positions + {i}) == s[..i] + rest;
    RemoveMiddle(s[..i], s[i], rest);
  }

  /** Taking out the element between `a` and `b` leaves `a + b`. */
  lemma RemoveMiddle<T>(a: seq<T>, x: T, b: seq<T>)
    ensures |a| < |a + [x] + b| && (a + [x] + b)[|a|] == x
    ensures RemoveAt(a + [x] + b, |a|) == a + b
  {
    var w := a + [x] + b;
    assert w[..|a|] == a;
    assert w[|a| + 1..] == b;
  }

  /** Removing the one position `i` is `RemoveAt`. */
  lemma SingletonIsRemoveAt<T>(s: seq<T>, i: nat)
    requires i < |s|
    ensures Without(s, {i}) == RemoveAt(s, i)
  {
    assert {} + {i} == {i};
    NothingRemoved(s);
    RemoveBelowRemoved(s, {}, i);
  }

  /** Removing no position leaves `s` as it is. */
  lemma NothingRemoved<T>(s: seq<T>)
    ensures Without(s, {}) == s
  {
    KeepFromPrefix(s, {}, 0, |s|);
    assert s[0..|s|] == s;
  }

  /** The positions of `positions` that fall in `[lo, hi)`. */
  function Between(positions: set<nat>, lo: nat, hi: nat): set<nat>
  {
    set j: nat | lo <= j < hi && j in positions
  }

  /** `KeepFrom` drops one element for every selected position it passes. */
  lemma {:induction false} KeepFromLength<T>(s: seq<T>, positions: set<nat>, lo: nat)
    requires lo <= |s|
    ensures |KeepFrom(s, positions, lo)| == |s| - lo - |Between(positions, lo, |s|)|
    decreases |s| - lo
  {
    if lo < |s| {
      KeepFromLength(s, positions, lo + 1);
      var here := Between(positions, lo, |s|);
      var later := Between(positions, lo + 1, |s|);
      if lo in positions {
        assert here == later + {lo};
        assert lo !in later;
      } else {
        assert here == later;
      }
    } else {
      assert Between(positions, lo, |s|) == {};
    }
  }

  /** Removing a set of positions shortens `s` by the number of them inside `s`. */
  lemma WithoutLength<T>(s: seq<T>, positions: set<nat>)
    ensures |Without(s, positions)| == |s| - |Between(positions, 0, |s|)|
  {
    KeepFromLength(s, positions, 0);
  }

  /** A non-empty finite set of naturals has a largest element. */
  lemma {:induction false} MaxOf(s: set<nat>) returns (m: nat)
    requires s != {}
    ensures m in s && forall x :: x in s ==> x <= m
  {
    var y :| y in s;
    var others := s - {y};
    if others == {} {
      m := y;
      forall x | x in s ensures x <= m {
        assert x !in others;
      }
    } else {
      var below := MaxOf(others);
      m := if y > below then y else below;
      forall x | x in s ensures x <= m {
        if x != y {
          assert x in others;
        }
      }
    }
  }
}
