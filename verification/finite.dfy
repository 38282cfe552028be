/**
 * Finiteness facts behind the termination of the two LR builders: a
 * duplicate-free sequence over a finite set is one of finitely many, and a
 * subset of a finite set is one of finitely many.
 */
module Finite {

  /** No element occurs twice. */
  predicate DupFree<T(==)>(s: seq<T>) {
    forall i, j :: 0 <= i < j < |s| ==> s[i] != s[j]
  }

  /** The elements of a sequence. */
  function SetOf<T>(s: seq<T>): set<T> {
    set i | 0 <= i < |s| :: s[i]
  }

  lemma SetOfSnoc<T>(s: seq<T>, x: T)
    ensures SetOf(s + [x]) == SetOf(s) + {x}
  {
    assert (s + [x])[|s|] == x;
    forall y | y in SetOf(s) ensures y in SetOf(s + [x]) {
      var k :| 0 <= k < |s| && s[k] == y;
      assert (s + [x])[k] == y;
    }
  }

  /** Two duplicate-free sequences without a common element concatenate to a duplicate-free one. */
  lemma DupFreeConcat<T>(a: seq<T>, b: seq<T>)
    requires DupFree(a) && DupFree(b)
    requires forall i, j :: 0 <= i < |a| && 0 <= j < |b| ==> a[i] != b[j]
    ensures DupFree(a + b)
  {
    forall i, j | 0 <= i < j < |a + b| ensures (a + b)[i] != (a + b)[j] {
      if j < |a| {
        assert (a + b)[i] == a[i] && (a + b)[j] == a[j];
      } else if i < |a| {
        assert (a + b)[i] == a[i] && (a + b)[j] == b[j - |a|];
      } else {
        assert (a + b)[i] == b[i - |a|] && (a + b)[j] == b[j - |a|];
      }
    }
  }

  /** The numbers lo, lo + 1, ..., hi - 1. */
  function Range(lo: nat, hi: nat): (r: seq<nat>)
    requires lo <= hi
    ensures |r| == hi - lo && forall i :: 0 <= i < |r| ==> r[i] == lo + i
  {
    seq(hi - lo, i requires 0 <= i < hi - lo => lo + i)
  }

  /** Every element of `s` is in `u`. */
  predicate Over<T>(s: seq<T>, u: set<T>) {
    forall i :: 0 <= i < |s| ==> s[i] in u
  }

  /** The duplicate-free sequences over `u`. */
  ghost function Arrangements<T>(u: set<T>): set<seq<T>>
    decreases u
  {
    {[]} + (set x, s | x in u && s in Arrangements(u - {x}) :: [x] + s)
  }

  lemma {:induction false} ArrangementsComplete<T>(u: set<T>, s: seq<T>)
    requires DupFree(s) && Over(s, u)
    ensures s in Arrangements(u)
    decreases |s|
  {
    if s != [] {
      var x := s[0];
      assert forall i :: 0 <= i < |s[1..]| ==> s[1..][i] == s[i + 1] && s[i + 1] != x;
      ArrangementsComplete(u - {x}, s[1..]);
      assert s == [x] + s[1..];
    }
  }

  /** Some element of a non-empty set. */
  ghost function Pick<T>(u: set<T>): (x: T)
    requires u != {}
    ensures x in u
  {
    var x :| x in u; x
  }

  /** The subsets of `u`. */
  ghost function Subsets<T>(u: set<T>): set<set<T>>
    decreases u
  {
    if u == {} then {{}}
    else
      var x := Pick(u);
      var smaller := Subsets(u - {x});
      smaller + (set s | s in smaller :: s + {x})
  }

  lemma {:induction false} SubsetsComplete<T>(u: set<T>, s: set<T>)
    requires s <= u
    ensures s in Subsets(u)
    decreases u
  {
    if u != {} {
      var x := Pick(u);
      SubsetsComplete(u - {x}, s - {x});
      var smaller := Subsets(u - {x});
      assert Subsets(u) == smaller + (set t | t in smaller :: t + {x});
      if x in s {
        assert s == (s - {x}) + {x};
        assert s in (set t | t in smaller :: t + {x});
      } else {
        assert s == s - {x};
      }
    } else {
      assert s == {};
    }
  }
}
