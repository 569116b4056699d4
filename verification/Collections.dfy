/** Small facts about finite sets and sequences without repetition. */
module Collections {
  ghost predicate Distinct<T>(s: seq<T>) {
    forall i, j :: 0 <= i < j < |s| ==> s[i] != s[j]
  }

  ghost function Elements<T>(s: seq<T>): set<T> { set x | x in s }

  lemma {:induction false} DistinctCardinality<T>(s: seq<T>)
    requires Distinct(s)
    ensures |Elements(s)| == |s|
    decreases |s|
  {
    if s != [] {
      var n := |s| - 1;
      DistinctCardinality(s[..n]);
      assert s == s[..n] + [s[n]];
      assert Elements(s) == Elements(s[..n]) + {s[n]};
      assert s[n] !in s[..n];
    }
  }

  lemma SubsetCardinality<T>(a: set<T>, b: set<T>)
    requires a <= b
    ensures |a| <= |b| && (|a| == |b| ==> a == b)
  {
    assert b == a + (b - a);
    if |a| == |b| {
      assert b - a == {};
    }
  }

  /** A sequence longer than the set it draws from repeats itself. */
  lemma Repetition<T>(s: seq<T>, from: set<T>) returns (i: nat, j: nat)
    requires |s| > |from| && forall x :: x in s ==> x in from
    ensures i < j < |s| && s[i] == s[j]
  {
    if Distinct(s) {
      DistinctCardinality(s);
      SubsetCardinality(Elements(s), from);
      assert false;
    }
    i, j :| 0 <= i < j < |s| && s[i] == s[j];
  }

  /** The smallest member of a nonempty set. */
  lemma {:induction false} Least(s: set<nat>) returns (k: nat)
    requires s != {}
    ensures k in s && forall x :: x in s ==> k <= x
    decreases |s|
  {
    var x :| x in s;
    var rest := s - {x};
    assert s == rest + {x};
    if rest == {} {
      k := x;
    } else {
      var y := Least(rest);
      k := if x < y then x else y;
    }
  }
}
