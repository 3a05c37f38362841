/** Counting and de-duplication over sequences: the tallying primitives that
    every metric of the engine is built from. */
module Collections {

  /** Number of positions of `s` that hold `x`. */
  function Occurrences<T(==,!new)>(s: seq<T>, x: T): (n: nat)
    ensures n <= |s|
    ensures n > 0 <==> x in s
  {
    if s == [] then 0 else (if s[0] == x then 1 else 0) + Occurrences(s[1..], x)
  }

  lemma {:induction false} OccurrencesAppend<T(!new)>(a: seq<T>, b: seq<T>, x: T)
    ensures Occurrences(a + b, x) == Occurrences(a, x) + Occurrences(b, x)
  {
    if a == [] {
      assert a + b == b;
    } else {
      assert (a + b)[1..] == a[1..] + b;
      OccurrencesAppend(a[1..], b, x);
    }
  }

  /** No value appears twice in `s`. */
  predicate NoDups<T(==,!new)>(s: seq<T>) {
    forall i, j :: 0 <= i < j < |s| ==> s[i] != s[j]
  }

  lemma {:induction false} NoDupsOccurrences<T(!new)>(s: seq<T>, x: T)
    requires NoDups(s) && x in s
    ensures Occurrences(s, x) == 1
  {
    if s[0] == x {
      assert x !in s[1..] by {
        forall k | 0 <= k < |s[1..]| ensures s[1..][k] != x {
          assert s[1..][k] == s[k + 1];
        }
      }
    } else {
      NoDupsOccurrences(s[1..], x);
    }
  }

  /** The values of `s`, each once, in the order of their last occurrence. */
  function Distinct<T(==,!new)>(s: seq<T>): (d: seq<T>)
    ensures NoDups(d)
    ensures forall x :: x in d <==> x in s
    ensures |d| <= |s|
  {
    if s == [] then []
    else if s[0] in s[1..] then Distinct(s[1..])
    else [s[0]] + Distinct(s[1..])
  }

  /** The set of values of `s`. */
  function Elements<T(==,!new)>(s: seq<T>): set<T> {
    set x | x in s
  }

  lemma {:induction false} ElementsCons<T(!new)>(s: seq<T>)
    requires s != []
    ensures Elements(s) == {s[0]} + Elements(s[1..])
  {
    assert forall x :: x in s <==> x == s[0] || x in s[1..];
  }

  /** A sequence has as many distinct values as positions exactly when no
      value repeats. */
  lemma {:induction false} CardElements<T(!new)>(s: seq<T>)
    ensures |Elements(s)| <= |s|
    ensures |Elements(s)| == |s| <==> NoDups(s)
  {
    if s != [] {
      ElementsCons(s);
      CardElements(s[1..]);
      if s[0] in s[1..] {
        assert Elements(s) == Elements(s[1..]);
        var k :| 0 <= k < |s[1..]| && s[1..][k] == s[0];
        assert s[0] == s[k + 1];
      } else {
        assert Elements(s) == Elements(s[1..]) + {s[0]};
        if NoDups(s) {
          assert NoDups(s[1..]) by {
            forall i, j | 0 <= i < j < |s[1..]| ensures s[1..][i] != s[1..][j] {
              assert s[1..][i] == s[i + 1] && s[1..][j] == s[j + 1];
            }
          }
        }
        if NoDups(s[1..]) {
          forall i, j | 0 <= i < j < |s| ensures s[i] != s[j] {
            if i == 0 {
              assert s[j] == s[1..][j - 1];
            } else {
              assert s[i] == s[1..][i - 1] && s[j] == s[1..][j - 1];
            }
          }
        }
      }
    }
  }

  /** `Distinct` keeps one position per value. */
  lemma DistinctCard<T(!new)>(s: seq<T>)
    ensures |Distinct(s)| == |Elements(s)|
  {
    var d := Distinct(s);
    assert Elements(d) == Elements(s);
    CardElements(d);
  }

  /** Sum, over the values listed in `d`, of how often each occurs in `s`. */
  function TotalOccurrences<T(==,!new)>(d: seq<T>, s: seq<T>): nat {
    if d == [] then 0 else Occurrences(s, d[0]) + TotalOccurrences(d[1..], s)
  }

  lemma {:induction false} TotalOccurrencesCons<T(!new)>(d: seq<T>, y: T, s: seq<T>)
    ensures TotalOccurrences(d, [y] + s) == Occurrences(d, y) + TotalOccurrences(d, s)
  {
    if d != [] {
      assert ([y] + s)[1..] == s;
      TotalOccurrencesCons(d[1..], y, s);
    }
  }

  /** Counting every value of a duplicate-free cover of `s` counts each
      position of `s` exactly once. */
  lemma {:induction false} TotalOccurrencesOfCover<T(!new)>(d: seq<T>, s: seq<T>)
    requires NoDups(d)
    requires forall x :: x in s ==> x in d
    ensures TotalOccurrences(d, s) == |s|
  {
    if s == [] {
      TotalOccurrencesOfNothing(d);
    } else {
      assert s == [s[0]] + s[1..];
      TotalOccurrencesCons(d, s[0], s[1..]);
      NoDupsOccurrences(d, s[0]);
      TotalOccurrencesOfCover(d, s[1..]);
    }
  }

  lemma {:induction false} TotalOccurrencesOfNothing<T(!new)>(d: seq<T>)
    ensures TotalOccurrences(d, []) == 0
  {
    if d != [] {
      TotalOccurrencesOfNothing(d[1..]);
    }
  }

  /** Every value listed in `d` occurs in `s` exactly once. */
  predicate AllOnce<T(==,!new)>(d: seq<T>, s: seq<T>) {
    forall x :: x in d ==> Occurrences(s, x) == 1
  }

  /** When every listed value occurs at least once, the total equals the
      number of listed values exactly when each occurs only once. */
  lemma {:induction false} TotalOccurrencesMinimal<T(!new)>(d: seq<T>, s: seq<T>)
    requires forall x :: x in d ==> x in s
    ensures TotalOccurrences(d, s) >= |d|
    ensures TotalOccurrences(d, s) == |d| <==> AllOnce(d, s)
  {
    if d != [] {
      assert forall x :: x in d[1..] ==> x in d;
      TotalOccurrencesMinimal(d[1..], s);
      assert forall x :: x in d <==> x == d[0] || x in d[1..];
    }
  }

  /** Number of values listed in `d` that occur in `s` exactly once. */
  function Singles<T(==,!new)>(d: seq<T>, s: seq<T>): (n: nat)
    ensures n <= |d|
    ensures n == |d| <==> AllOnce(d, s)
  {
    if d == [] then 0
    else
      var rest := Singles(d[1..], s);
      assert forall x :: x in d <==> x == d[0] || x in d[1..];
      (if Occurrences(s, d[0]) == 1 then 1 else 0) + rest
  }

  /** The values listed in `d` that occur in `s` exactly once. */
  function OnceIn<T(==,!new)>(d: seq<T>, s: seq<T>): set<T> {
    set x | x in d && Occurrences(s, x) == 1
  }

  /** Over a duplicate-free list of the values of `s`, `Singles` counts the
      values that occur in `s` exactly once. */
  lemma SinglesAreOnce<T(!new)>(d: seq<T>, s: seq<T>)
    requires NoDups(d)
    requires forall x :: x in d <==> x in s
    ensures Singles(d, s) == |OnceIn(s, s)|
  {
    SinglesOver(d, s);
    assert OnceIn(d, s) == OnceIn(s, s);
  }

  lemma {:induction false} SinglesOver<T(!new)>(d: seq<T>, s: seq<T>)
    requires NoDups(d)
    ensures Singles(d, s) == |OnceIn(d, s)|
  {
    if d == [] {
      assert OnceIn(d, s) == {};
    } else {
      var tail := d[1..];
      assert NoDups(tail) by {
        forall i, j | 0 <= i < j < |tail| ensures tail[i] != tail[j] {
          assert tail[i] == d[i + 1] && tail[j] == d[j + 1];
        }
      }
      assert d[0] !in tail by {
        forall i | 0 <= i < |tail| ensures tail[i] != d[0] {
          assert tail[i] == d[i + 1];
        }
      }
      SinglesOver(tail, s);
      var head: set<T> := if Occurrences(s, d[0]) == 1 then {d[0]} else {};
      assert forall x :: x in d <==> x == d[0] || x in tail;
      assert OnceIn(d, s) == head + OnceIn(tail, s);
      assert head !! OnceIn(tail, s);
    }
  }

  /** Sum of a sequence of numbers. */
  function Sum(s: seq<real>): real {
    if s == [] then 0.0 else s[0] + Sum(s[1..])
  }

  /** The smallest value of a non-empty sequence. */
  function Min(s: seq<real>): (m: real)
    requires s != []
    ensures m in s && forall x :: x in s ==> m <= x
  {
    if |s| == 1 then s[0]
    else
      var m := Min(s[1..]);
      assert forall x :: x in s ==> x == s[0] || x in s[1..];
      if s[0] <= m then s[0] else m
  }

  /** The largest value of a non-empty sequence. */
  function Max(s: seq<real>): (m: real)
    requires s != []
    ensures m in s && forall x :: x in s ==> x <= m
  {
    if |s| == 1 then s[0]
    else
      var m := Max(s[1..]);
      assert forall x :: x in s ==> x == s[0] || x in s[1..];
      if s[0] >= m then s[0] else m
  }

  /** A sum lies between length times smallest and length times largest. */
  lemma {:induction false} SumBounds(s: seq<real>, lo: real, hi: real)
    requires forall x :: x in s ==> lo <= x <= hi
    ensures |s| as real * lo <= Sum(s) <= |s| as real * hi
  {
    if s != [] {
      assert forall x :: x in s[1..] ==> x in s;
      SumBounds(s[1..], lo, hi);
      assert s[0] in s;
      BoundsStep(|s| - 1, s[0], Sum(s[1..]), lo, hi);
    }
  }

  /** Adding one value between `lo` and `hi` to a sum of `n` such values. */
  lemma BoundsStep(n: nat, x: real, rest: real, lo: real, hi: real)
    requires lo <= x <= hi && n as real * lo <= rest <= n as real * hi
    ensures (n + 1) as real * lo <= x + rest <= (n + 1) as real * hi
  {
    assert (n + 1) as real * lo == n as real * lo + lo;
    assert (n + 1) as real * hi == n as real * hi + hi;
  }
}
