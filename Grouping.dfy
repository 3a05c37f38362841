/** Grouped results: tallying a sequence of grouping keys into `{key, count}`
    entries and ranking them by count descending, ties broken by key
    ascending. Every breakdown metric of the engine ends in `Breakdown`. */
module Grouping {
  import opened Collections

  /** One entry of a breakdown: a grouping key and how many contributions
      carry it. */
  datatype Group = Group(key: string, count: nat)

  /** Strict lexicographic order on strings, character by character (a
      proper prefix comes first). */
  predicate KeyLess(a: string, b: string) {
    if a == [] then b != []
    else b != [] && (a[0] < b[0] || (a[0] == b[0] && KeyLess(a[1..], b[1..])))
  }

  lemma {:induction false} KeyLessIrreflexive(a: string)
    ensures !KeyLess(a, a)
  {
    if a != [] {
      KeyLessIrreflexive(a[1..]);
    }
  }

  lemma {:induction false} KeyLessTransitive(a: string, b: string, c: string)
    requires KeyLess(a, b) && KeyLess(b, c)
    ensures KeyLess(a, c)
  {
    if a != [] && a[0] == b[0] && b[0] == c[0] {
      KeyLessTransitive(a[1..], b[1..], c[1..]);
    }
  }

  /** Two different keys are always ordered one way or the other, never both. */
  lemma {:induction false} KeyLessTotal(a: string, b: string)
    ensures a == b || KeyLess(a, b) || KeyLess(b, a)
    ensures !(KeyLess(a, b) && KeyLess(b, a))
  {
    if a != [] && b != [] && a[0] == b[0] {
      KeyLessTotal(a[1..], b[1..]);
      if a[1..] == b[1..] {
        assert a == [a[0]] + a[1..] && b == [b[0]] + b[1..];
      }
    }
  }

  /** Two keys that agree up to position `k` and differ there are ordered
      by their characters at `k`. */
  lemma {:induction false} KeyLessAt(a: string, b: string, k: nat)
    requires k < |a| && k < |b| && a[..k] == b[..k] && a[k] < b[k]
    ensures KeyLess(a, b)
  {
    if k > 0 {
      assert a[1..][..k - 1] == a[..k][1..];
      assert b[1..][..k - 1] == b[..k][1..];
      assert a[0] == a[..k][0];
      assert b[0] == b[..k][0];
      KeyLessAt(a[1..], b[1..], k - 1);
    }
  }

  /** The ranking order of a breakdown: higher counts first, equal counts by
      ascending key. */
  predicate Precedes(g: Group, h: Group) {
    g.count > h.count || (g.count == h.count && KeyLess(g.key, h.key))
  }

  lemma PrecedesTransitive(f: Group, g: Group, h: Group)
    requires Precedes(f, g) && Precedes(g, h)
    ensures Precedes(f, h)
  {
    if f.count == g.count == h.count {
      KeyLessTransitive(f.key, g.key, h.key);
    }
  }

  lemma PrecedesTotal(g: Group, h: Group)
    requires g.key != h.key
    ensures Precedes(g, h) != Precedes(h, g)
  {
    KeyLessTotal(g.key, h.key);
  }

  /** Every entry precedes every later entry. */
  predicate Ranked(gs: seq<Group>) {
    forall i, j :: 0 <= i < j < |gs| ==> Precedes(gs[i], gs[j])
  }

  /** No key has two entries. */
  predicate DistinctKeys(gs: seq<Group>) {
    forall i, j :: 0 <= i < j < |gs| ==> gs[i].key != gs[j].key
  }

  /** Sum of the counts of the entries. */
  function Total(gs: seq<Group>): nat {
    if gs == [] then 0 else gs[0].count + Total(gs[1..])
  }

  /** One entry per distinct key of `d`, counting its occurrences in `keys`. */
  function TallyOver(d: seq<string>, keys: seq<string>): (gs: seq<Group>)
    ensures |gs| == |d|
    ensures forall i :: 0 <= i < |d| ==> gs[i] == Group(d[i], Occurrences(keys, d[i]))
    ensures Total(gs) == TotalOccurrences(d, keys)
  {
    if d == [] then [] else [Group(d[0], Occurrences(keys, d[0]))] + TallyOver(d[1..], keys)
  }

  /** The unsorted tally of `keys`: one entry per distinct key with its number
      of occurrences. */
  function Tally(keys: seq<string>): (gs: seq<Group>)
    ensures DistinctKeys(gs)
    ensures forall g :: g in gs <==> g.key in keys && g.count == Occurrences(keys, g.key)
    ensures Total(gs) == |keys|
  {
    var d := Distinct(keys);
    var gs := TallyOver(d, keys);
    assert forall g :: g in gs ==> g.key in d by {
      forall g | g in gs ensures g.key in d {
        var i :| 0 <= i < |gs| && gs[i] == g;
      }
    }
    assert forall k :: k in d ==> Group(k, Occurrences(keys, k)) in gs by {
      forall k | k in d ensures Group(k, Occurrences(keys, k)) in gs {
        var i :| 0 <= i < |d| && d[i] == k;
        assert gs[i] == Group(k, Occurrences(keys, k));
      }
    }
    TotalOccurrencesOfCover(d, keys);
    gs
  }

  /** Puts `g` into its place in a ranked list that has no entry for its key. */
  function Insert(g: Group, gs: seq<Group>): (r: seq<Group>)
    requires Ranked(gs) && DistinctKeys(gs)
    requires forall h :: h in gs ==> h.key != g.key
    ensures Ranked(r) && DistinctKeys(r)
    ensures forall h :: h in r <==> h == g || h in gs
    ensures Total(r) == g.count + Total(gs)
  {
    if gs == [] then [g]
    else if Precedes(g, gs[0]) then
      PrecedesHead(g, gs);
      Cons(g, gs);
      [g] + gs
    else
      PrecedesTotal(g, gs[0]);
      Unfold(gs);
      var rest := Insert(g, gs[1..]);
      Cons(gs[0], rest);
      [gs[0]] + rest
  }

  /** What a ranked list with distinct keys says about its head and tail. */
  lemma Unfold(gs: seq<Group>)
    requires Ranked(gs) && DistinctKeys(gs) && gs != []
    ensures Ranked(gs[1..]) && DistinctKeys(gs[1..])
    ensures forall h :: h in gs[1..] ==> Precedes(gs[0], h) && h.key != gs[0].key
    ensures Total(gs) == gs[0].count + Total(gs[1..])
  {
    forall h | h in gs[1..] ensures Precedes(gs[0], h) && h.key != gs[0].key {
      var j :| 0 <= j < |gs[1..]| && gs[1..][j] == h;
      assert gs[j + 1] == h;
    }
  }

  /** A group that precedes the head of a ranked list precedes all of it. */
  lemma PrecedesHead(g: Group, gs: seq<Group>)
    requires Ranked(gs) && gs != [] && Precedes(g, gs[0])
    ensures forall h :: h in gs ==> Precedes(g, h)
  {
    forall h | h in gs ensures Precedes(g, h) {
      if h != gs[0] {
        var j :| 0 <= j < |gs| && gs[j] == h;
        PrecedesTransitive(g, gs[0], h);
      }
    }
  }

  /** Putting in front a group that precedes every entry, under a key of its
      own, keeps a list ranked. */
  lemma Cons(g: Group, gs: seq<Group>)
    requires Ranked(gs) && DistinctKeys(gs)
    requires forall h :: h in gs ==> Precedes(g, h) && h.key != g.key
    ensures Ranked([g] + gs) && DistinctKeys([g] + gs)
    ensures Total([g] + gs) == g.count + Total(gs)
  {
    var r := [g] + gs;
    assert r[1..] == gs;
    forall i, j | 0 <= i < j < |r| ensures Precedes(r[i], r[j]) && r[i].key != r[j].key {
      assert r[j] == gs[j - 1];
      if i > 0 {
        assert r[i] == gs[i - 1];
      } else {
        assert r[j] in gs;
      }
    }
  }

  /** Insertion sort of a tally into ranking order. */
  function Rank(gs: seq<Group>): (r: seq<Group>)
    requires DistinctKeys(gs)
    ensures Ranked(r) && DistinctKeys(r)
    ensures forall h :: h in r <==> h in gs
    ensures Total(r) == Total(gs)
  {
    if gs == [] then []
    else
      assert forall h :: h in gs[1..] ==> h.key != gs[0].key by {
        forall h | h in gs[1..] ensures h.key != gs[0].key {
          var j :| 0 <= j < |gs[1..]| && gs[1..][j] == h;
          assert gs[j + 1] == h;
        }
      }
      assert DistinctKeys(gs[1..]) by {
        forall i, j | 0 <= i < j < |gs[1..]| ensures gs[1..][i].key != gs[1..][j].key {
          assert gs[1..][i] == gs[i + 1] && gs[1..][j] == gs[j + 1];
        }
      }
      Insert(gs[0], Rank(gs[1..]))
  }

  /** The grouped result for a sequence of grouping keys: one `{key, count}`
      entry per distinct key, ranked by count descending and key ascending. */
  function Breakdown(keys: seq<string>): (r: seq<Group>)
    ensures Ranked(r) && DistinctKeys(r)
    ensures forall g :: g in r <==> g.key in keys && g.count == Occurrences(keys, g.key)
    ensures Total(r) == |keys|
  {
    Rank(Tally(keys))
  }

  /** A ranked list is determined by its entries. */
  lemma {:induction false} RankedUnique(a: seq<Group>, b: seq<Group>)
    requires Ranked(a) && Ranked(b)
    requires forall g :: g in a <==> g in b
    ensures a == b
  {
    assert a != [] ==> a[0] in a;
    assert b != [] ==> b[0] in b;
    if a != [] && b != [] {
      PrecedesIrreflexive(a[0]);
      PrecedesIrreflexive(b[0]);
      if a[0] != b[0] {
        assert b[0] in b && a[0] in a;
        var i :| 0 <= i < |a| && a[i] == b[0];
        var j :| 0 <= j < |b| && b[j] == a[0];
        assert Precedes(a[0], b[0]) && Precedes(b[0], a[0]);
        PrecedesTransitive(a[0], b[0], a[0]);
        assert false;
      }
      forall g ensures g in a[1..] <==> g in b[1..] {
        RankedTail(a, g);
        RankedTail(b, g);
      }
      RankedUnique(a[1..], b[1..]);
      assert a == [a[0]] + a[1..] && b == [b[0]] + b[1..];
    }
  }

  lemma PrecedesIrreflexive(g: Group)
    ensures !Precedes(g, g)
  {
    KeyLessIrreflexive(g.key);
  }

  lemma RankedTail(a: seq<Group>, g: Group)
    requires Ranked(a) && a != []
    ensures g in a[1..] <==> g in a && g != a[0]
  {
    PrecedesIrreflexive(a[0]);
    if g in a && g != a[0] {
      var i :| 0 <= i < |a| && a[i] == g;
      assert a[1..][i - 1] == g;
    }
    if g in a[1..] {
      var i :| 0 <= i < |a[1..]| && a[1..][i] == g;
      assert a[i + 1] == g;
    }
  }

  /** `Breakdown` is the only ranked list whose entries are exactly the keys
      with their occurrence counts. */
  lemma BreakdownCharacterized(keys: seq<string>, r: seq<Group>)
    requires Ranked(r)
    requires forall g :: g in r <==> g.key in keys && g.count == Occurrences(keys, g.key)
    ensures r == Breakdown(keys)
  {
    RankedUnique(r, Breakdown(keys));
  }

  /** The grouped result depends only on how often each key occurs, not on
      the order in which the contributions arrive. */
  lemma BreakdownOrderInsensitive(keys: seq<string>, other: seq<string>)
    requires forall k :: Occurrences(keys, k) == Occurrences(other, k)
    ensures Breakdown(keys) == Breakdown(other)
  {
    var r := Breakdown(other);
    forall g ensures g in r <==> g.key in keys && g.count == Occurrences(keys, g.key) {
      assert g.key in keys <==> Occurrences(keys, g.key) > 0;
      assert g.key in other <==> Occurrences(other, g.key) > 0;
    }
    BreakdownCharacterized(keys, r);
  }
}
