/** `stats.retention`: the cohort retention matrix over a list of event
    chunks, one chunk per period. */
module Cohorts {
  import opened EventModel
  import opened Metrics
  import opened Ratios

  lemma SubsetCard(a: set<string>, b: set<string>)
    ensures |a * b| <= |a|
    ensures |a * b| == |a| <==> a <= b
  {
    assert a == (a * b) + (a - b);
    assert (a * b) !! (a - b);
    if |a * b| == |a| {
      assert |a - b| == 0;
      assert a - b == {};
    }
  }

  /** The share of cohort `a` that is present again in `b`; 0 for an empty
      cohort. The share is 1 exactly when the whole cohort returns, and 0
      exactly when nobody does. */
  function Retained(a: set<string>, b: set<string>): (r: real)
    ensures 0.0 <= r <= 1.0
    ensures a == {} ==> r == 0.0
    ensures a != {} ==> (r == 1.0 <==> a <= b)
    ensures r == 0.0 <==> a * b == {}
  {
    if |a| == 0 then 0.0
    else
      SubsetCard(a, b);
      Share(|a * b|, |a|);
      |a * b| as real / |a| as real
  }

  /** Row `i`: the share of chunk `i`'s cohort present in chunk `i + j`, for
      every later-or-same chunk. */
  function Row(chunks: seq<seq<Event>>, i: nat): (row: seq<real>)
    requires i < |chunks|
    ensures |row| == |chunks| - i
    ensures forall j :: 0 <= j < |row| ==> row[j] == Retained(UserSet(chunks[i]), UserSet(chunks[i + j]))
  {
    seq(|chunks| - i, j requires 0 <= j < |chunks| - i => Retained(UserSet(chunks[i]), UserSet(chunks[i + j])))
  }

  /** `stats.retention`: the jagged matrix of rows, row `i` having one entry
      per chunk from `i` to the last. Entry `(i, j)` is the share of chunk
      `i`'s cohort present again in chunk `i + j`: a share in [0, 1], 1
      exactly when the whole non-empty cohort returns, and 0 throughout the
      row of a chunk without identified users. */
  function Retention(chunks: seq<seq<Event>>): (m: seq<seq<real>>)
    ensures |m| == |chunks|
    ensures forall i :: 0 <= i < |m| ==> |m[i]| == |chunks| - i
    ensures forall i, j :: 0 <= i < |m| && 0 <= j < |m[i]| ==>
              m[i][j] == Retained(UserSet(chunks[i]), UserSet(chunks[i + j]))
    ensures forall i, j :: 0 <= i < |m| && 0 <= j < |m[i]| ==> 0.0 <= m[i][j] <= 1.0
    ensures forall i, j :: 0 <= i < |m| && 0 <= j < |m[i]| ==>
              (m[i][j] == 1.0 <==> UserSet(chunks[i]) != {} && UserSet(chunks[i]) <= UserSet(chunks[i + j]))
    ensures forall i, j :: 0 <= i < |m| && 0 <= j < |m[i]| && UserSet(chunks[i]) == {} ==> m[i][j] == 0.0
  {
    var m := seq(|chunks|, i requires 0 <= i < |chunks| => Row(chunks, i));
    assert forall i :: 0 <= i < |chunks| ==> m[i] == Row(chunks, i);
    m
  }

  /** Each cohort is fully present in its own chunk: the first entry of a
      row is 1, or 0 when the chunk has no identified user. */
  lemma RetentionDiagonal(chunks: seq<seq<Event>>, i: nat)
    requires i < |chunks|
    ensures Retention(chunks)[i][0] == (if UserSet(chunks[i]) == {} then 0.0 else 1.0)
  {
    assert Retention(chunks)[i] == Row(chunks, i);
  }

  lemma RowShift(chunks: seq<seq<Event>>, i: nat)
    requires i + 1 < |chunks|
    ensures Row(chunks, i + 1) == Row(chunks[1..], i)
  {
    var a, b := Row(chunks, i + 1), Row(chunks[1..], i);
    forall j | 0 <= j < |a| ensures a[j] == b[j] {
      assert chunks[i + 1] == chunks[1..][i] && chunks[i + 1 + j] == chunks[1..][i + j];
    }
  }

  /** The rows after the first are the matrix of the later chunks alone. */
  lemma RetentionSuffix(chunks: seq<seq<Event>>)
    requires chunks != []
    ensures Retention(chunks)[1..] == Retention(chunks[1..])
  {
    var m, m' := Retention(chunks), Retention(chunks[1..]);
    forall i | 0 <= i < |m'| ensures m[1..][i] == m'[i] {
      assert m[1..][i] == m[i + 1] == Row(chunks, i + 1);
      assert m'[i] == Row(chunks[1..], i);
      RowShift(chunks, i);
    }
  }

  /** Chunks without identified users give a matrix of zeros. */
  lemma RetentionOfAnonymousChunks(chunks: seq<seq<Event>>)
    requires forall k, e :: 0 <= k < |chunks| && e in chunks[k] ==> !Identified(e)
    ensures forall i, j :: 0 <= i < |chunks| && 0 <= j < |chunks| - i ==> Retention(chunks)[i][j] == 0.0
  {
    forall i | 0 <= i < |chunks| ensures UserSet(chunks[i]) == {} {
      var c := chunks[i];
      assert forall k :: 0 <= k < |c| ==> c[k] in c;
    }
  }
}
