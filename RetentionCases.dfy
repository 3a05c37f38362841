/** The cases the test suite fixes for `retention`: four chunks whose
    cohorts overlap, three empty chunks, and no chunks at all. The first is
    proved for any four, three and three distinct non-empty user
    identifiers, then for the ones the test writes. */
module RetentionCases {
  import opened Wrappers
  import opened EventModel
  import opened Metrics
  import opened Cohorts
  import opened CaseEvents

  /** `[{}, { userId: a }, { userId: b }, { userId: c }, { userId: d }]`. */
  function FourUsers(a: string, b: string, c: string, d: string): seq<Event> {
    [Blank(), User(a), User(b), User(c), User(d)]
  }

  /** `[{}, { userId: a }, { userId: b }, { userId: c }]`. */
  function ThreeUsers(a: string, b: string, c: string): seq<Event> {
    [Blank(), User(a), User(b), User(c)]
  }

  lemma CohortOfFourUsers(a: string, b: string, c: string, d: string)
    requires a != "" && b != "" && c != "" && d != ""
    ensures UserSet(FourUsers(a, b, c, d)) == {a, b, c, d}
  {
    var x := FourUsers(a, b, c, d);
    assert UserOf(x[1]) == Some(a) && UserOf(x[2]) == Some(b);
    assert UserOf(x[3]) == Some(c) && UserOf(x[4]) == Some(d);
  }

  lemma CohortOfThreeUsers(a: string, b: string, c: string)
    requires a != "" && b != "" && c != ""
    ensures UserSet(ThreeUsers(a, b, c)) == {a, b, c}
  {
    var x := ThreeUsers(a, b, c);
    assert UserOf(x[1]) == Some(a) && UserOf(x[2]) == Some(b) && UserOf(x[3]) == Some(c);
  }

  lemma CohortOfNoEvents()
    ensures UserSet([]) == {}
  {
  }

  /** The chunks of the retention case: users `a`, `b`, `y`, `z` in the
      first period, `m`, `a`, `z` in the second, `k`, `m`, `z` in the third,
      and nobody in the fourth. */
  function RetentionCase(a: string, b: string, y: string, z: string, m: string, k: string): seq<seq<Event>> {
    [FourUsers(a, b, y, z), ThreeUsers(m, a, z), ThreeUsers(k, m, z), []]
  }

  /** The six users are different people with truthy identifiers. */
  predicate SixUsers(a: string, b: string, y: string, z: string, m: string, k: string) {
    a != "" && b != "" && y != "" && z != "" && m != "" && k != ""
    && a != b && a != y && a != z && a != m && a != k
    && b != y && b != z && b != m && b != k
    && y != z && y != m && y != k
    && z != m && z != k
    && m != k
  }

  /** Half of the first cohort (`a` and `z`) comes back in the second period
      and a quarter (`z`) in the third. */
  lemma FirstCohortRetained(a: string, b: string, y: string, z: string, m: string, k: string)
    requires SixUsers(a, b, y, z, m, k)
    ensures Retained({a, b, y, z}, {a, b, y, z}) == 1.0
    ensures Retained({a, b, y, z}, {m, a, z}) == 0.5
    ensures Retained({a, b, y, z}, {k, m, z}) == 0.25
    ensures Retained({a, b, y, z}, {}) == 0.0
  {
    CardOfFour(a, b, y, z);
    assert {a, b, y, z} * {m, a, z} == {a, z};
    assert |{a, z}| == 2;
    assert {a, b, y, z} * {k, m, z} == {z};
  }

  /** Two thirds of the second cohort (`m` and `z`) come back in the third
      period. */
  lemma SecondCohortRetained(a: string, b: string, y: string, z: string, m: string, k: string)
    requires SixUsers(a, b, y, z, m, k)
    ensures Retained({m, a, z}, {m, a, z}) == 1.0
    ensures Retained({m, a, z}, {k, m, z}) == 2.0 / 3.0
    ensures Retained({m, a, z}, {}) == 0.0
  {
    CardOfThree(m, a, z);
    assert {m, a, z} * {k, m, z} == {m, z};
    assert |{m, z}| == 2;
  }

  lemma ThirdCohortRetained(a: string, b: string, y: string, z: string, m: string, k: string)
    requires SixUsers(a, b, y, z, m, k)
    ensures Retained({k, m, z}, {k, m, z}) == 1.0
    ensures Retained({k, m, z}, {}) == 0.0
  {
    CardOfThree(k, m, z);
  }

  lemma CohortsOfRetentionCase(a: string, b: string, y: string, z: string, m: string, k: string)
    requires SixUsers(a, b, y, z, m, k)
    ensures var chunks := RetentionCase(a, b, y, z, m, k);
            UserSet(chunks[0]) == {a, b, y, z} && UserSet(chunks[1]) == {m, a, z}
            && UserSet(chunks[2]) == {k, m, z} && UserSet(chunks[3]) == {}
  {
    CohortOfFourUsers(a, b, y, z);
    CohortOfThreeUsers(m, a, z);
    CohortOfThreeUsers(k, m, z);
  }

  /** Four periods with the given cohorts. */
  predicate FourCohorts(chunks: seq<seq<Event>>, c0: set<string>, c1: set<string>, c2: set<string>, c3: set<string>) {
    |chunks| == 4
    && UserSet(chunks[0]) == c0 && UserSet(chunks[1]) == c1 && UserSet(chunks[2]) == c2 && UserSet(chunks[3]) == c3
  }

  lemma FirstRowOfFour(chunks: seq<seq<Event>>, c0: set<string>, c1: set<string>, c2: set<string>, c3: set<string>)
    requires FourCohorts(chunks, c0, c1, c2, c3)
    ensures Row(chunks, 0) == [Retained(c0, c0), Retained(c0, c1), Retained(c0, c2), Retained(c0, c3)]
  {
    var row := Row(chunks, 0);
    assert row[0] == Retained(c0, c0) && row[1] == Retained(c0, c1);
    assert row[2] == Retained(c0, c2) && row[3] == Retained(c0, c3);
  }

  lemma SecondRowOfFour(chunks: seq<seq<Event>>, c0: set<string>, c1: set<string>, c2: set<string>, c3: set<string>)
    requires FourCohorts(chunks, c0, c1, c2, c3)
    ensures Row(chunks, 1) == [Retained(c1, c1), Retained(c1, c2), Retained(c1, c3)]
  {
    var row := Row(chunks, 1);
    assert row[0] == Retained(c1, c1) && row[1] == Retained(c1, c2) && row[2] == Retained(c1, c3);
  }

  lemma LastRowsOfFour(chunks: seq<seq<Event>>, c0: set<string>, c1: set<string>, c2: set<string>, c3: set<string>)
    requires FourCohorts(chunks, c0, c1, c2, c3)
    ensures Row(chunks, 2) == [Retained(c2, c2), Retained(c2, c3)]
    ensures Row(chunks, 3) == [Retained(c3, c3)]
  {
    var row := Row(chunks, 2);
    assert row[0] == Retained(c2, c2) && row[1] == Retained(c2, c3);
    assert Row(chunks, 3)[0] == Retained(c3, c3);
  }

  /** The matrix of four periods, in terms of their cohorts. */
  lemma RetentionOfFourCohorts(chunks: seq<seq<Event>>, c0: set<string>, c1: set<string>, c2: set<string>, c3: set<string>)
    requires FourCohorts(chunks, c0, c1, c2, c3)
    ensures Retention(chunks)
         == [[Retained(c0, c0), Retained(c0, c1), Retained(c0, c2), Retained(c0, c3)],
             [Retained(c1, c1), Retained(c1, c2), Retained(c1, c3)],
             [Retained(c2, c2), Retained(c2, c3)],
             [Retained(c3, c3)]]
  {
    var r := Retention(chunks);
    FirstRowOfFour(chunks, c0, c1, c2, c3);
    SecondRowOfFour(chunks, c0, c1, c2, c3);
    LastRowsOfFour(chunks, c0, c1, c2, c3);
    assert r[0] == Row(chunks, 0) && r[1] == Row(chunks, 1) && r[2] == Row(chunks, 2) && r[3] == Row(chunks, 3);
  }

  /** Each row follows one cohort through the later periods; the last,
      empty period has an empty cohort and a row of one 0. */
  lemma RetentionOfRetentionCase(a: string, b: string, y: string, z: string, m: string, k: string)
    requires SixUsers(a, b, y, z, m, k)
    ensures Retention(RetentionCase(a, b, y, z, m, k))
         == [[1.0, 0.5, 0.25, 0.0], [1.0, 2.0 / 3.0, 0.0], [1.0, 0.0], [0.0]]
  {
    CohortsOfRetentionCase(a, b, y, z, m, k);
    RetentionOfFourCohorts(RetentionCase(a, b, y, z, m, k), {a, b, y, z}, {m, a, z}, {k, m, z}, {});
    FirstCohortRetained(a, b, y, z, m, k);
    SecondCohortRetained(a, b, y, z, m, k);
    ThirdCohortRetained(a, b, y, z, m, k);
  }

  /** The retention matrix of the test's four periods. */
  lemma RetentionFollowsCohorts()
    ensures Retention([
              FourUsers("user-a", "user-b", "user-y", "user-z"),
              ThreeUsers("user-m", "user-a", "user-z"),
              ThreeUsers("user-k", "user-m", "user-z"),
              []])
         == [[1.0, 0.5, 0.25, 0.0], [1.0, 2.0 / 3.0, 0.0], [1.0, 0.0], [0.0]]
  {
    RetentionOfRetentionCase("user-a", "user-b", "user-y", "user-z", "user-m", "user-k");
  }

  /** Three empty periods: every cohort is empty, and every entry is 0. */
  lemma RetentionOfEmptyChunks()
    ensures Retention([[], [], []]) == [[0.0, 0.0, 0.0], [0.0, 0.0], [0.0]]
  {
    var chunks: seq<seq<Event>> := [[], [], []];
    var r := Retention(chunks);
    CohortOfNoEvents();
    var r0, r1, r2 := Row(chunks, 0), Row(chunks, 1), Row(chunks, 2);
    assert r0[0] == 0.0 && r0[1] == 0.0 && r0[2] == 0.0;
    assert r1[0] == 0.0 && r1[1] == 0.0 && r2[0] == 0.0;
    assert r0 == [0.0, 0.0, 0.0] && r1 == [0.0, 0.0] && r2 == [0.0];
    assert r[0] == r0 && r[1] == r1 && r[2] == r2;
  }

  lemma RetentionOfNoChunks()
    ensures Retention([]) == []
  {
  }
}
