/** The cases the test suite fixes for the volume and ratio metrics, each
    proved first for any identifiers of the same shape and then for the
    identifiers the test writes. */
module MetricCases {
  import opened Wrappers
  import opened Collections
  import opened EventModel
  import opened Metrics
  import opened CaseEvents

  lemma LossOfMixedEvents()
    ensures Loss([User("user-a"), User("user-b"), Anonymous(), User("user-d")]) == 0.25
  {
  }

  lemma LossOfNoEvents()
    ensures Loss([]) == 0.0
  {
  }

  lemma LossOfAnonymousEvents()
    ensures Loss([Anonymous(), Anonymous()]) == 1.0
  {
  }

  /** The events of the `uniqueSessions` case, over three session identifiers. */
  function SessionCase(a: string, b: string, c: string): seq<Event> {
    [Blank(), WithPayload(NoDetail()), InSession(a), InSession(b)]
    + [InSession(c), InSession(a), InSession(a), InSession(c)]
  }

  lemma SessionIdsOfSessionCase(a: string, b: string, c: string)
    requires a != "" && b != "" && c != ""
    ensures SessionIds(SessionCase(a, b, c)) == [a, b, c, a, a, c]
  {
    var x := [Blank(), WithPayload(NoDetail()), InSession(a), InSession(b)];
    var y := [InSession(c), InSession(a), InSession(a), InSession(c)];
    assert Collect(x, SessionOf) == [a, b] by {
      CollectOfFour(x[0], x[1], x[2], x[3], SessionOf);
    }
    assert Collect(y, SessionOf) == [c, a, a, c] by {
      CollectOfFour(y[0], y[1], y[2], y[3], SessionOf);
    }
    CollectAppend(x, y, SessionOf);
  }

  /** Three distinct session identifiers over six session events. */
  lemma UniqueSessionsOfSessionCase(a: string, b: string, c: string)
    requires a != "" && b != "" && c != ""
    requires a != b && b != c && a != c
    ensures UniqueSessions(SessionCase(a, b, c)) == 3
  {
    SessionIdsOfSessionCase(a, b, c);
    assert Elements([a, b, c, a, a, c]) == {a, b, c};
    DistinctCard([a, b, c, a, a, c]);
    CardOfThree(a, b, c);
  }

  /** Identifiers that differ only in case are different sessions. */
  lemma UniqueSessionsCountsCaseSensitively()
    ensures UniqueSessions(SessionCase("session-a", "session-b", "session-B")) == 3
  {
    UniqueSessionsOfSessionCase("session-a", "session-b", "session-B");
  }

  lemma UniqueSessionsOfNoEvents()
    ensures UniqueSessions([]) == 0
  {
  }

  /** The events of the first `bounceRate` case: four sessions, one of them
      with four events, and an anonymous event. */
  function BounceCase(a: string, b: string, c: string, d: string): seq<Event> {
    [InSession(a), InSession(b), InSession(c), InSession(d)]
    + [InSession(c), InSession(c), InSession(c), Anonymous()]
  }

  lemma SessionIdsOfBounceCase(a: string, b: string, c: string, d: string)
    requires a != "" && b != "" && c != "" && d != ""
    ensures SessionIds(BounceCase(a, b, c, d)) == [a, b, c, d, c, c, c]
  {
    var x := [InSession(a), InSession(b), InSession(c), InSession(d)];
    var y := [InSession(c), InSession(c), InSession(c), Anonymous()];
    CollectOfFour(x[0], x[1], x[2], x[3], SessionOf);
    CollectOfFour(y[0], y[1], y[2], y[3], SessionOf);
    CollectAppend(x, y, SessionOf);
  }

  lemma OnceOfBounceIds(a: string, b: string, c: string, d: string)
    requires a != b && a != c && a != d && b != c && b != d && c != d
    ensures OnceIn([a, b, c, d, c, c, c], [a, b, c, d, c, c, c]) == {a, b, d}
  {
    var ids := [a, b, c, d, c, c, c];
    assert ids == [a, b, c, d] + [c, c, c];
    forall x ensures Occurrences(ids, x) == Hit(a, x) + Hit(b, x) + 4 * Hit(c, x) + Hit(d, x) {
      OccurrencesAppend([a, b, c, d], [c, c, c], x);
      OccurrencesOfFour(a, b, c, d, x);
      OccurrencesOfThree(c, c, c, x);
    }
  }

  lemma UniqueSessionsOfBounceCase(a: string, b: string, c: string, d: string)
    requires a != "" && b != "" && c != "" && d != ""
    requires a != b && a != c && a != d && b != c && b != d && c != d
    ensures UniqueSessions(BounceCase(a, b, c, d)) == 4
  {
    var ids := [a, b, c, d, c, c, c];
    SessionIdsOfBounceCase(a, b, c, d);
    assert Elements(ids) == {a, b, c, d};
    DistinctCard(ids);
    CardOfFour(a, b, c, d);
  }

  lemma BouncesOfBounceCase(a: string, b: string, c: string, d: string)
    requires a != "" && b != "" && c != "" && d != ""
    requires a != b && a != c && a != d && b != c && b != d && c != d
    ensures Bounces(BounceCase(a, b, c, d)) == 3
  {
    SessionIdsOfBounceCase(a, b, c, d);
    BouncesAreSingleEventSessions(BounceCase(a, b, c, d));
    OnceOfBounceIds(a, b, c, d);
    CardOfThree(a, b, d);
  }

  lemma BounceRateOfBounceCase(a: string, b: string, c: string, d: string)
    requires a != "" && b != "" && c != "" && d != ""
    requires a != b && a != c && a != d && b != c && b != d && c != d
    ensures BounceRate(BounceCase(a, b, c, d)) == 0.75
  {
    UniqueSessionsOfBounceCase(a, b, c, d);
    BouncesOfBounceCase(a, b, c, d);
  }

  lemma BounceRateOfMixedSessions()
    ensures BounceRate(BounceCase("session-a", "session-b", "session-B", "session-c")) == 0.75
  {
    BounceRateOfBounceCase("session-a", "session-b", "session-B", "session-c");
  }

  lemma BounceRateOfNoEvents()
    ensures BounceRate([]) == 0.0
  {
  }

  /** The events of the last `bounceRate` case: four single-event sessions
      and an event without a session. */
  function SingleSessionsCase(a: string, b: string, c: string, d: string): seq<Event> {
    [InSession(a), InSession(b), InSession(c), InSession(d)] + [Blank()]
  }

  lemma BounceRateOfSingleSessionsCase(a: string, b: string, c: string, d: string)
    requires a != "" && b != "" && c != "" && d != ""
    requires a != b && a != c && a != d && b != c && b != d && c != d
    ensures BounceRate(SingleSessionsCase(a, b, c, d)) == 1.0
  {
    var x := [InSession(a), InSession(b), InSession(c), InSession(d)];
    CollectOfFour(x[0], x[1], x[2], x[3], SessionOf);
    CollectOfOne(Blank(), SessionOf);
    CollectAppend(x, [Blank()], SessionOf);
    var ids := [a, b, c, d];
    assert SessionIds(SingleSessionsCase(a, b, c, d)) == ids;
    assert NoDups(ids);
    assert ids[0] in Elements(ids);
    DistinctCard(ids);
  }

  lemma BounceRateOfSingleSessions()
    ensures BounceRate(SingleSessionsCase("session-a", "session-b", "session-B", "session-c")) == 1.0
  {
    BounceRateOfSingleSessionsCase("session-a", "session-b", "session-B", "session-c");
  }

  /** The events of the `avgPageload` case. */
  function PageloadCase(): seq<Event> {
    [Anonymous(), Loaded(200.0), WithPayload(NoDetail()), Loaded(200.0)]
    + [Loaded(400.0), Loaded(100.0), Loaded(100.0)]
  }

  lemma PageloadsOfPageloadCase()
    ensures Pageloads(PageloadCase()) == [200.0, 200.0, 400.0, 100.0, 100.0]
  {
    var x := [Anonymous(), Loaded(200.0), WithPayload(NoDetail()), Loaded(200.0)];
    var y := [Loaded(400.0), Loaded(100.0), Loaded(100.0)];
    assert Collect(x, PageloadOf) == [200.0, 200.0] by {
      CollectOfFour(x[0], x[1], x[2], x[3], PageloadOf);
    }
    assert Collect(y, PageloadOf) == [400.0, 100.0, 100.0] by {
      CollectOfThree(y[0], y[1], y[2], PageloadOf);
    }
    CollectAppend(x, y, PageloadOf);
  }

  /** Five present page loads summing to 1000 average 200; events without a
      `pageload` do not count. */
  lemma AvgPageloadOfPresentValues()
    ensures AvgPageload(PageloadCase()) == Some(200.0)
  {
    PageloadsOfPageloadCase();
    var loads: seq<real> := [200.0, 200.0, 400.0, 100.0, 100.0];
    assert loads[1..] == [200.0, 400.0, 100.0, 100.0];
    assert loads[2..] == [400.0, 100.0, 100.0];
    assert loads[3..] == [100.0, 100.0];
    assert loads[4..] == [100.0];
    assert loads[5..] == [];
    assert Sum(loads) == 1000.0;
  }

  lemma AvgPageloadOfNoEvents()
    ensures AvgPageload([]) == None
  {
  }

  /** The events of the `avgPageDepth` case, over three session identifiers. */
  function DepthCase(a: string, b: string, c: string): seq<Event> {
    [Blank(), InSession(a), InSession(b), InSession(b)]
    + [InSession(a), InSession(c), InSession(a)]
  }

  lemma SessionIdsOfDepthCase(a: string, b: string, c: string)
    requires a != "" && b != "" && c != ""
    ensures SessionIds(DepthCase(a, b, c)) == [a, b, b, a, c, a]
  {
    var x := [Blank(), InSession(a), InSession(b), InSession(b)];
    var y := [InSession(a), InSession(c), InSession(a)];
    assert Collect(x, SessionOf) == [a, b, b] by {
      CollectOfFour(x[0], x[1], x[2], x[3], SessionOf);
    }
    assert Collect(y, SessionOf) == [a, c, a] by {
      CollectOfThree(y[0], y[1], y[2], SessionOf);
    }
    CollectAppend(x, y, SessionOf);
  }

  lemma UniqueSessionsOfDepthCase(a: string, b: string, c: string)
    requires a != "" && b != "" && c != ""
    requires a != b && b != c && a != c
    ensures UniqueSessions(DepthCase(a, b, c)) == 3
  {
    var ids := [a, b, b, a, c, a];
    SessionIdsOfDepthCase(a, b, c);
    assert Elements(ids) == {a, b, c};
    DistinctCard(ids);
    CardOfThree(a, b, c);
  }

  lemma AvgPageDepthOfDepthCase(a: string, b: string, c: string)
    requires a != "" && b != "" && c != ""
    requires a != b && b != c && a != c
    ensures AvgPageDepth(DepthCase(a, b, c)) == Some(2.0)
  {
    SessionIdsOfDepthCase(a, b, c);
    UniqueSessionsOfDepthCase(a, b, c);
  }

  /** Six session events over three sessions are two pages per session. */
  lemma AvgPageDepthOfThreeSessions()
    ensures AvgPageDepth(DepthCase("session-a", "session-b", "session-c")) == Some(2.0)
  {
    AvgPageDepthOfDepthCase("session-a", "session-b", "session-c");
  }

  lemma AvgPageDepthOfNoEvents()
    ensures AvgPageDepth([]) == None
  {
  }

  /** The events of the `pageviews` and `visitors` cases; `{ userId: null }`
      and `{}` carry no user. */
  function UserCase(a: string, b: string, c: string): seq<Event> {
    [User(b), User(a), Blank(), User(b)] + [User(c), Blank()]
  }

  lemma UserIdsOfUserCase(a: string, b: string, c: string)
    requires a != "" && b != "" && c != ""
    ensures UserIds(UserCase(a, b, c)) == [b, a, b, c]
  {
    var x, y := [User(b), User(a), Blank(), User(b)], [User(c), Blank()];
    assert Collect(x, UserOf) == [b, a, b] by {
      CollectOfFour(x[0], x[1], x[2], x[3], UserOf);
    }
    assert Collect(y, UserOf) == [c] by {
      CollectOfTwo(y[0], y[1], UserOf);
    }
    CollectAppend(x, y, UserOf);
  }

  lemma PageviewsCountIdentifiedEvents()
    ensures Pageviews(UserCase("user-a", "user-b", "user-c")) == 4
  {
    UserIdsOfUserCase("user-a", "user-b", "user-c");
    UserIdsPerPageview(UserCase("user-a", "user-b", "user-c"));
  }

  lemma PageviewsOfNoEvents()
    ensures Pageviews([]) == 0
  {
  }

  lemma VisitorsOfUserCase(a: string, b: string, c: string)
    requires a != "" && b != "" && c != ""
    requires a != b && b != c && a != c
    ensures Visitors(UserCase(a, b, c)) == 3
  {
    UserIdsOfUserCase(a, b, c);
    assert Elements([b, a, b, c]) == {a, b, c};
    CollectMembers(UserCase(a, b, c), UserOf);
    assert UserSet(UserCase(a, b, c)) == Elements([b, a, b, c]);
    CardOfThree(a, b, c);
  }

  lemma VisitorsCountDistinctUsers()
    ensures Visitors(UserCase("user-a", "user-b", "user-c")) == 3
  {
    VisitorsOfUserCase("user-a", "user-b", "user-c");
  }

  lemma VisitorsOfNoEvents()
    ensures Visitors([]) == 0
  {
  }

  /** The events of the `accounts` case. */
  function AccountCase(a: string, b: string, c: string): seq<Event> {
    [Account(b), Account(a), Blank(), Account(b)] + [Account(c), Blank()]
  }

  lemma AccountIdsOfAccountCase(a: string, b: string, c: string)
    requires a != "" && b != "" && c != ""
    ensures Collect(AccountCase(a, b, c), AccountOf) == [b, a, b, c]
  {
    var x, y := [Account(b), Account(a), Blank(), Account(b)], [Account(c), Blank()];
    assert Collect(x, AccountOf) == [b, a, b] by {
      CollectOfFour(x[0], x[1], x[2], x[3], AccountOf);
    }
    assert Collect(y, AccountOf) == [c] by {
      CollectOfTwo(y[0], y[1], AccountOf);
    }
    CollectAppend(x, y, AccountOf);
  }

  lemma AccountsOfAccountCase(a: string, b: string, c: string)
    requires a != "" && b != "" && c != ""
    requires a != b && b != c && a != c
    ensures Accounts(AccountCase(a, b, c)) == 3
  {
    var events := AccountCase(a, b, c);
    AccountIdsOfAccountCase(a, b, c);
    CollectMembers(events, AccountOf);
    assert AccountSet(events) == {a, b, c};
    CardOfThree(a, b, c);
  }

  lemma AccountsCountDistinctAccounts()
    ensures Accounts(AccountCase("account-a", "account-b", "account-c")) == 3
  {
    AccountsOfAccountCase("account-a", "account-b", "account-c");
  }

  lemma AccountsOfNoEvents()
    ensures Accounts([]) == 0
  {
  }
}
