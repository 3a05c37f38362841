/** The cases the test suite fixes for `landingPages`, `exitPages` and
    `activePages`. Each is proved on the page views the events reconstruct,
    for any owners and pages of the same shape, and then on the events the
    test writes. */
module PageCases {
  import opened Wrappers
  import opened Collections
  import opened EventModel
  import opened Grouping
  import opened Breakdowns
  import opened MetricRelations
  import opened CaseEvents

  /** The session page views of the `landingPages` and `exitPages` cases:
      session `a` views `foo`, `bar`, `baz` at 0, 1, 2; session `b` views
      `foo` then `bar` at 247 and 290; session `c` views `site` at 50. */
  function SessionTrail(a: string, b: string, c: string, foo: string, bar: string, baz: string, site: string): seq<Visit> {
    [Visit(a, 0, foo), Visit(a, 1, bar), Visit(a, 2, baz), Visit(b, 247, foo), Visit(b, 290, bar), Visit(c, 50, site)]
  }

  /** The views of session `a`, then the rest. */
  lemma SessionTrailHalves(a: string, b: string, c: string, foo: string, bar: string, baz: string, site: string)
    ensures [Visit(a, 0, foo), Visit(a, 1, bar), Visit(a, 2, baz)] + [Visit(b, 247, foo), Visit(b, 290, bar), Visit(c, 50, site)]
         == SessionTrail(a, b, c, foo, bar, baz, site)
  {
  }

  lemma OwnersOfSessionTrail(a: string, b: string, c: string, foo: string, bar: string, baz: string, site: string)
    ensures Owners(SessionTrail(a, b, c, foo, bar, baz, site)) == [a, a, a, b, b, c]
  {
  }

  lemma DistinctOwnersOfSessionTrail(a: string, b: string, c: string, foo: string, bar: string, baz: string, site: string)
    ensures forall o :: o in DistinctOwners(SessionTrail(a, b, c, foo, bar, baz, site)) <==> o == a || o == b || o == c
  {
    OwnersOfSessionTrail(a, b, c, foo, bar, baz, site);
  }

  /** Session `a` starts on `foo` at position 0. */
  lemma FirstViewOfA(a: string, b: string, c: string, foo: string, bar: string, baz: string, site: string)
    requires a != b && a != c
    ensures var vs := SessionTrail(a, b, c, foo, bar, baz, site);
            a in Owners(vs) && ChosenPage(vs, a, false) == foo
  {
    var vs := SessionTrail(a, b, c, foo, bar, baz, site);
    assert Owners(vs)[0] == a;
    EarliestIndexUnique(vs, a, 0);
  }

  /** Session `b` starts on `foo` at position 3. */
  lemma FirstViewOfB(a: string, b: string, c: string, foo: string, bar: string, baz: string, site: string)
    requires a != b && b != c
    ensures var vs := SessionTrail(a, b, c, foo, bar, baz, site);
            b in Owners(vs) && ChosenPage(vs, b, false) == foo
  {
    var vs := SessionTrail(a, b, c, foo, bar, baz, site);
    assert Owners(vs)[3] == b;
    EarliestIndexUnique(vs, b, 3);
  }

  /** Session `c` has its only view, of `site`, at position 5. */
  lemma FirstViewOfC(a: string, b: string, c: string, foo: string, bar: string, baz: string, site: string)
    requires a != c && b != c
    ensures var vs := SessionTrail(a, b, c, foo, bar, baz, site);
            c in Owners(vs) && ChosenPage(vs, c, false) == site
  {
    var vs := SessionTrail(a, b, c, foo, bar, baz, site);
    assert Owners(vs)[5] == c;
    EarliestIndexUnique(vs, c, 5);
  }

  lemma NoDupsOfThree(a: string, b: string, c: string)
    requires a != b && a != c && b != c
    ensures NoDups([a, b, c])
    ensures forall o :: o in [a, b, c] <==> o == a || o == b || o == c
  {
  }

  lemma ChosenPagesOfThree(vs: seq<Visit>, a: string, b: string, c: string, latest: bool, p: string, q: string)
    requires a in Owners(vs) && b in Owners(vs) && c in Owners(vs)
    requires ChosenPage(vs, a, latest) == p && ChosenPage(vs, b, latest) == p && ChosenPage(vs, c, latest) == q
    ensures ChosenPages(vs, [a, b, c], latest) == [p, p, q]
  {
    var os := [a, b, c];
    var ps := ChosenPages(vs, os, latest);
    assert ps[0] == ChosenPage(vs, os[0], latest) && ps[1] == ChosenPage(vs, os[1], latest);
    assert ps[2] == ChosenPage(vs, os[2], latest);
  }

  lemma ChosenPagesOfTwo(vs: seq<Visit>, a: string, b: string, latest: bool, p: string, q: string)
    requires a in Owners(vs) && b in Owners(vs)
    requires ChosenPage(vs, a, latest) == p && ChosenPage(vs, b, latest) == q
    ensures ChosenPages(vs, [a, b], latest) == [p, q]
  {
    var os := [a, b];
    var ps := ChosenPages(vs, os, latest);
    assert ps[0] == ChosenPage(vs, os[0], latest) && ps[1] == ChosenPage(vs, os[1], latest);
  }

  lemma BreakdownOfTwoAndOne(p: string, q: string)
    requires p != q
    ensures Breakdown([p, p, q]) == [Group(p, 2), Group(q, 1)]
  {
    OccurrencesOfThree(p, p, q, p);
    OccurrencesOfThree(p, p, q, q);
    BreakdownOfTwo([p, p, q], Group(p, 2), Group(q, 1));
  }

  lemma BreakdownOfOneEach(p: string, q: string)
    requires KeyLess(p, q)
    ensures Breakdown([p, q]) == [Group(p, 1), Group(q, 1)]
  {
    KeyLessIrreflexive(p);
    assert [p, q][1..] == [q];
    assert [q][1..] == [];
    BreakdownOfTwo([p, q], Group(p, 1), Group(q, 1));
  }

  /** Three distinct owners, two of them keyed under page `p` and one under
      page `q`, give two entries: `p` twice, then `q` once. */
  lemma ChosenTwoAndOne(vs: seq<Visit>, os: seq<string>, latest: bool, a: string, b: string, c: string, p: string, q: string)
    requires a != b && a != c && b != c && p != q
    requires forall o :: o in os <==> o == a || o == b || o == c
    requires NoDups(os) && a in Owners(vs) && b in Owners(vs) && c in Owners(vs)
    requires ChosenPage(vs, a, latest) == p && ChosenPage(vs, b, latest) == p && ChosenPage(vs, c, latest) == q
    ensures Breakdown(ChosenPages(vs, os, latest)) == [Group(p, 2), Group(q, 1)]
  {
    NoDupsOfThree(a, b, c);
    SameChoices(vs, [a, b, c], vs, os, latest);
    ChosenPagesOfThree(vs, a, b, c, latest, p, q);
    BreakdownOfTwoAndOne(p, q);
  }

  /** Two distinct owners keyed under different pages `p` and `q`, with `p`
      before `q`, give one entry each, `p` first. */
  lemma ChosenOneEach(vs: seq<Visit>, os: seq<string>, latest: bool, a: string, b: string, p: string, q: string)
    requires a != b && KeyLess(p, q)
    requires forall o :: o in os <==> o == a || o == b
    requires NoDups(os) && a in Owners(vs) && b in Owners(vs)
    requires ChosenPage(vs, a, latest) == p && ChosenPage(vs, b, latest) == q
    ensures Breakdown(ChosenPages(vs, os, latest)) == [Group(p, 1), Group(q, 1)]
  {
    SameChoices(vs, [a, b], vs, os, latest);
    ChosenPagesOfTwo(vs, a, b, latest, p, q);
    BreakdownOfOneEach(p, q);
  }

  /** Sessions land on the page of their earliest view: two on `foo`, one on
      `site`. */
  lemma LandingOfSessionTrail(a: string, b: string, c: string, foo: string, bar: string, baz: string, site: string)
    requires a != b && a != c && b != c && foo != site
    ensures var vs := SessionTrail(a, b, c, foo, bar, baz, site);
            Breakdown(ChosenPages(vs, DistinctOwners(vs), false)) == [Group(foo, 2), Group(site, 1)]
  {
    var vs := SessionTrail(a, b, c, foo, bar, baz, site);
    DistinctOwnersOfSessionTrail(a, b, c, foo, bar, baz, site);
    FirstViewOfA(a, b, c, foo, bar, baz, site);
    FirstViewOfB(a, b, c, foo, bar, baz, site);
    FirstViewOfC(a, b, c, foo, bar, baz, site);
    ChosenTwoAndOne(vs, DistinctOwners(vs), false, a, b, c, foo, site);
  }

  /** Sessions `a` and `b` have more than one view; `c` has one. */
  lemma LongOwnersOfSessionTrail(a: string, b: string, c: string, foo: string, bar: string, baz: string, site: string)
    requires a != b && a != c && b != c
    ensures forall o :: o in LongOwners(SessionTrail(a, b, c, foo, bar, baz, site)) <==> o == a || o == b
  {
    var vs := SessionTrail(a, b, c, foo, bar, baz, site);
    OwnersOfSessionTrail(a, b, c, foo, bar, baz, site);
    assert Owners(vs) == [a, a, a] + [b, b, c];
    forall o ensures Occurrences(Owners(vs), o) == 3 * Hit(a, o) + 2 * Hit(b, o) + Hit(c, o) {
      OccurrencesAppend([a, a, a], [b, b, c], o);
      OccurrencesOfThree(a, a, a, o);
      OccurrencesOfThree(b, b, c, o);
    }
  }

  /** Session `a` ends on `baz` at position 2. */
  lemma LastViewOfA(a: string, b: string, c: string, foo: string, bar: string, baz: string, site: string)
    requires a != b && a != c
    ensures var vs := SessionTrail(a, b, c, foo, bar, baz, site);
            a in Owners(vs) && ChosenPage(vs, a, true) == baz
  {
    var vs := SessionTrail(a, b, c, foo, bar, baz, site);
    assert Owners(vs)[2] == a;
    LatestIndexUnique(vs, a, 2);
  }

  /** Session `b` ends on `bar` at position 4. */
  lemma LastViewOfB(a: string, b: string, c: string, foo: string, bar: string, baz: string, site: string)
    requires a != b && b != c
    ensures var vs := SessionTrail(a, b, c, foo, bar, baz, site);
            b in Owners(vs) && ChosenPage(vs, b, true) == bar
  {
    var vs := SessionTrail(a, b, c, foo, bar, baz, site);
    assert Owners(vs)[4] == b;
    LatestIndexUnique(vs, b, 4);
  }

  /** Sessions with more than one view exit on the page of their latest
      view: `a` on `baz`, `b` on `bar`; the one-view session `c` is not
      counted. */
  lemma ExitOfSessionTrail(a: string, b: string, c: string, foo: string, bar: string, baz: string, site: string)
    requires a != b && a != c && b != c && KeyLess(bar, baz)
    ensures var vs := SessionTrail(a, b, c, foo, bar, baz, site);
            Breakdown(ChosenPages(vs, LongOwners(vs), true)) == [Group(bar, 1), Group(baz, 1)]
  {
    var vs := SessionTrail(a, b, c, foo, bar, baz, site);
    LongOwnersOfSessionTrail(a, b, c, foo, bar, baz, site);
    LastViewOfA(a, b, c, foo, bar, baz, site);
    LastViewOfB(a, b, c, foo, bar, baz, site);
    ChosenOneEach(vs, LongOwners(vs), true, b, a, bar, baz);
  }

  /** The user page views of the `activePages` case: user `ua` views `bar`
      then `foo` at 100 and 120; user `uz` views `site` at 200. */
  function UserTrail(ua: string, uz: string, foo: string, bar: string, site: string): seq<Visit> {
    [Visit(ua, 100, bar), Visit(ua, 120, foo), Visit(uz, 200, site)]
  }

  lemma LatestViewOfUa(ua: string, uz: string, foo: string, bar: string, site: string)
    requires ua != uz
    ensures var vs := UserTrail(ua, uz, foo, bar, site);
            ua in Owners(vs) && ChosenPage(vs, ua, true) == foo
  {
    var vs := UserTrail(ua, uz, foo, bar, site);
    assert Owners(vs)[1] == ua;
    LatestIndexUnique(vs, ua, 1);
  }

  lemma LatestViewOfUz(ua: string, uz: string, foo: string, bar: string, site: string)
    requires ua != uz
    ensures var vs := UserTrail(ua, uz, foo, bar, site);
            uz in Owners(vs) && ChosenPage(vs, uz, true) == site
  {
    var vs := UserTrail(ua, uz, foo, bar, site);
    assert Owners(vs)[2] == uz;
    LatestIndexUnique(vs, uz, 2);
  }

  /** Each user is active on the page of their latest view: `ua` on `foo`,
      `uz` on `site`. */
  lemma ActiveOfUserTrail(ua: string, uz: string, foo: string, bar: string, site: string)
    requires ua != uz && KeyLess(site, foo)
    ensures var vs := UserTrail(ua, uz, foo, bar, site);
            Breakdown(ChosenPages(vs, DistinctOwners(vs), true)) == [Group(site, 1), Group(foo, 1)]
  {
    var vs := UserTrail(ua, uz, foo, bar, site);
    assert Owners(vs) == [ua, ua, uz];
    LatestViewOfUa(ua, uz, foo, bar, site);
    LatestViewOfUz(ua, uz, foo, bar, site);
    ChosenOneEach(vs, DistinctOwners(vs), true, uz, ua, site, foo);
  }

  /** `/bar` comes before `/baz`: they first differ at position 26. */
  lemma BarBeforeBaz()
    ensures KeyLess(Bar, Baz)
  {
    KeyLessAt(Bar, Baz, 26);
  }

  /** `beep.boop` comes before `www.example.net`: the hosts differ at
      position 8. */
  lemma SiteBeforeFoo()
    ensures KeyLess(Site, Foo)
  {
    KeyLessAt(Site, Foo, 8);
  }

  /** `{ userId: user, payload: { timestamp, sessionId: session, href } }`. */
  function Tracked(user: string, session: string, timestamp: nat, href: Url): Event {
    Event(Some(user), None, None, Some(NoDetail().(sessionId := Some(session), href := Some(href), timestamp := Some(timestamp))))
  }

  /** `{ userId: null, payload: {} }`. */
  function EmptyPayload(): Event {
    WithPayload(NoDetail())
  }

  /** The events of the `landingPages` and `exitPages` cases. */
  function TrailCase(): seq<Event> {
    TrailHead() + TrailTail()
  }

  function TrailHead(): seq<Event> {
    [Blank(),
     Tracked("user-a", "session-a", 0, Page("www.example.net", "/foo")),
     Tracked("user-a", "session-a", 1, Page("www.example.net", "/bar")),
     Tracked("user-a", "session-a", 2, Page("www.example.net", "/baz"))]
  }

  function TrailTail(): seq<Event> {
    [Tracked("user-b", "session-b", 247, Https("www.example.net", "/foo", "?param=bar", "", [("param", "bar")])),
     Tracked("user-b", "session-b", 290, Https("www.example.net", "/bar", "?param=foo", "", [("param", "foo")])),
     Tracked("user-z", "session-c", 50, Https("beep.boop", "/site", "", "#!/foo", [])),
     EmptyPayload()]
  }

  /** A tracked event is a view of its session. */
  lemma SessionVisitOfTracked(user: string, session: string, timestamp: nat, href: Url)
    requires session != ""
    ensures SessionVisit(Tracked(user, session, timestamp, href)) == Some(Visit(session, timestamp, Canonical(href)))
  {
  }

  lemma SessionVisitsOfTrailHead()
    ensures Collect(TrailHead(), SessionVisit)
         == [Visit("session-a", 0, Foo), Visit("session-a", 1, Bar), Visit("session-a", 2, Baz)]
  {
    var x := TrailHead();
    CanonicalsOnExample("", []);
    SessionVisitOfTracked("user-a", "session-a", 0, Page("www.example.net", "/foo"));
    SessionVisitOfTracked("user-a", "session-a", 1, Page("www.example.net", "/bar"));
    SessionVisitOfTracked("user-a", "session-a", 2, Page("www.example.net", "/baz"));
    CollectOfFour(x[0], x[1], x[2], x[3], SessionVisit);
    assert x == [x[0], x[1], x[2], x[3]];
  }

  lemma SessionVisitsOfTrailTail()
    ensures Collect(TrailTail(), SessionVisit)
         == [Visit("session-b", 247, Foo), Visit("session-b", 290, Bar), Visit("session-c", 50, Site)]
  {
    var x := TrailTail();
    CanonicalsOnExample("?param=bar", [("param", "bar")]);
    CanonicalsOnExample("?param=foo", [("param", "foo")]);
    CanonicalOfSite("#!/foo");
    SessionVisitOfTracked("user-b", "session-b", 247, Https("www.example.net", "/foo", "?param=bar", "", [("param", "bar")]));
    SessionVisitOfTracked("user-b", "session-b", 290, Https("www.example.net", "/bar", "?param=foo", "", [("param", "foo")]));
    SessionVisitOfTracked("user-z", "session-c", 50, Https("beep.boop", "/site", "", "#!/foo", []));
    CollectOfFour(x[0], x[1], x[2], x[3], SessionVisit);
    assert x == [x[0], x[1], x[2], x[3]];
  }

  /** The events reconstruct the session trail: the event without detail
      and the events without a payload contribute no view. */
  lemma SessionVisitsOfTrailCase()
    ensures SessionVisits(TrailCase()) == SessionTrail("session-a", "session-b", "session-c", Foo, Bar, Baz, Site)
  {
    SessionVisitsOfTrailHead();
    SessionVisitsOfTrailTail();
    CollectAppend(TrailHead(), TrailTail(), SessionVisit);
    SessionTrailHalves("session-a", "session-b", "session-c", Foo, Bar, Baz, Site);
  }

  /** Landing pages grouped by origin and path: two sessions land on `/foo`,
      one on the `beep.boop` site. */
  lemma LandingPagesGroupByFirstView()
    ensures LandingPages(TrailCase()) == [Group(Foo, 2), Group(Site, 1)]
  {
    SessionVisitsOfTrailCase();
    LandingOfSessionTrail("session-a", "session-b", "session-c", Foo, Bar, Baz, Site);
  }

  lemma LandingPagesOfNoEvents()
    ensures LandingPages([]) == []
  {
  }

  /** Exit pages grouped by origin and path: the one-view session is left
      out, and the two exits tie and are ordered by key. */
  lemma ExitPagesGroupByLastView()
    ensures ExitPages(TrailCase()) == [Group(Bar, 1), Group(Baz, 1)]
  {
    SessionVisitsOfTrailCase();
    BarBeforeBaz();
    ExitOfSessionTrail("session-a", "session-b", "session-c", Foo, Bar, Baz, Site);
  }

  lemma ExitPagesOfNoEvents()
    ensures ExitPages([]) == []
  {
  }

  /** `{ accountId: account, userId: user, payload: { timestamp, href } }`. */
  function Browsed(account: string, user: string, timestamp: nat, href: Url): Event {
    Event(Some(user), Some(account), None, Some(NoDetail().(href := Some(href), timestamp := Some(timestamp))))
  }

  /** The events of the `activePages` case. */
  function ActiveCase(): seq<Event> {
    ActiveHead() + [Event(None, Some("account-a"), None, Some(NoDetail()))]
  }

  function ActiveHead(): seq<Event> {
    [Blank(),
     Browsed("account-a", "user-a", 100, Page("www.example.net", "/bar")),
     Browsed("account-a", "user-a", 120, Https("www.example.net", "/foo", "?param=bar", "", [("param", "bar")])),
     Browsed("account-b", "user-z", 200, Https("beep.boop", "/site", "", "#!/foo", []))]
  }

  /** A browsing event is a view of its user. */
  lemma UserVisitOfBrowsed(account: string, user: string, timestamp: nat, href: Url)
    requires user != ""
    ensures UserVisit(Browsed(account, user, timestamp, href)) == Some(Visit(user, timestamp, Canonical(href)))
  {
  }

  lemma UserVisitsOfActiveHead()
    ensures Collect(ActiveHead(), UserVisit)
         == [Visit("user-a", 100, Bar), Visit("user-a", 120, Foo), Visit("user-z", 200, Site)]
  {
    var x := ActiveHead();
    CanonicalsOnExample("", []);
    CanonicalsOnExample("?param=bar", [("param", "bar")]);
    CanonicalOfSite("#!/foo");
    UserVisitOfBrowsed("account-a", "user-a", 100, Page("www.example.net", "/bar"));
    UserVisitOfBrowsed("account-a", "user-a", 120, Https("www.example.net", "/foo", "?param=bar", "", [("param", "bar")]));
    UserVisitOfBrowsed("account-b", "user-z", 200, Https("beep.boop", "/site", "", "#!/foo", []));
    CollectOfFour(x[0], x[1], x[2], x[3], UserVisit);
    assert x == [x[0], x[1], x[2], x[3]];
  }

  lemma UserVisitsOfActiveCase()
    ensures UserVisits(ActiveCase()) == UserTrail("user-a", "user-z", Foo, Bar, Site)
  {
    var y := [Event(None, Some("account-a"), None, Some(NoDetail()))];
    UserVisitsOfActiveHead();
    CollectOfOne(y[0], UserVisit);
    CollectAppend(ActiveHead(), y, UserVisit);
  }

  /** Active pages grouped by origin and path: each user counts once, under
      the page of their latest view. */
  lemma ActivePagesGroupByLatestView()
    ensures ActivePages(ActiveCase()) == [Group(Site, 1), Group(Foo, 1)]
  {
    UserVisitsOfActiveCase();
    SiteBeforeFoo();
    ActiveOfUserTrail("user-a", "user-z", Foo, Bar, Site);
  }
}
