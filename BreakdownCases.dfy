/** The cases the test suite fixes for `referrers`, `campaigns` and
    `pages`. */
module BreakdownCases {
  import opened Wrappers
  import opened Collections
  import opened EventModel
  import opened Grouping
  import opened Breakdowns
  import opened CaseEvents

  /** The events of the `referrers` case: three referrals from host `r1`,
      one from `r2` and one from the site itself. */
  function ReferrerCase(site: string, r1: string, r2: string): seq<Event> {
    ReferrerHead(site, r1) + ReferrerTail(site, r2)
  }

  function ReferrerHead(site: string, r1: string): seq<Event> {
    [Blank(), Referred(Page(site, "/x"), Page(r1, "/foo")),
     Referred(Page(site, "/y"), Page(r1, "/bar")), Referred(Page(site, "/z"), Page(r1, "/baz"))]
  }

  function ReferrerTail(site: string, r2: string): seq<Event> {
    [Referred(Page(site, "/x"), Https(r2, "/", "", "#!foo=bar", [])),
     Referred(Page(site, "/x"), Page(site, "/a"))]
  }

  /** A referral between two pages is foreign exactly when the hosts
      differ. */
  lemma ReferrerHostOfReferred(href: Url, referrer: Url)
    ensures ReferrerHostOf(Referred(href, referrer))
         == if referrer.host != href.host then Some(referrer.host) else None
  {
  }

  lemma ReferrerHostsOfReferrerHead(site: string, r1: string)
    requires site != r1
    ensures Collect(ReferrerHead(site, r1), ReferrerHostOf) == [r1, r1, r1]
  {
    var x := ReferrerHead(site, r1);
    ReferrerHostOfReferred(Page(site, "/x"), Page(r1, "/foo"));
    ReferrerHostOfReferred(Page(site, "/y"), Page(r1, "/bar"));
    ReferrerHostOfReferred(Page(site, "/z"), Page(r1, "/baz"));
    CollectOfFour(x[0], x[1], x[2], x[3], ReferrerHostOf);
    assert x == [x[0], x[1], x[2], x[3]];
  }

  lemma ReferrerHostsOfReferrerTail(site: string, r2: string)
    requires site != r2
    ensures Collect(ReferrerTail(site, r2), ReferrerHostOf) == [r2]
  {
    var y := ReferrerTail(site, r2);
    ReferrerHostOfReferred(Page(site, "/x"), Https(r2, "/", "", "#!foo=bar", []));
    ReferrerHostOfReferred(Page(site, "/x"), Page(site, "/a"));
    CollectOfTwo(y[0], y[1], ReferrerHostOf);
    assert y == [y[0], y[1]];
  }

  lemma ReferrerHostsOfReferrerCase(site: string, r1: string, r2: string)
    requires site != r1 && site != r2
    ensures Collect(ReferrerCase(site, r1, r2), ReferrerHostOf) == [r1, r1, r1, r2]
  {
    ReferrerHostsOfReferrerHead(site, r1);
    ReferrerHostsOfReferrerTail(site, r2);
    CollectAppend(ReferrerHead(site, r1), ReferrerTail(site, r2), ReferrerHostOf);
  }

  lemma ReferrersOfReferrerCase(site: string, r1: string, r2: string)
    requires site != r1 && site != r2 && r1 != r2
    ensures Referrers(ReferrerCase(site, r1, r2)) == [Group(r1, 3), Group(r2, 1)]
  {
    var keys := [r1, r1, r1, r2];
    ReferrerHostsOfReferrerCase(site, r1, r2);
    OccurrencesOfFour(r1, r1, r1, r2, r1);
    OccurrencesOfFour(r1, r1, r1, r2, r2);
    BreakdownOfTwo(keys, Group(r1, 3), Group(r2, 1));
  }

  /** Foreign referrers grouped by host, the larger group first; the
      same-site referral is not counted. */
  lemma ReferrersGroupForeignHosts()
    ensures Referrers(ReferrerCase("www.mysite.com", "www.example.net", "beep.boop"))
         == [Group("www.example.net", 3), Group("beep.boop", 1)]
  {
    ReferrersOfReferrerCase("www.mysite.com", "www.example.net", "beep.boop");
  }

  lemma ReferrersOfNoEvents()
    ensures Referrers([]) == []
  {
  }

  /** The events of the `campaigns` case: referrals from host `r1` with
      campaign `c1`, with campaign `c2` after another parameter, and without
      a campaign; one from `r2` with campaign `c1`; one from the site itself. */
  function CampaignCase(site: string, r1: string, r2: string, c1: string, c2: string): seq<Event> {
    CampaignHead(site, r1, c1, c2) + CampaignTail(site, r2, c1)
  }

  function CampaignHead(site: string, r1: string, c1: string, c2: string): seq<Event> {
    [Blank(),
     Referred(Page(site, "/x"), Https(r1, "/foo", "?utm_campaign=" + c1, "", [("utm_campaign", c1)])),
     Referred(Page(site, "/y"), Https(r1, "/bar", "?something=12&utm_campaign=" + c2, "",
                                      [("something", "12"), ("utm_campaign", c2)])),
     Referred(Page(site, "/z"), Page(r1, "/baz"))]
  }

  function CampaignTail(site: string, r2: string, c1: string): seq<Event> {
    [Referred(Page(site, "/x"), Https(r2, "/site", "?utm_campaign=" + c1, "", [("utm_campaign", c1)])),
     Referred(Page(site, "/x"), Page(site, "/a"))]
  }

  /** The campaign is found after another query parameter. */
  lemma CampaignAfterOtherParameter(site: string, r1: string, c2: string)
    requires site != r1 && c2 != ""
    ensures CampaignOf(Referred(Page(site, "/y"), Https(r1, "/bar", "?something=12&utm_campaign=" + c2, "",
                                                        [("something", "12"), ("utm_campaign", c2)])))
         == Some(c2)
  {
    var q := [("something", "12"), ("utm_campaign", c2)];
    assert q[1..] == [("utm_campaign", c2)];
    assert QueryParam(q, "utm_campaign") == Some(c2);
  }

  lemma CampaignKeysOfCampaignTail(site: string, r2: string, c1: string)
    requires site != r2 && c1 != ""
    ensures Collect(CampaignTail(site, r2, c1), CampaignOf) == [c1]
  {
    var y := CampaignTail(site, r2, c1);
    CollectOfTwo(y[0], y[1], CampaignOf);
  }

  /** The campaign of a referral from another host is the referrer's
      `utm_campaign` parameter. */
  lemma CampaignOfReferred(href: Url, referrer: Url)
    requires href.host != referrer.host
    ensures CampaignOf(Referred(href, referrer)) == TruthyId(Campaign(referrer))
  {
  }

  lemma CampaignKeysOfCampaignHead(site: string, r1: string, c1: string, c2: string)
    requires site != r1 && c1 != "" && c2 != ""
    ensures Collect(CampaignHead(site, r1, c1, c2), CampaignOf) == [c1, c2]
  {
    var x := CampaignHead(site, r1, c1, c2);
    assert CampaignOf(x[0]) == None;
    assert CampaignOf(x[1]) == Some(c1) by {
      CampaignOfReferred(x[1].payload.value.href.value, x[1].payload.value.referrer.value);
    }
    assert CampaignOf(x[2]) == Some(c2) by {
      CampaignAfterOtherParameter(site, r1, c2);
    }
    assert CampaignOf(x[3]) == None by {
      CampaignOfReferred(x[3].payload.value.href.value, x[3].payload.value.referrer.value);
    }
    CollectOfFour(x[0], x[1], x[2], x[3], CampaignOf);
    assert x == [x[0], x[1], x[2], x[3]];
  }

  lemma CampaignKeysOfCampaignCase(site: string, r1: string, r2: string, c1: string, c2: string)
    requires site != r1 && site != r2 && c1 != "" && c2 != ""
    ensures Collect(CampaignCase(site, r1, r2, c1, c2), CampaignOf) == [c1, c2, c1]
  {
    CampaignKeysOfCampaignHead(site, r1, c1, c2);
    CampaignKeysOfCampaignTail(site, r2, c1);
    CollectAppend(CampaignHead(site, r1, c1, c2), CampaignTail(site, r2, c1), CampaignOf);
  }

  lemma CampaignsOfCampaignCase(site: string, r1: string, r2: string, c1: string, c2: string)
    requires site != r1 && site != r2 && c1 != "" && c2 != "" && c1 != c2
    ensures Campaigns(CampaignCase(site, r1, r2, c1, c2)) == [Group(c1, 2), Group(c2, 1)]
  {
    CampaignKeysOfCampaignCase(site, r1, r2, c1, c2);
    OccurrencesOfThree(c1, c2, c1, c1);
    OccurrencesOfThree(c1, c2, c1, c2);
    BreakdownOfTwo([c1, c2, c1], Group(c1, 2), Group(c2, 1));
  }

  /** Foreign referrers grouped by their `utm_campaign` parameter, wherever
      it appears in the query; a referrer without one is not counted. */
  lemma CampaignsGroupByParameter()
    ensures Campaigns(CampaignCase("www.mysite.com", "www.example.net", "beep.boop", "beep", "boop"))
         == [Group("beep", 2), Group("boop", 1)]
  {
    CampaignsOfCampaignCase("www.mysite.com", "www.example.net", "beep.boop", "beep", "boop");
  }

  lemma CampaignsOfNoEvents()
    ensures Campaigns([]) == []
  {
  }

  /** `{ accountId, userId, payload: { href } }`. */
  function Viewed(user: Option<string>, account: string, href: Url): Event {
    Event(user, Some(account), None, Some(NoDetail().(href := Some(href))))
  }

  /** The events of the `pages` case. */
  function PageCase(): seq<Event> {
    PageHead() + [Event(None, Some("account-a"), None, Some(NoDetail()))]
  }

  function PageHead(): seq<Event> {
    [Blank(),
     Viewed(Some("user-a"), "account-a", Page("www.example.net", "/foo")),
     Viewed(Some("user-a"), "account-a", Https("www.example.net", "/foo", "?param=bar", "", [("param", "bar")])),
     Viewed(Some("user-z"), "account-b", Https("beep.boop", "/site", "", "#!/foo", []))]
  }

  lemma PageKeysOfPageHead()
    ensures Collect(PageHead(), PageOf)
         == [Foo, Foo, Site]
  {
    var x := PageHead();
    assert PageOf(x[0]) == None;
    assert PageOf(x[1]) == Some(Foo) by {
      CanonicalsOnExample("", []);
    }
    assert PageOf(x[2]) == Some(Foo) by {
      CanonicalsOnExample("?param=bar", [("param", "bar")]);
    }
    assert PageOf(x[3]) == Some(Site) by {
      CanonicalOfSite("#!/foo");
    }
    CollectOfFour(x[0], x[1], x[2], x[3], PageOf);
    assert x == [x[0], x[1], x[2], x[3]];
  }

  lemma PageKeysOfPageCase()
    ensures Collect(PageCase(), PageOf)
         == [Foo, Foo, Site]
  {
    var y := [Event(None, Some("account-a"), None, Some(NoDetail()))];
    PageKeysOfPageHead();
    CollectOfOne(y[0], PageOf);
    CollectAppend(PageHead(), y, PageOf);
  }

  /** Pages grouped by origin and path; the query does not split a page. */
  lemma PagesGroupByCleanUrl()
    ensures Pages(PageCase()) == [Group(Foo, 2), Group(Site, 1)]
  {
    PageKeysOfPageCase();
    OccurrencesOfThree(Foo, Foo, Site, Foo);
    OccurrencesOfThree(Foo, Foo, Site, Site);
    BreakdownOfTwo([Foo, Foo, Site], Group(Foo, 2), Group(Site, 1));
  }

  lemma PagesOfNoEvents()
    ensures Pages([]) == []
  {
  }
}
