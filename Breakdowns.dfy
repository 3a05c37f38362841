/** The grouped breakdowns: `referrers`, `campaigns`, `pages`, `activePages`,
    `landingPages` and `exitPages`. Each derives one grouping key per
    contributing event, session or user and ends in `Breakdown`, so every
    result is ranked by count descending and key ascending. */
module Breakdowns {
  import opened Wrappers
  import opened Collections
  import opened EventModel
  import opened Grouping

  /** Every entry of the breakdown of collected keys counts the events the key
      was extracted from. */
  lemma BreakdownOfCollect(events: seq<Event>, f: Event -> Option<string>)
    ensures forall g :: g in Breakdown(Collect(events, f)) <==> g.count > 0 && g.count == CountWith(events, f, g.key)
  {
    var keys := Collect(events, f);
    forall g ensures g in Breakdown(keys) <==> g.count > 0 && g.count == CountWith(events, f, g.key) {
      OccurrencesOfCollect(events, f, g.key);
    }
  }

  /** The referrer of an event whose host differs from the host of the
      viewed page; same-site referrers are not foreign, and every referrer
      from another host is. */
  function ForeignReferrer(e: Event): (u: Option<Url>)
    ensures u.Some? <==> e.payload.Some? && e.payload.value.href.Some? && e.payload.value.referrer.Some?
                         && e.payload.value.referrer.value.host != e.payload.value.href.value.host
    ensures u.Some? ==> u == e.payload.value.referrer
  {
    if e.payload.Some? && e.payload.value.href.Some? && e.payload.value.referrer.Some?
       && e.payload.value.referrer.value.host != e.payload.value.href.value.host
    then e.payload.value.referrer
    else None
  }

  function ReferrerHostOf(e: Event): Option<string> {
    match ForeignReferrer(e)
    case Some(u) => Some(u.host)
    case None => None
  }

  function CampaignOf(e: Event): Option<string> {
    match ForeignReferrer(e)
    case Some(u) => TruthyId(Campaign(u))
    case None => None
  }

  /** `stats.referrers`: foreign referrers grouped by host. */
  function Referrers(events: seq<Event>): (r: seq<Group>)
    ensures Ranked(r)
    ensures forall g :: g in r <==> g.count > 0 && g.count == CountWith(events, ReferrerHostOf, g.key)
    ensures forall g :: g in r ==> exists i :: 0 <= i < |events| && ForeignReferrer(events[i]).Some?
                                               && ForeignReferrer(events[i]).value.host == g.key
  {
    var keys := Collect(events, ReferrerHostOf);
    BreakdownOfCollect(events, ReferrerHostOf);
    CollectMembers(events, ReferrerHostOf);
    Breakdown(keys)
  }

  /** `stats.campaigns`: foreign referrers grouped by their `utm_campaign`
      parameter; referrers without one do not contribute. */
  function Campaigns(events: seq<Event>): (r: seq<Group>)
    ensures Ranked(r)
    ensures forall g :: g in r <==> g.count > 0 && g.count == CountWith(events, CampaignOf, g.key)
    ensures forall g :: g in r ==> exists i :: 0 <= i < |events| && ForeignReferrer(events[i]).Some?
                                               && Campaign(ForeignReferrer(events[i]).value) == Some(g.key)
  {
    var keys := Collect(events, CampaignOf);
    BreakdownOfCollect(events, CampaignOf);
    CollectMembers(events, CampaignOf);
    Breakdown(keys)
  }

  /** `stats.pages`: every event with an `href`, grouped by canonical page. */
  function Pages(events: seq<Event>): (r: seq<Group>)
    ensures Ranked(r)
    ensures forall g :: g in r <==> g.count > 0 && g.count == CountWith(events, PageOf, g.key)
    ensures Total(r) == |Collect(events, PageOf)|
  {
    var keys := Collect(events, PageOf);
    BreakdownOfCollect(events, PageOf);
    Breakdown(keys)
  }

  /** A same-site referrer is never counted by `referrers`. */
  lemma {:induction false} ReferrersIgnoreSameHost(events: seq<Event>, e: Event)
    requires e.payload.Some? && e.payload.value.href.Some? && e.payload.value.referrer.Some?
    requires e.payload.value.referrer.value.host == e.payload.value.href.value.host
    ensures Referrers(events + [e]) == Referrers(events)
  {
    CollectAppend(events, [e], ReferrerHostOf);
    assert Collect([e], ReferrerHostOf) == [];
    assert Collect(events, ReferrerHostOf) + [] == Collect(events, ReferrerHostOf);
  }

  /** A referrer without a `utm_campaign` parameter is never counted by
      `campaigns`. */
  lemma {:induction false} CampaignsNeedParameter(events: seq<Event>, e: Event)
    requires e.payload.Some? && e.payload.value.referrer.Some?
    requires Campaign(e.payload.value.referrer.value).None?
    ensures Campaigns(events + [e]) == Campaigns(events)
  {
    CollectAppend(events, [e], CampaignOf);
    assert Collect([e], CampaignOf) == [];
    assert Collect(events, CampaignOf) + [] == Collect(events, CampaignOf);
  }

  /** Changing the query and fragment of one event's `href` leaves `pages`
      unchanged. */
  lemma {:induction false} PagesIgnoreQueryAndFragment(events: seq<Event>, i: nat, search: string, hash: string)
    requires i < |events| && events[i].payload.Some? && events[i].payload.value.href.Some?
    ensures var p := events[i].payload.value;
            var u := p.href.value.(search := search, hash := hash);
            Pages(events[i := events[i].(payload := Some(p.(href := Some(u))))]) == Pages(events)
  {
    var p := events[i].payload.value;
    var u := p.href.value.(search := search, hash := hash);
    var other := events[i := events[i].(payload := Some(p.(href := Some(u))))];
    assert PageOf(other[i]) == PageOf(events[i]);
    assert events == events[..i] + [events[i]] + events[i + 1..];
    assert other == events[..i] + [other[i]] + events[i + 1..];
    CollectAppend(events[..i] + [events[i]], events[i + 1..], PageOf);
    CollectAppend(events[..i], [events[i]], PageOf);
    CollectAppend(events[..i] + [other[i]], events[i + 1..], PageOf);
    CollectAppend(events[..i], [other[i]], PageOf);
  }

  /** One page view of a session or of a user: who it belongs to, when it
      happened and which canonical page it showed. */
  datatype Visit = Visit(owner: string, stamp: nat, page: string)

  /** The page views that reconstruct sessions: events with a session
      identifier, an `href` and a payload timestamp. */
  function SessionVisit(e: Event): Option<Visit> {
    if SessionOf(e).Some? && PageOf(e).Some? && e.payload.value.timestamp.Some?
    then Some(Visit(SessionOf(e).value, e.payload.value.timestamp.value, PageOf(e).value))
    else None
  }

  /** The page views of identified users: events with a `userId`, an `href`
      and a payload timestamp. */
  function UserVisit(e: Event): Option<Visit> {
    if UserOf(e).Some? && PageOf(e).Some? && e.payload.value.timestamp.Some?
    then Some(Visit(UserOf(e).value, e.payload.value.timestamp.value, PageOf(e).value))
    else None
  }

  function Owners(vs: seq<Visit>): (os: seq<string>)
    ensures |os| == |vs| && forall i :: 0 <= i < |vs| ==> os[i] == vs[i].owner
  {
    if vs == [] then [] else [vs[0].owner] + Owners(vs[1..])
  }

  /** The position of the earliest visit of owner `o`; among visits with the
      same earliest timestamp, the first one. */
  function EarliestIndex(vs: seq<Visit>, o: string): (i: nat)
    requires o in Owners(vs)
    ensures i < |vs| && vs[i].owner == o
    ensures forall j :: 0 <= j < |vs| && vs[j].owner == o ==> vs[i].stamp <= vs[j].stamp
    ensures forall j :: 0 <= j < i && vs[j].owner == o ==> vs[i].stamp < vs[j].stamp
  {
    var rest := Owners(vs[1..]);
    assert Owners(vs) == [vs[0].owner] + rest;
    if vs[0].owner != o then
      1 + EarliestIndex(vs[1..], o)
    else if o !in rest then
      assert forall j :: 0 < j < |vs| ==> vs[j].owner == rest[j - 1];
      0
    else
      var j := 1 + EarliestIndex(vs[1..], o);
      if vs[j].stamp < vs[0].stamp then j else 0
  }

  /** The position of the latest visit of owner `o`; among visits with the
      same latest timestamp, the last one. */
  function LatestIndex(vs: seq<Visit>, o: string): (i: nat)
    requires o in Owners(vs)
    ensures i < |vs| && vs[i].owner == o
    ensures forall j :: 0 <= j < |vs| && vs[j].owner == o ==> vs[j].stamp <= vs[i].stamp
    ensures forall j :: i < j < |vs| && vs[j].owner == o ==> vs[j].stamp < vs[i].stamp
  {
    var rest := Owners(vs[1..]);
    assert Owners(vs) == [vs[0].owner] + rest;
    if vs[0].owner != o then
      1 + LatestIndex(vs[1..], o)
    else if o !in rest then
      assert forall j :: 0 < j < |vs| ==> vs[j].owner == rest[j - 1];
      0
    else
      var j := 1 + LatestIndex(vs[1..], o);
      if vs[j].stamp >= vs[0].stamp then j else 0
  }

  /** The page an owner is keyed under: its last page when `latest`, its
      first page otherwise. */
  function ChosenPage(vs: seq<Visit>, o: string, latest: bool): string
    requires o in Owners(vs)
  {
    if latest then vs[LatestIndex(vs, o)].page else vs[EarliestIndex(vs, o)].page
  }

  /** The page each owner of `os` is keyed under, in the order of `os`. */
  function ChosenPages(vs: seq<Visit>, os: seq<string>, latest: bool): (ps: seq<string>)
    requires forall o :: o in os ==> o in Owners(vs)
    ensures |ps| == |os|
    ensures forall i :: 0 <= i < |os| ==> ps[i] == ChosenPage(vs, os[i], latest)
  {
    if os == [] then []
    else
      var rest := ChosenPages(vs, os[1..], latest);
      assert forall i :: 0 < i < |os| ==> os[i] == os[1..][i - 1];
      [ChosenPage(vs, os[0], latest)] + rest
  }

  /** Owners among `os` keyed under page `p`. */
  function OwnersAt(vs: seq<Visit>, os: seq<string>, latest: bool, p: string): set<string>
    requires forall o :: o in os ==> o in Owners(vs)
  {
    set o | o in os && ChosenPage(vs, o, latest) == p
  }

  /** Tallying the chosen pages of distinct owners counts, per page, the
      owners keyed under it. */
  lemma {:induction false} OccurrencesOfChosen(vs: seq<Visit>, os: seq<string>, latest: bool, p: string)
    requires forall o :: o in os ==> o in Owners(vs)
    requires NoDups(os)
    ensures Occurrences(ChosenPages(vs, os, latest), p) == |OwnersAt(vs, os, latest, p)|
  {
    if os == [] {
      assert OwnersAt(vs, os, latest, p) == {};
    } else {
      var tail := os[1..];
      NoDupsTail(os);
      OwnersAtCons(vs, os, latest, p);
      OccurrencesOfChosen(vs, tail, latest, p);
      assert ChosenPages(vs, os, latest)[1..] == ChosenPages(vs, tail, latest);
    }
  }

  lemma NoDupsTail(os: seq<string>)
    requires NoDups(os) && os != []
    ensures NoDups(os[1..]) && os[0] !in os[1..]
  {
    var tail := os[1..];
    forall i, j | 0 <= i < j < |tail| ensures tail[i] != tail[j] {
      assert tail[i] == os[i + 1] && tail[j] == os[j + 1];
    }
    forall i | 0 <= i < |tail| ensures tail[i] != os[0] {
      assert tail[i] == os[i + 1];
    }
  }

  lemma OwnersAtCons(vs: seq<Visit>, os: seq<string>, latest: bool, p: string)
    requires os != [] && forall o :: o in os ==> o in Owners(vs)
    ensures forall o :: o in os[1..] ==> o in Owners(vs)
    ensures OwnersAt(vs, os, latest, p)
         == OwnersAt(vs, os[1..], latest, p) + (if ChosenPage(vs, os[0], latest) == p then {os[0]} else {})
  {
    assert forall o :: o in os <==> o == os[0] || o in os[1..];
  }

  /** The breakdown of the chosen pages of distinct owners. */
  lemma BreakdownOfChosen(vs: seq<Visit>, os: seq<string>, latest: bool)
    requires forall o :: o in os ==> o in Owners(vs)
    requires NoDups(os)
    ensures forall g :: g in Breakdown(ChosenPages(vs, os, latest)) <==>
              g.count > 0 && g.count == |OwnersAt(vs, os, latest, g.key)|
    ensures Total(Breakdown(ChosenPages(vs, os, latest))) == |os|
  {
    forall g ensures g in Breakdown(ChosenPages(vs, os, latest)) <==>
                     g.count > 0 && g.count == |OwnersAt(vs, os, latest, g.key)| {
      OccurrencesOfChosen(vs, os, latest, g.key);
    }
  }

  function SessionVisits(events: seq<Event>): seq<Visit> {
    Collect(events, SessionVisit)
  }

  function UserVisits(events: seq<Event>): seq<Visit> {
    Collect(events, UserVisit)
  }

  /** Every owner with a visit, once. */
  function DistinctOwners(vs: seq<Visit>): (os: seq<string>)
    ensures NoDups(os)
    ensures forall o :: o in os <==> o in Owners(vs)
  {
    Distinct(Owners(vs))
  }

  /** Every owner with at least two visits, once. */
  function LongOwners(vs: seq<Visit>): (os: seq<string>)
    ensures NoDups(os)
    ensures forall o :: o in os <==> o in Owners(vs) && Occurrences(Owners(vs), o) >= 2
  {
    Repeated(Distinct(Owners(vs)), Owners(vs))
  }

  /** The values of `d` that occur at least twice in `s`. */
  function Repeated(d: seq<string>, s: seq<string>): (r: seq<string>)
    ensures forall x :: x in r <==> x in d && Occurrences(s, x) >= 2
    ensures NoDups(d) ==> NoDups(r)
  {
    if d == [] then []
    else
      var rest := Repeated(d[1..], s);
      assert forall x :: x in d <==> x == d[0] || x in d[1..];
      TailOfNoDups(d);
      if Occurrences(s, d[0]) >= 2 then
        ConsNoDups(d[0], rest);
        [d[0]] + rest
      else
        rest
  }

  lemma TailOfNoDups(d: seq<string>)
    requires d != []
    ensures NoDups(d) ==> NoDups(d[1..]) && d[0] !in d[1..]
  {
    if NoDups(d) {
      NoDupsTail(d);
    }
  }

  lemma ConsNoDups(x: string, s: seq<string>)
    ensures NoDups(s) && x !in s ==> NoDups([x] + s)
  {
    var r := [x] + s;
    if NoDups(s) && x !in s {
      forall i, j | 0 <= i < j < |r| ensures r[i] != r[j] {
        assert r[j] == s[j - 1];
        if i > 0 {
          assert r[i] == s[i - 1];
        }
      }
    }
  }

  /** When every value of `d` occurs in `s`, each occurs either once or
      repeatedly. */
  lemma {:induction false} RepeatedOrSingle(d: seq<string>, s: seq<string>)
    requires forall x :: x in d ==> x in s
    ensures |Repeated(d, s)| + Singles(d, s) == |d|
  {
    if d != [] {
      assert forall x :: x in d[1..] ==> x in d;
      RepeatedOrSingle(d[1..], s);
      assert d[0] in d;
    }
  }

  /** `stats.landingPages`: every session keyed under the canonical page of
      its earliest page view. Each session counts once. */
  function LandingPages(events: seq<Event>): (r: seq<Group>)
    ensures Ranked(r)
    ensures forall g :: g in r <==> g.count > 0 && g.count == |OwnersAt(SessionVisits(events), DistinctOwners(SessionVisits(events)), false, g.key)|
    ensures Total(r) == |DistinctOwners(SessionVisits(events))|
  {
    BreakdownOfChosen(SessionVisits(events), DistinctOwners(SessionVisits(events)), false);
    Breakdown(ChosenPages(SessionVisits(events), DistinctOwners(SessionVisits(events)), false))
  }

  /** `stats.exitPages`: every session with at least two page views keyed
      under the canonical page of its latest page view; single-view sessions
      do not contribute. */
  function ExitPages(events: seq<Event>): (r: seq<Group>)
    ensures Ranked(r)
    ensures forall g :: g in r <==> g.count > 0 && g.count == |OwnersAt(SessionVisits(events), LongOwners(SessionVisits(events)), true, g.key)|
    ensures Total(r) == |LongOwners(SessionVisits(events))|
  {
    BreakdownOfChosen(SessionVisits(events), LongOwners(SessionVisits(events)), true);
    Breakdown(ChosenPages(SessionVisits(events), LongOwners(SessionVisits(events)), true))
  }

  /** `stats.activePages`: every identified user keyed under the canonical
      page of their latest page view. Each user counts once. */
  function ActivePages(events: seq<Event>): (r: seq<Group>)
    ensures Ranked(r)
    ensures forall g :: g in r <==> g.count > 0 && g.count == |OwnersAt(UserVisits(events), DistinctOwners(UserVisits(events)), true, g.key)|
    ensures Total(r) == |DistinctOwners(UserVisits(events))|
  {
    BreakdownOfChosen(UserVisits(events), DistinctOwners(UserVisits(events)), true);
    Breakdown(ChosenPages(UserVisits(events), DistinctOwners(UserVisits(events)), true))
  }
}
