/** How the breakdowns agree with the volume metrics: each session lands
    once, each multi-page session exits once, each visitor is active on one
    page, and a single-page session never shows up among the exit pages. */
module MetricRelations {
  import opened Wrappers
  import opened Collections
  import opened EventModel
  import opened Grouping
  import opened Metrics
  import opened Breakdowns

  /** Every event that names a session is a complete page view. */
  predicate SessionsComplete(events: seq<Event>) {
    forall i :: 0 <= i < |events| && SessionOf(events[i]).Some? ==> SessionVisit(events[i]).Some?
  }

  /** Every identified event is a complete page view. */
  predicate UsersComplete(events: seq<Event>) {
    forall i :: 0 <= i < |events| && Identified(events[i]) ==> UserVisit(events[i]).Some?
  }

  lemma {:induction false} OwnersOfSessionVisits(events: seq<Event>)
    requires SessionsComplete(events)
    ensures Owners(SessionVisits(events)) == SessionIds(events)
  {
    if events != [] {
      assert SessionsComplete(events[1..]) by {
        forall i | 0 <= i < |events[1..]| && SessionOf(events[1..][i]).Some?
          ensures SessionVisit(events[1..][i]).Some?
        {
          assert events[1..][i] == events[i + 1];
        }
      }
      OwnersOfSessionVisits(events[1..]);
      assert SessionVisits(events) == Collect([events[0]], SessionVisit) + SessionVisits(events[1..]) by {
        CollectAppend([events[0]], events[1..], SessionVisit);
        assert [events[0]] + events[1..] == events;
      }
      OwnersAppend(Collect([events[0]], SessionVisit), SessionVisits(events[1..]));
    }
  }

  lemma {:induction false} OwnersOfUserVisits(events: seq<Event>)
    requires UsersComplete(events)
    ensures Owners(UserVisits(events)) == UserIds(events)
  {
    if events != [] {
      assert UsersComplete(events[1..]) by {
        forall i | 0 <= i < |events[1..]| && Identified(events[1..][i])
          ensures UserVisit(events[1..][i]).Some?
        {
          assert events[1..][i] == events[i + 1];
        }
      }
      OwnersOfUserVisits(events[1..]);
      assert UserVisits(events) == Collect([events[0]], UserVisit) + UserVisits(events[1..]) by {
        CollectAppend([events[0]], events[1..], UserVisit);
        assert [events[0]] + events[1..] == events;
      }
      OwnersAppend(Collect([events[0]], UserVisit), UserVisits(events[1..]));
    }
  }

  lemma OwnersAppend(a: seq<Visit>, b: seq<Visit>)
    ensures Owners(a + b) == Owners(a) + Owners(b)
  {
    assert |Owners(a + b)| == |Owners(a) + Owners(b)|;
    forall i | 0 <= i < |a + b| ensures Owners(a + b)[i] == (Owners(a) + Owners(b))[i] {
    }
  }

  /** Landing pages count every session exactly once. */
  lemma LandingPagesCountSessions(events: seq<Event>)
    requires SessionsComplete(events)
    ensures Total(LandingPages(events)) == UniqueSessions(events)
  {
    OwnersOfSessionVisits(events);
    SessionsCover(events);
  }

  /** Exit pages count every session that did not bounce exactly once. */
  lemma ExitPagesCountLongSessions(events: seq<Event>)
    requires SessionsComplete(events)
    ensures Total(ExitPages(events)) == UniqueSessions(events) - Bounces(events)
  {
    OwnersOfSessionVisits(events);
    SessionsCover(events);
    var ids := SessionIds(events);
    RepeatedOrSingle(Distinct(ids), ids);
  }

  /** Active pages count every visitor exactly once. */
  lemma ActivePagesCountVisitors(events: seq<Event>)
    requires UsersComplete(events)
    ensures Total(ActivePages(events)) == Visitors(events)
  {
    OwnersOfUserVisits(events);
    DistinctCard(UserIds(events));
    CollectMembers(events, UserOf);
    assert Elements(UserIds(events)) == UserSet(events);
  }

  /** The latest visit of an owner is the only position that satisfies its
      specification. */
  lemma LatestIndexUnique(vs: seq<Visit>, o: string, i: nat)
    requires o in Owners(vs)
    requires i < |vs| && vs[i].owner == o
    requires forall j :: 0 <= j < |vs| && vs[j].owner == o ==> vs[j].stamp <= vs[i].stamp
    requires forall j :: i < j < |vs| && vs[j].owner == o ==> vs[j].stamp < vs[i].stamp
    ensures i == LatestIndex(vs, o)
  {
  }

  /** The earliest visit of an owner is the only position that satisfies
      its specification. */
  lemma EarliestIndexUnique(vs: seq<Visit>, o: string, i: nat)
    requires o in Owners(vs)
    requires i < |vs| && vs[i].owner == o
    requires forall j :: 0 <= j < |vs| && vs[j].owner == o ==> vs[i].stamp <= vs[j].stamp
    requires forall j :: 0 <= j < i && vs[j].owner == o ==> vs[i].stamp < vs[j].stamp
    ensures i == EarliestIndex(vs, o)
  {
  }

  /** A visit by another owner, added at the end, leaves the latest visit of
      `o` where it was. */
  lemma LatestIndexAppend(vs: seq<Visit>, v: Visit, o: string)
    requires o in Owners(vs) && v.owner != o
    ensures o in Owners(vs + [v])
    ensures LatestIndex(vs + [v], o) == LatestIndex(vs, o)
  {
    OwnersAppend(vs, [v]);
    var i := LatestIndex(vs, o);
    var w := vs + [v];
    assert w[i] == vs[i];
    assert forall j :: 0 <= j < |vs| ==> w[j] == vs[j];
    LatestIndexUnique(w, o, i);
  }

  lemma SameOwnersAt(vs: seq<Visit>, os: seq<string>, vs': seq<Visit>, os': seq<string>, latest: bool, p: string)
    requires forall o :: o in os ==> o in Owners(vs)
    requires forall o :: o in os' ==> o in Owners(vs')
    requires forall o :: o in os' <==> o in os
    requires forall o :: o in os ==> ChosenPage(vs', o, latest) == ChosenPage(vs, o, latest)
    ensures OwnersAt(vs', os', latest, p) == OwnersAt(vs, os, latest, p)
  {
  }

  /** Owners keyed under the same pages give the same breakdown. */
  lemma SameChoices(vs: seq<Visit>, os: seq<string>, vs': seq<Visit>, os': seq<string>, latest: bool)
    requires forall o :: o in os ==> o in Owners(vs)
    requires forall o :: o in os' ==> o in Owners(vs')
    requires NoDups(os) && NoDups(os')
    requires forall o :: o in os' <==> o in os
    requires forall o :: o in os ==> ChosenPage(vs', o, latest) == ChosenPage(vs, o, latest)
    ensures Breakdown(ChosenPages(vs', os', latest)) == Breakdown(ChosenPages(vs, os, latest))
  {
    BreakdownOfChosen(vs, os, latest);
    BreakdownOfChosen(vs', os', latest);
    var r, r' := Breakdown(ChosenPages(vs, os, latest)), Breakdown(ChosenPages(vs', os', latest));
    forall g ensures g in r' <==> g in r {
      SameOwnersAt(vs, os, vs', os', latest, g.key);
    }
    RankedUnique(r', r);
  }

  lemma LongOwnersAppend(vs: seq<Visit>, v: Visit)
    requires v.owner !in Owners(vs)
    ensures forall o :: o in LongOwners(vs + [v]) <==> o in LongOwners(vs)
  {
    var os, os' := Owners(vs), Owners(vs + [v]);
    assert os' == os + [v.owner] by {
      OwnersAppend(vs, [v]);
    }
    forall x ensures Occurrences(os', x) == Occurrences(os, x) + (if x == v.owner then 1 else 0) {
      OccurrencesAppend(os, [v.owner], x);
    }
  }

  /** A visit of a fresh owner leaves the breakdown of the last pages of
      the multi-visit owners unchanged. */
  lemma LongChoicesAppend(vs: seq<Visit>, v: Visit)
    requires v.owner !in Owners(vs)
    ensures Breakdown(ChosenPages(vs + [v], LongOwners(vs + [v]), true))
         == Breakdown(ChosenPages(vs, LongOwners(vs), true))
  {
    LongOwnersAppend(vs, v);
    forall x | x in LongOwners(vs) ensures ChosenPage(vs + [v], x, true) == ChosenPage(vs, x, true) {
      LatestIndexAppend(vs, v, x);
    }
    SameChoices(vs, LongOwners(vs), vs + [v], LongOwners(vs + [v]), true);
  }

  /** A page view of a session that has no other page view does not change
      the exit pages. */
  lemma ExitPagesSkipSingleViewSession(events: seq<Event>, e: Event)
    requires SessionVisit(e).Some?
    requires SessionVisit(e).value.owner !in Owners(SessionVisits(events))
    ensures ExitPages(events + [e]) == ExitPages(events)
  {
    var vs, v := SessionVisits(events), SessionVisit(e).value;
    assert SessionVisits(events + [e]) == vs + [v] by {
      CollectAppend(events, [e], SessionVisit);
    }
    LongChoicesAppend(vs, v);
  }
}
