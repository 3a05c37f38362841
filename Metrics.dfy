/** The volume and ratio metrics: `loss`, `uniqueSessions`, `bounceRate`,
    `avgPageload`, `avgPageDepth`, `pageviews`, `visitors` and `accounts`.
    Each is a reduction over the events; a zero denominator yields the
    empty-input sentinel (0 for ratios, `None` for the averages that
    JavaScript returns as `null`). */
module Metrics {
  import opened Wrappers
  import opened Collections
  import opened EventModel
  import opened Ratios

  /** An event with a truthy `userId`. */
  predicate Identified(e: Event) {
    UserOf(e).Some?
  }

  /** `stats.pageviews`: the number of identified events, repeats included. */
  function Pageviews(events: seq<Event>): (n: nat)
    ensures n <= |events|
    ensures n == |events| <==> forall e :: e in events ==> Identified(e)
    ensures n == 0 <==> forall e :: e in events ==> !Identified(e)
  {
    if events == [] then 0
    else
      var rest := Pageviews(events[1..]);
      assert forall e :: e in events <==> e == events[0] || e in events[1..];
      (if Identified(events[0]) then 1 else 0) + rest
  }

  /** The `userId` of every identified event, in event order. */
  function UserIds(events: seq<Event>): seq<string> {
    Collect(events, UserOf)
  }

  lemma {:induction false} UserIdsPerPageview(events: seq<Event>)
    ensures |UserIds(events)| == Pageviews(events)
  {
    if events != [] {
      UserIdsPerPageview(events[1..]);
    }
  }

  /** `stats.loss`: the share of events that are not identified. */
  function Loss(events: seq<Event>): (r: real)
    ensures 0.0 <= r <= 1.0
    ensures r == 0.0 <==> forall e :: e in events ==> Identified(e)
    ensures events != [] ==> (r == 1.0 <==> forall e :: e in events ==> !Identified(e))
  {
    if events == [] then 0.0
    else
      var n, p := |events|, Pageviews(events);
      Share(n - p, n);
      (n - p) as real / n as real
  }

  /** The anonymous share and the identified share of a non-empty list of
      events add up to one. */
  lemma LossComplementsPageviews(events: seq<Event>)
    requires events != []
    ensures Loss(events) + Pageviews(events) as real / |events| as real == 1.0
  {
    var n, p := |events|, Pageviews(events);
    assert Loss(events) == (n - p) as real / n as real;
    SharesAdd(n - p, p, n);
  }

  /** The set of identified users, defined on the events directly. */
  function UserSet(events: seq<Event>): set<string> {
    set i | 0 <= i < |events| && Identified(events[i]) :: UserOf(events[i]).value
  }

  /** `stats.visitors`: the number of distinct truthy `userId`s. */
  function Visitors(events: seq<Event>): (n: nat)
    ensures n == |UserSet(events)|
    ensures n <= Pageviews(events)
    ensures n == Pageviews(events) <==> NoDups(UserIds(events))
    ensures n == 0 <==> Pageviews(events) == 0
  {
    var ids := UserIds(events);
    CollectMembers(events, UserOf);
    assert Elements(ids) == UserSet(events);
    CardElements(ids);
    UserIdsPerPageview(events);
    if ids == [] then 0
    else
      assert ids[0] in Elements(ids);
      |Elements(ids)|
  }

  /** The set of accounts, defined on the events directly. */
  function AccountSet(events: seq<Event>): set<string> {
    set i | 0 <= i < |events| && AccountOf(events[i]).Some? :: AccountOf(events[i]).value
  }

  /** `stats.accounts`: the number of distinct truthy `accountId`s. */
  function Accounts(events: seq<Event>): (n: nat)
    ensures n == |AccountSet(events)|
    ensures n <= |events|
    ensures n == 0 <==> forall i :: 0 <= i < |events| ==> AccountOf(events[i]).None?
  {
    var ids := Collect(events, AccountOf);
    CollectMembers(events, AccountOf);
    assert Elements(ids) == AccountSet(events);
    CardElements(ids);
    if ids == [] then 0
    else
      assert ids[0] in Elements(ids);
      |Elements(ids)|
  }

  /** The session identifier of every event that has one, in event order. */
  function SessionIds(events: seq<Event>): seq<string> {
    Collect(events, SessionOf)
  }

  /** The set of sessions, defined on the events directly. */
  function SessionSet(events: seq<Event>): set<string> {
    set i | 0 <= i < |events| && SessionOf(events[i]).Some? :: SessionOf(events[i]).value
  }

  /** `stats.uniqueSessions`: the number of distinct session identifiers.
      Identifiers are compared exactly, so case matters. */
  function UniqueSessions(events: seq<Event>): (n: nat)
    ensures n == |SessionSet(events)|
    ensures n <= |events|
    ensures n == 0 <==> forall i :: 0 <= i < |events| ==> SessionOf(events[i]).None?
  {
    var ids := SessionIds(events);
    CollectMembers(events, SessionOf);
    assert Elements(ids) == SessionSet(events);
    DistinctCard(ids);
    if ids == [] then |Distinct(ids)|
    else
      assert ids[0] in Distinct(ids);
      |Distinct(ids)|
  }

  /** Every distinct session, and the number of its events. */
  lemma SessionsCover(events: seq<Event>)
    ensures UniqueSessions(events) == |Distinct(SessionIds(events))|
    ensures TotalOccurrences(Distinct(SessionIds(events)), SessionIds(events)) == |SessionIds(events)|
  {
    TotalOccurrencesOfCover(Distinct(SessionIds(events)), SessionIds(events));
  }

  /** The sessions with exactly one event. */
  function Bounces(events: seq<Event>): (n: nat)
    ensures n <= UniqueSessions(events)
  {
    var ids := SessionIds(events);
    Singles(Distinct(ids), ids)
  }

  /** A bounce is a session identifier that occurs exactly once. */
  lemma BouncesAreSingleEventSessions(events: seq<Event>)
    ensures Bounces(events) == |OnceIn(SessionIds(events), SessionIds(events))|
  {
    SinglesAreOnce(Distinct(SessionIds(events)), SessionIds(events));
  }

  /** `stats.bounceRate`: the share of sessions that have exactly one event;
      0 when there are no sessions. */
  function BounceRate(events: seq<Event>): (r: real)
    ensures 0.0 <= r <= 1.0
    ensures UniqueSessions(events) == 0 ==> r == 0.0
    ensures UniqueSessions(events) > 0 ==> (r == 1.0 <==> NoDups(SessionIds(events)))
    ensures r == 0.0 <==> Bounces(events) == 0
  {
    var n := UniqueSessions(events);
    if n == 0 then 0.0
    else
      AllSessionsSingle(events);
      Share(Bounces(events), n);
      Bounces(events) as real / n as real
  }

  /** Every session has a single event exactly when no session identifier
      repeats, which is when there are as many sessions as session events. */
  lemma AllSessionsSingle(events: seq<Event>)
    ensures Bounces(events) == UniqueSessions(events) <==> NoDups(SessionIds(events))
    ensures UniqueSessions(events) == |SessionIds(events)| <==> NoDups(SessionIds(events))
  {
    var ids := SessionIds(events);
    var d := Distinct(ids);
    SessionsCover(events);
    TotalOccurrencesMinimal(d, ids);
    DistinctCard(ids);
    CardElements(ids);
  }

  /** The `pageload` of every event that has one, in event order. */
  function Pageloads(events: seq<Event>): seq<real> {
    Collect(events, PageloadOf)
  }

  /** `stats.avgPageload`: the mean of the present `pageload` values; `None`
      when there is none. The mean lies between the smallest and the largest
      value. */
  function AvgPageload(events: seq<Event>): (r: Option<real>)
    ensures r.None? <==> forall i :: 0 <= i < |events| ==> PageloadOf(events[i]).None?
    ensures r.Some? <==> Pageloads(events) != []
    ensures r.Some? ==> Min(Pageloads(events)) <= r.value <= Max(Pageloads(events))
  {
    var loads := Pageloads(events);
    CollectMembers(events, PageloadOf);
    if loads == [] then None
    else
      assert loads[0] in loads;
      MeanWithinRange(loads);
      Some(Sum(loads) / |loads| as real)
  }

  /** The mean of a non-empty list lies between its smallest and its
      largest value. */
  lemma MeanWithinRange(s: seq<real>)
    requires s != []
    ensures Min(s) <= Sum(s) / |s| as real <= Max(s)
  {
    MeanOfBounded(s, Min(s), Max(s));
  }

  lemma MeanOfBounded(s: seq<real>, lo: real, hi: real)
    requires s != [] && forall x :: x in s ==> lo <= x <= hi
    ensures lo <= Sum(s) / |s| as real <= hi
  {
    SumBounds(s, lo, hi);
    MeanBetween(Sum(s), |s|, lo, hi);
  }

  /** `stats.avgPageDepth`: the summed event counts of the sessions over the
      number of sessions; `None` when there are no sessions. Since every
      session event belongs to exactly one session, this is the number of
      session events per session, and at least one. */
  function AvgPageDepth(events: seq<Event>): (r: Option<real>)
    ensures r.None? <==> UniqueSessions(events) == 0
    ensures r.Some? ==> r.value == |SessionIds(events)| as real / UniqueSessions(events) as real
    ensures r.Some? ==> r.value >= 1.0
  {
    var ids := SessionIds(events);
    var d := Distinct(ids);
    if d == [] then None
    else
      SessionsCover(events);
      assert d[0] in ids;
      MeanOfCover(|ids|, |d|);
      Some(TotalOccurrences(d, ids) as real / |d| as real)
  }

  /** The average session is one page deep exactly when every session
      bounced. */
  lemma DepthOneIffAllBounce(events: seq<Event>)
    requires UniqueSessions(events) > 0
    ensures AvgPageDepth(events) == Some(1.0) <==> BounceRate(events) == 1.0
  {
    AllSessionsSingle(events);
    SessionsCover(events);
    MeanOfCover(|SessionIds(events)|, UniqueSessions(events));
    Share(Bounces(events), UniqueSessions(events));
  }
}
