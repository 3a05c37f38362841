/** The shape of one tracked event, the URL components the engine reads,
    and the per-event field accessors every metric shares. */
module EventModel {
  import opened Wrappers
  import opened Collections

  /** An absolute URL already parsed into the components of the WHATWG URL
      Standard: `host` includes a non-default port, as the standard's `host`
      getter does, and `query` is the list of name/value pairs of `search`. */
  datatype Url = Url(
    scheme: string,
    host: string,
    pathname: string,
    search: string,
    hash: string,
    query: seq<(string, string)>)

  /** The serialized origin of a URL: scheme, "://" and host. */
  function Origin(u: Url): string {
    u.scheme + "://" + u.host
  }

  /** The full serialization of a URL. */
  function Href(u: Url): string {
    Origin(u) + u.pathname + u.search + u.hash
  }

  /** The canonical page key: origin and path, with query and fragment
      removed. It is a prefix of the full URL and equals it exactly when the
      URL has neither query nor fragment. */
  function Canonical(u: Url): (c: string)
    ensures |c| <= |Href(u)| && c == Href(u)[..|c|]
    ensures c == Href(u) <==> u.search + u.hash == ""
  {
    var c := Origin(u) + u.pathname;
    assert Href(u) == c + (u.search + u.hash);
    c
  }

  /** The first value given to parameter `name` in a query, as
      `URLSearchParams.get` returns it. */
  function QueryParam(query: seq<(string, string)>, name: string): (v: Option<string>)
    ensures v.None? <==> forall i :: 0 <= i < |query| ==> query[i].0 != name
    ensures v.Some? ==> exists i :: 0 <= i < |query| && query[i] == (name, v.value)
                                   && forall j :: 0 <= j < i ==> query[j].0 != name
  {
    if query == [] then None
    else if query[0].0 == name then Some(query[0].1)
    else
      var v := QueryParam(query[1..], name);
      assert forall i :: 0 < i < |query| ==> query[i] == query[1..][i - 1];
      if v.Some? then
        var i :| 0 <= i < |query[1..]| && query[1..][i] == (name, v.value)
               && forall j :: 0 <= j < i ==> query[1..][j].0 != name;
        assert query[i + 1] == (name, v.value);
        v
      else v
  }

  /** The campaign a URL advertises: its `utm_campaign` query parameter. */
  function Campaign(u: Url): Option<string> {
    QueryParam(u.query, "utm_campaign")
  }

  /** The page-view detail of an event. `timestamp` is the ordering key of
      events within a session or of one user. */
  datatype Payload = Payload(
    sessionId: Option<string>,
    href: Option<Url>,
    referrer: Option<Url>,
    pageload: Option<real>,
    timestamp: Option<nat>)

  /** One tracked event. The top-level `timestamp` is carried but read by no
      metric. */
  datatype Event = Event(
    userId: Option<string>,
    accountId: Option<string>,
    timestamp: Option<string>,
    payload: Option<Payload>)

  /** An identifier field that JavaScript treats as truthy: present, not
      null and not the empty string. */
  function TruthyId(id: Option<string>): (r: Option<string>)
    ensures r.Some? <==> id.Some? && id.value != ""
    ensures r.Some? ==> r == id
  {
    if id.Some? && id.value != "" then id else None
  }

  function UserOf(e: Event): Option<string> {
    TruthyId(e.userId)
  }

  function AccountOf(e: Event): Option<string> {
    TruthyId(e.accountId)
  }

  function SessionOf(e: Event): Option<string> {
    if e.payload.Some? then TruthyId(e.payload.value.sessionId) else None
  }

  function PageloadOf(e: Event): Option<real> {
    if e.payload.Some? then e.payload.value.pageload else None
  }

  /** The canonical page of an event that has an `href`. */
  function PageOf(e: Event): Option<string> {
    if e.payload.Some? && e.payload.value.href.Some? then Some(Canonical(e.payload.value.href.value))
    else None
  }

  /** The values `f` extracts from the events, in event order, skipping the
      events it extracts nothing from. */
  function Collect<T(!new)>(events: seq<Event>, f: Event -> Option<T>): (r: seq<T>)
    ensures |r| <= |events|
  {
    if events == [] then []
    else (match f(events[0]) case Some(x) => [x] case None => []) + Collect(events[1..], f)
  }

  /** A value is collected exactly when `f` extracts it from some event. */
  lemma {:induction false} CollectMembers<T(!new)>(events: seq<Event>, f: Event -> Option<T>)
    ensures forall x :: x in Collect(events, f) <==> exists i :: 0 <= i < |events| && f(events[i]) == Some(x)
  {
    if events != [] {
      CollectMembers(events[1..], f);
      assert forall i :: 0 < i < |events| ==> events[i] == events[1..][i - 1];
    }
  }

  lemma {:induction false} CollectAppend<T(!new)>(a: seq<Event>, b: seq<Event>, f: Event -> Option<T>)
    ensures Collect(a + b, f) == Collect(a, f) + Collect(b, f)
  {
    if a == [] {
      assert a + b == b;
    } else {
      assert (a + b)[1..] == a[1..] + b;
      CollectAppend(a[1..], b, f);
    }
  }

  /** Number of events from which `f` extracts `x`. */
  function CountWith<T(==)>(events: seq<Event>, f: Event -> Option<T>, x: T): nat {
    if events == [] then 0
    else (if f(events[0]) == Some(x) then 1 else 0) + CountWith(events[1..], f, x)
  }

  /** Tallying the collected values counts, for each value, the events it
      was extracted from. */
  lemma {:induction false} OccurrencesOfCollect<T(!new)>(events: seq<Event>, f: Event -> Option<T>, x: T)
    ensures Occurrences(Collect(events, f), x) == CountWith(events, f, x)
  {
    if events != [] {
      OccurrencesOfCollect(events[1..], f, x);
      var head: seq<T> := match f(events[0]) case Some(y) => [y] case None => [];
      OccurrencesAppend(head, Collect(events[1..], f), x);
    }
  }
}
