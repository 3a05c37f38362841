/** Building blocks for the concrete cases of the test suite: the event
    shapes the tests write as object literals, and small facts that let a
    fixed list of events be evaluated a few events at a time. */
module CaseEvents {
  import opened Wrappers
  import opened Collections
  import opened EventModel
  import opened Grouping

  /** `{ userId: id }`. */
  function User(id: string): Event {
    Event(Some(id), None, None, None)
  }

  /** `{ accountId: id }`. */
  function Account(id: string): Event {
    Event(None, Some(id), None, None)
  }

  /** `{ timestamp: new Date().toJSON() }`: an anonymous event; the clock
      reading is a fixed value here. */
  function Anonymous(): Event {
    Event(None, None, Some("2019-06-01T12:00:00.000Z"), None)
  }

  /** `{}`, and equally `{ userId: null }` or `{ accountId: null }`. */
  function Blank(): Event {
    Event(None, None, None, None)
  }

  function WithPayload(p: Payload): Event {
    Event(None, None, None, Some(p))
  }

  /** `payload: {}`. */
  function NoDetail(): Payload {
    Payload(None, None, None, None, None)
  }

  /** `{ payload: { sessionId: id } }`. */
  function InSession(id: string): Event {
    WithPayload(NoDetail().(sessionId := Some(id)))
  }

  /** `{ payload: { pageload: ms } }`. */
  function Loaded(ms: real): Event {
    WithPayload(NoDetail().(pageload := Some(ms)))
  }

  function Https(host: string, path: string, search: string, hash: string, query: seq<(string, string)>): Url {
    Url("https", host, path, search, hash, query)
  }

  /** An `https` URL without query or fragment. */
  function Page(host: string, path: string): Url {
    Https(host, path, "", "", [])
  }

  /** `{ payload: { href, referrer } }`. */
  function Referred(href: Url, referrer: Url): Event {
    WithPayload(NoDetail().(href := Some(href), referrer := Some(referrer)))
  }

  /** The canonical page of an `https` URL is its origin and path. */
  lemma CanonicalOfHttps(host: string, path: string, search: string, hash: string, query: seq<(string, string)>)
    ensures Canonical(Https(host, path, search, hash, query)) == "https://" + host + path
  {
  }

  /** The canonical pages of the page-view cases. */
  const Foo: string := "https://www.example.net/foo"
  const Bar: string := "https://www.example.net/bar"
  const Baz: string := "https://www.example.net/baz"
  const Site: string := "https://beep.boop/site"

  lemma CanonicalOnExample(path: string, search: string, query: seq<(string, string)>)
    ensures Canonical(Https("www.example.net", path, search, "", query)) == "https://www.example.net" + path
  {
    CanonicalOfHttps("www.example.net", path, search, "", query);
  }

  lemma CanonicalsOnExample(search: string, query: seq<(string, string)>)
    ensures Canonical(Https("www.example.net", "/foo", search, "", query)) == Foo
    ensures Canonical(Https("www.example.net", "/bar", search, "", query)) == Bar
    ensures Canonical(Https("www.example.net", "/baz", search, "", query)) == Baz
  {
    CanonicalOnExample("/foo", search, query);
    CanonicalOnExample("/bar", search, query);
    CanonicalOnExample("/baz", search, query);
    assert "https://www.example.net" + "/foo" == Foo;
    assert "https://www.example.net" + "/bar" == Bar;
    assert "https://www.example.net" + "/baz" == Baz;
  }

  lemma CanonicalOfSite(hash: string)
    ensures Canonical(Https("beep.boop", "/site", "", hash, [])) == Site
  {
    CanonicalOfHttps("beep.boop", "/site", "", hash, []);
    assert "https://" + "beep.boop" + "/site" == Site;
  }

  /** The values an `Option` holds, as a list of at most one. */
  function Held<T>(o: Option<T>): (r: seq<T>)
    ensures |r| <= 1
    ensures r == [] <==> o.None?
  {
    match o
    case Some(x) => [x]
    case None => []
  }

  lemma CollectOfOne<T(!new)>(e0: Event, f: Event -> Option<T>)
    ensures Collect([e0], f) == Held(f(e0))
  {
    assert [e0][1..] == [];
  }

  lemma CollectOfTwo<T(!new)>(e0: Event, e1: Event, f: Event -> Option<T>)
    ensures Collect([e0, e1], f) == Held(f(e0)) + Held(f(e1))
  {
    assert [e0, e1][1..] == [e1];
    CollectOfOne(e1, f);
  }

  lemma CollectOfThree<T(!new)>(e0: Event, e1: Event, e2: Event, f: Event -> Option<T>)
    ensures Collect([e0, e1, e2], f) == Held(f(e0)) + Held(f(e1)) + Held(f(e2))
  {
    assert [e0, e1, e2][1..] == [e1, e2];
    CollectOfTwo(e1, e2, f);
  }

  lemma CollectOfFour<T(!new)>(e0: Event, e1: Event, e2: Event, e3: Event, f: Event -> Option<T>)
    ensures Collect([e0, e1, e2, e3], f) == Held(f(e0)) + Held(f(e1)) + Held(f(e2)) + Held(f(e3))
  {
    CollectOfTwo(e0, e1, f);
    CollectOfTwo(e2, e3, f);
    CollectAppend([e0, e1], [e2, e3], f);
    assert [e0, e1] + [e2, e3] == [e0, e1, e2, e3];
  }

  lemma CardOfThree<T>(a: T, b: T, c: T)
    requires a != b && b != c && a != c
    ensures |{a, b, c}| == 3
  {
  }

  lemma CardOfFour<T>(a: T, b: T, c: T, d: T)
    requires a != b && a != c && a != d && b != c && b != d && c != d
    ensures |{a, b, c, d}| == 4
  {
    CardOfThree(a, b, c);
    assert {a, b, c, d} == {a, b, c} + {d};
  }

  /** 1 when `a` is `x`, 0 otherwise. */
  function Hit<T(==)>(a: T, x: T): nat {
    if a == x then 1 else 0
  }

  lemma OccurrencesOfThree<T(!new)>(a: T, b: T, c: T, x: T)
    ensures Occurrences([a, b, c], x) == Hit(a, x) + Hit(b, x) + Hit(c, x)
  {
    assert [a, b, c][1..] == [b, c];
    assert [b, c][1..] == [c];
    assert [c][1..] == [];
  }

  lemma OccurrencesOfFour<T(!new)>(a: T, b: T, c: T, d: T, x: T)
    ensures Occurrences([a, b, c, d], x) == Hit(a, x) + Hit(b, x) + Hit(c, x) + Hit(d, x)
  {
    assert [a, b, c, d][1..] == [b, c, d];
    OccurrencesOfThree(b, c, d, x);
  }

  /** A two-entry breakdown, fixed by its two keys and their counts. */
  lemma BreakdownOfTwo(keys: seq<string>, first: Group, second: Group)
    requires first.key != second.key && first.count > 0 && second.count > 0
    requires Precedes(first, second)
    requires forall k :: k in keys <==> k == first.key || k == second.key
    requires Occurrences(keys, first.key) == first.count && Occurrences(keys, second.key) == second.count
    ensures Breakdown(keys) == [first, second]
  {
    var r := [first, second];
    forall g ensures g in r <==> g.key in keys && g.count == Occurrences(keys, g.key) {
      assert g in r <==> g == first || g == second;
    }
    BreakdownCharacterized(keys, r);
  }
}
