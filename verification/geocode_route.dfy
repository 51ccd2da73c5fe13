/**
 * The server-side geocoding endpoint `GET /api/geocode?q=…`: a length gate,
 * a process-wide cache keyed by the lower-cased query, one upstream search on
 * a miss, a country filter on `country_code` and an order-preserving mapping.
 * The upstream search is an input: the caller says what it would answer.
 */
module GeocodeRoute {
  import opened Wrappers
  import opened JsText
  import opened JsNumber
  import opened Seqs
  import opened Nominatim

  /** Queries shorter than this (after trimming) are answered without a lookup. */
  const MinQueryLength: nat := 4

  /** `(searchParams.get("q") || "").trim()`. */
  function Query(raw: Option<string>): string {
    Trim(raw.GetOr(""))
  }

  /** `q.toLowerCase()`: the cache key of a trimmed query. */
  function Key(q: string): (k: string)
    ensures |k| == |q|
  {
    ToLower(q)
  }

  /** Two requests whose texts differ only in letter case share one cache entry and one length verdict. */
  lemma CaseSharesEntry(a: string, b: string)
    requires ToLower(a) == ToLower(b)
    ensures Key(Query(Some(a))) == Key(Query(Some(b)))
    ensures |Query(Some(a))| == |Query(Some(b))|
  {
    TrimLower(a);
    TrimLower(b);
  }

  /** White space around the query never changes the key it is cached under. */
  lemma PaddingSharesEntry(pre: string, q: string, post: string)
    requires AllSpace(pre) && AllSpace(post)
    ensures Key(Query(Some(pre + q + post))) == Key(Query(Some(q)))
  {
    TrimIgnoresPadding(pre, q, post);
  }

  /** The mapping step: ids, names, address and type copied, lat/lon passed through `Number`. */
  function Convert(p: Place): (r: Place)
    ensures r.placeId == p.placeId && r.kind == p.kind
    ensures r.address == p.address && r.displayName == p.displayName
    ensures r.lat == Number(ToNumber(p.lat)) && r.lon == Number(ToNumber(p.lon))
  {
    p.(lat := Number(ToNumber(p.lat)), lon := Number(ToNumber(p.lon)))
  }

  /** Converting an already converted place changes nothing (the payload a client re-reads is stable). */
  lemma ConvertIdempotent(p: Place)
    ensures Convert(Convert(p)) == Convert(p)
  {
  }

  /** `(data || []).filter(country_code is "es").map(…)`. */
  function Results(data: Option<seq<Place>>): (r: seq<Place>)
    ensures data.None? ==> r == []
    ensures |r| <= |data.GetOr([])|
    ensures forall x :: x in r ==> HasSpanishCode(x)
    ensures forall p :: p in data.GetOr([]) && HasSpanishCode(p) ==> Convert(p) in r
    ensures |r| == |Filter(HasSpanishCode, data.GetOr([]))|
    ensures forall p :: p in data.GetOr([]) && HasSpanishCode(p) ==> multiset(r)[Convert(p)] >= multiset(data.GetOr([]))[p]
  {
    var kept := Filter(HasSpanishCode, data.GetOr([]));
    ConvertedMembers(kept);
    MapKeepsCount(Convert, kept);
    Map(Convert, kept)
  }

  lemma ConvertedMembers(kept: seq<Place>)
    ensures forall x :: x in Map(Convert, kept) ==> exists y :: y in kept && x == Convert(y)
    ensures forall y :: y in kept ==> Convert(y) in Map(Convert, kept)
  {
    var r := Map(Convert, kept);
    forall x | x in r ensures exists y :: y in kept && x == Convert(y) {
      var i :| 0 <= i < |r| && r[i] == x;
      assert kept[i] in kept;
    }
    forall y | y in kept ensures Convert(y) in r {
      var i :| 0 <= i < |kept| && kept[i] == y;
      assert r[i] == Convert(y);
    }
  }

  /** The results keep upstream order: they are the converted upstream list with some entries dropped. */
  lemma ResultsKeepOrder(data: seq<Place>)
    ensures IsSubsequence(Results(Some(data)), Map(Convert, data))
  {
    MapFilterCommute(Convert, HasSpanishCode, HasSpanishCode, data);
    FilterIsSubsequence(HasSpanishCode, Map(Convert, data));
  }

  /** The clients' `isSpain` filter keeps every result the route sends. */
  lemma ClientsKeepEveryResult(data: Option<seq<Place>>)
    ensures Filter(IsSpain, Results(data)) == Results(data)
  {
    var r := Results(data);
    forall i | 0 <= i < |r| ensures IsSpain(r[i]) {
      assert r[i] in r;
      SpanishCodeIsSpain(r[i]);
    }
    FilterAllPass(IsSpain, r);
  }

  /** What the upstream search answers: a non-2xx status, or a JSON body (`null` is possible). */
  datatype Upstream = NotOk | Ok(data: Option<seq<Place>>)

  /** The cache as the route keeps it: every key came from a long enough query, every payload is filtered. */
  predicate WellFormed(cache: map<string, seq<Place>>) {
    forall k | k in cache :: |k| >= MinQueryLength && forall x :: x in cache[k] ==> HasSpanishCode(x)
  }

  /** One response and the cache after it. */
  datatype Served = Served(results: seq<Place>, fetched: bool, cache: map<string, seq<Place>>)
  /**
   * The handler is not atomic: it tests the cache, then awaits `fetch` and `res.json()`, and
   * only then writes the cache. So a request is modelled in two steps. `Arrive` is the part up
   * to the first await, on the cache as it is when the request comes in.
   */
  datatype Arrival = Answered(results: seq<Place>) | Fetching(key: string)

  function Arrive(cache: map<string, seq<Place>>, raw: Option<string>): (a: Arrival)
    ensures |Query(raw)| < MinQueryLength ==> a == Answered([])
    ensures |Query(raw)| >= MinQueryLength && Key(Query(raw)) in cache ==> a == Answered(cache[Key(Query(raw))])
    ensures a.Fetching? <==> |Query(raw)| >= MinQueryLength && Key(Query(raw)) !in cache
    ensures a.Fetching? ==> a.key == Key(Query(raw)) && |a.key| >= MinQueryLength
  {
    var q := Query(raw);
    if |q| < MinQueryLength then Answered([])
    else if Key(q) in cache then Answered(cache[Key(q)])
    else Fetching(Key(q))
  }

  /** What a fetching request answers and the cache after it. */
  datatype Landed = Landed(results: seq<Place>, cache: map<string, seq<Place>>)

  /**
   * The part after the awaits, on the cache as it is when the upstream answer has been read:
   * `cache.set` writes the key whatever it holds by then, and leaves every other key alone.
   */
  function Land(cache: map<string, seq<Place>>, key: string, upstream: Upstream): (l: Landed)
    ensures upstream.NotOk? ==> l == Landed([], cache)
    ensures upstream.Ok? ==> l.results == Results(upstream.data) && key in l.cache && l.cache[key] == l.results
    ensures l.cache.Keys == cache.Keys + (if upstream.Ok? then {key} else {})
    ensures forall k | k in cache && k != key :: l.cache[k] == cache[k]
    ensures WellFormed(cache) && |key| >= MinQueryLength ==> WellFormed(l.cache)
  {
    match upstream
    case NotOk => Landed([], cache)
    case Ok(data) => Landed(Results(data), cache[key := Results(data)])
  }

  /** The handler as a function of the cache before it, when no other request is in flight. */
  function Serve(cache: map<string, seq<Place>>, raw: Option<string>, upstream: Upstream): (s: Served)
    ensures |Query(raw)| < MinQueryLength ==> s == Served([], false, cache)
    ensures s.fetched <==> |Query(raw)| >= MinQueryLength && Key(Query(raw)) !in cache
    ensures forall k | k in cache :: k in s.cache && s.cache[k] == cache[k]
    ensures s.cache.Keys <= cache.Keys + {Key(Query(raw))}
    ensures s.cache != cache ==> s.fetched && upstream.Ok?
    ensures WellFormed(cache) ==> WellFormed(s.cache) && forall x :: x in s.results ==> HasSpanishCode(x)
    ensures |Query(raw)| >= MinQueryLength && Key(Query(raw)) in cache ==> s == Served(cache[Key(Query(raw))], false, cache)
    ensures |Query(raw)| >= MinQueryLength && Key(Query(raw)) !in cache && upstream.NotOk? ==> s == Served([], true, cache)
    ensures |Query(raw)| >= MinQueryLength && Key(Query(raw)) !in cache && upstream.Ok? ==>
      s.results == Results(upstream.data) && s.cache == cache[Key(Query(raw)) := s.results]
  {
    match Arrive(cache, raw)
    case Answered(results) => Served(results, false, cache)
    case Fetching(key) =>
      var l := Land(cache, key, upstream);
      Served(l.results, true, l.cache)
  }

  /** The module-level cache together with the keys of the requests that are between their two steps. */
  datatype Server = Server(cache: map<string, seq<Place>>, inFlight: multiset<string>)

  /** What can happen next: a request comes in, or a request in flight for a key gets its upstream answer. */
  datatype Event = Receive(q: Option<string>) | Complete(key: string, upstream: Upstream)

  /** One event. A completion for a key with no request in flight cannot happen, and changes nothing. */
  function Step(s: Server, e: Event): (t: Server)
    ensures e.Receive? ==> t.cache == s.cache
    ensures e.Receive? && Arrive(s.cache, e.q).Answered? ==> t == s
    ensures e.Receive? && Arrive(s.cache, e.q).Fetching? ==> t.inFlight == s.inFlight + multiset{Arrive(s.cache, e.q).key}
    ensures e.Complete? && e.key in s.inFlight ==>
      t == Server(Land(s.cache, e.key, e.upstream).cache, s.inFlight - multiset{e.key})
    ensures e.Complete? && e.key !in s.inFlight ==> t == s
  {
    match e
    case Receive(q) =>
      (match Arrive(s.cache, q)
       case Answered(_) => s
       case Fetching(key) => s.(inFlight := s.inFlight + multiset{key}))
    case Complete(key, upstream) =>
      if key in s.inFlight then Server(Land(s.cache, key, upstream).cache, s.inFlight - multiset{key})
      else s
  }

  /** The server after `events`, in order: requests may overlap in any way. */
  function Run(s: Server, events: seq<Event>): Server
    decreases |events|
  {
    if events == [] then s else Run(Step(s, events[0]), events[1..])
  }

  /** Every cached key and every key in flight came from a long enough query, and every payload is filtered. */
  predicate ServerWellFormed(s: Server) {
    WellFormed(s.cache) && forall k | k in s.inFlight :: |k| >= MinQueryLength
  }

  /** Whatever happens, the cache stays well-formed. */
  lemma {:induction false} RunKeepsWellFormed(s: Server, events: seq<Event>)
    requires ServerWellFormed(s)
    ensures ServerWellFormed(Run(s, events))
    decreases |events|
  {
    if events != [] {
      var t := Step(s, events[0]);
      assert ServerWellFormed(t);
      RunKeepsWellFormed(t, events[1..]);
    }
  }

  /** A request with nothing else in flight is `Serve`: it arrives, and completes if it fetched. */
  lemma AloneIsServe(cache: map<string, seq<Place>>, raw: Option<string>, upstream: Upstream)
    ensures var s1 := Step(Server(cache, multiset{}), Receive(raw));
            var s2 := if s1.inFlight == multiset{} then s1 else Step(s1, Complete(Key(Query(raw)), upstream));
            s2 == Server(Serve(cache, raw, upstream).cache, multiset{})
  {
  }

  /**
   * A cached entry with no request for its key in flight is never removed or overwritten,
   * whatever requests follow and however they overlap: a request for its key hits the cache.
   */
  lemma {:induction false} EntriesPersist(s: Server, events: seq<Event>, k: string)
    requires k in s.cache && k !in s.inFlight
    ensures var t := Run(s, events); k in t.cache && t.cache[k] == s.cache[k] && k !in t.inFlight
    decreases |events|
  {
    if events != [] {
      var t := Step(s, events[0]);
      assert k in t.cache && t.cache[k] == s.cache[k] && k !in t.inFlight;
      EntriesPersist(t, events[1..], k);
    }
  }

  /**
   * When the only request in flight for a key gets a 2xx answer, every later request with that
   * key, after any events in between, gets the same payload without an upstream call.
   */
  lemma LaterRequestsHitCache(s: Server, k: string, data: Option<seq<Place>>, between: seq<Event>, again: Option<string>)
    requires s.inFlight[k] == 1
    requires |Query(again)| >= MinQueryLength && Key(Query(again)) == k
    ensures var later := Run(Step(s, Complete(k, Ok(data))), between);
            Arrive(later.cache, again) == Answered(Results(data))
  {
    var first := Step(s, Complete(k, Ok(data)));
    EntriesPersist(first, between, k);
  }

  /** Two requests for the same new key that come in one after the other both miss, and both fetch. */
  lemma OverlappingRequestsBothFetch(q: string)
    requires |Trim(q)| >= MinQueryLength
    ensures var k := Key(Query(Some(q)));
            Run(Server(map[], multiset{}), [Receive(Some(q)), Receive(Some(q))]) == Server(map[], multiset{k, k})
  {
    var k := Key(Query(Some(q)));
    var e := Receive(Some(q));
    var s0 := Server(map[], multiset{});
    var s2 := Server(map[], multiset{k, k});
    assert Arrive(map[], Some(q)) == Fetching(k);
    assert Step(s0, e) == Server(map[], multiset{k});
    assert Step(Server(map[], multiset{k}), e) == s2;
    assert [e, e][1..] == [e] && [e][1..] == [];
    assert Run(s0, [e, e]) == Run(Server(map[], multiset{k}), [e]);
    assert Run(Server(map[], multiset{k}), [e]) == Run(s2, []);
  }

  /**
   * When two requests for one key are in flight, the one that completes later overwrites the
   * entry the other stored: the cache ends with the later answer, whatever the earlier one was.
   */
  lemma OverlappingRequestsOverwrite(k: string, a: Option<seq<Place>>, b: Option<seq<Place>>)
    ensures var both := Server(map[], multiset{k, k});
            var first := Step(both, Complete(k, Ok(a)));
            var second := Step(first, Complete(k, Ok(b)));
            first.cache[k] == Results(a) && second.cache[k] == Results(b) && second.inFlight == multiset{}
  {
    var first := Step(Server(map[], multiset{k, k}), Complete(k, Ok(a)));
    assert first.inFlight == multiset{k};
  }

  /** The route's module-level state: the cache and the requests awaiting their upstream answer. */
  class Route {
    var cache: map<string, seq<Place>>
    var inFlight: multiset<string>

    ghost predicate Valid()
      reads this
    {
      ServerWellFormed(Server(cache, inFlight))
    }

    constructor ()
      ensures cache == map[] && inFlight == multiset{} && Valid()
    {
      cache := map[];
      inFlight := multiset{};
    }

    /**
     * `GET` up to its first await: either the response (short query or cache hit), or the key
     * whose upstream search is now in flight.
     */
    method Receive(raw: Option<string>) returns (a: Arrival)
      requires Valid()
      modifies this
      ensures Valid()
      ensures a == Arrive(old(cache), raw)
      ensures Server(cache, inFlight) == Step(old(Server(cache, inFlight)), Event.Receive(raw))
    {
      var q := Trim(raw.GetOr(""));
      if |q| < MinQueryLength {
        return Answered([]);
      }
      var key := ToLower(q);
      if key in cache {
        return Answered(cache[key]);
      }
      inFlight := inFlight + multiset{key};
      a := Fetching(key);
    }

    /**
     * `GET` after its awaits, for a request in flight for `key`: the `results` of the response,
     * written into the cache as it stands now.
     */
    method Complete(key: string, upstream: Upstream) returns (results: seq<Place>)
      requires Valid() && key in inFlight
      modifies this
      ensures Valid()
      ensures results == Land(old(cache), key, upstream).results
      ensures Server(cache, inFlight) == Step(old(Server(cache, inFlight)), Event.Complete(key, upstream))
    {
      inFlight := inFlight - multiset{key};
      match upstream {
        case NotOk =>
          results := [];
        case Ok(data) =>
          results := Results(data);
          cache := cache[key := results];
      }
    }
  }
}
