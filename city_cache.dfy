/** The `/city/:city` handler: a one-hour in-memory cache of scraped cost
    sheets in front of the upstream cost-of-living site, which falls back to
    a stale sheet when the site refuses the request. */
module CityHandler {
  import opened PriceLookup
  import opened Scraper

  /** One hour in milliseconds. */
  const CacheDuration: int := 1000 * 60 * 60

  /** What the handler answers with on success: the city name and its cost
      records. */
  datatype CitySheet = CitySheet(city: string, costs: seq<CostRecord>)

  /** A cached sheet and the clock reading, in milliseconds, when it was
      stored. */
  datatype CacheEntry = CacheEntry(timestamp: int, data: CitySheet)

  /** How the request to the upstream site ends: it throws (network failure,
      unreadable body), it answers with a status that is not ok, or it
      answers with a page whose cost table has the given rows. */
  datatype Upstream = Threw | NotOk | Page(rows: seq<TableRow>)

  /** The HTTP answer: the sheet as JSON, a 404, or a 500. */
  datatype Reply = Served(sheet: CitySheet) | NotFound | ServerError

  /** `Date.now() - cached.timestamp < CACHE_DURATION`. */
  predicate IsFresh(entry: CacheEntry, now: int)
  {
    now - entry.timestamp < CacheDuration
  }

  /** The reply to one request and the cache after it. */
  datatype Outcome = Outcome(reply: Reply, entries: map<string, CacheEntry>)

  /** One request for `city`, answered at clock reading `now` from the cache
      `entries`; `savedAt` is the clock reading when a scraped sheet is
      stored. */
  function Respond(entries: map<string, CacheEntry>, city: string, now: int,
                   upstream: Upstream, savedAt: int): Outcome
  {
    if city in entries && IsFresh(entries[city], now) then
      Outcome(Served(entries[city].data), entries)
    else
      match upstream
      case Threw => Outcome(ServerError, entries)
      case NotOk =>
        if city in entries then Outcome(Served(entries[city].data), entries)
        else Outcome(NotFound, entries)
      case Page(rows) =>
        var sheet := CitySheet(city, ScrapedCosts(rows));
        Outcome(Served(sheet), entries[city := CacheEntry(savedAt, sheet)])
  }

  /** An entry is fresh for exactly one hour after it was stored, not a
      millisecond longer. */
  lemma FreshForOneHour(entry: CacheEntry)
    ensures IsFresh(entry, entry.timestamp + CacheDuration - 1)
    ensures !IsFresh(entry, entry.timestamp + CacheDuration)
  {
  }

  /** A fresh entry is served without asking the upstream site: the reply
      and the cache do not depend on what the site would have answered. */
  lemma FreshHitIgnoresUpstream(entries: map<string, CacheEntry>, city: string, now: int,
                                u1: Upstream, s1: int, u2: Upstream, s2: int)
    requires city in entries && IsFresh(entries[city], now)
    ensures Respond(entries, city, now, u1, s1) == Respond(entries, city, now, u2, s2)
    ensures Respond(entries, city, now, u1, s1) == Outcome(Served(entries[city].data), entries)
  {
  }

  /** Only a scraped page changes the cache; every failure leaves it as it
      was. */
  lemma FailureKeepsCache(entries: map<string, CacheEntry>, city: string, now: int,
                          upstream: Upstream, savedAt: int)
    requires !upstream.Page?
    ensures Respond(entries, city, now, upstream, savedAt).entries == entries
  {
  }

  /** When the site refuses and nothing fresh is cached, the handler serves
      the stale sheet if there is one and answers 404 otherwise; a thrown
      error is a 500 even with a stale sheet at hand. */
  lemma FailureReplies(entries: map<string, CacheEntry>, city: string, now: int, savedAt: int)
    requires !(city in entries && IsFresh(entries[city], now))
    ensures Respond(entries, city, now, NotOk, savedAt).reply
         == (if city in entries then Served(entries[city].data) else NotFound)
    ensures Respond(entries, city, now, Threw, savedAt).reply == ServerError
  {
  }

  /** A request touches only its own city's entry. */
  lemma OtherCitiesUntouched(entries: map<string, CacheEntry>, city: string, now: int,
                             upstream: Upstream, savedAt: int, other: string)
    requires other != city
    ensures var after := Respond(entries, city, now, upstream, savedAt).entries;
      (other in after <==> other in entries) && (other in entries ==> after[other] == entries[other])
  {
  }

  /** A sheet scraped and stored at `savedAt` is served from the cache for
      the rest of the hour, whatever the upstream site would answer. */
  lemma StoredThenServed(entries: map<string, CacheEntry>, city: string, now: int,
                         rows: seq<TableRow>, savedAt: int,
                         later: int, upstream: Upstream, savedLater: int)
    requires !(city in entries && IsFresh(entries[city], now))
    requires savedAt <= later < savedAt + CacheDuration
    ensures var first := Respond(entries, city, now, Page(rows), savedAt);
      && first.reply == Served(CitySheet(city, ScrapedCosts(rows)))
      && Respond(first.entries, city, later, upstream, savedLater) == Outcome(first.reply, first.entries)
  {
    var first := Respond(entries, city, now, Page(rows), savedAt);
    assert first.entries[city] == CacheEntry(savedAt, CitySheet(city, ScrapedCosts(rows)));
  }

  /** After the hour, the stored sheet is no longer served first: the site
      is asked again, and a refusal falls back to the now stale sheet. */
  lemma StoredThenStale(entries: map<string, CacheEntry>, city: string, now: int,
                        rows: seq<TableRow>, savedAt: int, later: int, savedLater: int)
    requires !(city in entries && IsFresh(entries[city], now))
    requires later >= savedAt + CacheDuration
    ensures var first := Respond(entries, city, now, Page(rows), savedAt);
      && Respond(first.entries, city, later, Threw, savedLater).reply == ServerError
      && Respond(first.entries, city, later, NotOk, savedLater).reply == first.reply
  {
    var first := Respond(entries, city, now, Page(rows), savedAt);
    assert first.entries[city] == CacheEntry(savedAt, CitySheet(city, ScrapedCosts(rows)));
  }

  /** The server's cache: city name to the last sheet stored for it. */
  class CityCache {
    var entries: map<string, CacheEntry>

    /** `new Map()`: the cache starts empty. */
    constructor()
      ensures entries == map[]
    {
      entries := map[];
    }

    /** One request for `city`: serve a fresh entry, otherwise ask the
        upstream site; on a refusal serve the stale entry or a 404, on an
        error a 500, and on a page scrape its cost table, store the sheet
        and serve it. */
    method Handle(city: string, now: int, upstream: Upstream, savedAt: int) returns (reply: Reply)
      modifies this
      ensures reply == Respond(old(entries), city, now, upstream, savedAt).reply
      ensures entries == Respond(old(entries), city, now, upstream, savedAt).entries
    {
      if city in entries && IsFresh(entries[city], now) {
        return Served(entries[city].data);
      }
      match upstream
      case Threw =>
        reply := ServerError;
      case NotOk =>
        if city in entries {
          reply := Served(entries[city].data);
        } else {
          reply := NotFound;
        }
      case Page(rows) =>
        var costs := ScrapeCosts(rows);
        var data := CitySheet(city, costs);
        entries := entries[city := CacheEntry(savedAt, data)];
        reply := Served(data);
    }
  }
}
