/** The request handler `get_hype` and the process-wide result cache it owns. The cache
    maps a lower-cased query to the result computed for it and the time the request that
    computed it started; an entry is served while it is younger than fifteen minutes and
    is deleted when a lookup finds it older. The clock reading is an input. */
module Cache {
  import opened Wrappers
  import opened Keys
  import opened Hype

  /** Fifteen minutes, in seconds. */
  const CacheDurationSeconds: real := 900.0

  /** The response body: the query keeps the caller's casing. */
  datatype HypeResult = HypeResult(query: string, score: real, title: string, snippets: seq<Snippet>)

  datatype Entry = Entry(timestamp: real, data: HypeResult)

  /** An entry is served only while `now - timestamp < 900`. */
  predicate IsFresh(e: Entry, now: real)
    ensures IsFresh(e, now) <==> now < e.timestamp + CacheDurationSeconds
  {
    now - e.timestamp < CacheDurationSeconds
  }

  /** An entry fresh at some time was fresh at every earlier time, and one that is stale
      stays stale. */
  lemma FreshnessMonotone(e: Entry, earlier: real, later: real)
    requires earlier <= later
    ensures IsFresh(e, later) ==> IsFresh(e, earlier)
    ensures !IsFresh(e, earlier) ==> !IsFresh(e, later)
  {
  }

  /** The response built from a fresh analysis of `query`. */
  function ResultOf(query: string, a: Analysis): HypeResult {
    HypeResult(query, a.score, a.title, a.snippets)
  }

  class HypeCache {
    var entries: map<string, Entry>

    constructor ()
      ensures entries == map[]
    {
      entries := map[];
    }

    /** One request. `response` is `None` when the analysis raised an exception that
        escapes the handler; `fetched` tells whether the sources were asked. */
    method GetHype(query: string, now: real, sources: Sources) returns (response: Option<HypeResult>, fetched: bool)
      modifies this
      // a fresh entry is returned as stored; the sources are not asked and nothing changes
      ensures var key := Lower(query);
        key in old(entries) && IsFresh(old(entries)[key], now) ==>
          && !fetched
          && response == Some(old(entries)[key].data)
          && entries == old(entries)
      // otherwise a stale entry is dropped, the sources are asked, and a result is stored
      // under the key, stamped with the time the request started
      ensures var key := Lower(query);
        !(key in old(entries) && IsFresh(old(entries)[key], now)) ==>
          && fetched
          && (Aborts(sources) ==> response.None? && entries == old(entries) - {key})
          && (!Aborts(sources) ==>
                && response == Some(ResultOf(query, Expected(sources).value))
                && entries == old(entries)[key := Entry(now, response.value)])
      // no other key is touched
      ensures forall k :: k != Lower(query) ==>
        (k in entries <==> k in old(entries)) && (k in entries ==> entries[k] == old(entries)[k])
    {
      var key := Lower(query);
      if key in entries {
        var cached := entries[key];
        if now - cached.timestamp < CacheDurationSeconds {
          return Some(cached.data), false;
        }
        entries := entries - {key};
      }

      fetched := true;
      var analysis := AnalyzeHype(sources);
      if analysis.None? {
        return None, fetched;
      }
      var data := ResultOf(query, analysis.value);
      entries := entries[key := Entry(now, data)];
      response := Some(data);
    }
  }

  /** Two requests that differ only in letter case, the second within fifteen minutes of
      the first: the second is served from the entry the first stored, sources unasked,
      and carries the first request's casing of the query. */
  method RepeatWithinWindow(cache: HypeCache, q1: string, q2: string, t1: real, t2: real, s1: Sources, s2: Sources)
    returns (first: Option<HypeResult>, second: Option<HypeResult>, fetchedAgain: bool)
    requires EqualIgnoringCase(q1, q2)
    requires Lower(q1) !in cache.entries
    requires !Aborts(s1)
    requires t2 - t1 < CacheDurationSeconds
    modifies cache
    ensures first.Some? && first.value.query == q1
    ensures second == first && !fetchedAgain
  {
    SameKeyIffCaseVariant(q1, q2);
    var f1;
    first, f1 := cache.GetHype(q1, t1, s1);
    second, fetchedAgain := cache.GetHype(q2, t2, s2);
  }

  /** A request fifteen minutes or more after the one that filled the entry asks the
      sources again and restamps the entry with its own start time. */
  method RepeatAfterExpiry(cache: HypeCache, q: string, t1: real, t2: real, s1: Sources, s2: Sources)
    returns (second: Option<HypeResult>, fetchedAgain: bool)
    requires Lower(q) !in cache.entries
    requires !Aborts(s1)
    requires t2 - t1 >= CacheDurationSeconds
    modifies cache
    ensures fetchedAgain
    ensures !Aborts(s2) ==> Lower(q) in cache.entries && cache.entries[Lower(q)].timestamp == t2
    ensures Aborts(s2) ==> second.None? && Lower(q) !in cache.entries
  {
    var first, f1 := cache.GetHype(q, t1, s1);
    second, fetchedAgain := cache.GetHype(q, t2, s2);
  }
}
