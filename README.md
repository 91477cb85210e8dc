# Hype score: a Dafny model

This project models the decision logic of a small web service. The service rates how
much "hype" a search term has. It has three parts:

- **The request handler and its cache** (`get_hype`). The cache is a process-wide
  dictionary keyed by the lower-cased query. An entry is served while it is younger than
  900 seconds. A lookup that finds an older entry deletes it. On a miss the handler runs
  the analysis and stores the result, stamped with the time the request started.
- **The additive analysis** (`analyze_hype`). It asks an encyclopedia, a forum search
  and a news search, in that order. Each answer adds a clamped amount to the score, may
  set the title, and adds at most one snippet.
- **The trend-based scoring** (`calculate_hype_from_trends`). The score is the latest
  value of an interest-over-time series. The title comes from threshold buckets, with a
  "fading" override. Snippets come from the related-query tables. This part also covers
  the "no data" decision of `get_google_trends_data`.

The external services are not modelled. What each one answered is an input datatype:
`WikiOutcome`, `RedditOutcome`, `NewsOutcome`, and the interest table and related-query
dictionary of the trend service. The outcome also says whether a source is configured.
`RedditDisabled` and `NewsDisabled` stand for missing credentials. The clock reading is a
parameter of `GetHype`.

Files: `wrappers.dfy` (Option), `keys.dfy` (cache key), `analysis.dfy` (additive
analysis), `cache.dfy` (handler and cache), `trends.dfy` (trend scoring).

In these places the model follows what the code does, which a reader might not expect:

- The cache key is only lower-cased. Leading and trailing spaces are kept, so a padded
  query gets its own entry (`Keys.KeyKeepsWhitespace`).
- A disabled source adds no snippet at all. So 4500 links, a disabled forum search and
  230 articles give two snippets, not three (`Hype.DisabledSourceAddsNoSnippet`).
- An encyclopedia error other than "page not found" or "ambiguous" is not caught. The
  same holds for a news error that is not a request error. Either one ends the request
  (`WikiCrash`, `NewsCrash`).
- The trend scoring is a separate path. The handler never calls it.

## Model

| member | source | states |
|---|---|---|
| `Keys.Lower` | main.py:69 | the key has the query's length; upper-case ASCII letters become their lower-case partner and every other character is kept (no trimming) |
| `Keys.LowerIdempotent` | main.py:69 | lower-casing a key again leaves it unchanged |
| `Keys.SameKeyIffCaseVariant` | main.py:69-73 | two queries share a cache entry if and only if they differ at most in letter case, position by position |
| `Keys.KeyKeepsWhitespace` | main.py:69 | a query with a leading space has a different key than the query without it |
| `Hype.WikiScore` | main.py:110 | the encyclopedia part lies in [0, 20]; it is links/100 up to 2000 links and is 20 exactly when links >= 2000 |
| `Hype.RedditScore` | main.py:123 | the forum part lies in [0, 30]; it is 2·posts up to 15 posts and is 30 exactly when posts >= 15 |
| `Hype.NewsScore` | main.py:138 | the news part lies in [0, 50]; it is articles/10 up to 500 articles and is 50 exactly when articles >= 500 |
| `Hype.Title` | main.py:103-141 | the title is "No Data" if and only if no source fires; otherwise it is that of the last source to fire in asking order: a news count > 0 gives "News Data", else a forum count > 0 gives "Reddit Data", else a found page gives "Wikipedia Data" |
| `Hype.Expected` | main.py:101-145 | the analysis fails exactly on an uncaught exception; otherwise the score lies in [0, 90] (the ten-result forum search keeps its part at 20 or less); there is one encyclopedia snippet plus one per enabled source, in strictly increasing source order; if no source succeeds the score is 0 and the title is "No Data" |
| `Hype.AnalyzeHype` | main.py:101-145 | the step-by-step updates of score, title and snippets (later sources overwrite the title) give exactly the specified analysis |
| `Hype.WikipediaTitleWithoutLinks` | main.py:107-141 | a found page with 0 links still sets "Wikipedia Data" unless a later source reports a positive count, and adds 0 to the score |
| `Hype.DisabledSourceAddsNoSnippet` | main.py:106-143 | 4500 links, forum disabled, 230 articles: score 43, title "News Data", two snippets |
| `Hype.HighestScore` | main.py:110-141 | 2000 or more links, the full ten forum posts and 500 or more articles give exactly 90, the highest score, with the news title |
| `Cache.IsFresh` | main.py:75 | an entry is served exactly while the clock is before its timestamp plus 900 seconds |
| `Cache.FreshnessMonotone` | main.py:75 | a fresh entry was fresh at every earlier time, and a stale entry stays stale at every later time |
| `Cache.HypeCache.constructor` | main.py:38 | the cache starts empty |
| `Cache.HypeCache.GetHype` | main.py:68-99 | a fresh entry (`now - timestamp < 900`) is returned as stored, without asking the sources or changing the cache; otherwise any stale entry is removed and the sources are asked; on success the result, with the caller's casing of the query, is stored under the lower-cased key, stamped with the request's start time; on an uncaught exception nothing is stored; no other key changes |
| `Cache.RepeatWithinWindow` | main.py:69-95 | a case variant of a query, asked within 900 seconds of the request that filled the entry, gets the identical result without asking the sources, and so carries the first caller's casing |
| `Cache.RepeatAfterExpiry` | main.py:70-95 | a request 900 seconds or more later asks the sources again and restamps the entry with its own start time |
| `Trends.FirstIndex` | trends_analyzer.py:68 | the index returned is that of the first column satisfying the condition; none is returned only when no column does |
| `Trends.Head` | trends_analyzer.py:87-89 | `head(n)` keeps the first min(n, length) rows |
| `Trends.PositiveSumHasPositive` | trends_analyzer.py:79 | a series with a positive sum has a positive element |
| `Trends.KeywordColumn` | trends_analyzer.py:26 | finds the first column named after the keyword; none is found exactly when `keyword not in df.columns` |
| `Trends.HasData` | trends_analyzer.py:26 | the keyword has data exactly when its column exists and its series does not sum to 0; a table with such data is never empty |
| `Trends.FetchTrends` | trends_analyzer.py:24-39 | a failed interest fetch gives no result; a missing keyword column or a zero sum gives empty structures; the table handed on is empty if and only if that happened; otherwise the result exists exactly when the related queries were fetched, and it holds the table and the keyword's related queries |
| `Trends.DataColumn` | trends_analyzer.py:68 | selects the first column not named `isPartial`; none is selected only when every column is `isPartial` |
| `Trends.Bucket` | trends_analyzer.py:74-78 | "Peak Interest!" exactly above 85, "High Interest" in (65, 85], "Moderate Interest" in (40, 65], "Low Interest" in (15, 40], "Minimal Interest" at 15 or below |
| `Trends.BucketBoundaries` | trends_analyzer.py:74-78 | each threshold belongs to the lower bucket: 85 gives "High Interest" and 86 gives "Peak Interest!", and likewise at 65, 40 and 15 |
| `Trends.BucketMonotone` | trends_analyzer.py:74-78 | a higher score never falls into a lower bucket |
| `Trends.TrendTitle` | trends_analyzer.py:73-80 | the title is "Interest Fading?" if and only if the score is 0 and the series sum is positive; otherwise it is the score's bucket |
| `Trends.RelatedSnippets` | trends_analyzer.py:84-92 | between 1 and 5 snippets; exactly the fallback snippet when there are no related rows; otherwise the first two top rows, then the first three rising rows with their values, all top before all rising |
| `Trends.CalculateHypeFromTrends` | trends_analyzer.py:57-95 | a missing result or an empty table gives exactly (0, "No Data", [no-data snippet]); it raises only when a non-empty table has no column besides `isPartial`; otherwise the score is the last value of the first non-`isPartial` series, with the title and snippets above |
| `Trends.FadingMeansEarlierInterest` | trends_analyzer.py:79-80 | "Interest Fading?" is given only when some value before the latest one is positive |
| `Trends.ScoreOnServiceScale` | trends_analyzer.py:68-69 | with series values in 0..100 the trend score lies in 0..100 |

## Left out

- HTTP: the web framework, the CORS setup and the request and response schemas (main.py:1-49). `GetHype` takes the query string and returns the result, or `None` when an exception escapes.
- Configuration and credential loading, and the startup messages (main.py:11-20, main.py:52-64). They reduce to the `RedditDisabled` and `NewsDisabled` outcomes.
- The service calls themselves and their libraries. Each call becomes an input outcome: the encyclopedia page lookup, the forum search, the HTTP news request and JSON decoding, and the trend-service payload, interest and related-query calls.
- Log messages, `async`/`await` and the half-second pauses between trend calls. The handler runs its steps one after another, so they have no logical effect.
- Snippet text formatting: snippets are tagged values that carry the reported count, message, query or value.
- Floating point: scores are Dafny `real`, with no rounding.
- `Keys.Lower`: models `str.lower()` on the ASCII letters only. Other Unicode case mappings, including those that change a string's length, are not captured.
- `Hype.NewsScore`: `totalResults` is modelled as a non-negative count. A negative or non-numeric value in the response is not modelled.
- The forum post count is at most 10, the search's result limit (main.py:121). The forum clamp of 30 (main.py:123) is therefore never reached.
- Trend tables: the `isPartial` column's boolean values are modelled as integers, since they are never read. Duplicate column names resolve to the first column with that name.
- The truthiness test on the related-query dictionary (trends_analyzer.py:85) is folded in: an empty dictionary and a dictionary without `top` and `rising` tables give the same snippets.
- Concurrency between requests: each request is modelled as one atomic step. The handler awaits `analyze_hype` between its cache lookup and its cache write. But `analyze_hype` contains no `await` and makes only blocking calls, so control never returns to the event loop in between.
