/** The additive multi-source score of `analyze_hype`: the encyclopedia, the discussion
    platform and the news index are asked in that order; each answer adds a clamped
    amount to the score, may set the title, and adds at most one snippet. What each
    service answered is an input: the calls themselves are not modelled. */
module Hype {
  import opened Wrappers

  /** What the exact-title encyclopedia lookup answered. */
  datatype WikiOutcome =
    | Page(links: nat)                  // the page exists and has this many outbound links
    | PageMissing                       // PageError: caught
    | Ambiguous(options: seq<string>)   // DisambiguationError: caught
    | WikiCrash                         // any other exception: not caught, the request fails

  /** The forum search asks for at most 10 results. */
  const PostLimit := 10

  type PostCount = n: nat | n <= PostLimit

  /** What the forum search answered; `RedditDisabled` when no credentials were configured. */
  datatype RedditOutcome =
    | RedditDisabled
    | Posts(count: PostCount)           // number of posts the search yielded
    | RedditError(message: string)      // every exception is caught

  /** What the news search answered; `NewsDisabled` when no API key was configured. */
  datatype NewsOutcome =
    | NewsDisabled
    | Articles(total: nat)              // `totalResults` of the response (0 when absent)
    | NewsRequestError(message: string) // a RequestException: caught
    | NewsCrash                         // any other exception: not caught, the request fails

  datatype Sources = Sources(wiki: WikiOutcome, reddit: RedditOutcome, news: NewsOutcome)

  /** One explanatory line, tagged by what it reports. */
  datatype Snippet =
    | WikiLinks(links: nat)
    | WikiNotFound
    | WikiDisambiguation(options: seq<string>)
    | RedditPosts(count: nat)
    | RedditFailure(message: string)
    | NewsArticles(total: nat)
    | NewsFailure(message: string)

  datatype Analysis = Analysis(score: real, title: string, snippets: seq<Snippet>)

  const NoData := "No Data"
  const WikipediaData := "Wikipedia Data"
  const RedditData := "Reddit Data"
  const NewsData := "News Data"

  function Min(x: real, y: real): real { if x <= y then x else y }

  // ---------------------------------------------------------------------------
  // Score normalizers: each source's contribution is clamped to its own maximum.

  /** `min(links / 100, 20)` */
  function WikiScore(links: nat): (s: real)
    ensures 0.0 <= s <= 20.0
    ensures links <= 2000 ==> s * 100.0 == links as real
    ensures s == 20.0 <==> links >= 2000
  {
    Min(links as real / 100.0, 20.0)
  }

  /** `min(posts * 2, 30)` */
  function RedditScore(posts: nat): (s: real)
    ensures 0.0 <= s <= 30.0
    ensures posts <= 15 ==> s == 2.0 * posts as real
    ensures s == 30.0 <==> posts >= 15
  {
    Min((posts * 2) as real, 30.0)
  }

  /** `min(articles / 10, 50)` */
  function NewsScore(articles: nat): (s: real)
    ensures 0.0 <= s <= 50.0
    ensures articles <= 500 ==> s * 10.0 == articles as real
    ensures s == 50.0 <==> articles >= 500
  {
    Min(articles as real / 10.0, 50.0)
  }

  // ---------------------------------------------------------------------------
  // The specification of one analysis.

  /** A source "fires" when it sets the title. */
  predicate WikiFires(w: WikiOutcome) { w.Page? }
  predicate RedditFires(r: RedditOutcome) { r.Posts? && r.count > 0 }
  predicate NewsFires(n: NewsOutcome) { n.Articles? && n.total > 0 }

  /** An exception that the analysis does not catch. */
  predicate Aborts(s: Sources) { s.wiki.WikiCrash? || s.news.NewsCrash? }

  predicate RedditEnabled(r: RedditOutcome) { !r.RedditDisabled? }
  predicate NewsEnabled(n: NewsOutcome) { !n.NewsDisabled? }

  function WikiDelta(w: WikiOutcome): real { if w.Page? then WikiScore(w.links) else 0.0 }
  function RedditDelta(r: RedditOutcome): real { if r.Posts? then RedditScore(r.count) else 0.0 }
  function NewsDelta(n: NewsOutcome): real { if n.Articles? then NewsScore(n.total) else 0.0 }

  function WikiSnippets(w: WikiOutcome): seq<Snippet> {
    match w
    case Page(links) => [WikiLinks(links)]
    case PageMissing => [WikiNotFound]
    case Ambiguous(options) => [WikiDisambiguation(options)]
    case WikiCrash => []
  }

  function RedditSnippets(r: RedditOutcome): seq<Snippet> {
    match r
    case RedditDisabled => []
    case Posts(count) => [RedditPosts(count)]
    case RedditError(message) => [RedditFailure(message)]
  }

  function NewsSnippets(n: NewsOutcome): seq<Snippet> {
    match n
    case NewsDisabled => []
    case Articles(total) => [NewsArticles(total)]
    case NewsRequestError(message) => [NewsFailure(message)]
    case NewsCrash => []
  }

  /** Which source a snippet comes from, in asking order. */
  function Origin(sn: Snippet): nat {
    match sn
    case WikiLinks(_) => 0
    case WikiNotFound => 0
    case WikiDisambiguation(_) => 0
    case RedditPosts(_) => 1
    case RedditFailure(_) => 1
    case NewsArticles(_) => 2
    case NewsFailure(_) => 2
  }

  /** The title is that of the last source, in asking order, that fires. */
  function Title(s: Sources): (t: string)
    ensures t == NoData <==> !WikiFires(s.wiki) && !RedditFires(s.reddit) && !NewsFires(s.news)
    ensures NewsFires(s.news) ==> t == NewsData
    ensures RedditFires(s.reddit) && !NewsFires(s.news) ==> t == RedditData
    ensures WikiFires(s.wiki) && !RedditFires(s.reddit) && !NewsFires(s.news) ==> t == WikipediaData
  {
    if NewsFires(s.news) then NewsData
    else if RedditFires(s.reddit) then RedditData
    else if WikiFires(s.wiki) then WikipediaData
    else NoData
  }

  /** The analysis as a whole: `None` when an uncaught exception ends it. */
  function Expected(s: Sources): (r: Option<Analysis>)
    ensures r.None? <==> Aborts(s)
    // 20 + 2 * 10 + 50: the forum part never reaches its clamp of 30
    ensures r.Some? ==> 0.0 <= r.value.score <= 90.0
    ensures r.Some? ==> r.value.title == Title(s)
    // one snippet from the encyclopedia, one from each enabled source, in asking order
    ensures r.Some? ==>
      |r.value.snippets| == 1 + (if RedditEnabled(s.reddit) then 1 else 0) + (if NewsEnabled(s.news) then 1 else 0)
    ensures r.Some? ==> Origin(r.value.snippets[0]) == 0
    ensures r.Some? ==> forall i, j :: 0 <= i < j < |r.value.snippets| ==>
      Origin(r.value.snippets[i]) < Origin(r.value.snippets[j])
    // failures and disabled sources add nothing
    ensures r.Some? && !s.wiki.Page? && !s.reddit.Posts? && !s.news.Articles? ==>
      r.value.score == 0.0 && r.value.title == NoData
  {
    if Aborts(s) then None
    else
      Some(Analysis(
        WikiDelta(s.wiki) + RedditDelta(s.reddit) + NewsDelta(s.news),
        Title(s),
        WikiSnippets(s.wiki) + RedditSnippets(s.reddit) + NewsSnippets(s.news)))
  }

  /** `analyze_hype`: the three sources in order, each updating score, title and snippets. */
  method AnalyzeHype(s: Sources) returns (r: Option<Analysis>)
    ensures r == Expected(s)
  {
    var score := 0.0;
    var title := NoData;
    var snippets: seq<Snippet> := [];

    match s.wiki {
      case Page(links) =>
        score := score + WikiScore(links);
        snippets := snippets + [WikiLinks(links)];
        title := WikipediaData;
      case PageMissing =>
        snippets := snippets + [WikiNotFound];
      case Ambiguous(options) =>
        snippets := snippets + [WikiDisambiguation(options)];
      case WikiCrash =>
        return None;
    }

    match s.reddit {
      case RedditDisabled =>
      case Posts(count) =>
        score := score + RedditScore(count);
        snippets := snippets + [RedditPosts(count)];
        if count > 0 {
          title := RedditData;
        }
      case RedditError(message) =>
        snippets := snippets + [RedditFailure(message)];
    }

    match s.news {
      case NewsDisabled =>
      case Articles(total) =>
        score := score + NewsScore(total);
        snippets := snippets + [NewsArticles(total)];
        if total > 0 {
          title := NewsData;
        }
      case NewsRequestError(message) =>
        snippets := snippets + [NewsFailure(message)];
      case NewsCrash =>
        return None;
    }

    assert score == WikiDelta(s.wiki) + RedditDelta(s.reddit) + NewsDelta(s.news);
    assert snippets == WikiSnippets(s.wiki) + RedditSnippets(s.reddit) + NewsSnippets(s.news);
    assert title == Title(s);
    r := Some(Analysis(score, title, snippets));
  }

  /** A found encyclopedia page sets its title even when it has no links, and a later
      source overrides it only by reporting a positive count. */
  lemma WikipediaTitleWithoutLinks(s: Sources)
    requires s.wiki == Page(0) && !Aborts(s)
    ensures Expected(s).value.title == WikipediaData <==> !RedditFires(s.reddit) && !NewsFires(s.news)
    ensures Expected(s).value.score == RedditDelta(s.reddit) + NewsDelta(s.news)
  {
  }

  /** A disabled source adds neither score nor snippet: 4500 links, no forum credentials
      and 230 articles give 20 + 23 with two snippets, the news title last. */
  lemma DisabledSourceAddsNoSnippet()
    ensures Expected(Sources(Page(4500), RedditDisabled, Articles(230)))
         == Some(Analysis(43.0, NewsData, [WikiLinks(4500), NewsArticles(230)]))
  {
    assert WikiSnippets(Page(4500)) + RedditSnippets(RedditDisabled) + NewsSnippets(Articles(230))
        == [WikiLinks(4500), NewsArticles(230)];
  }

  /** The highest score the analysis can give: every clamp reached except the forum's,
      which the ten-result search limit keeps at 20. */
  lemma HighestScore(s: Sources)
    requires s.wiki.Page? && s.wiki.links >= 2000
    requires s.reddit == Posts(PostLimit)
    requires s.news.Articles? && s.news.total >= 500
    ensures Expected(s) == Some(Analysis(90.0, NewsData, [WikiLinks(s.wiki.links), RedditPosts(PostLimit), NewsArticles(s.news.total)]))
  {
    assert WikiDelta(s.wiki) + RedditDelta(s.reddit) + NewsDelta(s.news) == 90.0;
    assert WikiSnippets(s.wiki) + RedditSnippets(s.reddit) + NewsSnippets(s.news)
        == [WikiLinks(s.wiki.links), RedditPosts(PostLimit), NewsArticles(s.news.total)];
  }
}
