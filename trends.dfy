/** Trend-based scoring: the "no data" decision of `get_google_trends_data` and
    `calculate_hype_from_trends`. The interest-over-time table is a list of named integer
    columns of one common height; the related-query tables are lists of rows. Fetching
    them is not modelled: what the service returned is an input. */
module Trends {
  import opened Wrappers

  /** The column the trend service adds beside the keyword's series. */
  const PartialColumn := "isPartial"

  datatype Column = Column(name: string, values: seq<int>)

  datatype Frame = Frame(columns: seq<Column>, rows: nat)

  /** Every column of a table has the table's height. */
  predicate Rectangular(f: Frame) {
    forall i :: 0 <= i < |f.columns| ==> |f.columns[i].values| == f.rows
  }

  type DataFrame = f: Frame | Rectangular(f) witness Frame([], 0)

  /** A table without columns or without rows. */
  predicate IsEmpty(f: Frame) { |f.columns| == 0 || f.rows == 0 }

  const EmptyFrame: DataFrame := Frame([], 0)

  datatype TopRow = TopRow(query: string, value: int)
  datatype RisingRow = RisingRow(query: string, value: int)

  /** The `top` and `rising` tables for one keyword; `None` when a table is missing or null. */
  datatype RelatedQueries = RelatedQueries(top: Option<seq<TopRow>>, rising: Option<seq<RisingRow>>)

  const NoRelatedQueries := RelatedQueries(None, None)

  datatype TrendsData = TrendsData(interest: DataFrame, related: RelatedQueries)

  datatype TrendSnippet =
    | NoTrendData                              // "Could not retrieve sufficient trend data."
    | TopRelated(query: string)                // "Top related: <query>"
    | RisingRelated(query: string, value: int) // "Rising related: <query> (+<value>%)"
    | NoRelatedFound                           // "No specific related queries found."

  datatype TrendHype = TrendHype(score: int, title: string, snippets: seq<TrendSnippet>)

  const NoData := "No Data"
  const PeakInterest := "Peak Interest!"
  const HighInterest := "High Interest"
  const ModerateInterest := "Moderate Interest"
  const LowInterest := "Low Interest"
  const MinimalInterest := "Minimal Interest"
  const InterestFading := "Interest Fading?"

  function Sum(s: seq<int>): int {
    if |s| == 0 then 0 else s[0] + Sum(s[1..])
  }

  /** A series with a positive sum has a positive element. */
  lemma {:induction false} PositiveSumHasPositive(s: seq<int>)
    requires Sum(s) > 0
    ensures exists i :: 0 <= i < |s| && s[i] > 0
  {
    if s[0] <= 0 {
      PositiveSumHasPositive(s[1..]);
      var i :| 0 <= i < |s[1..]| && s[1..][i] > 0;
      assert s[i + 1] > 0;
    }
  }

  /** The position of the first column satisfying `p`. */
  function FirstIndex(cols: seq<Column>, p: Column -> bool): (r: Option<nat>)
    ensures r.Some? ==> r.value < |cols| && p(cols[r.value]) && forall j :: 0 <= j < r.value ==> !p(cols[j])
    ensures r.None? ==> forall j :: 0 <= j < |cols| ==> !p(cols[j])
  {
    if |cols| == 0 then None
    else if p(cols[0]) then Some(0)
    else match FirstIndex(cols[1..], p)
      case None => None
      case Some(k) => Some(k + 1)
  }

  /** `df[keyword]`: the first column with that name; `None` when `keyword not in df.columns`. */
  function KeywordColumn(f: DataFrame, keyword: string): (r: Option<nat>)
    ensures r.Some? ==>
      && r.value < |f.columns|
      && f.columns[r.value].name == keyword
      && forall j :: 0 <= j < r.value ==> f.columns[j].name != keyword
    ensures r.None? ==> forall j :: 0 <= j < |f.columns| ==> f.columns[j].name != keyword
  {
    FirstIndex(f.columns, (c: Column) => c.name == keyword)
  }

  /** The first column that is not the `isPartial` flag; `None` when there is none. */
  function DataColumn(f: DataFrame): (r: Option<nat>)
    ensures r.Some? ==>
      && r.value < |f.columns|
      && f.columns[r.value].name != PartialColumn
      && forall j :: 0 <= j < r.value ==> f.columns[j].name == PartialColumn
    ensures r.None? ==> forall j :: 0 <= j < |f.columns| ==> f.columns[j].name == PartialColumn
  {
    FirstIndex(f.columns, (c: Column) => c.name != PartialColumn)
  }

  /** The keyword has a column and its series does not sum to 0. Such a table is never empty. */
  predicate HasData(f: DataFrame, keyword: string)
    ensures HasData(f, keyword) <==>
      KeywordColumn(f, keyword).Some? && Sum(f.columns[KeywordColumn(f, keyword).value].values) != 0
    ensures HasData(f, keyword) ==> !IsEmpty(f)
  {
    match KeywordColumn(f, keyword)
    case None => false
    case Some(i) =>
      assert |f.columns[i].values| == f.rows;
      Sum(f.columns[i].values) != 0
  }

  /** The part of `get_google_trends_data` after the two service calls. `interest` is the
      interest table, `None` when building the request or fetching it raised; `related`
      is the related-queries dictionary, `None` when fetching it raised. A missing
      keyword column or an all-zero series gives empty structures, without asking for
      related queries. */
  function FetchTrends(keyword: string, interest: Option<DataFrame>, related: Option<map<string, RelatedQueries>>)
    : (r: Option<TrendsData>)
    ensures interest.None? ==> r.None?
    ensures interest.Some? && !HasData(interest.value, keyword) ==> r == Some(TrendsData(EmptyFrame, NoRelatedQueries))
    // the table handed on is empty exactly when the keyword's series is missing or all zero
    ensures r.Some? ==> (IsEmpty(r.value.interest) <==> !HasData(interest.value, keyword))
    ensures r.Some? && HasData(interest.value, keyword) ==>
      && related.Some?
      && r.value.interest == interest.value
      && r.value.related == (if keyword in related.value then related.value[keyword] else NoRelatedQueries)
    // with the keyword's data present, only a failure to fetch related queries loses the result
    ensures interest.Some? && HasData(interest.value, keyword) ==> (r.Some? <==> related.Some?)
  {
    match interest
    case None => None
    case Some(f) =>
      if !HasData(f, keyword) then Some(TrendsData(EmptyFrame, NoRelatedQueries))
      else
        var i := KeywordColumn(f, keyword).value;
        assert |f.columns[i].values| == f.rows;
        match related
        case None => None
        case Some(m) => Some(TrendsData(f, if keyword in m then m[keyword] else NoRelatedQueries))
  }

  /** The title bucket of a score; every threshold is strict. */
  function Bucket(score: int): (t: string)
    ensures t == PeakInterest <==> score > 85
    ensures t == HighInterest <==> 65 < score <= 85
    ensures t == ModerateInterest <==> 40 < score <= 65
    ensures t == LowInterest <==> 15 < score <= 40
    ensures t == MinimalInterest <==> score <= 15
  {
    if score > 85 then PeakInterest
    else if score > 65 then HighInterest
    else if score > 40 then ModerateInterest
    else if score > 15 then LowInterest
    else MinimalInterest
  }

  /** Position of a bucket title, lowest first. */
  function Rank(title: string): nat {
    if title == PeakInterest then 4
    else if title == HighInterest then 3
    else if title == ModerateInterest then 2
    else if title == LowInterest then 1
    else 0
  }

  /** The boundaries belong to the lower bucket. */
  lemma BucketBoundaries()
    ensures Bucket(86) == PeakInterest && Bucket(85) == HighInterest
    ensures Bucket(66) == HighInterest && Bucket(65) == ModerateInterest
    ensures Bucket(41) == ModerateInterest && Bucket(40) == LowInterest
    ensures Bucket(16) == LowInterest && Bucket(15) == MinimalInterest
    ensures Bucket(0) == MinimalInterest
  {
  }

  /** A higher score never gets a lower bucket. */
  lemma BucketMonotone(a: int, b: int)
    requires a <= b
    ensures Rank(Bucket(a)) <= Rank(Bucket(b))
  {
  }

  /** The bucket, unless the latest value is 0 while the series as a whole is not. */
  function TrendTitle(score: int, total: int): (t: string)
    ensures t == InterestFading <==> score == 0 && total > 0
    ensures t != InterestFading ==> t == Bucket(score)
  {
    if score == 0 && total > 0 then InterestFading else Bucket(score)
  }

  function TopRows(rq: RelatedQueries): seq<TopRow> {
    if rq.top.Some? then rq.top.value else []
  }

  function RisingRows(rq: RelatedQueries): seq<RisingRow> {
    if rq.rising.Some? then rq.rising.value else []
  }

  function MinNat(x: nat, y: nat): nat { if x <= y then x else y }

  /** `head(n)` */
  function Head<T>(s: seq<T>, n: nat): (r: seq<T>)
    ensures |r| == MinNat(n, |s|) && r == s[..|r|]
  {
    if |s| <= n then s else s[..n]
  }

  /** The snippets from the related queries: the first two `top` rows, then the first
      three `rising` rows, or the single fallback snippet when there are none. */
  function RelatedSnippets(rq: RelatedQueries): (r: seq<TrendSnippet>)
    ensures 1 <= |r| <= 5
    ensures r == [NoRelatedFound] <==> |TopRows(rq)| + |RisingRows(rq)| == 0
    ensures r != [NoRelatedFound] ==>
      && |r| == MinNat(2, |TopRows(rq)|) + MinNat(3, |RisingRows(rq)|)
      && (forall i :: 0 <= i < MinNat(2, |TopRows(rq)|) ==> r[i] == TopRelated(TopRows(rq)[i].query))
      && (forall j :: 0 <= j < MinNat(3, |RisingRows(rq)|) ==>
            r[MinNat(2, |TopRows(rq)|) + j] == RisingRelated(RisingRows(rq)[j].query, RisingRows(rq)[j].value))
    // every top snippet comes before every rising one
    ensures forall i, j :: 0 <= i < j < |r| && r[j].TopRelated? ==> r[i].TopRelated?
  {
    var top := Head(TopRows(rq), 2);
    var rising := Head(RisingRows(rq), 3);
    var found := seq(|top|, i requires 0 <= i < |top| => TopRelated(top[i].query))
               + seq(|rising|, j requires 0 <= j < |rising| => RisingRelated(rising[j].query, rising[j].value));
    if found == [] then [NoRelatedFound]
    else
      assert !found[0].NoRelatedFound?;
      found
  }

  /** `calculate_hype_from_trends`: `None` when the interest table has rows but no column
      other than `isPartial` (the source then raises an IndexError). */
  function CalculateHypeFromTrends(data: Option<TrendsData>): (r: Option<TrendHype>)
    // no result or an empty table: exactly the "no data" answer
    ensures data.None? || IsEmpty(data.value.interest) ==>
      r == Some(TrendHype(0, NoData, [NoTrendData]))
    ensures r.None? <==> data.Some? && !IsEmpty(data.value.interest) && DataColumn(data.value.interest).None?
    // otherwise the score is the latest value of the first non-`isPartial` series
    ensures r.Some? && data.Some? && !IsEmpty(data.value.interest) ==>
      var series := data.value.interest.columns[DataColumn(data.value.interest).value].values;
      && |series| > 0
      && r.value.score == series[|series| - 1]
      && r.value.title == TrendTitle(r.value.score, Sum(series))
      && r.value.snippets == RelatedSnippets(data.value.related)
    ensures r.Some? ==> 1 <= |r.value.snippets| <= 5
  {
    if data.None? || IsEmpty(data.value.interest) then
      Some(TrendHype(0, NoData, [NoTrendData]))
    else
      var f := data.value.interest;
      match DataColumn(f)
      case None => None
      case Some(c) =>
        var series := f.columns[c].values;
        assert |series| == f.rows;
        var score := series[|series| - 1];
        Some(TrendHype(score, TrendTitle(score, Sum(series)), RelatedSnippets(data.value.related)))
  }

  /** "Interest Fading?" is given only when some earlier value of the series is positive. */
  lemma FadingMeansEarlierInterest(data: Option<TrendsData>)
    requires CalculateHypeFromTrends(data).Some?
    requires CalculateHypeFromTrends(data).value.title == InterestFading
    ensures data.Some? && DataColumn(data.value.interest).Some?
    ensures var series := data.value.interest.columns[DataColumn(data.value.interest).value].values;
      exists i :: 0 <= i < |series| - 1 && series[i] > 0
  {
    var f := data.value.interest;
    var series := f.columns[DataColumn(f).value].values;
    PositiveSumHasPositive(series);
    var i :| 0 <= i < |series| && series[i] > 0;
    assert i < |series| - 1;
  }

  /** With values on the service's 0..100 scale the score stays on that scale. */
  lemma ScoreOnServiceScale(data: Option<TrendsData>)
    requires CalculateHypeFromTrends(data).Some?
    requires data.Some? ==> forall c :: c in data.value.interest.columns ==>
      forall k :: 0 <= k < |c.values| ==> 0 <= c.values[k] <= 100
    ensures 0 <= CalculateHypeFromTrends(data).value.score <= 100
  {
  }
}
