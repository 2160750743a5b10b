/** The search request: `yelp_search_url` of yelp2.py and
    yelp_blk_search_business.py, and the `params` dictionaries that
    barchart.py and yelp_blk_owned.py hand to `requests.get`, which encodes
    them with `urllib.parse.urlencode` (quote_plus) after a `?`. */
module Request {
  import opened Json
  import opened UrlEncode

  const Endpoint: Bytes := Ascii("https://api.yelp.com/v3/businesses/search")
  const QuestionMark: Byte := '?' as int
  const LocationKey: Bytes := Ascii("location")
  const TermKey: Bytes := Ascii("term")

  /** The default search term of `yelp_search_url`. */
  const DefaultTerm: Bytes := Ascii("Black owned")

  /** The provider's largest page size. */
  const MaxLimit: nat := 50

  /** `yelp_search_url(city, term)`: the endpoint, `?location=`, the encoded
      city, `&term=` and the encoded term, nothing else. It is the query
      form of the two pairs (location, city) and (term, term). */
  function SearchUrl(city: Bytes, term: Bytes): (url: Bytes)
  {
    Endpoint + [QuestionMark] + LocationKey + [Equals] + QuotePlus(city)
      + [Ampersand] + TermKey + [Equals] + QuotePlus(term)
  }

  lemma SearchUrlIsQuery(city: Bytes, term: Bytes)
    ensures SearchUrl(city, term) == Endpoint + [QuestionMark] + UrlEncodePairs([(LocationKey, city), (TermKey, term)])
  {
    var ps := [(LocationKey, city), (TermKey, term)];
    assert QuotePlus(LocationKey) == LocationKey;
    assert QuotePlus(TermKey) == TermKey;
    assert ps[1..] == [(TermKey, term)];
    assert UrlEncodePairs(ps[1..]) == QueryPair((TermKey, term));
    assert UrlEncodePairs(ps) == QueryPair(ps[0]) + [Ampersand] + QueryPair((TermKey, term));
    Regroup(Endpoint, LocationKey, QuotePlus(city), TermKey, QuotePlus(term));
  }

  lemma Regroup(e: Bytes, k1: Bytes, v1: Bytes, k2: Bytes, v2: Bytes)
    ensures e + [QuestionMark] + k1 + [Equals] + v1 + [Ampersand] + k2 + [Equals] + v2
         == e + [QuestionMark] + ((k1 + [Equals] + v1) + [Ampersand] + (k2 + [Equals] + v2))
  {
  }

  /** Reads the location and the term back out of a search URL. */
  function ParseSearchUrl(url: Bytes): Option<(Bytes, Bytes)> {
    var n := |Endpoint|;
    if |url| > n && url[..n] == Endpoint && url[n] == QuestionMark then
      var ps := DecodeQuery(url[n + 1..]);
      if |ps| == 2 && ps[0].0 == LocationKey && ps[1].0 == TermKey then Some((ps[0].1, ps[1].1))
      else None
    else None
  }

  /** Decoding the query of a search URL recovers the city and the term
      exactly. */
  lemma SearchUrlRoundTrip(city: Bytes, term: Bytes)
    ensures ParseSearchUrl(SearchUrl(city, term)) == Some((city, term))
  {
    var ps := [(LocationKey, city), (TermKey, term)];
    SearchUrlIsQuery(city, term);
    PrefixedQuery(Endpoint, UrlEncodePairs(ps));
    DecodeUrlEncodePairs(ps);
  }

  lemma PrefixedQuery(e: Bytes, q: Bytes)
    ensures var url := e + [QuestionMark] + q;
      |url| > |e| && url[..|e|] == e && url[|e|] == QuestionMark && url[|e| + 1..] == q
  {
  }

  /** Different cities give different URLs, whatever the term. */
  lemma SearchUrlInjective(c1: Bytes, t1: Bytes, c2: Bytes, t2: Bytes)
    requires SearchUrl(c1, t1) == SearchUrl(c2, t2)
    ensures c1 == c2 && t1 == t2
  {
    SearchUrlRoundTrip(c1, t1);
    SearchUrlRoundTrip(c2, t2);
  }

  /** With the default term the URL ends in `term=Black+owned`. */
  lemma DefaultTermQuery(city: Bytes)
    ensures var url := SearchUrl(city, DefaultTerm);
      var tail := TermKey + [Equals] + BlackPlusOwnedBytes;
      |url| >= |tail| && url[|url| - |tail|..] == tail
  {
    SearchUrlEndsWithTerm(city, DefaultTerm);
    DefaultTermSpelled();
    QuoteSpelledTerm();
  }

  /** A search URL ends with its `term=` pair. */
  lemma SearchUrlEndsWithTerm(city: Bytes, term: Bytes)
    ensures var url := SearchUrl(city, term);
      var tail := TermKey + [Equals] + QuotePlus(term);
      |url| >= |tail| && url[|url| - |tail|..] == tail
  {
    var head := Endpoint + [QuestionMark] + LocationKey + [Equals] + QuotePlus(city) + [Ampersand];
    SearchUrlSpelled(city, term);
    EndsWithLastPair(head, TermKey, QuotePlus(term));
  }

  lemma SearchUrlSpelled(city: Bytes, term: Bytes)
    ensures SearchUrl(city, term) == Endpoint + [QuestionMark] + LocationKey + [Equals] + QuotePlus(city)
                                     + [Ampersand] + TermKey + [Equals] + QuotePlus(term)
  {
  }

  // "Black owned" and "Black+owned" spelled out as bytes
  const BlackOwnedBytes: Bytes := [66, 108, 97, 99, 107, 32, 111, 119, 110, 101, 100]
  const BlackPlusOwnedBytes: Bytes := [66, 108, 97, 99, 107, 43, 111, 119, 110, 101, 100]

  lemma DefaultTermSpelled()
    ensures DefaultTerm == BlackOwnedBytes
  {
  }

  lemma QuoteSpelledTerm()
    ensures QuotePlus(BlackOwnedBytes) == BlackPlusOwnedBytes
  {
  }

  lemma EndsWithLastPair(a: Bytes, k: Bytes, v: Bytes)
    ensures var b := k + [Equals] + v;
      a + k + [Equals] + v == a + b && |a + b| >= |b| && (a + b)[|a + b| - |b|..] == b
  {
  }

  // ---- the `params` dictionaries ----

  /** The `sort_by` values the scripts mention. */
  datatype SortBy = Rating | ReviewCount | Distance

  const RatingKey: Bytes := Ascii("rating")
  const ReviewCountKey: Bytes := Ascii("review_count")
  const DistanceKey: Bytes := Ascii("distance")

  function SortKey(s: SortBy): Bytes {
    match s
    case Rating => RatingKey
    case ReviewCount => ReviewCountKey
    case Distance => DistanceKey
  }

  datatype SearchParams = SearchParams(
    location: Bytes, term: Option<Bytes>, categories: Bytes, limit: nat, sortBy: SortBy)

  const JerseyCity: Bytes := Ascii("Jersey City,NJ")
  const BarchartCategories: Bytes := Ascii("blackowned, categories, resturants, shops")
  const BlackOwnedCategory: Bytes := Ascii("blackowned")
  const CategoriesKey: Bytes := Ascii("categories")
  const LimitKey: Bytes := Ascii("limit")
  const SortByKey: Bytes := Ascii("sort_by")

  /** The parameters of barchart.py. */
  function BarchartParams(): (p: SearchParams)
    ensures 1 <= p.limit <= MaxLimit && p.term.None? && p.sortBy == Rating
  {
    SearchParams(JerseyCity, None, BarchartCategories, 10, Rating)
  }

  /** The parameters of yelp_blk_owned.py: a full page sorted by rating. */
  function BlkOwnedParams(): (p: SearchParams)
    ensures p.limit == MaxLimit && p.sortBy == Rating && p.term == Some(DefaultTerm)
  {
    SearchParams(JerseyCity, Some(DefaultTerm), BlackOwnedCategory, 50, Rating)
  }

  /** `str(n)` for a non-negative integer. */
  function Decimal(n: nat): (r: Bytes)
    ensures r != []
    decreases n
  {
    if n < 10 then ['0' as int + n] else Decimal(n / 10) + ['0' as int + n % 10]
  }

  /** Reads a decimal numeral; the partner of Decimal. */
  function ParseDecimal(s: Bytes): int
  {
    if s == [] then 0
    else 10 * ParseDecimal(s[..|s| - 1]) + (s[|s| - 1] - '0' as int)
  }

  lemma {:induction false} ParseDecimalOfDecimal(n: nat)
    ensures ParseDecimal(Decimal(n)) == n
    decreases n
  {
    if n >= 10 {
      var r := Decimal(n);
      assert r[..|r| - 1] == Decimal(n / 10);
      ParseDecimalOfDecimal(n / 10);
    }
  }

  /** The dictionary's pairs in insertion order, values as `str()` gives them. */
  function ParamPairs(p: SearchParams): seq<(Bytes, Bytes)> {
    [(LocationKey, p.location)]
    + (if p.term.Some? then [(TermKey, p.term.value)] else [])
    + [(CategoriesKey, p.categories), (LimitKey, Decimal(p.limit)), (SortByKey, SortKey(p.sortBy))]
  }

  /** The URL `requests.get(url, params=p)` requests. */
  function ParamsUrl(p: SearchParams): Bytes {
    Endpoint + [QuestionMark] + UrlEncodePairs(ParamPairs(p))
  }

  /** The query of the parameters URL decodes back to the parameters, and
      its `limit` entry reads back as the requested limit. */
  lemma ParamsUrlRoundTrip(p: SearchParams)
    ensures var url := ParamsUrl(p);
      var ps := DecodeQuery(url[|Endpoint| + 1..]);
      && ps == ParamPairs(p)
      && ps[|ps| - 2].0 == LimitKey
      && ParseDecimal(ps[|ps| - 2].1) == p.limit
  {
    var url := ParamsUrl(p);
    assert url[|Endpoint| + 1..] == UrlEncodePairs(ParamPairs(p));
    DecodeUrlEncodePairs(ParamPairs(p));
    ParseDecimalOfDecimal(p.limit);
  }

}
