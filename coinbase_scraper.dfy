/** The Coinbase scraper: the listing articles among the latest five of the blog's new-assets
    page, each parsed into one record per token its title names. */
module CoinbaseScraper {
  import opened Wrappers
  import opened Text
  import opened Seqs
  import opened Patterns
  import opened Records

  const BlogUrl: string := "https://blog.coinbase.com"

  const ListingKeywords: seq<string> :=
    ["now available", "new asset", "adding support", "now supports", "available on coinbase",
     "listing", "new digital asset"]

  /** `is_listing_announcement`: a keyword occurs in the lower-cased title. */
  function IsListingAnnouncement(title: string): (r: bool)
    ensures r ==> exists k :: KeywordAt(Lower(title), ListingKeywords, k)
    ensures (exists k :: KeywordAt(Lower(title), ListingKeywords, k)) ==> r
  {
    AnyKeywordAt(Lower(title), ListingKeywords);
    AnyKeyword(Lower(title), ListingKeywords)
  }

  /** `(TOKEN)`, a whole word, `$TOKEN`: two to six capitals each. */
  const TokenPatterns: seq<Pattern> := [Paren(2, 6), Word(2, 6), Dollar(2, 6)]

  const FalsePositives: seq<string> := ["USD", "EUR", "GBP", "API", "NEW", "THE", "AND", "FOR"]

  const NotFalsePositive: string -> bool := t => t !in FalsePositives

  /** The matches of the patterns in turn on the upper-cased title, false positives
      dropped, repetitions kept. */
  function Candidates(title: string): seq<string> {
    Filter(AllMatches(TokenPatterns, Upper(title)), NotFalsePositive)
  }

  /** `extract_tokens_from_title`: the candidates, each once. */
  function TitleTokens(title: string): seq<string> {
    Dedup(Candidates(title))
  }

  /** The tokens hold no repetition; a token is two to six capitals, is no false positive,
      and is a match of one of the patterns on the upper-cased title; every such match is a
      token. */
  lemma TitleTokensSpec(title: string, t: string)
    ensures NoDup(TitleTokens(title))
    ensures t in TitleTokens(title) <==>
              t !in FalsePositives &&
              exists k :: 0 <= k < |TokenPatterns| && t in FindAll(TokenPatterns[k], Upper(title), 0)
    ensures t in TitleTokens(title) ==> IsSymbol(t, 2, 6)
  {
    var matches := AllMatches(TokenPatterns, Upper(title));
    assert t in TitleTokens(title) <==> t in matches && t !in FalsePositives;
    AllMatchesMember(TokenPatterns, Upper(title), t);
    if t in matches {
      TokenShape(Upper(title), t);
    }
  }

  /** Each pattern captures two to six capitals. */
  lemma TokenShape(s: string, t: string)
    requires t in AllMatches(TokenPatterns, s)
    ensures IsSymbol(t, 2, 6)
  {
    AllMatchesMember(TokenPatterns, s, t);
    var k :| 0 <= k < |TokenPatterns| && t in FindAll(TokenPatterns[k], s, 0);
    assert TokenPatterns[k].lo == 2 && TokenPatterns[k].hi == 6 && CapitalsPattern(TokenPatterns[k]);
    FindAllShape(TokenPatterns[k], s, 0);
  }

  /** The nested loops of `extract_tokens_from_title`. The length test they apply always
      passes, since each pattern captures two to six capitals. The order in which the
      source lists the tokens comes from a `set`; the model lists them by first
      occurrence. */
  method ExtractTokensFromTitle(title: string) returns (tokens: seq<string>)
    ensures tokens == TitleTokens(title)
  {
    var upper := Upper(title);
    var found: seq<string> := [];
    for k := 0 to |TokenPatterns|
      invariant found == AllMatches(TokenPatterns[..k], upper)
    {
      var p := TokenPatterns[k];
      assert p.lo == 2 && p.hi == 6 && CapitalsPattern(p);
      var matches := FindAll(p, upper, 0);
      FindAllShape(p, upper, 0);
      ghost var before := found;
      for j := 0 to |matches|
        invariant found == before + matches[..j]
      {
        assert matches[j] in matches;
        PrefixSnoc(matches, j);
        if 2 <= |matches[j]| <= 6 {
          found := found + [matches[j]];
        }
      }
      assert matches[..|matches|] == matches;
      PrefixSnoc(TokenPatterns, k);
      FlatMapSnoc(TokenPatterns[..k], TokenPatterns[k], FindAllIn(upper));
    }
    assert TokenPatterns[..|TokenPatterns|] == TokenPatterns;
    tokens := Dedup(Filter(found, NotFalsePositive));
  }

  /** `extract_token_name` finds no name. */
  function ExtractTokenName(title: string, token: string): (name: Option<string>)
    ensures name.None?
  {
    None
  }

  /** The record `parse_listing_announcement` builds for one token. */
  function RecordFor(title: string, url: Option<string>, now: string, token: string): ScrapedListing {
    ScrapedListing(token, ExtractTokenName(title, token), None,
                   [PairName(token, "USD"), PairName(token, "EUR")], url, now, title)
  }

  function ListingFor(title: string, url: Option<string>, now: string): string -> ScrapedListing {
    token => RecordFor(title, url, now, token)
  }

  /** One record per token of the title, in token order. */
  function TitleRecords(title: string, url: Option<string>, now: string): seq<ScrapedListing> {
    Map(TitleTokens(title), ListingFor(title, url, now))
  }

  /** What `parse_listing_announcement` returns when it finds tokens: the one record, or
      the list of them. */
  datatype Parsed = One(listing: ScrapedListing) | Many(listings: seq<ScrapedListing>)

  function RecordsOf(p: Parsed): seq<ScrapedListing> {
    match p
    case One(l) => [l]
    case Many(ls) => ls
  }

  /** `parse_listing_announcement`: None without tokens; otherwise one record per token, in
      token order, returned bare when there is exactly one. */
  function ParsedAnnouncement(title: string, url: Option<string>, now: string): (r: Option<Parsed>)
    ensures r.None? <==> TitleTokens(title) == []
    ensures r.Some? ==> RecordsOf(r.value) == TitleRecords(title, url, now)
    ensures r.Some? ==> (r.value.One? <==> |TitleTokens(title)| == 1)
  {
    var results := TitleRecords(title, url, now);
    if results == [] then None
    else if |results| == 1 then Some(One(results[0])) else Some(Many(results))
  }

  /** Every record is for one of the title's tokens, is dated None and nameless, offers the
      USD and EUR pairs and carries the title and URL; no two records share a token. */
  lemma TitleRecordsSpec(title: string, url: Option<string>, now: string, i: nat)
    requires i < |TitleRecords(title, url, now)|
    ensures TitleRecords(title, url, now)[i].token in TitleTokens(title)
    ensures IsSymbol(TitleRecords(title, url, now)[i].token, 2, 6)
    ensures TitleRecords(title, url, now)[i].token !in FalsePositives
    ensures TitleRecords(title, url, now)[i] ==
              ScrapedListing(TitleRecords(title, url, now)[i].token, None, None,
                             [PairName(TitleRecords(title, url, now)[i].token, "USD"),
                              PairName(TitleRecords(title, url, now)[i].token, "EUR")],
                             url, now, title)
    ensures forall j :: 0 <= j < |TitleRecords(title, url, now)| && j != i ==>
              TitleRecords(title, url, now)[j].token != TitleRecords(title, url, now)[i].token
  {
    var tokens := TitleTokens(title);
    var rs := TitleRecords(title, url, now);
    TitleTokensSpec(title, tokens[i]);
    assert rs[i] == RecordFor(title, url, now, tokens[i]);
    forall j | 0 <= j < |rs| && j != i ensures rs[j].token != rs[i].token {
      assert rs[j] == RecordFor(title, url, now, tokens[j]);
    }
  }

  method ParseListingAnnouncement(title: string, url: Option<string>, now: string) returns (r: Option<Parsed>)
    ensures r == ParsedAnnouncement(title, url, now)
  {
    var tokens := ExtractTokensFromTitle(title);
    if tokens == [] {
      return None;
    }
    var results: seq<ScrapedListing> := [];
    for k := 0 to |tokens|
      invariant results == Map(tokens[..k], ListingFor(title, url, now))
    {
      PrefixSnoc(tokens, k);
      MapSnoc(tokens[..k], tokens[k], ListingFor(title, url, now));
      results := results + [RecordFor(title, url, now, tokens[k])];
    }
    assert tokens[..|tokens|] == tokens;
    r := if |results| == 1 then Some(One(results[0])) else Some(Many(results));
  }

  /** A blog article: the text of its heading (its first `h2`, else `h3`, else the whole
      article) and the `href` of its link, when it has one. */
  datatype Article = Article(heading: string, link: Option<string>)

  /** A non-empty link that does not start with "http" gets the blog URL prepended. */
  function ArticleUrl(link: Option<string>): (r: Option<string>)
    ensures r.None? <==> link.None?
    ensures link.Some? && link.value != "" && !("http" <= link.value) ==> r == Some(BlogUrl + link.value)
    ensures link.Some? && (link.value == "" || "http" <= link.value) ==> r == link
  {
    match link
    case None => None
    case Some(u) => if u != "" && !("http" <= u) then Some(BlogUrl + u) else Some(u)
  }

  /** One article: nothing unless its stripped heading is a listing announcement. */
  function ArticleParsed(a: Article, now: string): Option<Parsed> {
    var title := Strip(a.heading);
    if IsListingAnnouncement(title) then ParsedAnnouncement(title, ArticleUrl(a.link), now) else None
  }

  function ArticleListing(now: string): Article -> Option<Parsed> {
    a => ArticleParsed(a, now)
  }

  /** `check_blog_announcements`: the parsed latest five articles; a page that could not be
      fetched gives nothing. */
  function BlogListings(page: Option<seq<Article>>, now: string): seq<Parsed> {
    if page.None? then [] else FilterMap(page.value[..Min(5, |page.value|)], ArticleListing(now))
  }

  /** The body of the loop over the articles. */
  method ParseArticle(a: Article, now: string) returns (listing: Option<Parsed>)
    ensures listing == ArticleParsed(a, now)
  {
    var title := Strip(a.heading);
    if !IsListingAnnouncement(title) {
      return None;
    }
    var url := a.link;
    if url.Some? && url.value != "" && !("http" <= url.value) {
      url := Some(BlogUrl + url.value);
    }
    assert url == ArticleUrl(a.link);
    listing := ParseListingAnnouncement(title, url, now);
  }

  method CheckBlogAnnouncements(page: Option<seq<Article>>, now: string) returns (listings: seq<Parsed>)
    ensures listings == BlogListings(page, now)
  {
    listings := [];
    if page.None? {
      return;
    }
    var articles := page.value[..Min(5, |page.value|)];
    for k := 0 to |articles|
      invariant listings == FilterMap(articles[..k], ArticleListing(now))
    {
      PrefixSnoc(articles, k);
      FilterMapSnoc(articles[..k], articles[k], ArticleListing(now));
      var listing := ParseArticle(articles[k], now);
      if listing.Some? {
        listings := listings + [listing.value];
      }
    }
    assert articles[..|articles|] == articles;
  }

  /** `check_twitter_api` is a placeholder that finds nothing. */
  function CheckTwitterApi(): (listings: seq<Parsed>)
    ensures listings == []
  {
    []
  }

  /** `get_upcoming_listings`: the blog's listings followed by the (empty) Twitter ones. */
  method GetUpcomingListings(page: Option<seq<Article>>, now: string) returns (listings: seq<Parsed>)
    ensures listings == BlogListings(page, now)
  {
    listings := CheckBlogAnnouncements(page, now);
    listings := listings + CheckTwitterApi();
  }

  /** An article gives a result only when its stripped heading is a listing announcement,
      and the result is then the parse of that heading against the article's URL. */
  lemma ArticleParsedSpec(a: Article, now: string)
    ensures ArticleParsed(a, now).Some? ==>
              IsListingAnnouncement(Strip(a.heading)) &&
              ArticleParsed(a, now) == ParsedAnnouncement(Strip(a.heading), ArticleUrl(a.link), now)
    ensures IsListingAnnouncement(Strip(a.heading)) ==>
              (ArticleParsed(a, now).None? <==> TitleTokens(Strip(a.heading)) == [])
  {
  }

  /** At most five results come back, each the result of one of the latest five
      articles. */
  lemma BlogListingsSpec(page: Option<seq<Article>>, now: string, p: Parsed)
    ensures |BlogListings(page, now)| <= 5
    ensures p in BlogListings(page, now) <==>
              page.Some? && exists k :: 0 <= k < Min(5, |page.value|) && ArticleParsed(page.value[k], now) == Some(p)
  {
    if page.Some? {
      var articles := page.value[..Min(5, |page.value|)];
      FilterMapSpec(articles, ArticleListing(now), p);
      forall k | 0 <= k < |articles|
        ensures ArticleListing(now)(articles[k]) == ArticleParsed(page.value[k], now)
      {
        assert articles[k] == page.value[k];
      }
    }
  }

  /** As written, an article naming two or more tokens contributes a single element that is
      the list of its records, not the records themselves. */
  lemma MultiTokenArticleNests(page: Option<seq<Article>>, now: string, k: nat)
    requires page.Some? && k < Min(5, |page.value|)
    requires IsListingAnnouncement(Strip(page.value[k].heading))
    requires |TitleTokens(Strip(page.value[k].heading))| >= 2
    ensures exists p :: p in BlogListings(page, now) && p.Many? && |p.listings| >= 2
  {
    var articles := page.value[..Min(5, |page.value|)];
    assert articles[k] == page.value[k];
    var title := Strip(articles[k].heading);
    var p := ParsedAnnouncement(title, ArticleUrl(articles[k].link), now).value;
    assert ArticleListing(now)(articles[k]) == Some(p);
    assert p.Many? && |p.listings| == |TitleTokens(title)|;
    FilterMapSpec(articles, ArticleListing(now), p);
    assert p in BlogListings(page, now);
  }

  /** The records one article contributes. */
  function ArticleRecords(now: string): Article -> seq<ScrapedListing> {
    a => OptionRecords(ArticleParsed(a, now))
  }

  function OptionRecords(p: Option<Parsed>): seq<ScrapedListing> {
    if p.Some? then RecordsOf(p.value) else []
  }

  /** The evidently intended result: every record of every listing article, flattened. */
  function BlogRecords(page: Option<seq<Article>>, now: string): seq<ScrapedListing> {
    if page.None? then [] else FlatMap(page.value[..Min(5, |page.value|)], ArticleRecords(now))
  }

  /** `l` is the record for one of the tokens of the article's stripped heading, and that
      heading is a listing announcement. */
  predicate ArticleYields(a: Article, now: string, l: ScrapedListing) {
    var title := Strip(a.heading);
    IsListingAnnouncement(title) && l.token in TitleTokens(title) &&
    l == RecordFor(title, ArticleUrl(a.link), now, l.token)
  }

  /** The records one article contributes are exactly those it yields. */
  lemma ArticleRecordsSpec(a: Article, now: string, l: ScrapedListing)
    ensures l in ArticleRecords(now)(a) <==> ArticleYields(a, now, l)
  {
    var title := Strip(a.heading);
    ArticleRecordsOf(a, now);
    if IsListingAnnouncement(title) {
      var tokens := TitleTokens(title);
      var f := ListingFor(title, ArticleUrl(a.link), now);
      MapMember(tokens, f, l);
      if l in Map(tokens, f) {
        var k :| 0 <= k < |tokens| && l == f(tokens[k]);
        assert l == RecordFor(title, ArticleUrl(a.link), now, tokens[k]);
      }
      if ArticleYields(a, now, l) {
        var k :| 0 <= k < |tokens| && tokens[k] == l.token;
        assert l == f(tokens[k]);
      }
    }
  }

  /** An article contributes the records of its title's tokens, or nothing when its
      stripped heading is not a listing announcement. */
  lemma ArticleRecordsOf(a: Article, now: string)
    ensures ArticleRecords(now)(a) ==
              var title := Strip(a.heading);
              if IsListingAnnouncement(title) then TitleRecords(title, ArticleUrl(a.link), now) else []
  {
    var title := Strip(a.heading);
    if IsListingAnnouncement(title) && TitleTokens(title) == [] {
      assert TitleRecords(title, ArticleUrl(a.link), now) == [];
    }
  }

  /** The flattened result holds exactly the records the latest five articles yield. */
  lemma BlogRecordsSpec(page: Option<seq<Article>>, now: string, l: ScrapedListing)
    ensures l in BlogRecords(page, now) <==>
              page.Some? && exists k :: 0 <= k < Min(5, |page.value|) && ArticleYields(page.value[k], now, l)
  {
    if page.Some? {
      var articles := page.value[..Min(5, |page.value|)];
      FlatMapSpec(articles, ArticleRecords(now), l);
      if l in BlogRecords(page, now) {
        var k :| 0 <= k < |articles| && l in ArticleRecords(now)(articles[k]);
        ArticleRecordsSpec(articles[k], now, l);
        assert articles[k] == page.value[k];
      }
      if exists k :: 0 <= k < |articles| && ArticleYields(page.value[k], now, l) {
        var k :| 0 <= k < |articles| && ArticleYields(page.value[k], now, l);
        ArticleRecordsSpec(page.value[k], now, l);
        assert articles[k] == page.value[k];
      }
    }
  }

  /** The flattened result is what the elements returned as written hold, in order. */
  lemma BlogRecordsFlatten(page: Option<seq<Article>>, now: string)
    ensures BlogRecords(page, now) == FlatMap(BlogListings(page, now), RecordsOf)
  {
    if page.Some? {
      var articles := page.value[..Min(5, |page.value|)];
      FlatMapOfFilterMap(articles, ArticleListing(now), RecordsOf, ArticleRecords(now));
    }
  }

  /** The elements of `Map(s, f)` are the images of the elements of `s`. */
  lemma MapMember<A, B>(s: seq<A>, f: A -> B, y: B)
    ensures y in Map(s, f) <==> exists k :: 0 <= k < |s| && y == f(s[k])
  {
    if y in Map(s, f) {
      var k :| 0 <= k < |s| && Map(s, f)[k] == y;
    }
  }
}
