/** The Binance scraper: the listing announcements among the first ten links of the
    announcement page, each with the token its title names and, when the announcement
    page could be fetched, the trading pairs and the date it mentions. */
module BinanceScraper {
  import opened Wrappers
  import opened Text
  import opened Seqs
  import opened Patterns
  import opened Links
  import opened Records

  const BaseUrl: string := "https://www.binance.com"

  const ListingKeywords: seq<string> :=
    ["binance will list", "will list", "new listing", "listing announcement", "will be listed"]

  /** `is_listing_announcement`: a keyword occurs in the lower-cased title. */
  function IsListingAnnouncement(title: string): (r: bool)
    ensures r ==> exists k :: KeywordAt(Lower(title), ListingKeywords, k)
    ensures (exists k :: KeywordAt(Lower(title), ListingKeywords, k)) ==> r
  {
    AnyKeywordAt(Lower(title), ListingKeywords);
    AnyKeyword(Lower(title), ListingKeywords)
  }

  /** The group `parse_listing_announcement` takes the token from: the letters after
      "list" and whitespace, in either case, else the capitals between parentheses. */
  function TokenMatch(title: string): Option<string> {
    var verb := Search(ListVerb(2, 10), title, 0);
    if verb.Some? then verb else Search(Paren(2, 10), title, 0)
  }

  /** The token: that group, upper-cased. */
  function ExtractToken(title: string): Option<string> {
    match TokenMatch(title)
    case Some(g) => Some(Upper(g))
    case None => None
  }

  /** There is no token exactly when neither pattern matches anywhere in the title. */
  lemma ExtractTokenNone(title: string)
    ensures ExtractToken(title).None? <==>
            (forall j :: 0 <= j <= |title| ==> Match(ListVerb(2, 10), title, j).None?) &&
            (forall j :: 0 <= j <= |title| ==> Match(Paren(2, 10), title, j).None?)
  {
    SearchNone(ListVerb(2, 10), title, 0);
    SearchNone(Paren(2, 10), title, 0);
  }

  /** A token is two to ten capitals: the upper-cased group of the leftmost "list" match,
      and only when there is none, that of the leftmost parenthesised symbol. */
  lemma ExtractTokenShape(title: string)
    requires ExtractToken(title).Some?
    ensures IsSymbol(ExtractToken(title).value, 2, 10)
    ensures Search(ListVerb(2, 10), title, 0).Some? ==>
              exists j :: Leftmost(ListVerb(2, 10), title, 0, j) &&
                ExtractToken(title) == Some(Upper(Group(title, Match(ListVerb(2, 10), title, j).value)))
    ensures Search(ListVerb(2, 10), title, 0).None? ==>
              exists j :: Leftmost(Paren(2, 10), title, 0, j) &&
                ExtractToken(title) == Some(Upper(Group(title, Match(Paren(2, 10), title, j).value)))
  {
    var p := if Search(ListVerb(2, 10), title, 0).Some? then ListVerb(2, 10) else Paren(2, 10);
    SearchLeftmost(p, title, 0);
    var j :| Leftmost(p, title, 0, j) && Search(p, title, 0).value == Group(title, Match(p, title, j).value);
    GroupShape(p, title, j);
    UpperOfLetters(TokenMatch(title).value);
  }

  /** `extract_token_name`: the text between "list" and whitespace and the next `(`,
      stripped. */
  function ExtractTokenName(title: string): Option<string> {
    match Search(ListName, title, 0)
    case Some(g) => Some(Strip(g))
    case None => None
  }

  /** A name is found exactly when the pattern matches somewhere. */
  lemma ExtractTokenNameNone(title: string)
    ensures ExtractTokenName(title).None? <==> forall j :: 0 <= j <= |title| ==> Match(ListName, title, j).None?
  {
    SearchNone(ListName, title, 0);
  }

  /** A name is the stripped text between the leftmost "list" and whitespace and the first
      `(` after it; it holds no `(` and neither starts nor ends with whitespace. */
  lemma ExtractTokenNameShape(title: string)
    requires ExtractTokenName(title).Some?
    ensures var name := ExtractTokenName(title).value;
            '(' !in name && (name == [] || (!IsSpace(name[0]) && !IsSpace(name[|name| - 1])))
    ensures exists j :: Leftmost(ListName, title, 0, j) && ListNameAt(title, j, ExtractTokenName(title).value)
  {
    SearchLeftmost(ListName, title, 0);
    var g := Search(ListName, title, 0).value;
    var j :| Leftmost(ListName, title, 0, j) && g == Group(title, Match(ListName, title, j).value);
    ListNameGroupShape(title, j);
    ListNameGroupAt(title, j);
    AbsentFromInfix(g, Strip(g), '(');
  }

  const Quotes: seq<string> := ["USDT", "BTC", "BNB", "ETH"]

  /** `extract_listing_date`: the patterns tried in this order; the first one that matches
      gives its whole match. */
  const DatePatterns: seq<Pattern> := [DateTime, SlashDate, WillListOn]

  /** `parse_listing_announcement` on a title and its absolute URL; `pages` holds the
      announcement pages that could be fetched. */
  function ParsedAnnouncement(title: string, url: string, pages: map<string, string>, now: string)
    : (r: Option<ScrapedListing>)
    ensures r.Some? <==> ExtractToken(title).Some?
    ensures r.Some? ==>
              r.value.token == ExtractToken(title).value && IsSymbol(r.value.token, 2, 10) &&
              r.value.name == ExtractTokenName(title) && r.value.url == Some(url) &&
              r.value.title == title && r.value.timestamp == now
    ensures r.Some? && url !in pages ==> r.value.pairs == [] && r.value.date.None?
    ensures r.Some? && url in pages ==>
              r.value.pairs == PairsIn(pages[url], r.value.token, Quotes) &&
              r.value.date == FirstMatching(DatePatterns, pages[url])
  {
    match ExtractToken(title)
    case None => None
    case Some(token) =>
      ExtractTokenShape(title);
      var pairs := if url in pages then PairsIn(pages[url], token, Quotes) else [];
      var date := if url in pages then FirstMatching(DatePatterns, pages[url]) else None;
      Some(ScrapedListing(token, ExtractTokenName(title), date, pairs, Some(url), now, title))
  }

  method ParseListingAnnouncement(title: string, url: string, pages: map<string, string>, now: string)
    returns (r: Option<ScrapedListing>)
    ensures r == ParsedAnnouncement(title, url, pages, now)
  {
    var token := ExtractToken(title);
    if token.None? {
      return None;
    }
    var pairs: seq<string> := [];
    var date: Option<string> := None;
    if url in pages {
      pairs := CollectPairs(pages[url], token.value, Quotes);
      date := SearchInOrder(DatePatterns, pages[url]);
    }
    r := Some(ScrapedListing(token.value, ExtractTokenName(title), date, pairs, Some(url), now, title));
  }

  /** One link of the page: skipped when its `href` or stripped text is empty or the text
      is no listing announcement; otherwise parsed against the absolute URL. */
  function ListingFromLink(link: Link, pages: map<string, string>, now: string): Option<ScrapedListing> {
    var title := Strip(link.text);
    if link.href == "" || title == "" || !IsListingAnnouncement(title) then None
    else ParsedAnnouncement(title, PrefixRelative(BaseUrl, link.href), pages, now)
  }

  function LinkListing(pages: map<string, string>, now: string): Link -> Option<ScrapedListing> {
    link => ListingFromLink(link, pages, now)
  }

  /** `get_upcoming_listings`: the listings of the first ten links; a page that could not
      be fetched gives none. */
  function UpcomingListings(page: Option<seq<Link>>, pages: map<string, string>, now: string)
    : seq<ScrapedListing>
  {
    if page.None? then [] else FilterMap(page.value[..Min(10, |page.value|)], LinkListing(pages, now))
  }

  method GetUpcomingListings(page: Option<seq<Link>>, pages: map<string, string>, now: string)
    returns (listings: seq<ScrapedListing>)
    ensures listings == UpcomingListings(page, pages, now)
  {
    listings := [];
    if page.None? {
      return;
    }
    var links := page.value[..Min(10, |page.value|)];
    for k := 0 to |links|
      invariant listings == FilterMap(links[..k], LinkListing(pages, now))
    {
      PrefixSnoc(links, k);
      FilterMapSnoc(links[..k], links[k], LinkListing(pages, now));
      var href := links[k].href;
      var title := Strip(links[k].text);
      if href == "" || title == "" {
        continue;
      }
      if IsListingAnnouncement(title) {
        var fullUrl := PrefixRelative(BaseUrl, href);
        var listing := ParseListingAnnouncement(title, fullUrl, pages, now);
        if listing.Some? {
          listings := listings + [listing.value];
        }
      }
    }
    assert links[..|links|] == links;
  }

  /** At most ten listings come back, and each comes from one of the first ten links: a
      link with an `href` whose stripped text is a listing announcement naming a token,
      with the relative `href` made absolute. */
  lemma UpcomingListingsSpec(page: Option<seq<Link>>, pages: map<string, string>, now: string, l: ScrapedListing)
    ensures |UpcomingListings(page, pages, now)| <= 10
    ensures l in UpcomingListings(page, pages, now) ==>
              page.Some? && exists k :: 0 <= k < Min(10, |page.value|) && CarriedFrom(page.value[k], l)
  {
    if page.Some? {
      FirstLinksSpec(page.value, Min(10, |page.value|), pages, now, l);
    }
  }

  /** The listings of the first `m` links come one from each of some of those links. */
  lemma FirstLinksSpec(links: seq<Link>, m: nat, pages: map<string, string>, now: string, l: ScrapedListing)
    requires m <= |links|
    ensures |FilterMap(links[..m], LinkListing(pages, now))| <= m
    ensures l in FilterMap(links[..m], LinkListing(pages, now)) ==>
              exists k :: 0 <= k < m && CarriedFrom(links[k], l)
  {
    FilterMapSpec(links[..m], LinkListing(pages, now), l);
    if l in FilterMap(links[..m], LinkListing(pages, now)) {
      var k :| 0 <= k < m && LinkListing(pages, now)(links[..m][k]) == Some(l);
      assert links[..m][k] == links[k];
      LinkListingAt(links[k], pages, now, l);
    }
  }

  /** What a listing carries over from the link it was made from: a non-empty `href`, the
      stripped link text as a non-empty listing title, a token of 2 to 10 symbol characters
      and the `href` made absolute against the site. */
  predicate CarriedFrom(link: Link, l: ScrapedListing)
  {
    link.href != "" && l.title == Strip(link.text) && l.title != "" &&
    IsListingAnnouncement(l.title) && IsSymbol(l.token, 2, 10) &&
    l.url == Some(PrefixRelative(BaseUrl, link.href))
  }

  lemma LinkListingAt(link: Link, pages: map<string, string>, now: string, l: ScrapedListing)
    requires ListingFromLink(link, pages, now) == Some(l)
    ensures CarriedFrom(link, l)
  {
    assert link.href != "" && l.title == Strip(link.text) && l.title != "";
    assert IsListingAnnouncement(l.title) && IsSymbol(l.token, 2, 10);
  }

  /** The pairs of a listing are `token/quote` for quotes in list order, and each one is
      written in the upper-cased announcement page. */
  lemma TradingPairsSpec(content: string, token: string, pair: string)
    ensures |PairsIn(content, token, Quotes)| <= 4
    ensures IsSubseq(PairsIn(content, token, Quotes), PairsOf(token, Quotes))
    ensures pair in PairsIn(content, token, Quotes) <==>
              (exists k :: 0 <= k < 4 && pair == PairName(token, Quotes[k])) && Contains(Upper(content), pair)
  {
    PairsInSpec(content, token, Quotes, pair);
  }

  /** The date is the whole match of the first pattern in list order that matches. */
  lemma ListingDateSpec(content: string)
    ensures FirstMatching(DatePatterns, content).None? <==>
              Search(DateTime, content, 0).None? && Search(SlashDate, content, 0).None? &&
              Search(WillListOn, content, 0).None?
    ensures Search(DateTime, content, 0).Some? ==> FirstMatching(DatePatterns, content) == Search(DateTime, content, 0)
  {
    FirstMatchingSpec(DatePatterns, content);
    assert DatePatterns[0] == DateTime && DatePatterns[1] == SlashDate && DatePatterns[2] == WillListOn;
  }
}
