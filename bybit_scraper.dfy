/** The Bybit scraper: the listing announcements among the first five entries of the
    announcement feed, whether the feed comes back as JSON or as an HTML page. */
module BybitScraper {
  import opened Wrappers
  import opened Text
  import opened Seqs
  import opened Patterns
  import opened Links
  import opened Records

  const BaseUrl: string := "https://announcements.bybit.com"

  const ListingKeywords: seq<string> :=
    ["new listing", "will list", "listing announcement", "now supports", "available for trading", "new token"]

  /** `is_listing_announcement`: a keyword occurs in the lower-cased title. */
  function IsListingAnnouncement(title: string): (r: bool)
    ensures r ==> exists k :: KeywordAt(Lower(title), ListingKeywords, k)
    ensures (exists k :: KeywordAt(Lower(title), ListingKeywords, k)) ==> r
  {
    AnyKeywordAt(Lower(title), ListingKeywords);
    AnyKeyword(Lower(title), ListingKeywords)
  }

  /** The token: the leftmost run of two to ten capitals, with no word boundary asked for;
      a longer run gives its first ten. */
  function ExtractToken(title: string): Option<string> {
    Search(Run(2, 10), title, 0)
  }

  /** No token is found exactly when no two capitals stand next to each other. */
  lemma ExtractTokenNone(title: string)
    ensures ExtractToken(title).None? <==>
              forall j :: 0 <= j < |title| - 1 ==> !(IsUpper(title[j]) && IsUpper(title[j + 1]))
  {
    SearchNone(Run(2, 10), title, 0);
    if ExtractToken(title).None? {
      forall j | 0 <= j < |title| - 1 ensures !(IsUpper(title[j]) && IsUpper(title[j + 1])) {
        assert Match(Run(2, 10), title, j).None?;
        assert RunLen(title, j + 1, UpperClass) >= (if IsUpper(title[j + 1]) then 1 else 0);
      }
    } else {
      var j :| 0 <= j <= |title| && Match(Run(2, 10), title, j).Some?;
      assert RunLen(title, j + 1, UpperClass) >= 1;
    }
  }

  /** A token is two to ten capitals taken from the title, starting at the leftmost place
      where two capitals meet. */
  lemma ExtractTokenShape(title: string)
    requires ExtractToken(title).Some?
    ensures IsSymbol(ExtractToken(title).value, 2, 10)
    ensures Contains(title, ExtractToken(title).value)
    ensures exists j :: Leftmost(Run(2, 10), title, 0, j) &&
                        ExtractToken(title).value == Group(title, Match(Run(2, 10), title, j).value)
  {
    SearchLeftmost(Run(2, 10), title, 0);
    var j :| Leftmost(Run(2, 10), title, 0, j) &&
             ExtractToken(title).value == Group(title, Match(Run(2, 10), title, j).value);
    GroupShape(Run(2, 10), title, j);
    var m := Match(Run(2, 10), title, j).value;
    assert title[m.start..m.end] <= title[m.start..];
  }

  /** `parse_listing_announcement`: the one `T/USDT` pair, no name and no date. */
  function ParseListingAnnouncement(title: string, url: string, now: string): Option<ScrapedListing> {
    match ExtractToken(title)
    case None => None
    case Some(token) => Some(ScrapedListing(token, None, None, [PairName(token, "USDT")], Some(url), now, title))
  }

  /** A listing is produced exactly when the title has a token; it carries that token, its
      USDT pair only, the URL and title as given, and no name or date. */
  lemma ParseListingAnnouncementSpec(title: string, url: string, now: string)
    ensures ParseListingAnnouncement(title, url, now).None? <==> ExtractToken(title).None?
    ensures ParseListingAnnouncement(title, url, now).Some? ==>
              var l := ParseListingAnnouncement(title, url, now).value;
              IsSymbol(l.token, 2, 10) && l.token == ExtractToken(title).value &&
              l.pairs == [PairName(l.token, "USDT")] && l.name.None? && l.date.None? &&
              l.url == Some(url) && l.title == title && l.timestamp == now
  {
    if ExtractToken(title).Some? {
      ExtractTokenShape(title);
    }
  }

  /** An entry of the JSON feed's `result.list`; a missing `title` or `url` reads as "". */
  datatype Entry = Entry(title: string, url: string)

  /** `parse_announcement_data`: the URL made absolute unless it starts with "http". */
  function ParseAnnouncementData(e: Entry, now: string): (r: Option<ScrapedListing>)
    ensures r.None? <==> ExtractToken(e.title).None?
    ensures r.Some? ==> r.value.title == e.title && r.value.url == Some(PrefixUnlessHttp(BaseUrl, e.url)) &&
                        "http" <= r.value.url.value
  {
    PrefixUnlessHttpAbsolute(BaseUrl, e.url);
    ParseListingAnnouncement(e.title, PrefixUnlessHttp(BaseUrl, e.url), now)
  }

  /** The listing of one JSON entry, when its title is a listing announcement. */
  function EntryParsed(e: Entry, now: string): Option<ScrapedListing> {
    if IsListingAnnouncement(e.title) then ParseAnnouncementData(e, now) else None
  }

  function EntryListing(now: string): Entry -> Option<ScrapedListing> {
    e => EntryParsed(e, now)
  }

  /** `parse_json_announcements`: `entries` is `result.list`, `None` when the response has
      no `result` or no `list`, which gives nothing. */
  function JsonListings(entries: Option<seq<Entry>>, now: string): seq<ScrapedListing> {
    if entries.None? then [] else FilterMap(entries.value[..Min(5, |entries.value|)], EntryListing(now))
  }

  method ParseJsonAnnouncements(entries: Option<seq<Entry>>, now: string) returns (listings: seq<ScrapedListing>)
    ensures listings == JsonListings(entries, now)
  {
    listings := [];
    var all := if entries.Some? then entries.value else [];
    var announcements := all[..Min(5, |all|)];
    for k := 0 to |announcements|
      invariant listings == FilterMap(announcements[..k], EntryListing(now))
    {
      PrefixSnoc(announcements, k);
      FilterMapSnoc(announcements[..k], announcements[k], EntryListing(now));
      var title := announcements[k].title;
      if IsListingAnnouncement(title) {
        var listing := ParseAnnouncementData(announcements[k], now);
        if listing.Some? {
          listings := listings + [listing.value];
        }
      }
    }
    assert announcements[..|announcements|] == announcements;
  }

  /** At most five listings come back, each from one of the first five entries: a
      listing title with a token, its URL made absolute unless it starts with "http". */
  lemma JsonListingsSpec(entries: Option<seq<Entry>>, now: string, l: ScrapedListing)
    ensures |JsonListings(entries, now)| <= 5
    ensures entries.None? ==> JsonListings(entries, now) == []
    ensures l in JsonListings(entries, now) ==>
              entries.Some? &&
              exists k :: 0 <= k < Min(5, |entries.value|) &&
                IsListingAnnouncement(entries.value[k].title) && l.title == entries.value[k].title &&
                l.url == Some(PrefixUnlessHttp(BaseUrl, entries.value[k].url)) &&
                l.pairs == [PairName(l.token, "USDT")] && IsSymbol(l.token, 2, 10)
  {
    if entries.Some? {
      var es := entries.value[..Min(5, |entries.value|)];
      FilterMapSpec(es, EntryListing(now), l);
      if l in JsonListings(entries, now) {
        var k :| 0 <= k < |es| && EntryListing(now)(es[k]) == Some(l);
        assert es[k] == entries.value[k];
        ParseListingAnnouncementSpec(es[k].title, PrefixUnlessHttp(BaseUrl, es[k].url), now);
      }
    }
  }

  /** An announcement item of the HTML page: the text of its title element (its `h2`,
      else `h3`, else `a`; `None` when it has none) and the `href` of its first link. */
  datatype Item = Item(heading: Option<string>, href: Option<string>)

  /** The HTML path prefixes a non-empty URL that does not start with "http"; a missing
      link reads as "". */
  function ItemUrl(href: Option<string>): (url: string)
    ensures href.None? ==> url == ""
    ensures href.Some? && href.value != "" && !("http" <= href.value) ==> url == BaseUrl + href.value
    ensures href.Some? && (href.value == "" || "http" <= href.value) ==> url == href.value
  {
    var url := href.GetOr("");
    if url != "" && !("http" <= url) then BaseUrl + url else url
  }

  /** The listing of one HTML item, when it has a title element whose stripped text is a
      listing announcement. */
  function ItemParsed(it: Item, now: string): Option<ScrapedListing> {
    if it.heading.None? then None
    else
      var title := Strip(it.heading.value);
      if IsListingAnnouncement(title) then ParseListingAnnouncement(title, ItemUrl(it.href), now) else None
  }

  function ItemListing(now: string): Item -> Option<ScrapedListing> {
    it => ItemParsed(it, now)
  }

  /** `parse_html_announcements`: the first five items only. */
  function HtmlListings(items: seq<Item>, now: string): seq<ScrapedListing> {
    FilterMap(items[..Min(5, |items|)], ItemListing(now))
  }

  /** The body of the loop over the items. */
  method ParseItem(it: Item, now: string) returns (listing: Option<ScrapedListing>)
    ensures listing == ItemParsed(it, now)
  {
    if it.heading.None? {
      return None;
    }
    var title := Strip(it.heading.value);
    if !IsListingAnnouncement(title) {
      return None;
    }
    var url := if it.href.Some? then it.href.value else "";
    if url != "" && !("http" <= url) {
      url := BaseUrl + url;
    }
    listing := ParseListingAnnouncement(title, url, now);
  }

  method ParseHtmlAnnouncements(items: seq<Item>, now: string) returns (listings: seq<ScrapedListing>)
    ensures listings == HtmlListings(items, now)
  {
    listings := [];
    var firstFive := items[..Min(5, |items|)];
    for k := 0 to |firstFive|
      invariant listings == FilterMap(firstFive[..k], ItemListing(now))
    {
      PrefixSnoc(firstFive, k);
      FilterMapSnoc(firstFive[..k], firstFive[k], ItemListing(now));
      var listing := ParseItem(firstFive[k], now);
      if listing.Some? {
        listings := listings + [listing.value];
      }
    }
    assert firstFive[..|firstFive|] == firstFive;
  }

  /** At most five listings come back, each from one of the first five items that has a
      title element whose stripped text is a listing announcement. */
  lemma HtmlListingsSpec(items: seq<Item>, now: string, l: ScrapedListing)
    ensures |HtmlListings(items, now)| <= 5
    ensures l in HtmlListings(items, now) ==>
              exists k :: 0 <= k < Min(5, |items|) && items[k].heading.Some? &&
                l.title == Strip(items[k].heading.value) && IsListingAnnouncement(l.title) &&
                l.url == Some(ItemUrl(items[k].href)) && IsSymbol(l.token, 2, 10)
  {
    var its := items[..Min(5, |items|)];
    FilterMapSpec(its, ItemListing(now), l);
    if l in HtmlListings(items, now) {
      var k :| 0 <= k < |its| && ItemListing(now)(its[k]) == Some(l);
      assert its[k] == items[k];
      ParseListingAnnouncementSpec(Strip(its[k].heading.value), ItemUrl(its[k].href), now);
    }
  }

  /** How the feed request ends: failed, or a body that decodes as JSON (with `result.list`
      or without it), or one that does not and is read as HTML. */
  datatype Response = Failed | Json(entries: Option<seq<Entry>>) | Html(items: seq<Item>)

  /** `get_upcoming_listings`. */
  function UpcomingListings(r: Response, now: string): seq<ScrapedListing> {
    match r
    case Failed => []
    case Json(entries) => JsonListings(entries, now)
    case Html(items) => HtmlListings(items, now)
  }

  method GetUpcomingListings(r: Response, now: string) returns (listings: seq<ScrapedListing>)
    ensures listings == UpcomingListings(r, now)
  {
    match r
    case Failed => listings := [];
    case Json(entries) => listings := ParseJsonAnnouncements(entries, now);
    case Html(items) => listings := ParseHtmlAnnouncements(items, now);
  }

  /** Whichever way the feed comes back, at most five listings are returned. */
  lemma UpcomingListingsBound(r: Response, now: string)
    ensures |UpcomingListings(r, now)| <= 5
  {
    match r
    case Failed =>
    case Json(entries) =>
      var l :| true;
      JsonListingsSpec(entries, now, l);
    case Html(items) =>
      var l :| true;
      HtmlListingsSpec(items, now, l);
  }
}
