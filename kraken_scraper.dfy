/** The Kraken scraper: every valid symbol named in the listings page's upcoming sections,
    then the listing-related links among the page's first ten. */
module KrakenScraper {
  import opened Wrappers
  import opened Text
  import opened Seqs
  import opened Patterns
  import opened Links
  import opened Records

  const BaseUrl: string := "https://www.kraken.com"
  const ListingsUrl: string := "https://www.kraken.com/listings"

  const InvalidTokens: seq<string> := [
    "USD", "EUR", "GBP", "THE", "AND", "FOR", "NEW", "API",
    "FAQ", "APP", "WEB", "GET", "SET", "ALL", "TOP", "NOW"
  ]

  /** `is_valid_token_symbol`: not a common word, and at least two characters. Every
      common word has three letters, so a symbol of any other length from two up is
      valid. */
  function IsValidTokenSymbol(token: string): (valid: bool)
    ensures |token| < 2 ==> !valid
    ensures |token| >= 2 && |token| != 3 ==> valid
    ensures valid ==> token !in InvalidTokens
    ensures valid ==> token != "USD" && token != "NEW"
  {
    token !in InvalidTokens && |token| >= 2
  }

  const ListingKeywords: seq<string> := ["listing", "new asset", "coming soon", "roadmap", "upcoming"]

  /** `is_listing_related`: a keyword occurs in the lower-cased text. */
  function IsListingRelated(text: string): (r: bool)
    ensures r ==> exists k :: KeywordAt(Lower(text), ListingKeywords, k)
    ensures (exists k :: KeywordAt(Lower(text), ListingKeywords, k)) ==> r
  {
    AnyKeywordAt(Lower(text), ListingKeywords);
    AnyKeyword(Lower(text), ListingKeywords)
  }

  function Token(l: ScrapedListing): string { l.token }

  // ---------------------------------------------------------------- upcoming sections

  /** The record for a symbol named in an upcoming section. */
  function SectionRecord(token: string, now: string): ScrapedListing {
    ScrapedListing(token, None, None, [PairName(token, "USD"), PairName(token, "EUR")],
                   Some(ListingsUrl), now, "Kraken roadmap includes " + token)
  }

  function SectionRecordFor(now: string): string -> ScrapedListing {
    token => SectionRecord(token, now)
  }

  /** The whole words of two to six capitals in the section's text, in order. */
  function SectionWords(text: string): seq<string> {
    FindAll(Word(2, 6), text, 0)
  }

  /** `extract_tokens_from_section` on the section's text: one record per valid word, in
      text order, repetitions kept. */
  function SectionRecords(text: string, now: string): seq<ScrapedListing> {
    Map(Filter(SectionWords(text), IsValidTokenSymbol), SectionRecordFor(now))
  }

  method ExtractTokensFromSection(text: string, now: string) returns (tokens: seq<ScrapedListing>)
    ensures tokens == SectionRecords(text, now)
  {
    var matches := FindAll(Word(2, 6), text, 0);
    tokens := [];
    ghost var valid: seq<string> := [];
    for k := 0 to |matches|
      invariant valid == Filter(matches[..k], IsValidTokenSymbol)
      invariant tokens == Map(valid, SectionRecordFor(now))
    {
      PrefixSnoc(matches, k);
      FilterSnoc(matches[..k], matches[k], IsValidTokenSymbol);
      var token := matches[k];
      if IsValidTokenSymbol(token) {
        MapSnoc(valid, token, SectionRecordFor(now));
        valid := valid + [token];
        tokens := tokens + [SectionRecord(token, now)];
      }
    }
    assert matches[..|matches|] == matches;
  }

  /** The records name the valid words of the text, in order and with repetitions; each
      record offers the USD and EUR pairs, points at the listings page and says the roadmap
      includes its symbol. A symbol gets a record exactly when it is a valid whole word of
      two to six capitals somewhere in the text. */
  lemma SectionRecordsSpec(text: string, now: string, t: string)
    ensures Map(SectionRecords(text, now), Token) == Filter(SectionWords(text), IsValidTokenSymbol)
    ensures forall l :: l in SectionRecords(text, now) ==>
              IsSymbol(l.token, 2, 6) && IsValidTokenSymbol(l.token) &&
              l.pairs == [PairName(l.token, "USD"), PairName(l.token, "EUR")] &&
              l.url == Some(ListingsUrl) && l.title == "Kraken roadmap includes " + l.token &&
              l.name.None? && l.date.None?
    ensures (exists l :: l in SectionRecords(text, now) && l.token == t) <==>
              IsValidTokenSymbol(t) &&
              exists j :: 0 <= j < |text| && Match(Word(2, 6), text, j).Some? &&
                          t == Group(text, Match(Word(2, 6), text, j).value)
  {
    var words := Filter(SectionWords(text), IsValidTokenSymbol);
    var rs := SectionRecords(text, now);
    FindAllShape(Word(2, 6), text, 0);
    FindAllSpec(Word(2, 6), text, 0, t);
    forall l | l in rs
      ensures l == SectionRecord(l.token, now) && l.token in words
    {
      var k :| 0 <= k < |rs| && rs[k] == l;
    }
    if IsValidTokenSymbol(t) && t in SectionWords(text) {
      assert t in words;
      var k :| 0 <= k < |words| && words[k] == t;
      assert rs[k].token == t;
    }
  }

  // ---------------------------------------------------------------- announcement links

  /** `parse_listing_link`: only the leftmost run of two to six capitals is considered; no
      run, or an invalid one, gives nothing. */
  function ParseListingLink(text: string, url: string, now: string): Option<ScrapedListing> {
    match Search(Run(2, 6), text, 0)
    case None => None
    case Some(token) =>
      if !IsValidTokenSymbol(token) then None
      else Some(ScrapedListing(token, None, None, [PairName(token, "USD"), PairName(token, "EUR")],
                               Some(url), now, text))
  }

  /** A record is produced exactly when the leftmost run of capitals is a valid symbol; it
      then names that symbol, offers its USD and EUR pairs and keeps the URL and text. */
  lemma ParseListingLinkSpec(text: string, url: string, now: string)
    ensures ParseListingLink(text, url, now).Some? <==>
              Search(Run(2, 6), text, 0).Some? && IsValidTokenSymbol(Search(Run(2, 6), text, 0).value)
    ensures ParseListingLink(text, url, now).Some? ==>
              var l := ParseListingLink(text, url, now).value;
              IsSymbol(l.token, 2, 6) &&
              (exists j :: Leftmost(Run(2, 6), text, 0, j) && l.token == Group(text, Match(Run(2, 6), text, j).value)) &&
              l.pairs == [PairName(l.token, "USD"), PairName(l.token, "EUR")] &&
              l.url == Some(url) && l.title == text && l.name.None? && l.date.None?
  {
    if Search(Run(2, 6), text, 0).Some? {
      SearchLeftmost(Run(2, 6), text, 0);
      var j :| Leftmost(Run(2, 6), text, 0, j) &&
               Search(Run(2, 6), text, 0).value == Group(text, Match(Run(2, 6), text, j).value);
      GroupShape(Run(2, 6), text, j);
    }
  }

  /** Later runs are not tried: text whose first capitals spell a common word gives
      nothing, even when a valid symbol follows. */
  lemma FirstRunOnly(url: string, now: string)
    ensures ParseListingLink("NEW SOL listing", url, now).None?
  {
    var text := "NEW SOL listing";
    assert RunLen(text, 3, UpperClass) == 0;
    assert RunLen(text, 0, UpperClass) == 3;
    assert Match(Run(2, 6), text, 0) == Some(Span(0, 3, 3));
    assert text[0..3] == "NEW";
    assert Search(Run(2, 6), text, 0) == Some("NEW");
  }

  /** One link: its stripped text, when listing-related, parsed against the absolute URL. */
  function LinkParsed(link: Link, now: string): Option<ScrapedListing> {
    var text := Strip(link.text);
    if IsListingRelated(text) then ParseListingLink(text, PrefixRelative(BaseUrl, link.href), now) else None
  }

  function LinkListing(now: string): Link -> Option<ScrapedListing> {
    link => LinkParsed(link, now)
  }

  function SectionListings(now: string): string -> seq<ScrapedListing> {
    text => SectionRecords(text, now)
  }

  /** The parsed listings page: the text of each upcoming section, and the links. */
  datatype Page = Page(sections: seq<string>, links: seq<Link>)

  /** `get_upcoming_listings`: the records of every section, then those of the first ten
      links; a page that could not be fetched gives nothing. */
  function UpcomingListings(page: Option<Page>, now: string): seq<ScrapedListing> {
    if page.None? then []
    else
      var p := page.value;
      FlatMap(p.sections, SectionListings(now)) + FilterMap(p.links[..Min(10, |p.links|)], LinkListing(now))
  }

  method ParseLink(link: Link, now: string) returns (listing: Option<ScrapedListing>)
    ensures listing == LinkParsed(link, now)
  {
    var text := Strip(link.text);
    if !IsListingRelated(text) {
      return None;
    }
    var fullUrl := if "/" <= link.href then BaseUrl + link.href else link.href;
    listing := ParseListingLink(text, fullUrl, now);
  }

  /** The loop over the upcoming sections. */
  method CollectSections(sections: seq<string>, now: string) returns (listings: seq<ScrapedListing>)
    ensures listings == FlatMap(sections, SectionListings(now))
  {
    listings := [];
    for k := 0 to |sections|
      invariant listings == FlatMap(sections[..k], SectionListings(now))
    {
      PrefixSnoc(sections, k);
      FlatMapSnoc(sections[..k], sections[k], SectionListings(now));
      var tokens := ExtractTokensFromSection(sections[k], now);
      listings := listings + tokens;
    }
    assert sections[..|sections|] == sections;
  }

  /** The loop over the first ten links. */
  method CollectLinks(links: seq<Link>, now: string) returns (listings: seq<ScrapedListing>)
    ensures listings == FilterMap(links[..Min(10, |links|)], LinkListing(now))
  {
    listings := [];
    var firstTen := links[..Min(10, |links|)];
    for k := 0 to |firstTen|
      invariant listings == FilterMap(firstTen[..k], LinkListing(now))
    {
      PrefixSnoc(firstTen, k);
      FilterMapSnoc(firstTen[..k], firstTen[k], LinkListing(now));
      var listing := ParseLink(firstTen[k], now);
      if listing.Some? {
        listings := listings + [listing.value];
      }
    }
    assert firstTen[..|firstTen|] == firstTen;
  }

  method GetUpcomingListings(page: Option<Page>, now: string) returns (listings: seq<ScrapedListing>)
    ensures listings == UpcomingListings(page, now)
  {
    if page.None? {
      return [];
    }
    var fromSections := CollectSections(page.value.sections, now);
    var fromLinks := CollectLinks(page.value.links, now);
    listings := fromSections + fromLinks;
  }

  /** `l` was read from `link`: its title is the link's stripped, listing-related text, its
      URL the link's absolute URL, and its token a valid symbol of two to six capitals. */
  predicate FromLink(l: ScrapedListing, link: Link) {
    l.title == Strip(link.text) && IsListingRelated(l.title) &&
    l.url == Some(PrefixRelative(BaseUrl, link.href)) &&
    IsSymbol(l.token, 2, 6) && IsValidTokenSymbol(l.token)
  }

  /** A link yields a record only when its stripped text is listing-related and its
      leftmost run of capitals is a valid symbol; the record is read from that link. */
  lemma LinkParsedSpec(link: Link, now: string)
    ensures LinkParsed(link, now).Some? ==> FromLink(LinkParsed(link, now).value, link)
  {
    var text := Strip(link.text);
    if IsListingRelated(text) {
      ParseListingLinkSpec(text, PrefixRelative(BaseUrl, link.href), now);
    }
  }

  /** There are at most ten records from the links, each read from one of the first ten. */
  lemma LinkListingsSpec(links: seq<Link>, now: string, l: ScrapedListing)
    ensures |FilterMap(links[..Min(10, |links|)], LinkListing(now))| <= 10
    ensures l in FilterMap(links[..Min(10, |links|)], LinkListing(now)) ==>
              exists k :: 0 <= k < Min(10, |links|) && FromLink(l, links[k])
  {
    var ls := links[..Min(10, |links|)];
    FilterMapSpec(ls, LinkListing(now), l);
    if l in FilterMap(ls, LinkListing(now)) {
      var k := LinkListingFrom(ls, now, l);
      assert ls[k] == links[k];
    }
  }

  /** The position of a link that yields `l`. */
  lemma LinkListingFrom(ls: seq<Link>, now: string, l: ScrapedListing) returns (k: nat)
    requires l in FilterMap(ls, LinkListing(now))
    ensures k < |ls| && FromLink(l, ls[k])
  {
    FilterMapSpec(ls, LinkListing(now), l);
    k :| 0 <= k < |ls| && LinkListing(now)(ls[k]) == Some(l);
    LinkParsedSpec(ls[k], now);
  }

  /** A symbol named in any upcoming section gets a record for each valid occurrence, all of
      them before the first record from a link. */
  lemma UpcomingListingsSections(p: Page, now: string, l: ScrapedListing)
    ensures l in FlatMap(p.sections, SectionListings(now)) <==>
              exists k :: 0 <= k < |p.sections| && l in SectionRecords(p.sections[k], now)
    ensures FlatMap(p.sections, SectionListings(now)) <= UpcomingListings(Some(p), now)
  {
    FlatMapSpec(p.sections, SectionListings(now), l);
  }
}
