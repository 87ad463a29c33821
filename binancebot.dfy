/** The stand-alone Binance bot: read the first ten links of the announcement page, keep
    the listing announcements that name a token, alert on those whose id the cache does not
    hold, and replace the cache with this run's announcements by id. */
module BinanceBot {
  import opened Wrappers
  import opened Text
  import opened Seqs
  import opened Patterns
  import opened Links
  import opened Delivery
  import opened Cycle

  datatype Announcement = Announcement(title: string, url: string, token: string, id: string)

  const ListingKeywords: seq<string> := ["will list", "listing", "binance will list", "will be listed"]

  /** `is_listing_announcement`: a keyword occurs in the lower-cased title. "binance will
      list" adds nothing, since any title holding it also holds "will list". */
  function IsListingAnnouncement(title: string): (r: bool)
    ensures r <==> Contains(Lower(title), "will list") || Contains(Lower(title), "listing") ||
                   Contains(Lower(title), "will be listed")
  {
    ListingKeywordCases(Lower(title));
    AnyKeyword(Lower(title), ListingKeywords)
  }

  lemma ListingKeywordCases(low: string)
    ensures AnyKeyword(low, ListingKeywords) <==>
              Contains(low, "will list") || Contains(low, "listing") || Contains(low, "will be listed")
  {
    if Contains(low, "binance will list") {
      ContainsTail(low, "binance ", "will list");
    }
    if Contains(low, "will list") {
      assert Contains(low, ListingKeywords[0]);
    }
    if Contains(low, "listing") {
      assert Contains(low, ListingKeywords[1]);
    }
    if Contains(low, "will be listed") {
      assert Contains(low, ListingKeywords[3]);
    }
  }

  /** Text that contains `pre + pat` contains `pat`. */
  lemma ContainsTail(text: string, pre: string, pat: string)
    requires Contains(text, pre + pat)
    ensures Contains(text, pat)
  {
    var i :| 0 <= i <= |text| && pre + pat <= text[i..];
    assert pat <= text[i + |pre|..];
  }

  const FalsePositives: set<string> := {"UTC", "GMT", "THE", "AND", "FOR", "NEW"}

  predicate Kept(m: string) { m !in FalsePositives && |m| >= 2 }

  /** The standalone words of two to eight capitals in the title, in order. */
  function Capitals(title: string): seq<string> {
    FindAll(Word(2, 8), title, 0)
  }

  /** `extract_token`: the first capitals word that is not a false positive. */
  function ExtractToken(title: string): (t: Option<string>)
    ensures t.Some? ==> t.value in Capitals(title) && t.value !in FalsePositives
  {
    var tokens := Filter(Capitals(title), Kept);
    if tokens == [] then None
    else
      HeadIsMember(tokens);
      Some(tokens[0])
  }

  /** No token is found exactly when every capitals word is a false positive. */
  lemma ExtractTokenNone(title: string)
    ensures ExtractToken(title).None? <==> forall m :: m in Capitals(title) ==> m in FalsePositives
  {
    var ms := Capitals(title);
    FindAllShape(Word(2, 8), title, 0);
    if ExtractToken(title).None? {
      forall m | m in ms ensures m in FalsePositives {
      }
    } else {
      HeadIsMember(Filter(ms, Kept));
    }
  }

  /** The token is the first capitals word that is not a false positive. */
  lemma ExtractTokenFirst(title: string)
    requires ExtractToken(title).Some?
    ensures exists k :: 0 <= k < |Capitals(title)| && Capitals(title)[k] == ExtractToken(title).value &&
                        forall j :: 0 <= j < k ==> Capitals(title)[j] in FalsePositives
  {
    var ms := Capitals(title);
    FindAllShape(Word(2, 8), title, 0);
    FilterHead(ms, Kept);
    var k: nat :| FirstKept(ms, Kept, k) && ms[k] == Filter(ms, Kept)[0];
    assert forall j :: 0 <= j < k ==> ms[j] in ms;
  }

  /** The token is two to eight capitals that stand on their own in the title, and not
      a false positive. */
  lemma ExtractTokenShape(title: string)
    requires ExtractToken(title).Some?
    ensures IsSymbol(ExtractToken(title).value, 2, 8) && ExtractToken(title).value !in FalsePositives
    ensures exists j :: 0 <= j < |title| && Match(Word(2, 8), title, j).Some? &&
                        ExtractToken(title).value == Group(title, Match(Word(2, 8), title, j).value)
  {
    var ms := Capitals(title);
    var t := ExtractToken(title).value;
    HeadIsMember(Filter(ms, Kept));
    FindAllShape(Word(2, 8), title, 0);
    FindAllSpec(Word(2, 8), title, 0, t);
  }

  const AnnouncementBase := "https://www.binance.com"

  /** `url.split('/')[-1] if url else title` on the raw `href`. */
  function AnnouncementId(href: string, title: string): (id: string)
    ensures href != [] ==> '/' !in id && |id| <= |href| && href[|href| - |id|..] == id
    ensures href != [] && |id| < |href| ==> href[|href| - |id| - 1] == '/'
    ensures href == [] ==> id == title
  {
    if href != [] then LastSegment(href, '/') else title
  }

  /** One link of the page, when it is a listing announcement with a token. */
  function ToAnnouncement(link: Link): (a: Option<Announcement>)
    ensures a.None? <==> !IsListingAnnouncement(Strip(link.text)) || ExtractToken(Strip(link.text)).None?
    ensures a.Some? ==> a.value.title == Strip(link.text) &&
                        Some(a.value.token) == ExtractToken(a.value.title) &&
                        a.value.url == PrefixRelative(AnnouncementBase, link.href) &&
                        a.value.id == AnnouncementId(link.href, a.value.title)
  {
    var title := Strip(link.text);
    if !IsListingAnnouncement(title) then None
    else
      match ExtractToken(title)
      case None => None
      case Some(token) =>
        Some(Announcement(title, PrefixRelative(AnnouncementBase, link.href), token,
                          AnnouncementId(link.href, title)))
  }

  /** The announcements of `links`, in page order. */
  function Announcements(links: seq<Link>): seq<Announcement> {
    FilterMap(links, ToAnnouncement)
  }

  /** `get_binance_announcements`: the announcements among the first ten links of the
      page; a page that could not be fetched gives none. */
  function CurrentAnnouncements(page: Option<seq<Link>>): seq<Announcement> {
    if page.None? then [] else Announcements(page.value[..Min(10, |page.value|)])
  }

  method GetBinanceAnnouncements(page: Option<seq<Link>>) returns (announcements: seq<Announcement>)
    ensures announcements == CurrentAnnouncements(page)
  {
    announcements := [];
    if page.None? {
      return;
    }
    var links := page.value[..Min(10, |page.value|)];
    for k := 0 to |links|
      invariant announcements == Announcements(links[..k])
    {
      PrefixSnoc(links, k);
      FilterMapSnoc(links[..k], links[k], ToAnnouncement);
      var a := ToAnnouncement(links[k]);
      if a.Some? {
        announcements := announcements + [a.value];
      }
    }
    assert links[..|links|] == links;
  }

  /** Every announcement comes from one of the first ten links, is a listing title with
      the token the title names, and the page yields at most ten of them. */
  lemma AnnouncementsFrom(links: seq<Link>, a: Announcement)
    ensures |Announcements(links)| <= |links|
    ensures a in Announcements(links) ==>
              (exists k :: 0 <= k < |links| && ToAnnouncement(links[k]) == Some(a)) &&
              IsListingAnnouncement(a.title) && ExtractToken(a.title) == Some(a.token)
  {
    FilterMapSpec(links, ToAnnouncement, a);
  }

  lemma CurrentAnnouncementsBound(page: Option<seq<Link>>)
    ensures |CurrentAnnouncements(page)| <= 10
  {
    if page.Some? {
      var a :| true;
      AnnouncementsFrom(page.value[..Min(10, |page.value|)], a);
    }
  }

  const DatePatterns: seq<Pattern> := [DateTime, TimeParenUtc, AtTimeUtc]

  /** `extract_listing_datetime`: the first date pattern, in list order, found on the
      announcement page; nothing when the page could not be fetched. */
  function ListingDatetime(pages: map<string, string>, url: string): Option<string> {
    if url in pages then FirstMatching(DatePatterns, pages[url]) else None
  }

  method ExtractListingDatetime(pages: map<string, string>, url: string) returns (r: Option<string>)
    ensures r == ListingDatetime(pages, url)
  {
    if url !in pages {
      return None;
    }
    r := SearchInOrder(DatePatterns, pages[url]);
  }

  /** The alert text for a token, a listing time (shown when truthy) and the link: it opens
      with the token and closes with the link. */
  function AlertText(token: string, dateTime: Option<string>, url: string): (m: string)
    ensures token <= m && |url| <= |m| && m[|m| - |url|..] == url
  {
    token + " is going to be listed on Binance" +
    (if Truthy(dateTime) then " on " + dateTime.value else "") +
    ". Mark your calendars!\n\n" + "#newcoinlisting\n\n" + "View more details here: " + url
  }

  /** `format_alert`. */
  method FormatAlert(a: Announcement, pages: map<string, string>) returns (message: string)
    ensures message == AlertText(a.token, ListingDatetime(pages, a.url), a.url)
  {
    var dateTime := ExtractListingDatetime(pages, a.url);
    message := a.token + " is going to be listed on Binance";
    if Truthy(dateTime) {
      message := message + (" on " + dateTime.value);
    }
    message := message + ". Mark your calendars!\n\n";
    message := message + "#newcoinlisting\n\n";
    message := message + "View more details here: " + a.url;
  }

  /** The token reads back as the text's first word. */
  lemma AlertTextFirstWord(token: string, dateTime: Option<string>, url: string)
    requires ' ' !in token
    ensures Before(AlertText(token, dateTime, url), ' ') == token
  {
    var m := AlertText(token, dateTime, url);
    var head := token + " is going to be listed on Binance";
    assert head[|token|] == ' ';
    assert m[|token|] == ' ';
    BeforeOfPrefix(m, token, ' ');
  }

  /** A missing or empty time leaves the undated text; a time that is there is shown
      after " on ". */
  lemma AlertTextDate(token: string, dateTime: Option<string>, url: string)
    ensures !Truthy(dateTime) ==> AlertText(token, dateTime, url) == AlertText(token, None, url)
    ensures Truthy(dateTime) ==> Contains(AlertText(token, dateTime, url), " on " + dateTime.value)
  {
    if Truthy(dateTime) {
      var pre := token + " is going to be listed on Binance";
      var on := " on " + dateTime.value;
      var post := ". Mark your calendars!\n\n" + "#newcoinlisting\n\n" + "View more details here: " + url;
      assert AlertText(token, dateTime, url) == pre + on + post;
      assert on <= on[0..];
      ContainsInfix(pre, on, post, on);
    }
  }

  function AlertFor(a: Announcement, pages: map<string, string>): string {
    AlertText(a.token, ListingDatetime(pages, a.url), a.url)
  }

  function AnnId(a: Announcement): string { a.id }

  /** The alerts for the announcements in turn. */
  function Alerts(anns: seq<Announcement>, pages: map<string, string>): seq<string> {
    if anns == [] then []
    else
      var a := anns[|anns| - 1];
      Alerts(anns[..|anns| - 1], pages) + [AlertFor(a, pages)]
  }

  function Accepts(failsOn: set<string>): string -> bool {
    m => m !in failsOn
  }

  class BinanceListingBot {
    const cache: Store<Announcement>
    const bot: AlertSink<string>

    constructor (cache: Store<Announcement>, bot: AlertSink<string>)
      ensures this.cache == cache && this.bot == bot
    {
      this.cache := cache;
      this.bot := bot;
    }

    /** `run`: alert on every announcement whose id the cache does not hold (a failed send
        is logged and skipped), then replace the cache with this run's announcements by
        id, also when there are none. */
    method Run(page: Option<seq<Link>>, pages: map<string, string>)
      modifies cache, bot
      ensures var previous := if old(cache.snapshot).Some? then old(cache.snapshot).value else map[];
              var current := CurrentAnnouncements(page);
              var alerts := Alerts(Unseen(current, AnnId, previous.Keys), pages);
              bot.attempts == old(bot.attempts) + alerts &&
              bot.delivered == old(bot.delivered) + Filter(alerts, Accepts(bot.failsOn)) &&
              cache.snapshot == Some(IndexBy(current, AnnId))
    {
      var previous := cache.Load();
      var current := GetBinanceAnnouncements(page);
      var newAnnouncements, currentCache := Classify(current, previous.Keys);
      SendAlerts(newAnnouncements, pages, bot);
      cache.Save(currentCache);
    }
  }

  /** The first loop of `run`. */
  method Classify(current: seq<Announcement>, previous: set<string>)
    returns (newAnnouncements: seq<Announcement>, currentCache: map<string, Announcement>)
    ensures newAnnouncements == Unseen(current, AnnId, previous)
    ensures currentCache == IndexBy(current, AnnId)
  {
    newAnnouncements := [];
    currentCache := map[];
    for k := 0 to |current|
      invariant currentCache == IndexBy(current[..k], AnnId)
      invariant newAnnouncements == Unseen(current[..k], AnnId, previous)
    {
      PrefixSnoc(current, k);
      FilterSnoc(current[..k], current[k], NotSeen(AnnId, previous));
      IndexBySnoc(current[..k], current[k], AnnId);
      var id := current[k].id;
      currentCache := currentCache[id := current[k]];
      if id !in previous {
        newAnnouncements := newAnnouncements + [current[k]];
      }
    }
    assert current[..|current|] == current;
  }

  /** The second loop of `run`: format and send each alert; `send_alert` swallows a
      failed send. */
  method SendAlerts(anns: seq<Announcement>, pages: map<string, string>, bot: AlertSink<string>)
    modifies bot
    ensures bot.attempts == old(bot.attempts) + Alerts(anns, pages)
    ensures bot.delivered == old(bot.delivered) + Filter(Alerts(anns, pages), Accepts(bot.failsOn))
  {
    ghost var attempts, delivered := bot.attempts, bot.delivered;
    ghost var sent: seq<string> := [];
    for i := 0 to |anns|
      invariant sent == Alerts(anns[..i], pages)
      invariant bot.attempts == attempts + sent
      invariant bot.delivered == delivered + Filter(sent, Accepts(bot.failsOn))
    {
      var message := SendOne(anns[..i], anns[i], pages, bot);
      assert anns[..i + 1] == anns[..i] + [anns[i]];
      FilterSnoc(sent, message, Accepts(bot.failsOn));
      AppendAssoc(attempts, sent, [message]);
      AppendAssoc(delivered, Filter(sent, Accepts(bot.failsOn)),
                  if message !in bot.failsOn then [message] else []);
      sent := sent + [message];
    }
    assert anns[..|anns|] == anns;
  }

  /** One iteration: format the alert for `a` and hand it to the sink. */
  method SendOne(ghost done: seq<Announcement>, a: Announcement, pages: map<string, string>,
                 bot: AlertSink<string>) returns (message: string)
    modifies bot
    ensures Alerts(done + [a], pages) == Alerts(done, pages) + [message]
    ensures bot.attempts == old(bot.attempts) + [message]
    ensures bot.delivered == old(bot.delivered) + (if message !in bot.failsOn then [message] else [])
  {
    message := FormatAlert(a, pages);
    assert (done + [a])[..|done|] == done;
    var _ := bot.Deliver(message);
  }

  /** Two runs on the same page: the second one sends nothing. */
  method RunTwice(cache: Store<Announcement>, bot: AlertSink<string>,
                  page: Option<seq<Link>>, pages: map<string, string>)
    modifies cache, bot
    ensures var previous := if old(cache.snapshot).Some? then old(cache.snapshot).value else map[];
            bot.attempts == old(bot.attempts) +
                            Alerts(Unseen(CurrentAnnouncements(page), AnnId, previous.Keys), pages)
  {
    var monitor := new BinanceListingBot(cache, bot);
    monitor.Run(page, pages);
    monitor.Run(page, pages);
    RerunPicksNothing(CurrentAnnouncements(page), AnnId);
  }
}
