# Crypto listing monitor, modelled in Dafny

The system watches several sources for announcements that a cryptocurrency exchange is
about to list a new token, and sends an alert to a Telegram chat for each listing it has
not alerted on before. Its core is:

- the CoinMarketCal client (`src/coinmarketcal_client.py`): decides which calendar events
  are exchange listings, reads the token, exchange, date and trading pairs out of an event,
  keeps only the five priority exchanges and sorts the result by exchange priority;
- four scrapers (`src/scrapers/`), one per exchange (Binance, Coinbase, Bybit, Kraken), each
  turning an announcement page or feed into listing records with regular expressions;
- the listing monitor (`src/monitor.py`): loads the cache of listings already alerted on,
  keeps the high-confidence listings it has not seen, sends one alert each, and saves the
  cache;
- the older stand-alone Binance bot (`monitor.py`), which does the same for the Binance
  announcement page alone with its own cache of announcement ids;
- the Telegram bot (`src/telegram_bot.py`): formats the Markdown alert text and sends it.

The Dafny modules follow those files: `CoinMarketCal`, `BinanceScraper`, `CoinbaseScraper`,
`BybitScraper`, `KrakenScraper`, `Monitor`, `BinanceBot` and `TelegramBot`, on top of shared
modules: `Text` (ASCII character classes, case mapping, substring tests, stripping),
`Patterns` (the regular expressions the sources use, written out as explicit scanners, with
`re.search` and `re.findall`), `Seqs` (filter, map, filter-map, flat-map, de-duplication),
`Sorting` (a stable sort by key, as Python's `list.sort`), `Cycle` (the seen-set step of a
monitoring cycle), `Links` (making a link absolute), `Records` (the listing records and the
trading-pair search) and `Delivery` (the cache file and the alert channel as objects with
state).

Every loop of the sources is a method proved equal to a function; the properties are then
proved about the functions. HTTP responses, parsed HTML, the clock and the date parser are
parameters of the model: a page is the sequence of elements the source iterates over, and a
request that fails is `None` or `Failed`.

Where the prose description of the system and the code disagree, the model follows the code:

- On "THE NEW LISTING OF XYZ" the CoinMarketCal token extraction gives `OF` before `XYZ`
  (`OF` is a two-letter word; `LISTING` is longer than six letters and is dropped).
- The Binance scraper reads "Binance Will List Example Coin (XYZ)" as the token `EXAMPLE`:
  the "list" pattern is case-insensitive and matches the first word after "List", and a
  "list" match is preferred over a parenthesised symbol (BinanceScraper.ExtractTokenShape).
- The stand-alone bot (`monitor.py`) saves its cache even when the page yields no
  announcement, while `src/monitor.py` returns early without saving when nothing is
  fetched.

## Model

| member | source | states |
|---|---|---|
| CoinMarketCal.IsExchangeListing | src/coinmarketcal_client.py:75-94 | an event is a listing exactly when one of the eight keywords occurs in the lower-cased "title description" text |
| CoinMarketCal.ExtractExchangeName | src/coinmarketcal_client.py:148-162 | the loop returns the first exchange name, in the fixed list order, contained in the lower-cased text, and `None` exactly when none is contained |
| CoinMarketCal.CoinbaseProFirst | src/coinmarketcal_client.py:152-156 | a text containing "coinbase pro" is attributed to "coinbase pro", never to "coinbase" |
| CoinMarketCal.Tokens | src/coinmarketcal_client.py:164-192 | a token is returned exactly when it is a match of one of the three patterns and is 2 to 6 long and not a false positive |
| CoinMarketCal.ExtractTokens | src/coinmarketcal_client.py:164-192 | the loops collect the matches of the bare, `$` and parenthesised patterns in that order, keep the valid ones and drop repeats keeping first occurrences |
| CoinMarketCal.TokensWellFormed | src/coinmarketcal_client.py:186-192 | every token is 2 to 6 capital letters, is not a false positive, and no token repeats |
| CoinMarketCal.TokenFound | src/coinmarketcal_client.py:169-190 | every whole word of capitals that is 2 to 6 long and not a false positive is among the tokens |
| CoinMarketCal.TradingPairs | src/coinmarketcal_client.py:194-213 | the pair list is never empty and every pair starts with `TOKEN/` |
| CoinMarketCal.ExtractTradingPairs | src/coinmarketcal_client.py:194-213 | the method gives the pairs named in the upper-cased text, or the two defaults |
| CoinMarketCal.TradingPairsSpec | src/coinmarketcal_client.py:198-213 | the pair list is never empty; a pair is listed exactly when it is `TOKEN/quote` for a known quote and occurs in the upper-cased text; with none found it is exactly `[T/USDT, T/BTC]` |
| CoinMarketCal.UsdtAlsoGivesUsd | src/coinmarketcal_client.py:204-207 | a text naming `T/USDT` also yields `T/USD`, because the test is a substring test |
| CoinMarketCal.ParseListingEvent | src/coinmarketcal_client.py:96-111 | a listing is produced exactly when a token (title first, else description) and an exchange are found |
| CoinMarketCal.ParseListingEventSpec | src/coinmarketcal_client.py:96-142 | in a listing produced from an event, the token is the first found and well formed, its exchange a known lower-case name, its name that of the first coin (none without coins), its date "TBA" when absent and otherwise the reformatted date or the raw text, its pairs the trading pairs of "title description" for the token (never empty), its URL the event URL, its title and description the event's, its confidence the percentage or 0 when absent |
| CoinMarketCal.LowerOfLowercaseName | src/coinmarketcal_client.py:133 | lower-casing a detected exchange name leaves it unchanged |
| CoinMarketCal.IsPriorityExchange | src/coinmarketcal_client.py:215-217 | an exchange is a priority one exactly when its lower-cased name is binance, coinbase, coinbase pro, bybit or kraken |
| CoinMarketCal.GetExchangePriority | src/coinmarketcal_client.py:219-221 | the priority is below 999 exactly for the priority exchanges, between 1 and 4 for them and 999 for every other exchange |
| CoinMarketCal.GetExchangeInfo | src/coinmarketcal_client.py:223-228 | a priority exchange gets its whole table row (emoji, impact and priority), the priority being the one `get_exchange_priority` gives; any other gets the default emoji and impact with no priority |
| CoinMarketCal.PriorityOrderHead | src/coinmarketcal_client.py:22-24 | binance has priority 1 and coinbase 2 |
| CoinMarketCal.PriorityOrderCoinbasePro | src/coinmarketcal_client.py:25 | coinbase pro ranks with coinbase, at 2 |
| CoinMarketCal.PriorityOrderTail | src/coinmarketcal_client.py:26-27 | bybit has priority 3, kraken 4, and kraken ranks before any exchange outside the table |
| CoinMarketCal.PriorityOfListed | src/coinmarketcal_client.py:219-221 | a lower-case table name gets the priority of its row |
| CoinMarketCal.GetUpcomingListings | src/coinmarketcal_client.py:30-73 | the loop collects the parsed listing events on priority exchanges, then sorts them by priority; a failed request gives nothing |
| CoinMarketCal.PriorityListingsFrom | src/coinmarketcal_client.py:59-63 | every collected listing is on a priority exchange and is the parse of some listing event of the response |
| CoinMarketCal.UpcomingListingsSpec | src/coinmarketcal_client.py:59-66 | the result is sorted by priority, is a permutation of what the loop collected, keeps the collection order among equal priorities, and holds only listings of priority 1 to 4 read from the response's events |
| BinanceScraper.IsListingAnnouncement | src/scrapers/binance_scraper.py:50-60 | a title is a listing announcement exactly when one of its five keywords occurs in the lower-cased title |
| BinanceScraper.ExtractTokenNone | src/scrapers/binance_scraper.py:67-72 | no token is found exactly when neither the case-insensitive `list\s+` pattern nor the parenthesised pattern matches anywhere in the title |
| BinanceScraper.ExtractTokenShape | src/scrapers/binance_scraper.py:67-74 | a token is 2 to 10 capital letters: the upper-cased group of the leftmost case-insensitive "list" match, and only when there is none, the group of the leftmost parenthesised symbol |
| BinanceScraper.ExtractTokenNameNone | src/scrapers/binance_scraper.py:106-112 | no name is found exactly when the name pattern matches nowhere |
| BinanceScraper.ExtractTokenNameShape | src/scrapers/binance_scraper.py:106-112 | a name is the stripped text between the leftmost case-insensitive "list" and whitespace and the first `(` after it; it holds no `(` and neither starts nor ends with whitespace |
| BinanceScraper.ParsedAnnouncement | src/scrapers/binance_scraper.py:63-104 | a listing comes back exactly when the title has a token; it carries the token, name, URL and title; with the announcement page fetched its pairs and date come from that page, otherwise pairs are empty and the date absent |
| BinanceScraper.ParseListingAnnouncement | src/scrapers/binance_scraper.py:63-104 | the method builds the listing `ParsedAnnouncement` describes |
| BinanceScraper.GetUpcomingListings | src/scrapers/binance_scraper.py:17-48 | the loop over the first ten links gives the parsed listing of each link with an `href`, non-empty stripped text and a listing title, in page order; a failed request gives nothing |
| BinanceScraper.UpcomingListingsSpec | src/scrapers/binance_scraper.py:28-43 | at most ten listings come back, each from one of the first ten links with an `href`, a non-empty listing title and a token, its URL the `href` made absolute |
| BinanceScraper.TradingPairsSpec | src/scrapers/binance_scraper.py:114-131 | at most four pairs, in quote order; a pair is listed exactly when it is `TOKEN/quote` for one of the four quotes and occurs in the upper-cased page |
| BinanceScraper.ListingDateSpec | src/scrapers/binance_scraper.py:133-147 | no date is found exactly when none of the three patterns matches; when the date-time pattern matches, its match is the date |
| CoinbaseScraper.IsListingAnnouncement | src/scrapers/coinbase_scraper.py:87-100 | a title is a listing announcement exactly when one of its seven keywords occurs in the lower-cased title |
| CoinbaseScraper.TitleTokensSpec | src/scrapers/coinbase_scraper.py:131-152 | the tokens hold no repetition; a string is a token exactly when it is a match of one of the three patterns on the upper-cased title and is no false positive; every token is 2 to 6 capitals |
| CoinbaseScraper.TokenShape | src/scrapers/coinbase_scraper.py:136-146 | each pattern captures 2 to 6 capitals, so the length test of the loop always passes |
| CoinbaseScraper.ExtractTokensFromTitle | src/scrapers/coinbase_scraper.py:131-152 | the nested loops collect the matches of the patterns in turn, drop the false positives and keep each token once |
| CoinbaseScraper.ParsedAnnouncement | src/scrapers/coinbase_scraper.py:102-125 | nothing exactly when the title has no token; otherwise one record per token in token order, returned bare exactly when there is one token |
| CoinbaseScraper.TitleRecordsSpec | src/scrapers/coinbase_scraper.py:113-123 | every record is for a distinct, well-formed token of the title, nameless and undated, with the USD and EUR pairs, the URL and the title |
| CoinbaseScraper.ParseListingAnnouncement | src/scrapers/coinbase_scraper.py:102-125 | the method builds the result `ParsedAnnouncement` describes |
| CoinbaseScraper.ArticleUrl | src/scrapers/coinbase_scraper.py:52-56 | a missing link stays missing; a non-empty link not starting with "http" gets the blog URL prepended; any other is kept |
| CoinbaseScraper.ExtractTokenName | src/scrapers/coinbase_scraper.py:154-158 | no token name is ever found |
| CoinbaseScraper.ParseArticle | src/scrapers/coinbase_scraper.py:45-60 | the loop body gives nothing unless the stripped heading is a listing title, and then its parse against the article URL |
| CoinbaseScraper.CheckBlogAnnouncements | src/scrapers/coinbase_scraper.py:28-69 | the loop over the latest five articles collects each article's result in order; a failed request gives nothing |
| CoinbaseScraper.CheckTwitterApi | src/scrapers/coinbase_scraper.py:71-85 | the Twitter placeholder finds no listing |
| CoinbaseScraper.GetUpcomingListings | src/scrapers/coinbase_scraper.py:18-26 | the blog results followed by the (always empty) Twitter results are the blog results |
| CoinbaseScraper.ArticleParsedSpec | src/scrapers/coinbase_scraper.py:49-60 | an article gives a result only when its stripped heading is a listing title, and then gives one exactly when that heading has a token |
| CoinbaseScraper.BlogListingsSpec | src/scrapers/coinbase_scraper.py:43-60 | at most five results, and a result is returned exactly when one of the latest five articles gives it |
| CoinbaseScraper.MultiTokenArticleNests | src/scrapers/coinbase_scraper.py:58-60 | as written, an article naming two or more tokens adds one element that is the list of its records |
| CoinbaseScraper.ArticleRecordsSpec | src/scrapers/coinbase_scraper.py:45-60 | the records an article contributes are exactly the records for the tokens of its listing heading |
| CoinbaseScraper.ArticleRecordsOf | src/scrapers/coinbase_scraper.py:51-60 | an article contributes the records of its heading's tokens, or nothing when the heading is no listing title |
| CoinbaseScraper.BlogRecordsSpec | src/scrapers/coinbase_scraper.py:43-60 | the flattened result holds exactly the records the latest five articles yield |
| CoinbaseScraper.BlogRecordsFlatten | src/scrapers/coinbase_scraper.py:58-60 | the flattened result is the concatenation, in order, of the records of the elements returned as written |
| KrakenScraper.IsValidTokenSymbol | src/scrapers/kraken_scraper.py:80-86 | a symbol shorter than two is invalid; every common word has three letters, so any symbol of two, or of four or more, is valid; none of the sixteen common words ever is |
| KrakenScraper.IsListingRelated | src/scrapers/kraken_scraper.py:88-98 | a link text is listing-related exactly when one of its five keywords occurs in the lower-cased text |
| KrakenScraper.ExtractTokensFromSection | src/scrapers/kraken_scraper.py:51-78 | the loop gives one record per valid whole word of 2 to 6 capitals in the section's text, in text order |
| KrakenScraper.SectionRecordsSpec | src/scrapers/kraken_scraper.py:57-73 | the records' tokens are exactly the valid words of the text, in order and with repetitions; each record offers the USD and EUR pairs, points at the listings page and has the roadmap title; a symbol gets a record exactly when it is a valid whole word of 2 to 6 capitals somewhere in the text |
| KrakenScraper.ParseListingLinkSpec | src/scrapers/kraken_scraper.py:101-122 | a record comes back exactly when the leftmost run of capitals is a valid symbol; it names that run, offers the USD and EUR pairs and keeps the URL and the text |
| KrakenScraper.FirstRunOnly | src/scrapers/kraken_scraper.py:105-112 | later runs are not tried: "NEW SOL listing" gives nothing although SOL is valid |
| KrakenScraper.ParseLink | src/scrapers/kraken_scraper.py:37-42 | the loop body parses a listing-related stripped link text against the URL made absolute |
| KrakenScraper.CollectSections | src/scrapers/kraken_scraper.py:30-32 | the loop concatenates the records of every upcoming section, in order |
| KrakenScraper.CollectLinks | src/scrapers/kraken_scraper.py:35-44 | the loop over the first ten links collects each link's record in order |
| KrakenScraper.GetUpcomingListings | src/scrapers/kraken_scraper.py:17-49 | the section records followed by the link records; a failed request gives nothing |
| KrakenScraper.LinkParsedSpec | src/scrapers/kraken_scraper.py:37-44 | a link yields a record only when its stripped text is listing-related and names a valid symbol, and the record carries that text and the absolute URL |
| KrakenScraper.LinkListingsSpec | src/scrapers/kraken_scraper.py:35-44 | at most ten link records, each read from one of the first ten links |
| KrakenScraper.LinkListingFrom | src/scrapers/kraken_scraper.py:36-44 | every link record has the position of the link it was read from |
| KrakenScraper.UpcomingListingsSections | src/scrapers/kraken_scraper.py:30-32 | a record is among the section records exactly when some section yields it, and all section records come before the link records |
| BybitScraper.IsListingAnnouncement | src/scrapers/bybit_scraper.py:91-103 | a title is a listing announcement exactly when one of its six keywords occurs in the lower-cased title |
| BybitScraper.ExtractTokenNone | src/scrapers/bybit_scraper.py:109-111 | no token is found exactly when no two capitals stand next to each other in the title |
| BybitScraper.ExtractTokenShape | src/scrapers/bybit_scraper.py:109-113 | a token is 2 to 10 capitals, occurs in the title, and is the group at the leftmost match |
| BybitScraper.ParseListingAnnouncementSpec | src/scrapers/bybit_scraper.py:105-127 | a record comes back exactly when the title has a token; it holds the token and its USDT pair only, the URL and title, and no name or date |
| BybitScraper.ParseJsonAnnouncements | src/scrapers/bybit_scraper.py:40-58 | the loop over the first five feed entries collects the parsed listing entries in order; no `result.list` gives nothing |
| BybitScraper.ParseAnnouncementData | src/scrapers/bybit_scraper.py:129-142 | an entry gives a listing exactly when its title has a token; the listing keeps the title and carries the URL made absolute, which starts with "http" |
| BybitScraper.JsonListingsSpec | src/scrapers/bybit_scraper.py:40-58 | at most five records, each from one of the first five entries with a listing title and a token, its URL made absolute unless it starts with "http" |
| BybitScraper.ItemUrl | src/scrapers/bybit_scraper.py:76-80 | a missing link reads as ""; a non-empty link not starting with "http" gets the base URL prepended; any other is kept |
| BybitScraper.ParseItem | src/scrapers/bybit_scraper.py:69-84 | the loop body gives nothing for an item without a title element or with no listing title, and otherwise its parse |
| BybitScraper.ParseHtmlAnnouncements | src/scrapers/bybit_scraper.py:60-89 | the loop over the first five items collects each item's record in order |
| BybitScraper.HtmlListingsSpec | src/scrapers/bybit_scraper.py:60-89 | at most five records, each from one of the first five items with a title element whose stripped text is a listing title |
| BybitScraper.GetUpcomingListings | src/scrapers/bybit_scraper.py:17-38 | a failed request gives nothing, a JSON body the JSON parse, any other body the HTML parse |
| BybitScraper.UpcomingListingsBound | src/scrapers/bybit_scraper.py:47-68 | whichever way the body is read, at most five records come back |
| Monitor.GetListingKey | src/monitor.py:46-48 | the key opens with the exchange and an underscore and closes with an underscore and the date, or `unknown` when there is none |
| Monitor.Accepted | src/monitor.py:60-63 | a binance or coinbase listing is always accepted; any other exactly when it has a confidence of at least 60, a missing one counting as 0 |
| Monitor.KeyIgnoresOtherFields | src/monitor.py:46-48 | the listing key reads only the exchange, the token and the date (`unknown` when absent) |
| Monitor.KeyDeterminesFields | src/monitor.py:46-48 | when neither exchange nor token holds an underscore, two listings share a key only when they agree on exchange, token and date |
| Monitor.KeySplits | src/monitor.py:48 | splitting the key at its underscores gives back the exchange, the token and the date |
| Monitor.FilterHighConfidenceListings | src/monitor.py:55-68 | the loop keeps the listings with confidence at least 60 (0 when absent) or on binance or coinbase, in order |
| Monitor.FilterHighConfidenceSpec | src/monitor.py:59-64 | a listing is kept exactly when it is in the input and passes the test, and the result is a subsequence of the input |
| Monitor.FilterBounds | src/monitor.py:63 | a listing below 60 off binance and coinbase is dropped; a binance or coinbase listing never is |
| Monitor.LogsSnoc | src/monitor.py:101-111 | alerting one more listing appends that listing's sends to the send log and its delivered texts to the delivery log |
| Monitor.SendLogBounds | src/monitor.py:101-111 | every alerted listing has its formatted alert sent, and the number of sends lies between one and two per listing |
| Monitor.AllListingsKeys | src/monitor.py:87-91 | the cache written holds the key of every confident listing and no other key |
| Monitor.NewListingsSpec | src/monitor.py:50-94 | a listing is alerted on exactly when it is upcoming, confident and its key is not in the cache |
| Monitor.ListingMonitor.constructor | src/monitor.py:21-35 | the monitor starts from the cache file's map, or the empty map when the file is missing or unreadable |
| Monitor.ListingMonitor.Run | src/monitor.py:70-121 | with no upcoming listing nothing is sent and the cache is untouched; otherwise the new confident listings are alerted on in order and the cache becomes the map of this run's confident listings |
| Monitor.ListingMonitor.IsNewListing | src/monitor.py:50-53 | a listing is new exactly when the run's pick over that one listing picks it, that is when its key is not in the cache |
| Monitor.ListingMonitor.Classify | src/monitor.py:86-95 | the first loop of `run` builds the key map of the confident listings (last wins) and picks those whose key is not cached |
| Monitor.SendAlerts | src/monitor.py:101-111 | the second loop alerts on each new listing in turn, going on after a failed send |
| Monitor.SendOne | src/monitor.py:102-111 | one turn of that loop extends both logs by one listing's sends |
| Monitor.RunTwice | src/monitor.py:70-116 | a monitor started from the cache the previous run wrote, on the same feed, sends nothing new beyond the first run's alerts |
| BinanceBot.IsListingAnnouncement | monitor.py:81-84 | a title is a listing announcement exactly when its lower-cased text holds "will list", "listing" or "will be listed" ("binance will list" adding nothing) |
| BinanceBot.ExtractToken | monitor.py:86-95 | a token found is one of the title's capitals words and not a false positive |
| BinanceBot.ExtractTokenNone | monitor.py:86-95 | no token is found exactly when every whole word of 2 to 8 capitals in the title is a false positive |
| BinanceBot.ExtractTokenFirst | monitor.py:89-95 | the token is a capitals word of the title and every capitals word before it is a false positive |
| BinanceBot.ExtractTokenShape | monitor.py:89-95 | the token is 2 to 8 capitals, no false positive, and a whole-word match in the title |
| BinanceBot.AnnouncementId | monitor.py:68 | with a non-empty `href` the id is its last `/`-segment: it holds no `/`, ends the `href`, and is either the whole `href` or preceded by a `/`; with an empty one it is the title |
| BinanceBot.ToAnnouncement | monitor.py:58-72 | a link gives an announcement exactly when its stripped title is a listing title with a token; the announcement carries that title and token, the `/`-prefixed URL and the id |
| BinanceBot.GetBinanceAnnouncements | monitor.py:43-79 | the loop over the first ten links collects, in order, each listing-titled link with a token as an announcement; a failed request gives nothing |
| BinanceBot.AnnouncementsFrom | monitor.py:57-72 | there are no more announcements than links, and each one comes from a link, has a listing title, and carries the token that title gives |
| BinanceBot.CurrentAnnouncementsBound | monitor.py:57 | a run sees at most ten announcements |
| BinanceBot.ExtractListingDatetime | monitor.py:115-136 | the time is the first of the three patterns, in list order, found on the announcement page, and nothing when the page could not be fetched |
| BinanceBot.FormatAlert | monitor.py:97-113 | the method builds the alert text from the token, the time found on the page and the URL |
| BinanceBot.AlertText | monitor.py:104-111 | the alert opens with the token and closes with the announcement URL |
| BinanceBot.AlertTextFirstWord | monitor.py:104 | a token without spaces reads back as the alert's first word |
| BinanceBot.AlertTextDate | monitor.py:106-107 | a missing or empty time gives the undated text; a time that is there appears after " on " |
| BinanceBot.BinanceListingBot.constructor | monitor.py:17-25 | the bot is bound to its cache file and its channel |
| BinanceBot.BinanceListingBot.Run | monitor.py:150-184 | the alerts for the announcements whose id the cache does not hold are sent in order, failed sends are dropped, and the cache becomes this run's announcements by id, even when there are none |
| BinanceBot.Classify | monitor.py:161-170 | the first loop of `run` builds the id map of the current announcements (last wins) and picks those whose id is not cached |
| BinanceBot.SendAlerts | monitor.py:173-178 | the second loop sends the formatted alert for each new announcement in turn; a failed send reaches nobody and the loop goes on |
| BinanceBot.SendOne | monitor.py:175-178 | one turn formats one alert and sends it once |
| BinanceBot.RunTwice | monitor.py:150-184 | a second run on the same page, from the cache the first wrote, sends nothing |
| TelegramBot.InfoFor | src/telegram_bot.py:24-51 | an exchange in the table, looked up exactly as the listing spells it, gets its row; any other gets the standard row |
| TelegramBot.FormatListingAlert | src/telegram_bot.py:18-78 | the message built one `+=` at a time is the rendering, in order, of the alert's segments |
| TelegramBot.Segments | src/telegram_bot.py:54-76 | the header comes first, the token line second and the alert time last |
| TelegramBot.FixedLinesPresent | src/telegram_bot.py:60-70 | the exchange, priority and impact lines are always there |
| TelegramBot.NameNotePresent | src/telegram_bot.py:57-58 | the name note is there exactly when the listing has a non-empty name |
| TelegramBot.DateLinePresent | src/telegram_bot.py:63-64 | the date line is there exactly when the listing has a non-empty date, and shows it |
| TelegramBot.PairsLinePresent | src/telegram_bot.py:66-68 | the pairs line is there exactly when the listing has pairs, and shows all of them |
| TelegramBot.LinkLinePresent | src/telegram_bot.py:72-73 | the announcement link is there exactly when the listing has a non-empty URL, and points at it |
| TelegramBot.AlertMessage | src/telegram_bot.py:54-76 | the message text opens with the header and token line and ends with the alert-time line |
| TelegramBot.SimpleMessage | src/telegram_bot.py:98-100 | the plain text opens with the token and the upper-cased exchange, and ends with the link exactly when the listing has a URL |
| TelegramBot.AttemptsFor | src/telegram_bot.py:82-105 | the formatted alert is always tried first, and the plain text second exactly when the first send fails |
| TelegramBot.DeliveredFor | src/telegram_bot.py:82-109 | at most one text reaches the channel per alert |
| TelegramBot.DeliveredForSpec | src/telegram_bot.py:82-109 | what reaches the channel is an attempt the channel accepts, and nothing does only when every attempt is refused |
| TelegramBot.SendListingAlert | src/telegram_bot.py:80-109 | the formatted alert is sent, with the plain fallback after a failure; the call reports failure exactly when neither reaches the channel |
| TelegramBot.WrapperOutcome | src/telegram_bot.py:111-119 | the synchronous wrapper as written raises whether or not an event loop is already running |
| TelegramBot.AsyncOutcome | src/telegram_bot.py:121-123 | the asynchronous method as written, awaiting the wrapper inside its running loop, raises |
| TelegramBot.WrapperNeverSends | src/telegram_bot.py:111-123 | as written, the synchronous wrapper called without a running event loop always raises |
| Records.PairsInSpec | src/coinmarketcal_client.py:204-207 | a pair is selected exactly when it is `token/quote` for a listed quote and the upper-cased text contains it, in quote order |
| Records.CollectPairs | src/scrapers/binance_scraper.py:114-131 | the append loop over the quotes gives exactly the selected pairs |
| Records.ShorterQuoteFound | src/coinmarketcal_client.py:204-207 | whenever `T/long` is written in the text, `T/short` is found too for a quote `short` that begins `long` |
| Links.PrefixRelative | src/scrapers/binance_scraper.py:39 | an `href` starting with `/` gets the base prepended, any other is kept; the result always ends with the `href` |
| Links.PrefixUnlessHttp | src/scrapers/bybit_scraper.py:135-136 | a URL not starting with "http" gets the base prepended, any other is kept; the result always ends with the URL |
| Links.PrefixUnlessHttpAbsolute | src/scrapers/bybit_scraper.py:135-136 | against an absolute base the result starts with "http", so a second pass changes nothing |
| Links.PrefixRelativeIdempotent | src/scrapers/kraken_scraper.py:41 | against a base not starting with `/`, making a URL absolute twice is making it absolute once |
| Cycle.IndexBy | src/monitor.py:87-91 | the map holds exactly the keys of the items, each mapped to an item with that key |
| Cycle.IndexByLastWins | src/monitor.py:89-91 | for a repeated key, the last item with that key is kept |
| Cycle.Unseen | src/monitor.py:89-94 | an item is picked exactly when it is among the items and its key was not recorded |
| Cycle.UnseenFirstRun | src/monitor.py:35 | with an empty cache every item is new, repeats included |
| Cycle.RerunPicksNothing | monitor.py:161-183 | when the cache is the index a run on the same items saved, the next run picks nothing |
| Delivery.Store.constructor | src/monitor.py:24 | the cache starts with the given file content |
| Delivery.Store.Load | src/monitor.py:27-35 | a missing or unreadable cache reads as the empty map, any other as its content |
| Delivery.Store.Save | src/monitor.py:37-44 | saving replaces the whole cache content |
| Delivery.AlertSink.constructor | src/telegram_bot.py:9-16 | the channel starts with no send and a fixed set of texts it refuses |
| Delivery.AlertSink.Deliver | src/telegram_bot.py:85-90 | every send is recorded; it succeeds exactly when the channel accepts the text, and only then is the text delivered |
| Text.Lower | src/coinmarketcal_client.py:77 | `str.lower` on ASCII text: same length, each character lower-cased |
| Text.Upper | src/coinmarketcal_client.py:199 | `str.upper` on ASCII text: same length, each character upper-cased |
| Text.AnyKeyword | src/coinmarketcal_client.py:94 | true exactly when some keyword occurs in the text |
| Text.FirstContained | src/coinmarketcal_client.py:158-162 | the first name in list order that the text contains, and nothing exactly when it contains none |
| Text.KeywordSearchGrows | src/scrapers/binance_scraper.py:60-61 | a text that passes a lower-cased keyword test still passes it with anything around it |
| Text.StripAfterSpaces | src/scrapers/binance_scraper.py:111 | whitespace put in front of a text does not change what `str.strip` gives |
| Text.Strip | src/scrapers/binance_scraper.py:32 | `str.strip`: the result is the piece of the input left once whitespace only is removed from both ends, and it neither starts nor ends with whitespace |
| Text.TrimStart | src/scrapers/binance_scraper.py:32 | only leading whitespace is removed, all of it |
| Text.TrimEnd | src/scrapers/binance_scraper.py:32 | only trailing whitespace is removed, all of it |
| Text.LastSegment | monitor.py:68 | `split('/')[-1]`: a suffix holding no separator, preceded by one unless it is the whole text |
| Text.SplitJoined | src/monitor.py:48 | splitting at the first separator undoes joining with it when the left part holds none |
| Seqs.Dedup | src/coinmarketcal_client.py:192 | `list(dict.fromkeys(...))`: the same elements, each once |
| Seqs.DedupKeepsFirstOccurrences | src/coinmarketcal_client.py:192 | the de-duplicated list keeps the order of first occurrences |
| Seqs.FilterIsSubseq | src/monitor.py:59-64 | filtering keeps the order of the kept elements |
| Seqs.FilterHead | monitor.py:93-95 | the first kept element is the earliest element that passes the test |
| Seqs.FilterMapSpec | src/coinmarketcal_client.py:59-63 | the append-if-found loop collects exactly the found values, no more of them than inputs |
| Seqs.FlatMapSpec | src/coinmarketcal_client.py:176-178 | the extend loop collects exactly the elements of the parts |
| Sorting.InsertBy | src/coinmarketcal_client.py:66 | inserting adds exactly the one element |
| Sorting.SortBy | src/coinmarketcal_client.py:66 | `list.sort(key=...)` gives a permutation of the input |
| Sorting.SortBySorted | src/coinmarketcal_client.py:66 | the sorted list is ordered by key |
| Sorting.SortByStable | src/coinmarketcal_client.py:66 | the elements sharing a key keep their relative order |
| Patterns.RunLen | src/coinmarketcal_client.py:170 | a greedy run: every character in it is in the class and the next one is not |
| Patterns.SpacesBeforeParen | src/scrapers/binance_scraper.py:109 | a whitespace run never outlasts the run of non-`(` characters |
| Patterns.MatchWord | src/coinmarketcal_client.py:170 | a match at a position is a well-formed span starting there |
| Patterns.MatchDollar | src/coinmarketcal_client.py:171 | a match at a position is a well-formed span starting there |
| Patterns.MatchParen | src/coinmarketcal_client.py:172 | a match at a position is a well-formed span starting there |
| Patterns.MatchRun | src/scrapers/bybit_scraper.py:109 | a match at a position is a well-formed span starting there |
| Patterns.MatchListVerb | src/scrapers/binance_scraper.py:67 | a match at a position is a well-formed span starting there |
| Patterns.MatchListName | src/scrapers/binance_scraper.py:109 | a match at a position is a well-formed span starting there |
| Patterns.MatchDateTime | src/scrapers/binance_scraper.py:137 | a match at a position is a well-formed span starting there |
| Patterns.MatchSlashDate | src/scrapers/binance_scraper.py:138 | a match at a position is a well-formed span starting there |
| Patterns.MatchWillListOn | src/scrapers/binance_scraper.py:139 | a match at a position is a well-formed span starting there, ending after the nearest date that follows "on" |
| Patterns.MatchTimeParenUtc | monitor.py:124 | a match at a position is a well-formed span starting there |
| Patterns.MatchAtTimeUtc | monitor.py:125 | a match at a position is a well-formed span starting there |
| Patterns.Match | src/scrapers/binance_scraper.py:137-139 | whichever the pattern, a match is a well-formed span starting at the position |
| Patterns.SearchNone | src/scrapers/binance_scraper.py:67-72 | `re.search` fails exactly when the pattern matches nowhere from the start position on |
| Patterns.SearchNoneFrom | src/scrapers/binance_scraper.py:67-72 | the search fails exactly when no match exists from the position on |
| Patterns.SearchLeftmost | src/scrapers/binance_scraper.py:67-74 | a successful search returns the group of the leftmost match |
| Patterns.NoMatchInside | src/coinmarketcal_client.py:177 | the word, `$` and parenthesised patterns cannot match inside one of their own matches |
| Patterns.FindAllSpec | src/coinmarketcal_client.py:177 | for those patterns, `re.findall` returns exactly the groups of all the places the pattern matches |
| Patterns.FindAllMatches | src/coinmarketcal_client.py:177 | a string is found exactly when the pattern captures it somewhere from the position on |
| Patterns.GroupShape | src/coinmarketcal_client.py:170-172 | a capitals pattern captures `lo` to `hi` capitals; the case-insensitive verb pattern `lo` to `hi` letters |
| Patterns.ListNameGroupShape | src/scrapers/binance_scraper.py:109 | the name group holds no `(` |
| Patterns.ListNameGroupAt | src/scrapers/binance_scraper.py:109-111 | a match of `list\s+([^(]+)\s*\(` at `i` has "list" there, whitespace after it and a `(` later, and its group, stripped, is the stripped text from after "list" up to the first `(` |
| Patterns.FindAllShape | src/coinmarketcal_client.py:177 | every string `re.findall` returns for a capitals pattern is `lo` to `hi` capitals |
| Patterns.AllMatchesMember | src/coinmarketcal_client.py:176-178 | a string is among the collected matches exactly when one of the patterns finds it |
| Patterns.AllMatchesUpper | src/coinmarketcal_client.py:176-178 | every match collected from capitals patterns is all capitals |
| Patterns.FirstMatchingSpec | src/scrapers/binance_scraper.py:142-147 | nothing is found exactly when every pattern fails; otherwise the result is the match of the first pattern in list order that succeeds |
| Patterns.SearchInOrder | src/scrapers/binance_scraper.py:142-147 | the loop trying the patterns in order and stopping at the first hit gives that first match |
| Patterns.FirstMatchingAt | monitor.py:128-131 | when pattern `k` matches and none before it does, its match is the result |

## Left out

- HTTP requests, BeautifulSoup, feedparser and JSON decoding are not modelled: every fetched page or feed is a parameter, already parsed into what the source iterates over (the links of a page, the articles or items of a blog, the entries of a JSON feed, the text of each upcoming section). A request that fails or raises is `None` (or `Failed` for Bybit), and the scraper then returns nothing, as its `except` does.
- The announcement pages a scraper fetches per listing (Binance scraper, Binance bot) are a map from URL to page text; a URL missing from the map is a failed fetch.
- The Telegram client, `asyncio`, `time.sleep` and all logging are not modelled; the channel is an object that records each send and refuses a fixed set of texts.
- TelegramBot.WrapperOutcome: takes one behaviour of `asyncio` as given rather than deriving it, namely that `run_until_complete` raises `RuntimeError` when called while another event loop is running in the same thread; that case is the recursion's base case.
- Reading and writing the JSON cache files is the `Store` object: a missing or unreadable file is `None`, and a failed write is not modelled.
- The clock (`datetime.now`, `strftime`) is the `now` parameter, and `dateutil.parser.parse` followed by `strftime` is the `reformat` parameter, which returns `None` where the parser raises.
- `os.getenv` and the constructors' credential checks, the request headers, `days_ahead` and the `page`/`max` request parameters are not modelled: they shape the request, not what is done with the response.
- Text is ASCII: `lower`, `upper`, `\s`, `\b` and `strip` follow Python on ASCII characters only, and the regular expressions are the fixed ones the sources use, each written out as its own scanner rather than a general regular-expression engine.
- CoinbaseScraper.ExtractTokensFromTitle: lists the tokens by first occurrence, while the source's `list(set(...))` gives an order Python does not specify; the set of tokens and the absence of repeats are the same.
- Patterns.MatchWord: its contract states only that a match is a well-formed span at the scan position; what the pattern accepts is in its body, and its consequences are stated by Patterns.GroupShape, Patterns.SearchLeftmost and Patterns.FindAllSpec.
- Patterns.MatchDollar: as for Patterns.MatchWord.
- Patterns.MatchParen: as for Patterns.MatchWord.
- Patterns.MatchRun: as for Patterns.MatchWord.
- Patterns.MatchListVerb: as for Patterns.MatchWord.
- Patterns.MatchListName: as for Patterns.MatchWord; Patterns.ListNameGroupShape states the shape of its group.
- Patterns.MatchDateTime: as for Patterns.MatchWord; the date is used as found.
- Patterns.MatchSlashDate: as for Patterns.MatchWord.
- Patterns.MatchWillListOn: as for Patterns.MatchWord.
- Patterns.MatchTimeParenUtc: as for Patterns.MatchWord.
- Patterns.MatchAtTimeUtc: as for Patterns.MatchWord.
- Patterns.Match: as for Patterns.MatchWord.
- Exceptions raised inside the parsing code (a `None` `href`, a field of the wrong type) are not modelled: the model's inputs have the types the code expects.
- The Telegram message's `pairs` field is always a list here; the source's branch for a `pairs` value that is not a list is not modelled.
- TelegramBot.SimpleMessage shows the link whenever the listing has a URL; a listing whose `url` key is present but `None`, which the source prints as "None", does not arise from the CoinMarketCal client.
- The monitor (`src/monitor.py`) sends through the corrected `TelegramBot.SendListingAlert`; as written, every send raises (see Findings), and the monitor logs the error and goes on, so nothing would ever be delivered.

## Findings

| source | as written | input that shows it | evidently intended | confidence | as-written member | corrected member |
|---|---|---|---|---|---|---|
| src/scrapers/coinbase_scraper.py:58-60 | `parse_listing_announcement` returns a list for a title with several tokens, and `check_blog_announcements` appends that list as one element | a listing article whose heading is "New listing: FOO and BAR" | every record is added to the result on its own (`extend` for a list) | not executed | CoinbaseScraper.MultiTokenArticleNests | CoinbaseScraper.BlogRecordsSpec |
| src/telegram_bot.py:111-123 | the synchronous `send_listing_alert` at line 111 replaces the asynchronous one at line 80; it runs `send_listing_alert_async`, which calls `send_listing_alert` again, now inside a running event loop, so the call raises and no message is sent | any listing passed to `send_listing_alert` from `src/monitor.py` | the wrapper runs the asynchronous send, which sends the formatted alert and falls back to the plain text | not executed | TelegramBot.WrapperNeverSends | TelegramBot.SendListingAlert |
