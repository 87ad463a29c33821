/** The CoinMarketCal client: which events are exchange listings, how a listing is read out
    of an event, the exchange priority table, and the filtered, priority-sorted result. */
module CoinMarketCal {
  import opened Wrappers
  import opened Text
  import opened Seqs
  import opened Patterns
  import opened Records
  import opened Sorting

  datatype Coin = Coin(name: Option<string>)

  /** An event of the `/events` response. A missing `title`, `description` or `id` reads
      as "", as the client's `.get(key, '')` does. */
  datatype Event = Event(
    id: string,
    title: string,
    description: string,
    dateEvent: Option<string>,
    coins: seq<Coin>,
    percentage: Option<int>)

  /** A row of the priority table; the default row has no priority. */
  datatype ExchangeInfo = ExchangeInfo(priority: Option<int>, emoji: string, impact: string)

  const PriorityExchanges: map<string, ExchangeInfo> := map[
    "binance" := ExchangeInfo(Some(1), "\U{1F525}", "41% avg price increase"),
    "coinbase" := ExchangeInfo(Some(2), "\U{1F3DB}\U{FE0F}", "91% avg in first 5 days"),
    "coinbase pro" := ExchangeInfo(Some(2), "\U{1F3DB}\U{FE0F}", "91% avg in first 5 days"),
    "bybit" := ExchangeInfo(Some(3), "\U{26A1}", "High volume derivatives"),
    "kraken" := ExchangeInfo(Some(4), "\U{1F4C8}", "Regulated EU exchange")
  ]

  const DefaultInfo := ExchangeInfo(None, "\U{1F4CA}", "Exchange listing")
  const DefaultPriority := 999

  const ListingKeywords: seq<string> := [
    "listing", "will list", "lists", "trading pair", "available for trading",
    "spot trading", "perpetual", "futures"
  ]

  /** Longer names first, so that "coinbase pro" wins over "coinbase". */
  const ExchangeNames: seq<string> := [
    "coinbase pro", "coinbase", "binance", "bybit", "kraken",
    "kucoin", "huobi", "okx", "gate.io", "bitget", "mexc"
  ]

  const TokenPatterns: seq<Pattern> := [Word(2, 8), Dollar(2, 8), Paren(2, 8)]

  const FalsePositives: set<string> := {
    "USD", "EUR", "GBP", "BTC", "ETH", "USDT", "USDC",
    "API", "NEW", "THE", "AND", "FOR", "UTC", "GMT"
  }

  const QuoteCurrencies: seq<string> := ["USDT", "USDC", "BTC", "ETH", "BNB", "USD", "EUR"]

  const EventUrlPrefix := "https://coinmarketcal.com/en/event/"

  /** `f"{title} {description}"` with both parts lower-cased. */
  function ListingText(e: Event): string { Lower(e.title) + " " + Lower(e.description) }

  function IsExchangeListing(e: Event): (r: bool)
    ensures r <==> exists k :: 0 <= k < |ListingKeywords| && Contains(ListingText(e), ListingKeywords[k])
  {
    AnyKeyword(ListingText(e), ListingKeywords)
  }

  // ---------------------------------------------------------------- exchange name

  function ExchangeName(text: string): Option<string> {
    FirstContained(Lower(text), ExchangeNames)
  }

  /** The loop over the exchange names, returning at the first one the lower-cased text
      contains. */
  method ExtractExchangeName(text: string) returns (r: Option<string>)
    ensures r == ExchangeName(text)
    ensures r.None? <==> forall k :: 0 <= k < |ExchangeNames| ==> !Contains(Lower(text), ExchangeNames[k])
  {
    var lower := Lower(text);
    for k := 0 to |ExchangeNames|
      invariant forall j :: 0 <= j < k ==> !Contains(lower, ExchangeNames[j])
    {
      if Contains(lower, ExchangeNames[k]) {
        FirstContainedAt(lower, ExchangeNames, k);
        return Some(ExchangeNames[k]);
      }
    }
    return None;
  }

  lemma {:induction false} FirstContainedAt(text: string, names: seq<string>, k: nat)
    requires k < |names| && Contains(text, names[k])
    requires forall j :: 0 <= j < k ==> !Contains(text, names[j])
    ensures FirstContained(text, names) == Some(names[k])
  {
    if k > 0 {
      FirstContainedAt(text, names[1..], k - 1);
    }
  }

  /** "coinbase pro" is reported as itself, never as "coinbase". */
  lemma CoinbaseProFirst(text: string)
    requires Contains(Lower(text), "coinbase pro")
    ensures ExchangeName(text) == Some("coinbase pro")
  {
    FirstContainedAt(Lower(text), ExchangeNames, 0);
  }

  // ---------------------------------------------------------------- tokens

  predicate ValidToken(t: string) { 2 <= |t| <= 6 && t !in FalsePositives }

  /** `list(dict.fromkeys(valid))` over the bare, `$` and parenthesised matches, in that
      order. */
  function Tokens(text: string): (tokens: seq<string>)
    ensures forall t :: t in tokens <==> t in AllMatches(TokenPatterns, text) && ValidToken(t)
  {
    Dedup(Filter(AllMatches(TokenPatterns, text), ValidToken))
  }

  method ExtractTokens(text: string) returns (tokens: seq<string>)
    ensures tokens == Tokens(text)
  {
    var found: seq<string> := [];
    for k := 0 to |TokenPatterns|
      invariant found == AllMatches(TokenPatterns[..k], text)
    {
      PrefixSnoc(TokenPatterns, k);
      FlatMapSnoc(TokenPatterns[..k], TokenPatterns[k], FindAllIn(text));
      found := found + FindAll(TokenPatterns[k], text, 0);
    }
    assert TokenPatterns[..|TokenPatterns|] == TokenPatterns;
    var valid: seq<string> := [];
    for k := 0 to |found|
      invariant valid == Filter(found[..k], ValidToken)
    {
      PrefixSnoc(found, k);
      FilterSnoc(found[..k], found[k], ValidToken);
      if ValidToken(found[k]) {
        valid := valid + [found[k]];
      }
    }
    assert found[..|found|] == found;
    tokens := Dedup(valid);
  }

  /** Every token is 2 to 6 capitals, none is a false positive, and none repeats. */
  lemma TokensWellFormed(text: string)
    ensures forall t :: t in Tokens(text) ==> IsSymbol(t, 2, 6) && t !in FalsePositives
    ensures NoDup(Tokens(text))
  {
    forall t | t in Tokens(text) ensures IsSymbol(t, 2, 6) && t !in FalsePositives {
      AllMatchesUpper(TokenPatterns, text, t);
    }
  }

  /** No valid token is missed: a whole word of 2 to 6 capitals that is not a false
      positive is among the tokens. */
  lemma TokenFound(text: string, j: nat)
    requires j < |text| && Match(Word(2, 8), text, j).Some?
    requires ValidToken(Group(text, Match(Word(2, 8), text, j).value))
    ensures Group(text, Match(Word(2, 8), text, j).value) in Tokens(text)
  {
    var t := Group(text, Match(Word(2, 8), text, j).value);
    FindAllSpec(Word(2, 8), text, 0, t);
    assert t in FindAll(TokenPatterns[0], text, 0);
    AllMatchesMember(TokenPatterns, text, t);
    var found := AllMatches(TokenPatterns, text);
    assert t in Filter(found, ValidToken);
  }

  // ---------------------------------------------------------------- trading pairs

  /** The pairs found in the text, or `[T/USDT, T/BTC]` when there are none. */
  function TradingPairs(text: string, token: string): (pairs: seq<string>)
    ensures pairs != []
    ensures forall p :: p in pairs ==> token + "/" <= p
  {
    var found := PairsIn(text, token, QuoteCurrencies);
    if found == [] then [PairName(token, "USDT"), PairName(token, "BTC")] else found
  }

  method ExtractTradingPairs(text: string, token: string) returns (pairs: seq<string>)
    ensures pairs == TradingPairs(text, token)
  {
    pairs := CollectPairs(text, token, QuoteCurrencies);
    if pairs == [] {
      pairs := [PairName(token, "USDT"), PairName(token, "BTC")];
    }
  }

  /** The pair list is never empty: it is the pairs written in the text, in quote order,
      or else exactly the two defaults. */
  lemma TradingPairsSpec(text: string, token: string, pair: string)
    ensures TradingPairs(text, token) != []
    ensures PairsIn(text, token, QuoteCurrencies) != [] ==>
              (pair in TradingPairs(text, token) <==>
                 (exists k :: 0 <= k < |QuoteCurrencies| && pair == PairName(token, QuoteCurrencies[k])) &&
                 Contains(Upper(text), pair))
    ensures PairsIn(text, token, QuoteCurrencies) == [] ==>
              TradingPairs(text, token) == [PairName(token, "USDT"), PairName(token, "BTC")]
  {
    PairsInSpec(text, token, QuoteCurrencies, pair);
  }

  /** A text naming `T/USDT` always also yields `T/USD`, since the test is a substring
      test. */
  lemma UsdtAlsoGivesUsd(text: string, token: string)
    requires Contains(Upper(text), PairName(token, "USDT"))
    ensures PairName(token, "USD") in TradingPairs(text, token)
    ensures PairName(token, "USDT") in TradingPairs(text, token)
  {
    ShorterQuoteFound(text, token, "USDT", "USD");
    PairsInSpec(text, token, QuoteCurrencies, PairName(token, "USD"));
    PairsInSpec(text, token, QuoteCurrencies, PairName(token, "USDT"));
    assert PairName(token, "USD") == PairName(token, QuoteCurrencies[5]);
    assert PairName(token, "USDT") == PairName(token, QuoteCurrencies[0]);
  }

  // ---------------------------------------------------------------- parsing an event

  /** The tokens of the title, or those of the description when the title has none. */
  function EventTokens(e: Event): seq<string> {
    if Tokens(e.title) != [] then Tokens(e.title) else Tokens(e.description)
  }

  /** `date_event` reformatted by `reformat` (the date parser, `None` when it cannot parse
      the text, in which case the raw text is kept), or "TBA" when it is absent or empty. */
  function FormattedDate(dateEvent: Option<string>, reformat: string -> Option<string>): string {
    if Truthy(dateEvent) then reformat(dateEvent.value).GetOr(dateEvent.value) else "TBA"
  }

  /** `_parse_listing_event`: a listing is read from an event exactly when a token (from
      the title, else from the description) and an exchange name are found. */
  function ParseListingEvent(e: Event, reformat: string -> Option<string>, now: string): (r: Option<Listing>)
    ensures r.None? <==> EventTokens(e) == [] || ExchangeName(e.title + " " + e.description).None?
  {
    var text := e.title + " " + e.description;
    var exchange := ExchangeName(text);
    var tokens := EventTokens(e);
    if tokens == [] || exchange.None? then None
    else
      var token := tokens[0];
      Some(Listing(
        token := token,
        name := if |e.coins| > 0 then e.coins[0].name else None,
        exchange := Lower(exchange.value),
        date := Some(FormattedDate(e.dateEvent, reformat)),
        pairs := TradingPairs(text, token),
        url := Some(EventUrlPrefix + e.id),
        title := e.title,
        description := e.description,
        confidence := Some(e.percentage.GetOr(0)),
        timestamp := Some(now),
        source := "CoinMarketCal"))
  }

  /** The fields of a listing read from an event follow the client's rules. */
  lemma ParseListingEventSpec(e: Event, reformat: string -> Option<string>, now: string)
    ensures ParseListingEvent(e, reformat, now).Some? ==>
      var l := ParseListingEvent(e, reformat, now).value;
      l.token == EventTokens(e)[0] &&
      (Tokens(e.title) == [] ==> l.token in Tokens(e.description)) &&
      IsSymbol(l.token, 2, 6) && l.token !in FalsePositives &&
      l.exchange in ExchangeNames &&
      l.exchange == Lower(ExchangeName(e.title + " " + e.description).value) &&
      (!Truthy(e.dateEvent) ==> l.date == Some("TBA")) &&
      (Truthy(e.dateEvent) ==> l.date == Some(reformat(e.dateEvent.value).GetOr(e.dateEvent.value))) &&
      (|e.coins| > 0 ==> l.name == e.coins[0].name) && (e.coins == [] ==> l.name.None?) &&
      l.pairs == TradingPairs(e.title + " " + e.description, l.token) && l.pairs != [] &&
      l.url == Some(EventUrlPrefix + e.id) &&
      l.title == e.title && l.description == e.description &&
      (e.percentage.None? ==> l.confidence == Some(0)) &&
      (e.percentage.Some? ==> l.confidence == e.percentage) &&
      l.timestamp == Some(now) && l.source == "CoinMarketCal"
  {
    var text := e.title + " " + e.description;
    var exchange := ExchangeName(text);
    if EventTokens(e) != [] && exchange.Some? {
      TokensWellFormed(e.title);
      TokensWellFormed(e.description);
      TradingPairsSpec(text, EventTokens(e)[0], "");
      LowerOfLowercaseName(exchange.value);
    }
  }
  /** Every exchange name is already lower case. */
  lemma LowerOfLowercaseName(name: string)
    requires name in ExchangeNames
    ensures Lower(name) == name
  {
    assert NoUpper(name);
    LowerOfNoUpper(name);
  }

  // ---------------------------------------------------------------- priorities

  /** `is_priority_exchange`: the five exchanges of the table, in any letter case. */
  function IsPriorityExchange(exchange: string): (r: bool)
    ensures r <==> Lower(exchange) in ["binance", "coinbase", "coinbase pro", "bybit", "kraken"]
  {
    Lower(exchange) in PriorityExchanges
  }

  function GetExchangePriority(exchange: string): (p: int)
    ensures IsPriorityExchange(exchange) <==> p < DefaultPriority
    ensures !IsPriorityExchange(exchange) ==> p == DefaultPriority
    ensures IsPriorityExchange(exchange) ==> 1 <= p <= 4
  {
    if Lower(exchange) in PriorityExchanges then PriorityExchanges[Lower(exchange)].priority.GetOr(DefaultPriority)
    else DefaultPriority
  }

  function GetExchangeInfo(exchange: string): (info: ExchangeInfo)
    ensures IsPriorityExchange(exchange) ==> info == PriorityExchanges[Lower(exchange)]
    ensures IsPriorityExchange(exchange) ==> info.priority == Some(GetExchangePriority(exchange))
    ensures !IsPriorityExchange(exchange) ==> info == DefaultInfo && info.priority.None?
  {
    if Lower(exchange) in PriorityExchanges then PriorityExchanges[Lower(exchange)] else DefaultInfo
  }

  /** binance(1) < coinbase = coinbase pro(2) < ... */
  lemma PriorityOrderHead()
    ensures GetExchangePriority("binance") == 1
    ensures GetExchangePriority("coinbase") == 2
  {
    assert GetExchangePriority("binance") == 1 by { PriorityOfListed("binance"); }
    assert GetExchangePriority("coinbase") == 2 by { PriorityOfListed("coinbase"); }
  }

  /** ... "coinbase pro" ranks with "coinbase" ... */
  lemma PriorityOrderCoinbasePro()
    ensures GetExchangePriority("coinbase pro") == 2
  {
    PriorityOfListed("coinbase pro");
  }

  /** ... bybit(3) < kraken(4) < any other exchange(999). */
  lemma PriorityOrderTail(other: string)
    requires !IsPriorityExchange(other)
    ensures GetExchangePriority("bybit") == 3 && GetExchangePriority("kraken") == 4
    ensures GetExchangePriority("kraken") < GetExchangePriority(other)
  {
    assert GetExchangePriority("bybit") == 3 by { PriorityOfListed("bybit"); }
    assert GetExchangePriority("kraken") == 4 by { PriorityOfListed("kraken"); }
  }

  lemma PriorityOfListed(name: string)
    requires name in PriorityExchanges && NoUpper(name)
    ensures GetExchangePriority(name) == PriorityExchanges[name].priority.GetOr(DefaultPriority)
  {
    LowerOfNoUpper(name);
  }

  // ---------------------------------------------------------------- upcoming listings

  /** The listing's priority, the sort key of `get_upcoming_listings`. */
  function PriorityOf(l: Listing): int { GetExchangePriority(l.exchange) }

  /** What the loop over the events appends: the parsed listings of the listing events whose
      exchange is in the priority table, in event order. */
  function PriorityListings(events: seq<Event>, reformat: string -> Option<string>, now: string): seq<Listing> {
    FilterMap(events, PriorityListingFor(reformat, now))
  }

  /** The listing one event contributes: a listing event that parses, on a priority
      exchange. */
  function PriorityListing(e: Event, reformat: string -> Option<string>, now: string): Option<Listing> {
    var l := if IsExchangeListing(e) then ParseListingEvent(e, reformat, now) else None;
    if l.Some? && IsPriorityExchange(l.value.exchange) then l else None
  }

  function PriorityListingFor(reformat: string -> Option<string>, now: string): Event -> Option<Listing> {
    e => PriorityListing(e, reformat, now)
  }

  /** `response` is the decoded `body` of the events request, `None` when the request or
      the decoding fails (the client then returns nothing). */
  function UpcomingListings(response: Option<seq<Event>>, reformat: string -> Option<string>, now: string): seq<Listing> {
    if response.None? then [] else SortBy(PriorityListings(response.value, reformat, now), PriorityOf)
  }

  method GetUpcomingListings(response: Option<seq<Event>>, reformat: string -> Option<string>, now: string)
    returns (listings: seq<Listing>)
    ensures listings == UpcomingListings(response, reformat, now)
  {
    listings := [];
    if response.None? {
      return;
    }
    var events := response.value;
    for k := 0 to |events|
      invariant listings == PriorityListings(events[..k], reformat, now)
    {
      PrefixSnoc(events, k);
      FilterMapSnoc(events[..k], events[k], PriorityListingFor(reformat, now));
      var e := events[k];
      if IsExchangeListing(e) {
        var listing := ParseListingEvent(e, reformat, now);
        if listing.Some? && IsPriorityExchange(listing.value.exchange) {
          listings := listings + [listing.value];
        }
      }
    }
    assert events[..|events|] == events;
    listings := SortBy(listings, PriorityOf);
  }

  lemma PriorityListingsFrom(events: seq<Event>, reformat: string -> Option<string>, now: string, l: Listing)
    requires l in PriorityListings(events, reformat, now)
    ensures IsPriorityExchange(l.exchange)
    ensures exists k :: 0 <= k < |events| && IsExchangeListing(events[k]) && ParseListingEvent(events[k], reformat, now) == Some(l)
  {
    FilterMapSpec(events, PriorityListingFor(reformat, now), l);
  }

  /** The result holds only priority-exchange listings read from listing events, sorted by
      priority, as a stable permutation of what the loop collected. */
  lemma UpcomingListingsSpec(events: seq<Event>, reformat: string -> Option<string>, now: string, v: int)
    ensures var r := UpcomingListings(Some(events), reformat, now);
      SortedBy(r, PriorityOf) &&
      multiset(r) == multiset(PriorityListings(events, reformat, now)) &&
      WithKey(r, PriorityOf, v) == WithKey(PriorityListings(events, reformat, now), PriorityOf, v) &&
      forall l :: l in r ==>
        (IsPriorityExchange(l.exchange) && 1 <= PriorityOf(l) <= 4 &&
         exists k :: 0 <= k < |events| && ParseListingEvent(events[k], reformat, now) == Some(l))
  {
    var found := PriorityListings(events, reformat, now);
    var r := UpcomingListings(Some(events), reformat, now);
    SortBySorted(found, PriorityOf);
    SortByStable(found, PriorityOf, v);
    forall l | l in r
      ensures IsPriorityExchange(l.exchange) && 1 <= PriorityOf(l) <= 4 &&
              exists k :: 0 <= k < |events| && ParseListingEvent(events[k], reformat, now) == Some(l)
    {
      assert l in multiset(r);
      assert l in multiset(found);
      PriorityListingsFrom(events, reformat, now, l);
    }
  }
}
