/** The CoinMarketCal listing monitor: fetch the upcoming priority listings, keep the
    confident ones, alert on those whose key the cache does not hold, and replace the
    cache with the keys of this run. */
module Monitor {
  import opened Wrappers
  import opened Text
  import opened Seqs
  import opened Records
  import opened Delivery
  import opened Cycle
  import opened CoinMarketCal
  import opened TelegramBot

  /** `exchange_token_date`, with `unknown` for a listing without a date: the key opens
      with the exchange and closes with the date. */
  function GetListingKey(l: Listing): (key: string)
    ensures l.exchange + "_" <= key
    ensures var tail := "_" + l.date.GetOr("unknown");
            |tail| <= |key| && key[|key| - |tail|..] == tail
  {
    l.exchange + "_" + l.token + "_" + l.date.GetOr("unknown")
  }

  /** The key reads only the exchange, the token and the date. */
  lemma KeyIgnoresOtherFields(a: Listing, b: Listing)
    requires a.exchange == b.exchange && a.token == b.token && a.date.GetOr("unknown") == b.date.GetOr("unknown")
    ensures GetListingKey(a) == GetListingKey(b)
  {
  }

  /** When neither the exchange nor the token holds an underscore, the key gives back all
      three parts, so two listings share a key only when they agree on them. */
  lemma {:induction false} KeyDeterminesFields(a: Listing, b: Listing)
    requires '_' !in a.exchange && '_' !in a.token
    requires '_' !in b.exchange && '_' !in b.token
    requires GetListingKey(a) == GetListingKey(b)
    ensures a.exchange == b.exchange && a.token == b.token
    ensures a.date.GetOr("unknown") == b.date.GetOr("unknown")
  {
    KeySplits(a);
    KeySplits(b);
  }

  lemma KeySplits(l: Listing)
    requires '_' !in l.exchange && '_' !in l.token
    ensures Before(GetListingKey(l), '_') == l.exchange
    ensures Before(After(GetListingKey(l), '_'), '_') == l.token
    ensures After(After(GetListingKey(l), '_'), '_') == l.date.GetOr("unknown")
  {
    var rest := l.token + ['_'] + l.date.GetOr("unknown");
    assert GetListingKey(l) == l.exchange + ['_'] + rest;
    SplitJoined(l.exchange, rest, '_');
    SplitJoined(l.token, l.date.GetOr("unknown"), '_');
  }

  /** The confidence test: at least 60 (a missing confidence counts as 0), or one of the
      two highest-priority exchanges. */
  function Accepted(l: Listing): (ok: bool)
    ensures l.exchange == "binance" || l.exchange == "coinbase" ==> ok
    ensures l.exchange != "binance" && l.exchange != "coinbase" ==>
              (ok <==> l.confidence.Some? && l.confidence.value >= 60)
  {
    l.confidence.GetOr(0) >= 60 || l.exchange in ["binance", "coinbase"]
  }

  /** `filter_high_confidence_listings`. */
  method FilterHighConfidenceListings(listings: seq<Listing>) returns (filtered: seq<Listing>)
    ensures filtered == Filter(listings, Accepted)
  {
    filtered := [];
    for k := 0 to |listings|
      invariant filtered == Filter(listings[..k], Accepted)
    {
      PrefixSnoc(listings, k);
      FilterSnoc(listings[..k], listings[k], Accepted);
      if Accepted(listings[k]) {
        filtered := filtered + [listings[k]];
      }
    }
    assert listings[..|listings|] == listings;
  }

  /** The filter keeps exactly the accepted listings, in their order. */
  lemma FilterHighConfidenceSpec(listings: seq<Listing>, l: Listing)
    ensures l in Filter(listings, Accepted) <==> l in listings && Accepted(l)
    ensures IsSubseq(Filter(listings, Accepted), listings)
  {
    FilterIsSubseq(listings, Accepted);
  }

  /** A listing with confidence below 60 from any exchange other than Binance and
      Coinbase is dropped; a Binance or Coinbase one never is. */
  lemma FilterBounds(listings: seq<Listing>, l: Listing)
    requires l in listings
    ensures l.confidence.GetOr(0) < 60 && l.exchange != "binance" && l.exchange != "coinbase" ==>
              l !in Filter(listings, Accepted)
    ensures l.exchange == "binance" || l.exchange == "coinbase" ==> l in Filter(listings, Accepted)
  {
  }

  /** All the sends of alerting each listing in turn. */
  function SendLog(ls: seq<Listing>, failsOn: set<string>): seq<string> {
    if ls == [] then [] else SendLog(ls[..|ls| - 1], failsOn) + AttemptsFor(ls[|ls| - 1], failsOn)
  }

  /** All the texts that reach the channel when alerting each listing in turn. */
  function DeliveryLog(ls: seq<Listing>, failsOn: set<string>): seq<string> {
    if ls == [] then [] else DeliveryLog(ls[..|ls| - 1], failsOn) + DeliveredFor(ls[|ls| - 1], failsOn)
  }

  lemma LogsSnoc(ls: seq<Listing>, l: Listing, failsOn: set<string>)
    ensures SendLog(ls + [l], failsOn) == SendLog(ls, failsOn) + AttemptsFor(l, failsOn)
    ensures DeliveryLog(ls + [l], failsOn) == DeliveryLog(ls, failsOn) + DeliveredFor(l, failsOn)
  {
    assert (ls + [l])[..|ls|] == ls;
  }

  /** Every listing alerted on tries its formatted alert first: the log holds as many
      formatted alerts as there are listings, and one or two sends go out per listing. */
  lemma {:induction false} SendLogBounds(ls: seq<Listing>, failsOn: set<string>)
    ensures |ls| <= |SendLog(ls, failsOn)| <= 2 * |ls|
    ensures forall l :: l in ls ==> AlertMessage(l) in SendLog(ls, failsOn)
  {
    if ls != [] {
      SendLogBounds(ls[..|ls| - 1], failsOn);
      var last := ls[|ls| - 1];
      assert AlertMessage(last) == AttemptsFor(last, failsOn)[0];
      forall l | l in ls
        ensures AlertMessage(l) in SendLog(ls, failsOn)
      {
        if l != last {
          assert l in ls[..|ls| - 1];
        }
      }
    }
  }

  /** The listings this run alerts on when the cache holds `previous`: the confident
      upcoming listings whose key is not cached, in order. */
  function NewListings(upcoming: seq<Listing>, previous: set<string>): seq<Listing> {
    Unseen(Filter(upcoming, Accepted), GetListingKey, previous)
  }

  /** The cache this run writes: the confident upcoming listings by key, last one wins. */
  function AllListings(upcoming: seq<Listing>): map<string, Listing> {
    IndexBy(Filter(upcoming, Accepted), GetListingKey)
  }

  /** The map the run writes holds every confident listing's key, and nothing else. */
  lemma AllListingsKeys(upcoming: seq<Listing>, key: string)
    ensures key in AllListings(upcoming) <==>
              exists l :: l in upcoming && Accepted(l) && GetListingKey(l) == key
  {
    var high := Filter(upcoming, Accepted);
    if key in AllListings(upcoming) {
      var i :| 0 <= i < |high| && GetListingKey(high[i]) == key;
      assert high[i] in high;
    } else {
      forall l | l in upcoming && Accepted(l)
        ensures GetListingKey(l) != key
      {
        assert l in high;
        var i :| 0 <= i < |high| && high[i] == l;
      }
    }
  }

  /** A confident listing whose key the cache holds is never alerted on again, and one
      whose key it does not hold always is. */
  lemma NewListingsSpec(upcoming: seq<Listing>, previous: set<string>, l: Listing)
    ensures l in NewListings(upcoming, previous) <==>
              l in upcoming && Accepted(l) && GetListingKey(l) !in previous
  {
  }

  class ListingMonitor {
    const cache: Store<Listing>
    const bot: AlertSink<string>
    const previousListings: map<string, Listing>

    /** `__init__` reads the cache once. */
    constructor (cache: Store<Listing>, bot: AlertSink<string>)
      ensures this.cache == cache && this.bot == bot
      ensures previousListings == if cache.snapshot.Some? then cache.snapshot.value else map[]
    {
      this.cache := cache;
      this.bot := bot;
      var loaded := cache.Load();
      previousListings := loaded;
    }

    /** `is_new_listing`: the listing is new exactly when the run would pick it on its own. */
    predicate IsNewListing(l: Listing)
      ensures IsNewListing(l) <==> Unseen([l], GetListingKey, previousListings.Keys) == [l]
    {
      assert Filter([] + [l], NotSeen(GetListingKey, previousListings.Keys)) ==
             Filter([], NotSeen(GetListingKey, previousListings.Keys)) +
             (if NotSeen(GetListingKey, previousListings.Keys)(l) then [l] else []) by {
        FilterSnoc([], l, NotSeen(GetListingKey, previousListings.Keys));
      }
      assert [] + [l] == [l];
      GetListingKey(l) !in previousListings
    }

    /** `run`: an empty upcoming list ends the run with nothing sent and the cache left
        alone; otherwise every new confident listing is alerted on, one at a time, and the
        cache is replaced by the keys of all confident listings of this run. */
    method Run(response: Option<seq<Event>>, reformat: string -> Option<string>, now: string)
      modifies cache, bot
      ensures var upcoming := UpcomingListings(response, reformat, now);
              if upcoming == [] then
                bot.attempts == old(bot.attempts) && bot.delivered == old(bot.delivered) &&
                cache.snapshot == old(cache.snapshot)
              else
                var alerted := NewListings(upcoming, previousListings.Keys);
                bot.attempts == old(bot.attempts) + SendLog(alerted, bot.failsOn) &&
                bot.delivered == old(bot.delivered) + DeliveryLog(alerted, bot.failsOn) &&
                cache.snapshot == Some(AllListings(upcoming))
    {
      var upcoming := GetUpcomingListings(response, reformat, now);
      if upcoming == [] {
        return;
      }
      var high := FilterHighConfidenceListings(upcoming);
      var newListings, allListings := Classify(high);
      SendAlerts(newListings, bot);
      cache.Save(allListings);
    }

    /** The first loop of `run`: record every listing under its key, and pick those whose
        key the cache does not hold. */
    method Classify(high: seq<Listing>)
      returns (newListings: seq<Listing>, allListings: map<string, Listing>)
      ensures newListings == Unseen(high, GetListingKey, previousListings.Keys)
      ensures allListings == IndexBy(high, GetListingKey)
    {
      newListings := [];
      allListings := map[];
      for k := 0 to |high|
        invariant allListings == IndexBy(high[..k], GetListingKey)
        invariant newListings == Unseen(high[..k], GetListingKey, previousListings.Keys)
      {
        PrefixSnoc(high, k);
        FilterSnoc(high[..k], high[k], NotSeen(GetListingKey, previousListings.Keys));
        IndexBySnoc(high[..k], high[k], GetListingKey);
        var key := GetListingKey(high[k]);
        allListings := allListings[key := high[k]];
        if IsNewListing(high[k]) {
          newListings := newListings + [high[k]];
        }
      }
      assert high[..|high|] == high;
    }
  }

  /** The second loop of `run`: alert on each new listing in turn; a failed send is
      logged and the loop goes on. */
  method SendAlerts(newListings: seq<Listing>, bot: AlertSink<string>)
    modifies bot
    ensures bot.attempts == old(bot.attempts) + SendLog(newListings, bot.failsOn)
    ensures bot.delivered == old(bot.delivered) + DeliveryLog(newListings, bot.failsOn)
  {
    ghost var attempts, delivered := bot.attempts, bot.delivered;
    ghost var done: seq<Listing> := [];
    for i := 0 to |newListings|
      invariant done == newListings[..i]
      invariant bot.attempts == attempts + SendLog(done, bot.failsOn)
      invariant bot.delivered == delivered + DeliveryLog(done, bot.failsOn)
    {
      PrefixSnoc(newListings, i);
      SendOne(done, newListings[i], bot, attempts, delivered);
      done := done + [newListings[i]];
    }
    assert done == newListings;
  }

  /** One turn of the second loop of `run`: `done` have been alerted on, `l` is next. */
  method SendOne(ghost done: seq<Listing>, l: Listing, bot: AlertSink<string>,
                 ghost attempts: seq<string>, ghost delivered: seq<string>)
    requires bot.attempts == attempts + SendLog(done, bot.failsOn)
    requires bot.delivered == delivered + DeliveryLog(done, bot.failsOn)
    modifies bot
    ensures bot.attempts == attempts + SendLog(done + [l], bot.failsOn)
    ensures bot.delivered == delivered + DeliveryLog(done + [l], bot.failsOn)
  {
    LogsSnoc(done, l, bot.failsOn);
    var _ := SendListingAlert(l, bot);
    AppendAssoc(attempts, SendLog(done, bot.failsOn), AttemptsFor(l, bot.failsOn));
    AppendAssoc(delivered, DeliveryLog(done, bot.failsOn), DeliveredFor(l, bot.failsOn));
  }

  /** Two runs on the same feed, the second by a monitor started from the cache the first
      one wrote: the second run sends nothing. */
  method RunTwice(cache: Store<Listing>, bot: AlertSink<string>,
                  response: Option<seq<Event>>, reformat: string -> Option<string>, now: string)
    modifies cache, bot
    ensures var upcoming := UpcomingListings(response, reformat, now);
            var alerted := NewListings(upcoming, (if old(cache.snapshot).Some? then old(cache.snapshot).value else map[]).Keys);
            bot.attempts == old(bot.attempts) + (if upcoming == [] then [] else SendLog(alerted, bot.failsOn))
  {
    var first := new ListingMonitor(cache, bot);
    first.Run(response, reformat, now);
    ghost var afterFirst := bot.attempts;
    var second := new ListingMonitor(cache, bot);
    second.Run(response, reformat, now);
    var upcoming := UpcomingListings(response, reformat, now);
    if upcoming != [] {
      RerunPicksNothing(Filter(upcoming, Accepted), GetListingKey);
      assert SendLog([], bot.failsOn) == [];
    }
  }
}
