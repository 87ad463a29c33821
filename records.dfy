/** The listing records the client and the scrapers build, and the trading-pair test they
    share: `token/quote` is kept when it is written in the upper-cased text. */
module Records {
  import opened Wrappers
  import opened Text
  import opened Seqs

  /** A listing as the CoinMarketCal client builds it and as the monitor and the Telegram
      bot read it. The fields those readers look up with a default (`date`, `url`,
      `confidence`, `timestamp`) are optional. */
  datatype Listing = Listing(
    token: string,
    name: Option<string>,
    exchange: string,
    date: Option<string>,
    pairs: seq<string>,
    url: Option<string>,
    title: string,
    description: string,
    confidence: Option<int>,
    timestamp: Option<string>,
    source: string)

  /** A listing as one of the exchange scrapers builds it. `url` is absent only where a
      Coinbase article carries no link. */
  datatype ScrapedListing = ScrapedListing(
    token: string,
    name: Option<string>,
    date: Option<string>,
    pairs: seq<string>,
    url: Option<string>,
    timestamp: string,
    title: string)

  function PairName(token: string, quote: string): string { token + "/" + quote }

  /** `token/quote` for every quote, in quote order. */
  function PairsOf(token: string, quotes: seq<string>): (r: seq<string>)
    ensures |r| == |quotes|
    ensures forall k :: 0 <= k < |quotes| ==> r[k] == PairName(token, quotes[k])
  {
    if quotes == [] then [] else PairsOf(token, quotes[..|quotes| - 1]) + [PairName(token, quotes[|quotes| - 1])]
  }

  /** The test `pair in text.upper()`. */
  function WrittenIn(text: string): string -> bool {
    pair => Contains(Upper(text), pair)
  }

  /** The pairs `token/quote` that the upper-cased text contains, in quote order. */
  function PairsIn(text: string, token: string, quotes: seq<string>): seq<string> {
    Filter(PairsOf(token, quotes), WrittenIn(text))
  }

  /** A pair is selected exactly when it is `token/quote` for a listed quote and the
      upper-cased text contains it; the selection keeps quote order. */
  lemma PairsInSpec(text: string, token: string, quotes: seq<string>, pair: string)
    ensures pair in PairsIn(text, token, quotes) <==>
            (exists k :: 0 <= k < |quotes| && pair == PairName(token, quotes[k])) && Contains(Upper(text), pair)
    ensures IsSubseq(PairsIn(text, token, quotes), PairsOf(token, quotes))
  {
    FilterIsSubseq(PairsOf(token, quotes), WrittenIn(text));
    if pair in PairsOf(token, quotes) {
      var k :| 0 <= k < |quotes| && PairsOf(token, quotes)[k] == pair;
    }
  }

  /** The append loop over the quote list. */
  method CollectPairs(text: string, token: string, quotes: seq<string>) returns (pairs: seq<string>)
    ensures pairs == PairsIn(text, token, quotes)
  {
    var upper := Upper(text);
    pairs := [];
    for k := 0 to |quotes|
      invariant pairs == PairsIn(text, token, quotes[..k])
    {
      var pair := PairName(token, quotes[k]);
      assert quotes[..k + 1][..k] == quotes[..k];
      assert PairsOf(token, quotes[..k + 1]) == PairsOf(token, quotes[..k]) + [pair];
      assert (PairsOf(token, quotes[..k]) + [pair])[..k] == PairsOf(token, quotes[..k]);
      if Contains(upper, pair) {
        pairs := pairs + [pair];
      }
    }
    assert quotes[..|quotes|] == quotes;
  }

  /** A quote that begins another one is found whenever the longer one is: text naming
      `T/USDT` also yields `T/USD`. */
  lemma {:induction false} ShorterQuoteFound(text: string, token: string, long: string, short: string)
    requires short <= long
    requires Contains(Upper(text), PairName(token, long))
    ensures Contains(Upper(text), PairName(token, short))
  {
    var u := Upper(text);
    var i :| 0 <= i <= |u| && PairName(token, long) <= u[i..];
    assert PairName(token, short) <= PairName(token, long);
  }
}
